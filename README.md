# Multiplayer server core: tile index, client lifecycle, list formatter

A Dafny model of the core of a small authoritative game server, written in Rust. The model has three parts, one module each:

- `TileGrid` (`tiles.dfy`) is the spatial index (`Tiles`). It is a fixed `y_max × x_max` grid of tiles, and each tile holds an ordered list of entity ids. The class `Tiles` keeps the grid as a field of nested sequences, which its methods reassign. Its methods cover construction, `add_entity`, `remove_entity`, `move_entity` and the radius query. Its inner loop (one row of the scanned square) is the method `ScanRow`. The query is proved equal to `RadiusScan`, a reference definition: the concatenation of the lists of the in-grid tiles of the Chebyshev square around the centre, in row-major order.
- `Server` (`server.dfy`) is the server handler (`ServerHandler`) without its socket and locks.
  - Its state is the client table (address → last-seen second), the entity registry (key → entity) and the tile grid.
  - Each state-changing method is proved against a function on `State` values (`Updated`, `Disconnected`, `Swept`, `Connected`).
  - `receive_events` is proved equal to `Run`, a fold of `Step` over the drained batch of events.
  - The lemmas state what the source promises: who is evicted, what disconnect removes, how a payload's tag is read, that the connect hook runs before classification, and that the returned map keeps the last data packet of each sender.
- `Utils` (`utils.dfy`) is `format_vector`, a pure function on `seq<string>`: `"[" + join(", ") + "]"`. Lemmas give its length and where each item stands in it.

Modelling choices:
- World coordinates are non-negative integers, so `floor(x / tile_size)` is integer division. Tile coordinates outside the grid are a precondition wherever the Rust code indexes without a check and would panic.
- An address (`SocketAddr`) is modelled by the text its `Display` prints. The player key is `"player" + addr`.
- An entity handle is modelled by the position it reports.
- Time is whole seconds, passed in as `now`.
- The server's grid is the one `ServerHandler::new` builds: 500 × 500 tiles of 16 units (`GridWidth`, `GridHeight`, `TileSize`). The server's invariant `Placed` says the grid keeps that shape and every player entity (key `"player" + addr`) stands on a tile inside it. Only player entities are ever looked up in the grid (by `disconnect_client`), so other entities may stand anywhere (`NonPlayerAnywhere`).
- The connect callback is a function `(State, Addr) --> State` that may assume the invariant. A callback may be installed if, run on any state that keeps the invariant, it keeps it (`HookOk`). A callback that places a player off the grid is refused: a later disconnect of that player would panic in the source. `SpawnAt`, which records the client and spawns its player at any point of the grid, is admissible (`SpawnAtOk`).

Where the code differs from what one might expect, the model follows the code:
- `check_clients` removes the evicted client and its player entity, but NOT the player's id from its tile. One might expect eviction to behave like disconnect and clear the tile. `Swept` keeps the grid unchanged, as the code does.
- `check_clients` also evicts a client whose timestamp is in the future, because `elapsed()` fails for it.
- With no connect callback, a packet from an unknown address is not dropped; it is still classified. Application data from that address is returned (`UnknownSourceWithoutHook`).

## Model

| member | source | states |
|---|---|---|
| TileGrid.TileIndex | src/tiles.rs:26-30 | each tile coordinate is the floor of the world coordinate divided by the tile size: `t * size <= x < t * size + size` |
| TileGrid.Tiles.constructor | src/tiles.rs:14-24 | `max(y_max,0)` rows of `max(x_max,0)` tiles; tile (x,y) has origin `(x*size, y*size)`, texture 1 and no ids |
| TileGrid.InGrid | src/tiles.rs:60-62 | the bounds test checks the row count and the width of row 0; on a rectangular grid it makes indexing any row at that column safe |
| TileGrid.WithIds | src/tiles.rs:34 | writing one tile's id list replaces that list only: the tile keeps its origin and texture, every other tile is unchanged, and the grid keeps its shape |
| TileGrid.Tiles.AddEntity | src/tiles.rs:32-35 | the id is appended at the end of exactly the tile holding (x,y); no duplicate check; every other tile is unchanged |
| TileGrid.Retain | src/tiles.rs:37-39 | `retain(id != entity_id)`: an id is in the result iff it was in the list and differs from the removed one |
| TileGrid.RetainAbsent | src/tiles.rs:37-39 | removing an absent id leaves the list unchanged |
| TileGrid.RetainAppend | src/tiles.rs:38 | retain works piecewise over concatenation, so the surviving ids keep their relative order |
| TileGrid.RetainMultiplicity | src/tiles.rs:38 | every occurrence of the removed id goes; every other id keeps its number of occurrences |
| TileGrid.Tiles.RemoveEntity | src/tiles.rs:37-39 | tile (tx,ty) loses every occurrence of the id, other ids kept in order; all other tiles unchanged |
| TileGrid.Moved | src/tiles.rs:45-48 | moving between two different tiles removes every occurrence of the id from the old tile and appends it once to the new one; both tiles keep their origin and texture, and every other tile is unchanged |
| TileGrid.Tiles.MoveEntity | src/tiles.rs:41-49 | same old and new tile: the grid is unchanged; different tiles: the new grid is `Moved(old grid, old tile, new tile, id)` (the id is appended even if it was never in the old tile) and the id is absent from the old tile |
| TileGrid.ScanRow | src/tiles.rs:56-66 | the inner loop appends to what was collected exactly the lists of the in-grid tiles of one row, dx from -r to r in order |
| TileGrid.Tiles.GetEntitiesInRadius | src/tiles.rs:51-70 | the result equals `RadiusScan`: the in-grid tiles of the square `[c-r, c+r]²`, concatenated with dy outer and dx inner; every access is bounds-checked |
| TileGrid.RadiusScanMembership | src/tiles.rs:55-66 | an id is in the result iff some in-grid tile of the Chebyshev square holds it |
| TileGrid.RadiusMonotone | src/tiles.rs:55-66 | for 0 <= r1 <= r2, every id found with r1 is found with r2 |
| TileGrid.RadiusZero | src/tiles.rs:51-66 | radius 0 gives exactly the centre tile's list (empty if the centre is outside the grid) |
| TileGrid.RadiusNegative | src/tiles.rs:55-56 | a negative radius is an empty range and gives the empty list |
| Server.PlayerKey | src/server_handler.rs:55 | the player key is the six letters `player` followed by exactly the address text |
| Server.PlayerKeyInjective | src/server_handler.rs:63 | distinct addresses have distinct player keys `"player" + addr` |
| Server.Tag | src/server_handler.rs:121 | the tag is the prefix of the payload before the first bar character, or the whole payload if it has none |
| Server.TagWhole | src/server_handler.rs:121 | a payload without a bar character is its own tag |
| Server.TagOfFields | src/server_handler.rs:121 | a bar-free tag followed by a bar and any arguments has that tag |
| Server.CommandOf | src/server_handler.rs:131-138 | a first field is the heartbeat, connect or disconnect command exactly when it equals `PACKETS`, `CONNECT` or `DISCONNECT`; anything else is application data |
| Server.Classify | src/server_handler.rs:121-138 | a payload is the heartbeat, connect or disconnect command exactly when its first field is `PACKETS`, `CONNECT` or `DISCONNECT`; any other first field is application data |
| Server.ClassifyFields | src/server_handler.rs:121-138 | the command depends on the first field only, whatever arguments follow it |
| Server.ClassifyHeartbeat | src/server_handler.rs:131-132 | `PACKETS`, with or without arguments, is the heartbeat |
| Server.ClassifyConnect | src/server_handler.rs:133 | `CONNECT`, with or without arguments, is the connect command |
| Server.ClassifyDisconnect | src/server_handler.rs:134-135 | `DISCONNECT`, with or without arguments, is the disconnect command |
| Server.ClassifyLongerTag | src/server_handler.rs:131-138 | a first field that only starts with a command name (`PACKETSX`) is application data |
| Server.Updated | src/server_handler.rs:102-107 | a known client's time becomes `now`; an unknown address changes nothing; no other entry, entity or tile changes |
| Server.ServerHandler.UpdateClient | src/server_handler.rs:102-107 | the new state is `Updated(old state, src, now)` |
| Server.Disconnected | src/server_handler.rs:87-100 | no key `"player"+src` is left in entities and no record for `src` in clients; all other entries are kept; the grid keeps its shape and every remaining player stays placed |
| Server.DisconnectedGrid | src/server_handler.rs:91-96 | if the player existed, its key is removed from the tile computed from its position and every other tile is unchanged; otherwise the grid is unchanged |
| Server.ServerHandler.DisconnectClient | src/server_handler.rs:87-100 | the new state is `Disconnected(old state, src)`; afterwards `GetPlayer(src)` is `None` and `src` has no record |
| Server.TimedOut | src/server_handler.rs:50 | a client is kept exactly when its last-seen time is not after `now` and less than 4 seconds before it; a time in the future counts as timed out |
| Server.Swept | src/server_handler.rs:45-59 | exactly the non-timed-out clients survive, with their timestamps; entities only lose entries; the tile grid is not modified |
| Server.SweptEntities | src/server_handler.rs:54-58 | an entity is removed iff its key is `"player"+a` for an evicted address `a` |
| Server.RefreshPreventsEviction | src/server_handler.rs:50 | a known client refreshed at `now` survives a sweep at the same `now`, and so does its player entity |
| Server.ServerHandler.CheckClients | src/server_handler.rs:45-59 | the loop over the timed-out addresses leaves the state `Swept(old state, now)` |
| Server.ServerHandler.constructor | src/server_handler.rs:23-43 | empty client table and registry, no callback, a 500 × 500 grid of size-16 tiles, tile (x,y) with origin `(16x, 16y)`, texture 1 and no ids |
| Server.ServerHandler.GetPlayer | src/server_handler.rs:61-69 | returns an entity exactly when `"player"+src` is a key of the registry, and then that key's entry |
| Server.ServerHandler.SetOnClientConnect | src/server_handler.rs:71-76 | installs the callback; tables unchanged |
| Server.Connected | src/server_handler.rs:78-85 | without a callback the state is unchanged; with one it is exactly the callback applied to the state and the address, and the server's invariant is kept |
| Server.SpawnAtOk | src/server_handler.rs:71-81 | a callback that records the client and spawns its player at any point of the 500 × 500 grid may be installed |
| Server.Spawned | src/server_handler.rs:78-81 | that callback's result: the client recorded, the player registered at the point and listed in the tile holding it, the invariant kept |
| Server.NonPlayerAnywhere | src/server_handler.rs:89-95 | an entity under a key that is no player key may stand anywhere without breaking the invariant, since only player keys are located in the grid |
| Server.ServerHandler.AddClient | src/server_handler.rs:78-85 | with a callback, the state becomes the callback's result; without one nothing changes |
| Server.UnknownSourceConnectsFirst | src/server_handler.rs:123-129 | a packet from an address not in the table runs the callback once, and the tag is then dispatched on the callback's resulting state |
| Server.UnknownSourceWithoutHook | src/server_handler.rs:78-85 | with no callback, a non-disconnect packet from an unknown address leaves the state unchanged, and its application data is still returned |
| Server.Dispatch | src/server_handler.rs:131-138 | `PACKETS` gives the sender's refreshed state, `CONNECT` leaves the state as it was, `DISCONNECT` gives the state with the sender disconnected, and each command leaves the result map as it was; application data stores the payload under the sender and leaves the state as it was; no tag adds a client or breaks the invariant |
| Server.KnownHeartbeat | src/server_handler.rs:131-132 | a `PACKETS` packet, with or without arguments, from a known sender refreshes that sender's time and leaves the result map as it was |
| Server.KnownConnect | src/server_handler.rs:133 | a `CONNECT` packet, with or without arguments, from a known sender changes neither the state nor the result map |
| Server.KnownDisconnect | src/server_handler.rs:134-135 | a `DISCONNECT` packet, with or without arguments, from a known sender disconnects it and leaves the result map as it was |
| Server.HeartbeatKeepsAlive | src/server_handler.rs:131-132 | after a `PACKETS` packet from a known client, a sweep at the same second keeps that client and its player entity |
| Server.DisconnectPacketRemoves | src/server_handler.rs:123-135 | after a `DISCONNECT` packet, from a known or an unknown sender, neither the sender's record nor its player entity is left, and the result map is as it was |
| Server.Step | src/server_handler.rs:118-140 | a non-packet event changes nothing; a packet from a known sender is dispatched directly; with no callback no client is added; the invariant is kept |
| Server.Run | src/server_handler.rs:116-142 | the drain loop over a batch keeps the invariant, and with no callback it never adds a client |
| Server.RunAppend | src/server_handler.rs:116-142 | draining two batches in turn equals draining their concatenation |
| Server.OtherEventIgnored | src/server_handler.rs:140 | a non-packet event anywhere in the batch changes neither the state nor the result |
| Server.StepOutput | src/server_handler.rs:131-138 | one packet adds or overwrites the result entry of its sender exactly when it is application data |
| Server.RunOutputKeys | src/server_handler.rs:110-144 | an address is in the returned map iff it sent an application-data packet in the batch |
| Server.RunOutputLast | src/server_handler.rs:137 | the entry is the full payload of the sender's last application-data packet (last write wins) |
| Server.RunOutputKept | src/server_handler.rs:137 | a sender with no further data packets keeps the entry it already had |
| Server.ServerHandler.ReceiveEvents | src/server_handler.rs:109-145 | the final state and returned map equal `Run` over the batch; the map's keys and values are as in RunOutputKeys and RunOutputLast; what each command packet does to the state is given by KnownHeartbeat, KnownConnect, KnownDisconnect and DisconnectPacketRemoves |
| Utils.Join | src/utils.rs:4-8 | no items join to the empty text and one item to itself; where every item and separator stands is stated by JoinSlice |
| Utils.FormatVector | src/utils.rs:3-9 | the result starts with `[` and ends with `]` |
| Utils.FormatEmpty | src/utils.rs:3-9 | an empty list gives `"[]"` |
| Utils.FormatSingle | src/utils.rs:3-9 | one item `s` gives `"[" + s + "]"` |
| Utils.FormatInterior | src/utils.rs:3-9 | between the brackets stands exactly the items joined by `", "` |
| Utils.JoinLength | src/utils.rs:4-8 | for n >= 1 items the joined text is Σ lengths + (n−1) separator lengths long |
| Utils.FormatLength | src/utils.rs:3-9 | for n >= 1 items the result is 2 + Σ lengths + 2·(n−1) long |
| Utils.JoinAppend | src/utils.rs:4-8 | for non-empty `a` and `b`, joining `a + b` equals joining `a`, one separator, then joining `b` |
| Utils.JoinItem | src/utils.rs:4-8 | item i stands, in input order, at its offset: the earlier items plus one separator each |
| Utils.JoinSeparator | src/utils.rs:4-8 | every item but the last is followed by exactly the separator |
| Utils.JoinSlice | src/utils.rs:4-8 | item i stands, in input order, at its offset (the earlier items plus one separator each), followed by exactly the separator unless it is last |
| Utils.OffsetStep | src/utils.rs:4-8 | consecutive items' offsets differ by the item's length plus the separator |
| Utils.OffsetLast | src/utils.rs:4-8 | the last item ends where the joined text ends |

## Left out

- The transport: the `laminar` socket, `manual_poll`, `Packet::unreliable` and the crossbeam channels (src/server_handler.rs:13-15, 23-32, 112-116, 166-172). These are I/O. The drained events are an input sequence instead.
- `Arc`/`RwLock` sharing and locking. These exist for concurrent access; the model has one sequential owner.
- `broadcast` (src/server_handler.rs:147-174). It merges each entity's JSON through serde_json, in the unspecified iteration order of a `HashMap`, and sends `"LIBRARYEVENT|" + json` to every client. It is a foreign library plus I/O.
- The getters that return cloned `Arc`s (src/server_handler.rs:176-190). They only share handles.
- The `eprintln!` diagnostic when no callback is set. It is output only.
- `String::from_utf8_lossy`: payloads are given as strings.
- f32 coordinates, the floor and the saturating `as usize` cast, and tile sizes <= 0. These are floating point; coordinates are non-negative integers and the tile size must be positive wherever a tile index is computed.
- i32 overflow of `x * tile_size` in `Tiles::new`, and `isize` overflow in the radius scan. Integers are unbounded.
- `SystemTime`, `elapsed()` and `as_secs`. These are clock reads; `now` is an integer parameter.
- Server.ServerHandler.ReceiveEvents: takes one `now` for the whole batch. The source reads the clock at each `PACKETS`.
- Server.ServerHandler.CheckClients: takes one `now`. The source calls `elapsed()` once per entry.
- Server.HookOk: models the callback as a deterministic function of the modelled state; a callback that reinstalls or removes itself, or replaces the `pub tiles` grid by one of another shape, is not modelled.
- Server.ServerHandler.SetOnClientConnect: accepts only callbacks that, on every state keeping the invariant, keep the 500 × 500 shape and every player on the grid and are defined there. A callback that places a player off the grid runs in the source until that player disconnects, which then panics; the model refuses it upfront.
- Server.PlayerKeyInjective: an address is its `Display` text. Rust's `Display` for `SocketAddrV6` omits `flowinfo`, while equality compares it, so two distinct keys of the source's `clients` map can share one `"player" + addr` key. The model, keyed by text, cannot hold both such clients.
- src/traits.rs (the entity trait's default bodies and the `Any` downcast) and src/data_types.rs (a wrapper around a float vector): neither has state to verify. An entity is modelled by its position only.
