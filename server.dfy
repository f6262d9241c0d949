/**
 The server core without its transport: the client table (address to
 last-seen second), the entity registry (key to entity) and the tile grid,
 the client lifecycle driven by inbound packets, and the liveness sweep.
 Each state-changing operation of `ServerHandler` is proved against a function
 on `State` values; `Run` folds the packet classification over a drained batch
 of events and is the specification of `ReceiveEvents`.
 */
module Server {
  import opened TileGrid

  datatype Option<T> = None | Some(value: T)

  /** A network address, as the text its `Display` form prints. */
  type Addr = string

  /** An entity handle, abstracted to the position it reports. */
  datatype Entity = Entity(x: nat, y: nat)

  /** Clients with their last-seen time in whole seconds, the entity registry
      and the tile grid. */
  datatype State = State(clients: map<Addr, int>, entities: map<string, Entity>, grid: Grid)

  /** The caller-supplied connect callback, as its effect on the state.  It
      may rely on the server's invariant (`Placed`), as any code holding the
      server can. */
  type ConnectHook = (State, Addr) --> State

  /** A drained transport event: a packet, or any other event (connect,
      timeout notices), which the server ignores. */
  datatype Event = Packet(addr: Addr, payload: string) | OtherEvent

  /** What the first `|`-delimited field of a payload asks for. */
  datatype Command = Heartbeat | ConnectCmd | DisconnectCmd | AppData

  /** Seconds of silence after which a client is evicted. */
  const Timeout: int := 4

  /** The grid `ServerHandler::new` builds: 500 rows of 500 tiles of 16 units. */
  const GridWidth: nat := 500
  const GridHeight: nat := 500
  const TileSize: int := 16

  /** Registry key of the player entity of a client. */
  function PlayerKey(a: Addr): (k: string)
    ensures |k| == |a| + 6 && k[..6] == "player" && k[6..] == a
  {
    "player" + a
  }

  lemma PlayerKeyInjective(a: Addr, b: Addr)
    ensures PlayerKey(a) == PlayerKey(b) <==> a == b
  {
    if PlayerKey(a) == PlayerKey(b) {
      assert a == PlayerKey(a)[6..];
      assert b == PlayerKey(b)[6..];
    }
  }

  /** The first field of `payload.split('|')`: the text before the first `|`,
      or all of it when there is none. */
  function Tag(payload: string): (t: string)
    ensures t <= payload
    ensures '|' !in t
    ensures |t| < |payload| ==> payload[|t|] == '|'
  {
    if payload == [] || payload[0] == '|' then [] else [payload[0]] + Tag(payload[1..])
  }

  /** A tag followed by `|` and any arguments is recognised as that tag. */
  lemma {:induction false} TagOfFields(tag: string, rest: string)
    requires '|' !in tag
    ensures Tag(tag + "|" + rest) == tag
  {
    if tag != [] {
      assert (tag + "|" + rest)[0] == tag[0];
      assert (tag + "|" + rest)[1..] == tag[1..] + "|" + rest;
      TagOfFields(tag[1..], rest);
    }
  }

  /** The command a first field names; any other text is application data. */
  function CommandOf(tag: string): (c: Command)
    ensures c == Heartbeat <==> tag == "PACKETS"
    ensures c == ConnectCmd <==> tag == "CONNECT"
    ensures c == DisconnectCmd <==> tag == "DISCONNECT"
  {
    if tag == "PACKETS" then Heartbeat
    else if tag == "CONNECT" then ConnectCmd
    else if tag == "DISCONNECT" then DisconnectCmd
    else AppData
  }

  /** The command of a payload: exactly the first fields `PACKETS`, `CONNECT`
      and `DISCONNECT` are commands, and any other is application data. */
  function Classify(payload: string): (c: Command)
    ensures c == Heartbeat <==> Tag(payload) == "PACKETS"
    ensures c == ConnectCmd <==> Tag(payload) == "CONNECT"
    ensures c == DisconnectCmd <==> Tag(payload) == "DISCONNECT"
  {
    CommandOf(Tag(payload))
  }

  /** A payload without `|` is its own tag. */
  lemma TagWhole(payload: string)
    requires '|' !in payload
    ensures Tag(payload) == payload
  {
    assert forall i :: 0 <= i < |payload| ==> payload[i] != '|';
  }

  /** The command of a payload is named by its first field alone, whatever
      arguments follow it. */
  lemma ClassifyFields(tag: string, rest: string)
    requires '|' !in tag
    ensures Classify(tag) == CommandOf(tag)
    ensures Classify(tag + "|" + rest) == CommandOf(tag)
  {
    TagWhole(tag);
    TagOfFields(tag, rest);
  }

  /** The three commands are recognised with or without arguments. */
  lemma ClassifyHeartbeat(rest: string)
    ensures Classify("PACKETS") == Heartbeat && Classify("PACKETS" + "|" + rest) == Heartbeat
  {
    ClassifyFields("PACKETS", rest);
  }

  lemma ClassifyConnect(rest: string)
    ensures Classify("CONNECT") == ConnectCmd && Classify("CONNECT" + "|" + rest) == ConnectCmd
  {
    ClassifyFields("CONNECT", rest);
    assert CommandOf("CONNECT") == ConnectCmd;
  }

  lemma ClassifyDisconnect(rest: string)
    ensures Classify("DISCONNECT") == DisconnectCmd && Classify("DISCONNECT" + "|" + rest) == DisconnectCmd
  {
    ClassifyFields("DISCONNECT", rest);
    assert CommandOf("DISCONNECT") == DisconnectCmd by {
      assert |"DISCONNECT"| == 10;
    }
  }

  /** A first field that merely starts with a command name is data. */
  lemma ClassifyLongerTag(rest: string)
    ensures Classify("PACKETSX" + "|" + rest) == AppData
  {
    ClassifyFields("PACKETSX", rest);
    assert CommandOf("PACKETSX") == AppData by {
      assert |"PACKETSX"| == 8;
    }
  }

  /** The sweep's test: `elapsed()` fails for a time in the future, otherwise
      the client is stale after `Timeout` whole seconds. */
  predicate TimedOut(t: int, now: int)
    ensures !TimedOut(t, now) <==> t <= now < t + Timeout
  {
    t > now || now - t >= Timeout
  }

  /** The grid has the shape the server builds. */
  ghost predicate ServerShape(g: Grid) {
    |g| == GridHeight && forall j :: 0 <= j < |g| ==> |g[j]| == GridWidth
  }

  /** The server's invariant: the grid keeps its shape and the position of
      every player entity maps to a tile inside it, so that disconnecting the
      player cannot index out of bounds.  Other entities are never looked up in
      the grid and may stand anywhere. */
  ghost predicate Placed(s: State) {
    && ServerShape(s.grid)
    && Rectangular(s.grid)
    && forall a: Addr :: PlayerKey(a) in s.entities ==>
         var t := TileIndex(TileSize, s.entities[PlayerKey(a)].x, s.entities[PlayerKey(a)].y);
         InGrid(s.grid, t.0, t.1)
  }

  /** A connect hook, run on a server that keeps its invariant, keeps it. */
  ghost predicate HookOk(hook: Option<ConnectHook>) {
    hook.Some? ==>
      forall s: State, a: Addr :: Placed(s) ==> hook.value.requires(s, a) && Placed(hook.value(s, a))
  }

  /** `add_client`: run the hook if one is set; without one nothing changes. */
  function Connected(s: State, hook: Option<ConnectHook>, src: Addr): (r: State)
    requires Placed(s) && HookOk(hook)
    ensures Placed(r)
    ensures hook.None? ==> r == s
    ensures hook.Some? ==> r == hook.value(s, src)
  {
    match hook
    case None => s
    case Some(h) => h(s, src)
  }

  /** A typical connect callback: record the client as seen at `t` and spawn
      its player at (x, y), indexed in the tile holding that point. */
  function Spawned(s: State, a: Addr, t: int, x: nat, y: nat): (r: State)
    requires Placed(s) && x < GridWidth * TileSize && y < GridHeight * TileSize
    ensures Placed(r)
    ensures r.clients == s.clients[a := t] && r.entities == s.entities[PlayerKey(a) := Entity(x, y)]
    ensures PlayerKey(a) in r.grid[y / TileSize][x / TileSize].entityIds
  {
    var c := TileIndex(TileSize, x, y);
    var g := WithIds(s.grid, c.0, c.1, s.grid[c.1][c.0].entityIds + [PlayerKey(a)]);
    assert |g[0]| == GridWidth;
    State(s.clients[a := t], s.entities[PlayerKey(a) := Entity(x, y)], g)
  }

  function SpawnAt(t: int, x: nat, y: nat): (h: ConnectHook)
    requires x < GridWidth * TileSize && y < GridHeight * TileSize
    ensures forall s: State, a: Addr :: Placed(s) ==> h.requires(s, a) && h(s, a) == Spawned(s, a, t, x, y)
  {
    (s: State, a: Addr) requires Placed(s) => Spawned(s, a, t, x, y)
  }

  /** Spawning the player anywhere on the 500 x 500 grid is an admissible
      callback. */
  lemma SpawnAtOk(t: int, x: nat, y: nat)
    requires x < GridWidth * TileSize && y < GridHeight * TileSize
    ensures HookOk(Some(SpawnAt(t, x, y)))
  {
  }

  /** Registering an entity under a key that is no player key keeps the
      invariant wherever the entity stands. */
  lemma NonPlayerAnywhere(s: State, k: string, e: Entity)
    requires Placed(s) && forall a: Addr :: PlayerKey(a) != k
    ensures Placed(s.(entities := s.entities[k := e]))
  {
  }

  /** `update_client`: refresh the time of a known client only. */
  function Updated(s: State, src: Addr, now: int): (r: State)
    ensures r.entities == s.entities && r.grid == s.grid
    ensures r.clients.Keys == s.clients.Keys
    ensures src in s.clients ==> r.clients[src] == now
    ensures forall a :: a in s.clients && a != src ==> r.clients[a] == s.clients[a]
  {
    if src in s.clients then s.(clients := s.clients[src := now]) else s
  }

  /** `disconnect_client`: take the player's key out of the tile its position
      maps to (if the player exists), out of the registry, and the client out
      of the client table. */
  function Disconnected(s: State, src: Addr): (r: State)
    requires Placed(s)
    ensures Placed(r) && SameShape(s.grid, r.grid)
    ensures forall k :: k in r.entities <==> k in s.entities && k != PlayerKey(src)
    ensures forall k :: k in r.entities ==> r.entities[k] == s.entities[k]
    ensures forall a :: a in r.clients <==> a in s.clients && a != src
    ensures forall a :: a in r.clients ==> r.clients[a] == s.clients[a]
  {
    var key := PlayerKey(src);
    var grid :=
      if key in s.entities then
        var t := TileIndex(TileSize, s.entities[key].x, s.entities[key].y);
        WithIds(s.grid, t.0, t.1, Retain(s.grid[t.1][t.0].entityIds, key))
      else s.grid;
    var r := State(map a | a in s.clients && a != src :: s.clients[a], s.entities - {key}, grid);
    assert forall k :: k in r.entities ==> k in s.entities;
    r
  }

  /** The tile of a disconnected player no longer lists it, every other tile is
      as it was; a client without a player leaves the grid alone. */
  lemma DisconnectedGrid(s: State, src: Addr)
    requires Placed(s)
    ensures var r := Disconnected(s, src);
            PlayerKey(src) !in s.entities ==> r.grid == s.grid
    ensures var r := Disconnected(s, src);
            PlayerKey(src) in s.entities ==>
              var e := s.entities[PlayerKey(src)];
              var t := TileIndex(TileSize, e.x, e.y);
              && r.grid[t.1][t.0].entityIds == Retain(s.grid[t.1][t.0].entityIds, PlayerKey(src))
              && PlayerKey(src) !in r.grid[t.1][t.0].entityIds
              && forall j, i :: 0 <= j < |s.grid| && 0 <= i < |s.grid[j]| && (i, j) != t ==>
                   r.grid[j][i] == s.grid[j][i]
  {
  }

  /** The clients the sweep at `now` evicts. */
  function Evicted(clients: map<Addr, int>, now: int): (e: set<Addr>)
    ensures forall a :: a in e <==> a in clients && TimedOut(clients[a], now)
  {
    set a | a in clients && TimedOut(clients[a], now)
  }

  function PlayerKeys(addrs: set<Addr>): set<string> {
    set a | a in addrs :: PlayerKey(a)
  }

  /** Removing two sets of keys one after the other removes their union. */
  lemma MinusTwice<K, V>(m: map<K, V>, a: set<K>, b: set<K>)
    ensures (m - a) - b == m - (a + b)
  {
  }

  /** `check_clients`: drop every stale client and its player entity; the grid
      is not touched. */
  function Swept(s: State, now: int): (r: State)
    ensures r.grid == s.grid
    ensures forall a :: a in r.clients <==> a in s.clients && !TimedOut(s.clients[a], now)
    ensures forall a :: a in r.clients ==> r.clients[a] == s.clients[a]
    ensures forall k :: k in r.entities ==> k in s.entities && r.entities[k] == s.entities[k]
  {
    var gone := Evicted(s.clients, now);
    State(s.clients - gone, s.entities - PlayerKeys(gone), s.grid)
  }

  /** The sweep removes exactly the player entities of the evicted clients. */
  lemma SweptEntities(s: State, now: int, k: string)
    ensures k in Swept(s, now).entities <==>
            k in s.entities && !(exists a :: a in s.clients && TimedOut(s.clients[a], now) && k == PlayerKey(a))
  {
    var gone := Evicted(s.clients, now);
    if exists a :: a in s.clients && TimedOut(s.clients[a], now) && k == PlayerKey(a) {
      var a :| a in s.clients && TimedOut(s.clients[a], now) && k == PlayerKey(a);
      assert k in PlayerKeys(gone);
    }
  }

  /** The sweep keeps the placement invariant. */
  lemma SweptPlaced(s: State, now: int)
    requires Placed(s)
    ensures Placed(Swept(s, now))
  {
  }

  /** A client refreshed at `now` survives a sweep at the same `now`, and so
      does its player entity. */
  lemma RefreshPreventsEviction(s: State, a: Addr, now: int)
    requires a in s.clients
    ensures a in Swept(Updated(s, a, now), now).clients
    ensures PlayerKey(a) in s.entities ==> PlayerKey(a) in Swept(Updated(s, a, now), now).entities
  {
    var u := Updated(s, a, now);
    if PlayerKey(a) in s.entities {
      SweptEntities(u, now, PlayerKey(a));
      forall b | b in u.clients && TimedOut(u.clients[b], now)
        ensures PlayerKey(a) != PlayerKey(b)
      {
        PlayerKeyInjective(a, b);
      }
    }
  }

  /** The tag dispatch of one packet from `src`, after any connect. */
  function Dispatch(s: State, out: map<Addr, string>, src: Addr, payload: string, now: int)
    : (r: (State, map<Addr, string>))
    requires Placed(s)
    ensures Placed(r.0)
    ensures r.0.clients.Keys <= s.clients.Keys
    ensures Classify(payload) == AppData ==> r == (s, out[src := payload])
    ensures Classify(payload) != AppData ==> r.1 == out
    ensures Classify(payload) == Heartbeat ==> r == (Updated(s, src, now), out)
    ensures Classify(payload) == ConnectCmd ==> r == (s, out)
    ensures Classify(payload) == DisconnectCmd ==> r == (Disconnected(s, src), out)
  {
    match Classify(payload)
    case Heartbeat => (Updated(s, src, now), out)
    case ConnectCmd => (s, out)
    case DisconnectCmd => (Disconnected(s, src), out)
    case AppData => (s, out[src := payload])
  }

  /** One drained event: a packet from an unknown address first runs the
      connect hook, then its tag is dispatched; other events change nothing. */
  function Step(s: State, out: map<Addr, string>, e: Event, hook: Option<ConnectHook>, now: int)
    : (r: (State, map<Addr, string>))
    requires Placed(s) && HookOk(hook)
    ensures Placed(r.0)
    ensures e.OtherEvent? ==> r == (s, out)
    ensures e.Packet? && e.addr in s.clients ==> r == Dispatch(s, out, e.addr, e.payload, now)
    ensures hook.None? ==> r.0.clients.Keys <= s.clients.Keys
  {
    match e
    case OtherEvent => (s, out)
    case Packet(src, payload) =>
      var s1 := if src in s.clients then s else Connected(s, hook, src);
      Dispatch(s1, out, src, payload, now)
  }

  /** The whole `receive_events` drain loop over a batch, from state `s` and
      partial result `out`. */
  function Run(s: State, out: map<Addr, string>, events: seq<Event>, hook: Option<ConnectHook>, now: int)
    : (r: (State, map<Addr, string>))
    requires Placed(s) && HookOk(hook)
    ensures Placed(r.0)
    ensures hook.None? ==> r.0.clients.Keys <= s.clients.Keys
    decreases |events|
  {
    if events == [] then (s, out)
    else
      var next := Step(s, out, events[0], hook, now);
      Run(next.0, next.1, events[1..], hook, now)
  }

  /** A packet from an unknown address runs the hook exactly once, and the tag
      is then dispatched on the state the hook produced. */
  lemma UnknownSourceConnectsFirst(s: State, out: map<Addr, string>, src: Addr, payload: string,
                                   h: ConnectHook, now: int)
    requires Placed(s) && HookOk(Some(h)) && src !in s.clients
    ensures Placed(h(s, src))
    ensures Step(s, out, Packet(src, payload), Some(h), now) == Dispatch(h(s, src), out, src, payload, now)
  {
  }

  /** From a known sender, `PACKETS` (with or without arguments) refreshes its
      time, `CONNECT` changes nothing and `DISCONNECT` disconnects it. */
  lemma KnownHeartbeat(s: State, out: map<Addr, string>, a: Addr, rest: string, hook: Option<ConnectHook>, now: int)
    requires Placed(s) && HookOk(hook) && a in s.clients
    ensures Step(s, out, Packet(a, "PACKETS"), hook, now) == (Updated(s, a, now), out)
    ensures Step(s, out, Packet(a, "PACKETS" + "|" + rest), hook, now) == (Updated(s, a, now), out)
  {
    ClassifyHeartbeat(rest);
  }

  lemma KnownConnect(s: State, out: map<Addr, string>, a: Addr, rest: string, hook: Option<ConnectHook>, now: int)
    requires Placed(s) && HookOk(hook) && a in s.clients
    ensures Step(s, out, Packet(a, "CONNECT"), hook, now) == (s, out)
    ensures Step(s, out, Packet(a, "CONNECT" + "|" + rest), hook, now) == (s, out)
  {
    ClassifyConnect(rest);
  }

  lemma KnownDisconnect(s: State, out: map<Addr, string>, a: Addr, rest: string, hook: Option<ConnectHook>, now: int)
    requires Placed(s) && HookOk(hook) && a in s.clients
    ensures Step(s, out, Packet(a, "DISCONNECT"), hook, now) == (Disconnected(s, a), out)
    ensures Step(s, out, Packet(a, "DISCONNECT" + "|" + rest), hook, now) == (Disconnected(s, a), out)
  {
    ClassifyDisconnect(rest);
  }

  /** A heartbeat from a known client keeps it, and its player, through a
      sweep at the same second. */
  lemma HeartbeatKeepsAlive(s: State, out: map<Addr, string>, a: Addr, hook: Option<ConnectHook>, now: int)
    requires Placed(s) && HookOk(hook) && a in s.clients
    ensures var r := Run(s, out, [Packet(a, "PACKETS")], hook, now).0;
            && a in Swept(r, now).clients
            && (PlayerKey(a) in s.entities ==> PlayerKey(a) in Swept(r, now).entities)
  {
    KnownHeartbeat(s, out, a, "", hook, now);
    RefreshPreventsEviction(s, a, now);
  }

  /** A `DISCONNECT` packet leaves no record and no player of its sender,
      whether or not the sender was known (an unknown one is connected first). */
  lemma DisconnectPacketRemoves(s: State, out: map<Addr, string>, a: Addr, hook: Option<ConnectHook>, now: int)
    requires Placed(s) && HookOk(hook)
    ensures var r := Run(s, out, [Packet(a, "DISCONNECT")], hook, now);
            && a !in r.0.clients && PlayerKey(a) !in r.0.entities && r.1 == out
  {
    ClassifyDisconnect("");
    var e := Packet(a, "DISCONNECT");
    var s1 := if a in s.clients then s else Connected(s, hook, a);
    assert Placed(s1);
    assert Step(s, out, e, hook, now) == Dispatch(s1, out, a, e.payload, now);
    DisconnectDrops(s1, a);
    assert [e][1..] == [];
  }

  lemma DisconnectDrops(s: State, a: Addr)
    requires Placed(s)
    ensures a !in Disconnected(s, a).clients && PlayerKey(a) !in Disconnected(s, a).entities
  {
  }

  /** Without a hook, a packet from an unknown address that is not a
      disconnect leaves the state unchanged; application data from it is still
      returned. */
  lemma UnknownSourceWithoutHook(s: State, out: map<Addr, string>, src: Addr, payload: string, now: int)
    requires Placed(s) && src !in s.clients && Classify(payload) != DisconnectCmd
    ensures Step(s, out, Packet(src, payload), None, now).0 == s
    ensures Classify(payload) == AppData ==> Step(s, out, Packet(src, payload), None, now).1 == out[src := payload]
  {
  }

  /** Running two batches one after the other is running their concatenation. */
  lemma {:induction false} RunAppend(s: State, out: map<Addr, string>, a: seq<Event>, b: seq<Event>,
                                     hook: Option<ConnectHook>, now: int)
    requires Placed(s) && HookOk(hook)
    ensures var mid := Run(s, out, a, hook, now);
            Run(s, out, a + b, hook, now) == Run(mid.0, mid.1, b, hook, now)
    decreases |a|
  {
    if a == [] {
      assert a + b == b;
    } else {
      assert (a + b)[0] == a[0];
      assert (a + b)[1..] == a[1..] + b;
      var next := Step(s, out, a[0], hook, now);
      RunAppend(next.0, next.1, a[1..], b, hook, now);
    }
  }

  /** Non-packet events change nothing, wherever they stand in the batch. */
  lemma OtherEventIgnored(s: State, out: map<Addr, string>, a: seq<Event>, b: seq<Event>,
                          hook: Option<ConnectHook>, now: int)
    requires Placed(s) && HookOk(hook)
    ensures Run(s, out, a + [OtherEvent] + b, hook, now) == Run(s, out, a + b, hook, now)
  {
    RunAppend(s, out, a + [OtherEvent], b, hook, now);
    RunAppend(s, out, a, [OtherEvent], hook, now);
    RunAppend(s, out, a, b, hook, now);
  }

  /** Event `e` is an application-data packet from `a`. */
  predicate DataFrom(e: Event, a: Addr) {
    e.Packet? && e.addr == a && Classify(e.payload) == AppData
  }

  /** Event i is the last application-data packet from `a` in the batch. */
  predicate LastDataFrom(events: seq<Event>, i: int, a: Addr) {
    0 <= i < |events| && DataFrom(events[i], a) &&
    forall j :: i < j < |events| ==> !DataFrom(events[j], a)
  }

  /** The partial result after the first event of a batch. */
  lemma StepOutput(s: State, out: map<Addr, string>, e: Event, hook: Option<ConnectHook>, now: int)
    requires Placed(s) && HookOk(hook)
    ensures var r := Step(s, out, e, hook, now).1;
            && (forall a :: a in r <==> a in out || DataFrom(e, a))
            && (forall a :: DataFrom(e, a) ==> r[a] == e.payload)
            && (forall a :: a in out && !DataFrom(e, a) ==> r[a] == out[a])
  {
  }

  /** An address has an entry in the returned map exactly when it already had
      one or sent application data in the batch. */
  lemma {:induction false} RunOutputKeys(s: State, out: map<Addr, string>, events: seq<Event>,
                                         hook: Option<ConnectHook>, now: int, a: Addr)
    requires Placed(s) && HookOk(hook)
    ensures a in Run(s, out, events, hook, now).1 <==>
            a in out || exists i :: 0 <= i < |events| && DataFrom(events[i], a)
    decreases |events|
  {
    if events != [] {
      var next := Step(s, out, events[0], hook, now);
      var rest := events[1..];
      StepOutput(s, out, events[0], hook, now);
      RunOutputKeys(next.0, next.1, rest, hook, now, a);
      if exists i :: 0 <= i < |rest| && DataFrom(rest[i], a) {
        var i :| 0 <= i < |rest| && DataFrom(rest[i], a);
        assert events[i + 1] == rest[i];
      }
      if exists i :: 0 <= i < |events| && DataFrom(events[i], a) {
        var i :| 0 <= i < |events| && DataFrom(events[i], a);
        if i > 0 {
          assert rest[i - 1] == events[i];
        }
      }
    }
  }

  /** An address's entry is the payload of its last application-data packet
      in the batch: the last write wins. */
  lemma {:induction false} RunOutputLast(s: State, out: map<Addr, string>, events: seq<Event>,
                                         hook: Option<ConnectHook>, now: int, a: Addr, i: int)
    requires Placed(s) && HookOk(hook)
    requires LastDataFrom(events, i, a)
    ensures var r := Run(s, out, events, hook, now).1;
            a in r && r[a] == events[i].payload
    decreases |events|
  {
    var next := Step(s, out, events[0], hook, now);
    var rest := events[1..];
    StepOutput(s, out, events[0], hook, now);
    if i > 0 {
      forall j | i - 1 < j < |rest| ensures !DataFrom(rest[j], a) {
        assert rest[j] == events[j + 1];
      }
      RunOutputLast(next.0, next.1, rest, hook, now, a, i - 1);
    } else {
      forall j | 0 <= j < |rest| ensures !DataFrom(rest[j], a) {
        assert rest[j] == events[j + 1];
      }
      RunOutputKept(next.0, next.1, rest, hook, now, a);
    }
  }

  /** An address that sends no application data keeps the entry it had. */
  lemma {:induction false} RunOutputKept(s: State, out: map<Addr, string>, events: seq<Event>,
                                         hook: Option<ConnectHook>, now: int, a: Addr)
    requires Placed(s) && HookOk(hook)
    requires a in out && forall i :: 0 <= i < |events| ==> !DataFrom(events[i], a)
    ensures var r := Run(s, out, events, hook, now).1;
            a in r && r[a] == out[a]
    decreases |events|
  {
    if events != [] {
      var next := Step(s, out, events[0], hook, now);
      var rest := events[1..];
      StepOutput(s, out, events[0], hook, now);
      assert !DataFrom(events[0], a);
      forall j | 0 <= j < |rest| ensures !DataFrom(rest[j], a) {
        assert rest[j] == events[j + 1];
      }
      RunOutputKept(next.0, next.1, rest, hook, now, a);
    }
  }

  /** The server: client table, entity registry, the shared tile grid and the
      optional connect callback.  The socket and channels are not modelled. */
  class ServerHandler {
    var clients: map<Addr, int>
    var entities: map<string, Entity>
    const tiles: Tiles
    var onClientConnect: Option<ConnectHook>

    function Snapshot(): State
      reads this, tiles
    {
      State(clients, entities, tiles.tiles)
    }

    ghost predicate Valid()
      reads this, tiles
    {
      tiles.tileSize == TileSize && Placed(Snapshot()) && HookOk(onClientConnect)
    }

    /** `ServerHandler::new`: empty tables, a 500 x 500 grid of 16-unit tiles,
        no callback. */
    constructor ()
      ensures Valid() && fresh(tiles)
      ensures clients == map[] && entities == map[] && onClientConnect == None
      ensures tiles.tileSize == 16 && |tiles.tiles| == 500
      ensures forall j :: 0 <= j < 500 ==> |tiles.tiles[j]| == 500
      ensures forall j, i :: 0 <= j < 500 && 0 <= i < 500 ==> tiles.tiles[j][i] == Tile(i * 16, j * 16, 1, [])
    {
      clients := map[];
      entities := map[];
      tiles := new Tiles(500, 500, 16);
      onClientConnect := None;
    }

    /** `get_player`: the registry entry of the client's player, if any. */
    function GetPlayer(src: Addr): (r: Option<Entity>)
      reads this
      ensures r.Some? <==> PlayerKey(src) in entities
      ensures r.Some? ==> r.value == entities[PlayerKey(src)]
    {
      var key := PlayerKey(src);
      if key in entities then Some(entities[key]) else None
    }

    /** `set_on_client_connect`. */
    method SetOnClientConnect(callback: ConnectHook)
      requires Valid() && HookOk(Some(callback))
      modifies this
      ensures Valid() && onClientConnect == Some(callback)
      ensures clients == old(clients) && entities == old(entities)
    {
      onClientConnect := Some(callback);
    }

    /** `add_client`: run the callback on this server; without one the packet's
        connect is skipped (the source only prints a diagnostic). */
    method AddClient(src: Addr)
      requires Valid()
      modifies this, tiles
      ensures Valid() && onClientConnect == old(onClientConnect)
      ensures Snapshot() == Connected(old(Snapshot()), onClientConnect, src)
    {
      match onClientConnect {
        case Some(callback) =>
          var r := callback(Snapshot(), src);
          clients := r.clients;
          entities := r.entities;
          tiles.tiles := r.grid;
        case None =>
      }
    }

    /** `update_client`: refresh a known client's last-seen time. */
    method UpdateClient(src: Addr, now: int)
      requires Valid()
      modifies this
      ensures Valid() && onClientConnect == old(onClientConnect)
      ensures Snapshot() == Updated(old(Snapshot()), src, now)
    {
      if src in clients {
        clients := clients[src := now];
      }
    }

    /** `disconnect_client`. */
    method DisconnectClient(src: Addr)
      requires Valid()
      modifies this, tiles
      ensures Valid() && onClientConnect == old(onClientConnect)
      ensures Snapshot() == Disconnected(old(Snapshot()), src)
      ensures GetPlayer(src) == None && src !in clients
    {
      var key := PlayerKey(src);
      if key in entities {
        var e := entities[key];
        var t := TileIndex(TileSize, e.x, e.y);
        tiles.RemoveEntity(key, t.0, t.1);
      }
      entities := entities - {key};
      clients := map a | a in clients && a != src :: clients[a];
    }

    /** `check_clients`: evict every client whose time is in the future or at
        least `Timeout` seconds old, one address at a time, with its player. */
    method CheckClients(now: int)
      requires Valid()
      modifies this
      ensures Valid() && onClientConnect == old(onClientConnect)
      ensures Snapshot() == Swept(old(Snapshot()), now)
    {
      var timedOut := set a | a in clients && TimedOut(clients[a], now);
      var pending := timedOut;
      while pending != {}
        invariant pending <= timedOut
        invariant clients == old(clients) - (timedOut - pending)
        invariant entities == old(entities) - PlayerKeys(timedOut - pending)
        invariant onClientConnect == old(onClientConnect)
        decreases pending
      {
        var a :| a in pending;
        ghost var done := timedOut - pending;
        entities := entities - {PlayerKey(a)};
        clients := clients - {a};
        pending := pending - {a};
        assert timedOut - pending == done + {a};
        assert PlayerKeys(done + {a}) == PlayerKeys(done) + {PlayerKey(a)};
        MinusTwice(old(entities), PlayerKeys(done), {PlayerKey(a)});
        MinusTwice(old(clients), done, {a});
      }
      assert timedOut == Evicted(old(clients), now);
      SweptPlaced(old(Snapshot()), now);
    }

    /** `receive_events`: drain the batch, connecting unknown senders, acting on
        command tags, and collecting application data by sender. */
    method ReceiveEvents(events: seq<Event>, now: int) returns (unhandled: map<Addr, string>)
      requires Valid()
      modifies this, tiles
      ensures Valid() && onClientConnect == old(onClientConnect)
      ensures (Snapshot(), unhandled) == Run(old(Snapshot()), map[], events, onClientConnect, now)
      ensures forall a :: a in unhandled <==> exists i :: 0 <= i < |events| && DataFrom(events[i], a)
      ensures forall a, i :: LastDataFrom(events, i, a) ==> unhandled[a] == events[i].payload
    {
      unhandled := map[];
      var i := 0;
      while i < |events|
        invariant 0 <= i <= |events|
        invariant Valid() && onClientConnect == old(onClientConnect)
        invariant Run(Snapshot(), unhandled, events[i..], onClientConnect, now)
               == Run(old(Snapshot()), map[], events, onClientConnect, now)
      {
        ghost var before := Snapshot();
        ghost var beforeOut := unhandled;
        match events[i] {
          case Packet(src, payload) =>
            if src !in clients {
              AddClient(src);
            }
            match Classify(payload) {
              case Heartbeat => UpdateClient(src, now);
              case ConnectCmd =>
              case DisconnectCmd => DisconnectClient(src);
              case AppData => unhandled := unhandled[src := payload];
            }
          case OtherEvent =>
        }
        assert (Snapshot(), unhandled) == Step(before, beforeOut, events[i], onClientConnect, now);
        assert events[i..][1..] == events[i + 1..];
        i := i + 1;
      }
      forall a ensures a in unhandled <==> exists i :: 0 <= i < |events| && DataFrom(events[i], a) {
        RunOutputKeys(old(Snapshot()), map[], events, onClientConnect, now, a);
      }
      forall a, i | LastDataFrom(events, i, a) ensures unhandled[a] == events[i].payload {
        RunOutputLast(old(Snapshot()), map[], events, onClientConnect, now, a, i);
      }
    }
  }
}
