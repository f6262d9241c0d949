/**
 The list formatter used for diagnostics: the items' text joined by ", " and
 wrapped in square brackets.  Items are given already rendered as strings.
 */
module Utils {

  /** `items.join(sep)`: the items in order with `sep` between neighbours. */
  function Join(items: seq<string>, sep: string): (r: string)
    ensures |items| == 0 ==> r == ""
    ensures |items| == 1 ==> r == items[0]
  {
    if |items| == 0 then ""
    else if |items| == 1 then items[0]
    else items[0] + sep + Join(items[1..], sep)
  }

  /** The summed lengths of the items. */
  function TotalLength(items: seq<string>): nat {
    if items == [] then 0 else |items[0]| + TotalLength(items[1..])
  }

  /** Where item i starts in `Join(items, sep)`: each earlier item and its
      separator come before it. */
  function Offset(items: seq<string>, sep: string, i: nat): nat
    requires i <= |items|
  {
    if i == 0 then 0 else |items[0]| + |sep| + Offset(items[1..], sep, i - 1)
  }

  /** `format_vector`. */
  function FormatVector(items: seq<string>): (r: string)
    ensures |r| >= 2 && r[0] == '[' && r[|r| - 1] == ']'
  {
    "[" + Join(items, ", ") + "]"
  }

  lemma FormatEmpty()
    ensures FormatVector([]) == "[]"
  {
  }

  lemma FormatSingle(s: string)
    ensures FormatVector([s]) == "[" + s + "]"
  {
  }

  lemma {:induction false} JoinLength(items: seq<string>, sep: string)
    requires |items| >= 1
    ensures |Join(items, sep)| == TotalLength(items) + |sep| * (|items| - 1)
  {
    if |items| > 1 {
      JoinLength(items[1..], sep);
    }
  }

  /** For n >= 1 items the text is the items, n - 1 separators of two
      characters and the two brackets. */
  lemma FormatLength(items: seq<string>)
    requires |items| >= 1
    ensures |FormatVector(items)| == 2 + TotalLength(items) + 2 * (|items| - 1)
  {
    JoinLength(items, ", ");
  }

  /** Joining two non-empty lists is joining each and putting one separator
      between the results. */
  lemma {:induction false} JoinAppend(a: seq<string>, b: seq<string>, sep: string)
    requires |a| >= 1 && |b| >= 1
    ensures Join(a + b, sep) == Join(a, sep) + sep + Join(b, sep)
  {
    assert (a + b)[0] == a[0];
    if |a| > 1 {
      assert (a + b)[1..] == a[1..] + b;
      JoinAppend(a[1..], b, sep);
    } else {
      assert (a + b)[1..] == b;
    }
  }

  /** A slice inside the left operand of a concatenation. */
  lemma SliceLeft(a: string, b: string, lo: nat, hi: nat)
    requires lo <= hi <= |a|
    ensures (a + b)[lo .. hi] == a[lo .. hi]
  {
    assert forall p :: lo <= p < hi ==> (a + b)[p] == a[p];
  }

  /** A slice inside the right operand of a concatenation. */
  lemma SliceRight(a: string, b: string, lo: nat, hi: nat)
    requires lo <= hi <= |b|
    ensures (a + b)[|a| + lo .. |a| + hi] == b[lo .. hi]
  {
    assert forall p :: lo <= p < hi ==> (a + b)[|a| + p] == b[p];
  }

  /** Item i stands at `Offset(items, sep, i)` in the joined text. */
  lemma {:induction false} JoinItem(items: seq<string>, sep: string, i: nat)
    requires i < |items|
    ensures Offset(items, sep, i) + |items[i]| <= |Join(items, sep)|
    ensures Join(items, sep)[Offset(items, sep, i) .. Offset(items, sep, i) + |items[i]|] == items[i]
  {
    if |items| == 1 {
      assert Join(items, sep) == items[0];
    } else {
      var head, tail := items[0] + sep, Join(items[1..], sep);
      assert Join(items, sep) == head + tail;
      if i == 0 {
        SliceLeft(head, tail, 0, |items[0]|);
        SliceLeft(items[0], sep, 0, |items[0]|);
      } else {
        JoinItem(items[1..], sep, i - 1);
        var o := Offset(items[1..], sep, i - 1);
        assert items[1..][i - 1] == items[i];
        SliceRight(head, tail, o, o + |items[i]|);
      }
    }
  }

  /** Exactly `sep` follows item i unless it is the last item. */
  lemma {:induction false} JoinSeparator(items: seq<string>, sep: string, i: nat)
    requires i + 1 < |items|
    ensures Offset(items, sep, i) + |items[i]| + |sep| <= |Join(items, sep)|
    ensures Join(items, sep)[Offset(items, sep, i) + |items[i]| .. Offset(items, sep, i) + |items[i]| + |sep|] == sep
  {
    var head, tail := items[0] + sep, Join(items[1..], sep);
    assert Join(items, sep) == head + tail;
    if i == 0 {
      SliceLeft(head, tail, |items[0]|, |head|);
      SliceRight(items[0], sep, 0, |sep|);
    } else {
      var lo := Offset(items[1..], sep, i - 1) + |items[1..][i - 1]|;
      assert tail[lo .. lo + |sep|] == sep by {
        JoinSeparator(items[1..], sep, i - 1);
      }
      assert Join(items, sep)[|head| + lo .. |head| + lo + |sep|] == sep by {
        SliceRight(head, tail, lo, lo + |sep|);
      }
      assert Offset(items, sep, i) + |items[i]| == |head| + lo by {
        assert items[1..][i - 1] == items[i];
      }
    }
  }

  /** Item i stands at `Offset(items, sep, i)` in the joined text, and exactly
      `sep` follows it unless it is the last item. */
  lemma JoinSlice(items: seq<string>, sep: string, i: nat)
    requires i < |items|
    ensures Offset(items, sep, i) + |items[i]| <= |Join(items, sep)|
    ensures Join(items, sep)[Offset(items, sep, i) .. Offset(items, sep, i) + |items[i]|] == items[i]
    ensures i + 1 < |items| ==>
              && Offset(items, sep, i) + |items[i]| + |sep| <= |Join(items, sep)|
              && Join(items, sep)[Offset(items, sep, i) + |items[i]| .. Offset(items, sep, i) + |items[i]| + |sep|] == sep
  {
    JoinItem(items, sep, i);
    if i + 1 < |items| {
      JoinSeparator(items, sep, i);
    }
  }

  /** Between the two brackets stands exactly the ", "-joined list, so item i
      of the input sits at position 1 + Offset(items, ", ", i) (JoinSlice). */
  lemma FormatInterior(items: seq<string>)
    ensures var r := FormatVector(items);
            r[1 .. |r| - 1] == Join(items, ", ")
  {
    var j := Join(items, ", ");
    SliceLeft("[" + j, "]", 1, 1 + |j|);
    SliceRight("[", j, 0, |j|);
  }

  /** Consecutive offsets differ by the item and one separator. */
  lemma {:induction false} OffsetStep(items: seq<string>, sep: string, i: nat)
    requires i + 1 <= |items| - 1
    ensures Offset(items, sep, i + 1) == Offset(items, sep, i) + |items[i]| + |sep|
  {
    if i > 0 {
      OffsetStep(items[1..], sep, i - 1);
    }
  }

  /** The last item ends where the joined text ends. */
  lemma {:induction false} OffsetLast(items: seq<string>, sep: string)
    requires |items| >= 1
    ensures Offset(items, sep, |items| - 1) + |items[|items| - 1]| == |Join(items, sep)|
  {
    if |items| > 1 {
      OffsetLast(items[1..], sep);
      assert items[1..][|items[1..]| - 1] == items[|items| - 1];
    }
  }
}
