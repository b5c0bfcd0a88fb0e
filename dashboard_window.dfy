/** The dashboard's reading window (frontend/app/dashboard/page.tsx): the
    newest-first list of readings the page keeps for the selected device, and
    how one live message changes it. There is no deduplication: the update
    only prepends and truncates. */
module Window {
  import opened Json

  /** The most readings the page keeps, and the `limit` its snapshot asks for. */
  const Capacity: nat := 200

  function Min(a: int, b: int): int
  {
    if a <= b then a else b
  }

  /** `setReadings(prev => [d, ...prev].slice(0, 200))`: the message goes in
      front, the rest is the start of the old window in the same order, and
      the oldest readings beyond the capacity fall off. */
  function LivePush(d: Json, prev: seq<Json>): (w: seq<Json>)
    ensures |w| == Min(|prev| + 1, Capacity)
    ensures |w| <= Capacity
    ensures w[0] == d
    ensures w[1..] == prev[..|w| - 1]
    ensures |prev| < Capacity ==> |w| == |prev| + 1
  {
    ([d] + prev)[..Min(|prev| + 1, Capacity)]
  }

  /** The same reading delivered twice in a row is kept twice: nothing is
      recognised as a duplicate, by frame counter or otherwise. */
  lemma DeliveredTwiceKeptTwice(d: Json, prev: seq<Json>)
    requires |prev| + 2 <= Capacity
    ensures var w := LivePush(d, LivePush(d, prev));
      |w| == |prev| + 2 && w[0] == d && w[1] == d && w[2..] == prev
  {
  }

  /** The sequence reversed: `s.slice().reverse()`. */
  function Reversed<T>(s: seq<T>): (r: seq<T>)
    ensures |r| == |s|
  {
    if s == [] then [] else Reversed(s[1..]) + [s[0]]
  }

  lemma {:induction false} ReversedAt<T>(s: seq<T>, i: nat)
    requires i < |s|
    ensures Reversed(s)[i] == s[|s| - 1 - i]
  {
    if i < |s| - 1 {
      ReversedAt(s[1..], i);
    }
  }

  /** The window after live messages `ds`, delivered in that order. */
  function PushAll(ds: seq<Json>, w: seq<Json>): seq<Json>
  {
    if ds == [] then w else PushAll(ds[1..], LivePush(ds[0], w))
  }

  /** After a run of live messages the window holds the newest `Capacity`
      readings, newest first: the messages in reverse arrival order, then
      the old window. */
  lemma {:induction false} PushAllKeepsNewest(ds: seq<Json>, w: seq<Json>)
    requires ds != [] || |w| <= Capacity
    ensures PushAll(ds, w) == (Reversed(ds) + w)[..Min(|ds| + |w|, Capacity)]
    ensures |PushAll(ds, w)| <= Capacity
  {
    if ds == [] {
      assert Reversed(ds) + w == w;
    } else {
      var w1 := LivePush(ds[0], w);
      PushAllKeepsNewest(ds[1..], w1);
      var r' := Reversed(ds[1..]);
      var a := r' + [ds[0]] + w;
      assert Reversed(ds) + w == a;
      var k := Min(|w| + 1, Capacity);
      assert r' + w1 == a[..|r'| + k] by {
        assert w1 == ([ds[0]] + w)[..k];
        assert a == r' + ([ds[0]] + w);
      }
      assert (r' + w1)[..Min(|ds[1..]| + |w1|, Capacity)] == a[..Min(|ds| + |w|, Capacity)];
    }
  }
}
