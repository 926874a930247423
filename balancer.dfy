/** The resize balancer: how a drag of the grab handle turns into two new
    pane sizes along the split's main axis. */
module Balancer {

  /** Reference definition: `x` pulled into the interval [lo, hi]. */
  function Clamp(x: int, lo: int, hi: int): (r: int)
    requires lo <= hi
    ensures lo <= r <= hi
    ensures r == x || (x < lo && r == lo) || (hi < x && r == hi)
  {
    if x < lo then lo else if hi < x then hi else x
  }

  /** The balancer of one pane. `self` is the pane's prospective size,
      `other` the complementary pane's prospective size, `total` their sum
      and `min` the floor: a pane that would fall below the floor is set to
      the floor, a pane whose partner would fall below it takes everything
      but the floor, and otherwise the prospective size stands. */
  function Balance(self: int, other: int, total: int, min: int): (r: int)
    ensures self < min ==> r == min
    ensures min <= self && other < min ==> r == total - min
    ensures min <= self && min <= other ==> r == self
    ensures self + other == total && 2 * min <= total ==> r == Clamp(self, min, total - min)
  {
    if self < min then min
    else if other < min then total - min
    else self
  }

  /** The sizes of the two panes along the main axis. */
  datatype Panes = Panes(one: int, two: int)

  function Total(s: Panes): int
  {
    s.one + s.two
  }

  /** Both panes meet the floor. */
  predicate Settled(s: Panes, min: int)
  {
    min <= s.one && min <= s.two
  }

  /** The resize applied when a drag ends with the handle displaced by `p`
      along the drag axis. All three inputs of the balancer are taken from
      the sizes before the drag; pane one grows by `p` and pane two shrinks
      by it, each clamped by the balancer. When the floor fits twice into
      the total, the sum is kept and both panes meet the floor. */
  function DragEnd(s: Panes, p: int, min: int): (r: Panes)
    ensures 2 * min <= Total(s) ==> Total(r) == Total(s) && Settled(r, min)
    ensures 2 * min <= Total(s) ==> r.one == Clamp(s.one + p, min, Total(s) - min)
    ensures Settled(Panes(s.one + p, s.two - p), min) ==> r == Panes(s.one + p, s.two - p)
  {
    var deltaOne := s.two - p;
    var deltaTwo := s.one + p;
    var total := s.two + s.one;
    Panes(Balance(deltaTwo, deltaOne, total, min), Balance(deltaOne, deltaTwo, total, min))
  }

  /** A drag that does not move the handle leaves settled panes alone. */
  lemma DragEndZeroIsIdentity(s: Panes, min: int)
    requires Settled(s, min)
    ensures DragEnd(s, 0, min) == s
  {
  }

  /** Dragging back by the same distance undoes a drag that needed no
      clamping. */
  lemma DragEndUndo(s: Panes, p: int, min: int)
    requires Settled(s, min)
    requires Settled(Panes(s.one + p, s.two - p), min)
    ensures DragEnd(DragEnd(s, p, min), -p, min) == s
  {
  }

  /** A larger displacement never leaves pane one smaller. */
  lemma DragEndMonotone(s: Panes, p: int, q: int, min: int)
    requires 2 * min <= Total(s)
    requires p <= q
    ensures DragEnd(s, p, min).one <= DragEnd(s, q, min).one
    ensures DragEnd(s, q, min).two <= DragEnd(s, p, min).two
  {
  }

  /** The sizes after a whole sequence of drags, in order. */
  function DragSession(s: Panes, drags: seq<int>, min: int): (r: Panes)
    ensures 2 * min <= Total(s) ==> Total(r) == Total(s)
    ensures 2 * min <= Total(s) && (|drags| > 0 || Settled(s, min)) ==> Settled(r, min)
    decreases |drags|
  {
    if drags == [] then s else DragSession(DragEnd(s, drags[0], min), drags[1..], min)
  }

  /** Once a drag has completed, a drag that does not move the handle
      changes nothing, however many of them follow. */
  lemma {:induction false} ZeroDragsChangeNothing(s: Panes, drags: seq<int>, min: int)
    requires Settled(s, min)
    requires forall i :: 0 <= i < |drags| ==> drags[i] == 0
    ensures DragSession(s, drags, min) == s
    decreases |drags|
  {
    if drags != [] {
      DragEndZeroIsIdentity(s, min);
      ZeroDragsChangeNothing(s, drags[1..], min);
    }
  }
}
