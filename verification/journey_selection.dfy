/**
 * The selection and animation state of components/CustomerJourneyTab.tsx:
 * `selectedPoint` and `animationIndex`, the click, reset and animate handlers,
 * and the callbacks `handleAnimate` registers with `setTimeout`.
 *
 * The browser's timer queue is a field of the view: every registered callback
 * is a `Timer` (when it is due, what it does), and firing one runs the
 * earliest, the first registered among equal due times, as `setTimeout` does.
 * The clock is a field; time passes by waiting up to the next due callback
 * or by firing it.
 */
module JourneySelection {
  import opened Wrappers
  import opened JourneyLayout

  /** What a registered callback does when it fires. */
  datatype Action =
    | Show(index: int, point: Touchpoint)  // setAnimationIndex(index); setSelectedPoint(point)
    | EndAnimation                         // setAnimationIndex(-1)

  /** A callback registered with `setTimeout`, due at `due` milliseconds. */
  datatype Timer = Timer(due: int, action: Action)

  /** The two state variables of the component. */
  datatype ViewState = ViewState(selected: Option<Touchpoint>, animationIndex: int)

  /** The delay between two animation steps, in milliseconds. */
  const StepDelay: int := 800

  const Cleared: ViewState := ViewState(None, -1)

  /**
   * The effect of one callback on the state: a step selects its point and
   * highlights its index; the last callback only clears the highlight.
   */
  function Apply(v: ViewState, a: Action): (r: ViewState)
    ensures a.Show? ==> r.selected == Some(a.point) && r.animationIndex == a.index
    ensures a.EndAnimation? ==> r.selected == v.selected && r.animationIndex == -1
  {
    match a
    case Show(i, p) => ViewState(Some(p), i)
    case EndAnimation => v.(animationIndex := -1)
  }

  /** The state after the callbacks fire in the order given. */
  function Run(v: ViewState, ts: seq<Timer>): ViewState
    decreases |ts|
  {
    if ts == [] then v else Run(Apply(v, ts[0].action), ts[1..])
  }

  lemma {:induction false} RunAppend(v: ViewState, a: seq<Timer>, b: seq<Timer>)
    ensures Run(v, a + b) == Run(Run(v, a), b)
    decreases |a|
  {
    if a == [] {
      assert a + b == b;
    } else {
      assert (a + b)[1..] == a[1..] + b;
      RunAppend(Apply(v, a[0].action), a[1..], b);
    }
  }

  /** The callback that shows point `i`, registered at `start`. */
  function ShowTimer(start: int, points: seq<Touchpoint>, i: int): Timer
    requires 0 <= i < |points|
  {
    Timer(start + i * StepDelay, Show(i, points[i]))
  }

  /** Everything `handleAnimate` registers at time `start`, in registration order. */
  function AnimationTimers(start: int, points: seq<Touchpoint>): (ts: seq<Timer>)
    ensures |ts| == |points| + 1
    ensures forall i :: 0 <= i < |points| ==> ts[i] == ShowTimer(start, points, i)
    ensures ts[|points|] == Timer(start + |points| * StepDelay, EndAnimation)
  {
    seq(|points|, i requires 0 <= i < |points| => ShowTimer(start, points, i))
    + [Timer(start + |points| * StepDelay, EndAnimation)]
  }

  /** Due times never decrease along the list. */
  predicate SortedByDue(ts: seq<Timer>) {
    forall i, j :: 0 <= i <= j < |ts| ==> ts[i].due <= ts[j].due
  }

  /** The animation's callbacks are due one step apart, in registration order. */
  lemma AnimationTimersSorted(start: int, points: seq<Touchpoint>)
    ensures SortedByDue(AnimationTimers(start, points))
    ensures forall i :: 0 <= i < |points| ==>
      AnimationTimers(start, points)[i + 1].due == AnimationTimers(start, points)[i].due + StepDelay
  {
  }

  /** A run of animation steps leaves the last one's point selected and its index highlighted. */
  lemma {:induction false} RunShows(v: ViewState, start: int, points: seq<Touchpoint>, lo: int, hi: int)
    requires 0 <= lo < hi <= |points|
    ensures Run(v, AnimationTimers(start, points)[lo..hi]) == ViewState(Some(points[hi - 1]), hi - 1)
    decreases hi - lo
  {
    var ts := AnimationTimers(start, points);
    var v' := Apply(v, ts[lo].action);
    assert ts[lo..hi][1..] == ts[lo + 1..hi];
    if lo + 1 < hi {
      RunShows(v', start, points, lo + 1, hi);
    } else {
      assert ts[lo + 1..hi] == [];
    }
  }

  /** After the first `i + 1` callbacks, point `i` is selected and highlighted. */
  lemma AnimationVisits(v: ViewState, start: int, points: seq<Touchpoint>, i: int)
    requires 0 <= i < |points|
    ensures Run(v, AnimationTimers(start, points)[..i + 1]) == ViewState(Some(points[i]), i)
  {
    assert AnimationTimers(start, points)[..i + 1] == AnimationTimers(start, points)[0..i + 1];
    RunShows(v, start, points, 0, i + 1);
  }

  /**
   * Whatever the state when the callbacks from the `k`-th on fire (after a
   * reset or a click in between, say), they end with the last point selected
   * and no index highlighted.
   */
  lemma AnimationEnds(v: ViewState, start: int, points: seq<Touchpoint>, k: int)
    requires 0 <= k < |points|
    ensures Run(v, AnimationTimers(start, points)[k..]) == ViewState(Some(points[|points| - 1]), -1)
  {
    var ts := AnimationTimers(start, points);
    var n := |points|;
    assert ts[k..] == ts[k..n] + [ts[n]];
    RunAppend(v, ts[k..n], [ts[n]]);
    RunShows(v, start, points, k, n);
  }

  /** A reset after the last step but before the end leaves nothing selected. */
  lemma ResetBeforeEnd(start: int, points: seq<Touchpoint>)
    ensures Run(Cleared, AnimationTimers(start, points)[|points|..]) == Cleared
  {
    var ts := AnimationTimers(start, points);
    assert ts[|points|..] == [ts[|points|]];
  }

  // ---------------------------------------------------------------------------
  // How a point is drawn
  // ---------------------------------------------------------------------------

  /** `selectedPoint?.id === p.id`. */
  predicate IsSelected(p: Touchpoint, v: ViewState) {
    v.selected.Some? && v.selected.value.id == p.id
  }

  /** The circle's radius for the point at `index`. */
  function Radius(index: int, p: Touchpoint, v: ViewState): (r: int)
    ensures r == 14 <==> v.animationIndex == index
    ensures r == 12 <==> v.animationIndex != index && IsSelected(p, v)
    ensures r == 8 <==> v.animationIndex != index && !IsSelected(p, v)
  {
    if v.animationIndex == index then 14 else if IsSelected(p, v) then 12 else 8
  }

  /** The circle's stroke width for the point at `index`. */
  function StrokeWidth(index: int, p: Touchpoint, v: ViewState): (w: int)
    ensures w == 4 <==> v.animationIndex == index || IsSelected(p, v)
    ensures w == 3 <==> v.animationIndex != index && !IsSelected(p, v)
  {
    if v.animationIndex == index || IsSelected(p, v) then 4 else 3
  }

  /** Ids are unique within the list. */
  predicate DistinctIds(points: seq<Touchpoint>) {
    forall i, j :: 0 <= i < j < |points| ==> points[i].id != points[j].id
  }

  /**
   * While step `i` of the animation shows, the point at `i` is drawn largest
   * and every other point at the smallest size.
   */
  lemma HighlightDuringAnimation(v: ViewState, start: int, points: seq<Touchpoint>, i: int, j: int)
    requires DistinctIds(points)
    requires 0 <= i < |points| && 0 <= j < |points|
    ensures var w := Run(v, AnimationTimers(start, points)[..i + 1]);
      && (j == i ==> Radius(j, points[j], w) == 14 && StrokeWidth(j, points[j], w) == 4)
      && (j != i ==> Radius(j, points[j], w) == 8 && StrokeWidth(j, points[j], w) == 3)
  {
    AnimationVisits(v, start, points, i);
  }

  /** The table's ids are distinct. */
  lemma TableDistinctIds(objectives: seq<string>)
    requires |objectives| == 13
    ensures DistinctIds(Table(objectives))
  {
  }

  // ---------------------------------------------------------------------------
  // The timer queue
  // ---------------------------------------------------------------------------

  /** `k` is the callback `setTimeout` runs next: the earliest due, the first registered among ties. */
  predicate IsEarliest(ts: seq<Timer>, k: int) {
    && 0 <= k < |ts|
    && (forall j :: 0 <= j < |ts| ==> ts[k].due <= ts[j].due)
    && (forall j :: 0 <= j < k ==> ts[k].due < ts[j].due)
  }

  /** At most one callback is next. */
  lemma EarliestUnique(ts: seq<Timer>, k: int, m: int)
    requires IsEarliest(ts, k) && IsEarliest(ts, m)
    ensures k == m
  {
    assert ts[k].due == ts[m].due;
  }

  /** In a list sorted by due time the first callback is next. */
  lemma EarliestOfSorted(ts: seq<Timer>, k: int)
    requires SortedByDue(ts) && IsEarliest(ts, k)
    ensures k == 0
  {
    assert ts[0].due <= ts[k].due;
  }

  /** Finds the callback that fires next. */
  method NextDue(ts: seq<Timer>) returns (k: int)
    requires ts != []
    ensures IsEarliest(ts, k)
  {
    k := 0;
    var i := 1;
    while i < |ts|
      invariant 1 <= i <= |ts|
      invariant 0 <= k < i
      invariant forall j :: 0 <= j < i ==> ts[k].due <= ts[j].due
      invariant forall j :: 0 <= j < k ==> ts[k].due < ts[j].due
    {
      if ts[i].due < ts[k].due {
        k := i;
      }
      i := i + 1;
    }
  }

  /** `ts` without its `k`-th element. */
  function RemoveAt(ts: seq<Timer>, k: int): seq<Timer>
    requires 0 <= k < |ts|
  {
    ts[..k] + ts[k + 1..]
  }

  // ---------------------------------------------------------------------------
  // The component
  // ---------------------------------------------------------------------------

  class JourneyView {
    var selected: Option<Touchpoint>
    var animationIndex: int
    /** The time, in milliseconds. */
    var now: int
    /** The callbacks registered and not yet fired, in registration order. */
    var pending: seq<Timer>

    /** No callback is overdue. */
    predicate Valid()
      reads this
    {
      forall t :: t in pending ==> now <= t.due
    }

    function State(): ViewState
      reads this
    {
      ViewState(selected, animationIndex)
    }

    /** The initial state: nothing selected, no step highlighted, nothing registered. */
    constructor ()
      ensures Valid()
      ensures selected == None && animationIndex == -1
      ensures now == 0 && pending == []
    {
      selected := None;
      animationIndex := -1;
      now := 0;
      pending := [];
    }

    /** `handlePointClick`: selects the point and leaves the highlighted step as it is. */
    method Click(p: Touchpoint)
      requires Valid()
      modifies this
      ensures Valid()
      ensures selected == Some(p) && animationIndex == old(animationIndex)
      ensures now == old(now) && pending == old(pending)
    {
      selected := Some(p);
    }

    /** `handleReset`: clears both variables; callbacks already registered stay registered. */
    method Reset()
      requires Valid()
      modifies this
      ensures Valid()
      ensures selected == None && animationIndex == -1
      ensures now == old(now) && pending == old(pending)
    {
      selected := None;
      animationIndex := -1;
    }

    /**
     * `handleAnimate`: resets, then registers one callback per touchpoint,
     * 800 ms apart from now, and one that ends the animation after the last.
     */
    method Animate()
      requires Valid()
      modifies this
      ensures Valid()
      ensures selected == None && animationIndex == -1 && now == old(now)
      ensures pending == old(pending) + AnimationTimers(now, Touchpoints)
    {
      Reset();
      Schedule(Touchpoints);
    }

    /** The `forEach` over the points and the final `setTimeout`. */
    method Schedule(points: seq<Touchpoint>)
      requires Valid()
      modifies this
      ensures Valid()
      ensures selected == old(selected) && animationIndex == old(animationIndex) && now == old(now)
      ensures pending == old(pending) + AnimationTimers(now, points)
    {
      var i := 0;
      while i < |points|
        invariant 0 <= i <= |points|
        invariant Valid() && now == old(now)
        invariant selected == old(selected) && animationIndex == old(animationIndex)
        invariant pending == old(pending) + AnimationTimers(now, points)[..i]
      {
        assert AnimationTimers(now, points)[..i + 1]
          == AnimationTimers(now, points)[..i] + [ShowTimer(now, points, i)];
        pending := pending + [Timer(now + i * StepDelay, Show(i, points[i]))];
        i := i + 1;
      }
      assert AnimationTimers(now, points)
        == AnimationTimers(now, points)[..|points|] + [Timer(now + |points| * StepDelay, EndAnimation)];
      pending := pending + [Timer(now + |points| * StepDelay, EndAnimation)];
    }

    /** Time passes up to `t`, no later than the next due callback; nothing fires. */
    method Wait(t: int)
      requires Valid() && now <= t
      requires forall tm :: tm in pending ==> t <= tm.due
      modifies this
      ensures Valid() && now == t
      ensures selected == old(selected) && animationIndex == old(animationIndex) && pending == old(pending)
    {
      now := t;
    }

    /** The clock moves to the next due callback, which runs and is removed. */
    method FireNext() returns (k: int)
      requires Valid() && pending != []
      modifies this
      ensures Valid()
      ensures IsEarliest(old(pending), k)
      ensures now == old(pending)[k].due
      ensures State() == Apply(old(State()), old(pending)[k].action)
      ensures pending == RemoveAt(old(pending), k)
    {
      k := NextDue(pending);
      var t := pending[k];
      now := t.due;
      pending := RemoveAt(pending, k);
      match t.action
      case Show(i, p) =>
        animationIndex := i;
        selected := Some(p);
      case EndAnimation =>
        animationIndex := -1;
    }

    /** Lets every registered callback fire, when they were registered in due order. */
    method FireAll()
      requires Valid() && SortedByDue(pending)
      modifies this
      ensures Valid() && pending == []
      ensures State() == Run(old(State()), old(pending))
      ensures old(pending) != [] ==> now == old(pending)[|old(pending)| - 1].due
      ensures old(pending) == [] ==> now == old(now)
    {
      ghost var all := pending;
      ghost var fired := 0;
      while pending != []
        invariant Valid() && SortedByDue(pending)
        invariant 0 <= fired <= |all| && pending == all[fired..]
        invariant Run(State(), pending) == Run(old(State()), all)
        invariant fired == 0 ==> now == old(now)
        invariant fired > 0 ==> now == all[fired - 1].due
        decreases |pending|
      {
        ghost var before := pending;
        var k := FireNext();
        EarliestOfSorted(before, k);
        assert pending == before[1..] == all[fired + 1..];
        fired := fired + 1;
      }
    }
  }

  /** Clicking "Animate Journey" and waiting: the last point stays selected, no step highlighted. */
  method AnimateAndWait(view: JourneyView)
    requires view.Valid() && view.pending == []
    modifies view
    ensures view.Valid() && view.pending == []
    ensures view.selected == Some(Touchpoints[12]) && view.animationIndex == -1
  {
    var start := view.now;
    view.Animate();
    ghost var ts := AnimationTimers(start, Touchpoints);
    assert view.pending == ts;
    assert view.State() == Cleared;
    AnimationTimersSorted(start, Touchpoints);
    view.FireAll();
    assert ts[0..] == ts;
    AnimationEnds(Cleared, start, Touchpoints, 0);
  }

  /**
   * A reset during the animation does not stop it: the callbacks still
   * registered fire afterwards and leave the last point selected.
   */
  method ResetMidAnimation(view: JourneyView)
    requires view.Valid() && view.pending == []
    modifies view
    ensures view.Valid() && view.pending == []
    ensures view.selected == Some(Touchpoints[12]) && view.animationIndex == -1
  {
    var start := view.now;
    view.Animate();
    ghost var ts := AnimationTimers(start, Touchpoints);
    assert view.pending == ts;
    AnimationTimersSorted(start, Touchpoints);
    var k := view.FireNext();
    EarliestOfSorted(ts, k);
    view.Reset();
    assert view.pending == ts[1..];
    view.FireAll();
    AnimationEnds(Cleared, start, Touchpoints, 1);
  }
}
