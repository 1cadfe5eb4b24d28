/** What the widget promises across events: which faults can occur, what a
    page selection does to the dots in each mode, what initialisation
    produces, and when re-synchronisation rebuilds. */
module IndicatorProperties {
  import opened Wrappers
  import opened Tiers
  import opened Counting
  import opened Overflow
  import opened Indicator

  // ---------------------------------------------------------------------
  // Faults
  // ---------------------------------------------------------------------

  /** A well-formed widget never dereferences a missing child: in overflow
      mode with a single page the tier computation faults first. */
  lemma NeverNullView(s: Indicator, p: int)
    requires Wf(s)
    ensures OnPageSelected(s, p).Failure? ==> OnPageSelected(s, p).error.fault == IndexOutOfBounds
  {
    if Overflowing(s) && s.count == 1 && 0 <= p <= 1 {
      SingleDotFaults(p, s.maxDots);
    }
  }

  /** With a budget of at least one dot no page selection raises. */
  lemma NoFaultWithBudgetOne(s: Indicator, p: int)
    requires Wf(s) && s.maxDots >= 1
    ensures OnPageSelected(s, p).Success?
  {
    if Overflowing(s) && 0 <= p <= s.count {
      if s.maxDots >= 2 {
        OverflowStatesMatchWindow(p, s.count, s.maxDots);
      } else {
        BudgetOneInBounds(p, s.count);
      }
    }
  }

  // ---------------------------------------------------------------------
  // Overflow mode
  // ---------------------------------------------------------------------

  /** Overflow mode ignores an empty indicator and positions outside
      `[0, count]`: nothing changes, the last selection included. */
  lemma OverflowIgnoresBadPosition(s: Indicator, p: int)
    requires Overflowing(s)
    requires s.count == 0 || p < 0 || p > s.count
    ensures OnPageSelected(s, p) == Success(s)
  {
  }

  /** A page selection in overflow mode shows exactly the dots whose window
      tier is not Gone, animates each of them to that tier, leaves the scale
      of hidden dots alone, and records the position. */
  lemma OverflowSelection(s: Indicator, p: int)
    requires Wf(s) && InRange(p, s.count, s.maxDots)
    ensures OnPageSelected(s, p).Success?
    ensures var t := OnPageSelected(s, p).value;
      && t.count == s.count && t.maxDots == s.maxDots && t.lastSelected == p
      && |t.dots| == |s.dots| == s.count
      && forall i :: 0 <= i < s.count ==>
           && t.dots[i].visible == (WindowTier(p, s.count, s.maxDots, i) != Gone)
           && t.dots[i].scale == (if t.dots[i].visible then WindowTier(p, s.count, s.maxDots, i)
                                  else s.dots[i].scale)
  {
    OverflowStatesMatchWindow(p, s.count, s.maxDots);
  }

  /** Overflow output depends on `(p, count, maxDots)` only: two well-formed
      widgets with the same count and budget, whatever their history, end with
      the same shown dots at the same scales. */
  lemma OverflowIgnoresHistory(s1: Indicator, s2: Indicator, p: int)
    requires Wf(s1) && Wf(s2)
    requires s1.count == s2.count && s1.maxDots == s2.maxDots
    requires InRange(p, s1.count, s1.maxDots)
    ensures OnPageSelected(s1, p).Success? && OnPageSelected(s2, p).Success?
    ensures var t1 := OnPageSelected(s1, p).value; var t2 := OnPageSelected(s2, p).value;
      && t1.lastSelected == t2.lastSelected
      && |t1.dots| == |t2.dots|
      && forall i :: 0 <= i < |t1.dots| ==>
           t1.dots[i].visible == t2.dots[i].visible
           && (t1.dots[i].visible ==> t1.dots[i].scale == t2.dots[i].scale)
  {
    OverflowSelection(s1, p);
    OverflowSelection(s2, p);
  }

  /** After an overflow selection the only shown dot at Selected scale is
      the selected one. */
  lemma OverflowShowsOneSelected(s: Indicator, p: int)
    requires Wf(s) && InRange(p, s.count, s.maxDots)
    ensures var t := OnPageSelected(s, p).value;
      forall i :: 0 <= i < |t.dots| ==> (t.dots[i].visible && t.dots[i].scale == Selected <==> i == p)
  {
    OverflowSelection(s, p);
  }

  /** Selecting position `count`, which the guard admits, stamps Selected
      into the extra slot that is never applied: no shown dot is selected. */
  lemma PastEndShowsNoSelection(s: Indicator)
    requires Wf(s) && InRange(s.count, s.count, s.maxDots)
    ensures OnPageSelected(s, s.count).Success?
    ensures var t := OnPageSelected(s, s.count).value;
      t.lastSelected == s.count
      && forall i :: 0 <= i < |t.dots| ==> !(t.dots[i].visible && t.dots[i].scale == Selected)
  {
    OverflowShowsOneSelected(s, s.count);
  }

  /** With a budget of at least four, an overflow selection shows at most
      `maxDots` dots. */
  lemma OverflowShowsAtMostBudget(s: Indicator, p: int)
    requires Wf(s) && InRange(p, s.count, s.maxDots) && 4 <= s.maxDots
    ensures CountWhere(OnPageSelected(s, p).value.dots, (d: Dot) => d.visible) <= s.maxDots
  {
    var n, m := s.count, s.maxDots;
    OverflowSelection(s, p);
    WindowContainment(p, n, m);
    OverflowStatesMatchWindow(p, n, m);
    var t := OnPageSelected(s, p).value;
    var rs := RealStart(p, n, m);
    forall i | 0 <= i < |t.dots| && t.dots[i].visible ensures rs <= i < rs + m {
      assert WindowTier(p, n, m, i) == OverflowStates(p, n, m).value[i];
    }
    CountWithinRange(t.dots, (d: Dot) => d.visible, rs, rs + m);
  }

  // ---------------------------------------------------------------------
  // Simple mode
  // ---------------------------------------------------------------------

  /** A page selection in simple mode resets the previous dot (when there is
      one and it exists) to Normal, selects dot `p` (when it exists), leaves
      every other dot and every visibility alone, and records `p`. */
  lemma SimpleSelection(s: Indicator, p: int)
    requires !Overflowing(s)
    ensures OnPageSelected(s, p).Success?
    ensures var t := OnPageSelected(s, p).value;
      && t.count == s.count && t.lastSelected == p && |t.dots| == |s.dots|
      && forall i :: 0 <= i < |s.dots| ==>
           && t.dots[i].visible == s.dots[i].visible
           && t.dots[i].scale == (if i == p then Selected
                                  else if i == s.lastSelected then Normal
                                  else s.dots[i].scale)
  {
  }

  /** The shape simple mode keeps: every dot shown, the last selected one at
      Selected and all others at Normal. */
  predicate SimpleShape(s: Indicator)
  {
    forall i :: 0 <= i < |s.dots| ==> s.dots[i] == Dot(true, if i == s.lastSelected then Selected else Normal)
  }

  /** Simple-mode selections keep that shape, including for positions that
      have no dot: afterwards dot `p` is the only Selected one (none when `p`
      has no dot) and every other dot is Normal. */
  lemma SimpleSelectionKeepsShape(s: Indicator, p: int)
    requires !Overflowing(s) && SimpleShape(s)
    ensures SimpleShape(OnPageSelected(s, p).value)
    ensures var t := OnPageSelected(s, p).value;
      forall i :: 0 <= i < |t.dots| ==> (t.dots[i].scale == Selected <==> i == p)
    ensures var t := OnPageSelected(s, p).value;
      forall i :: 0 <= i < |t.dots| && i != p ==> t.dots[i].scale == Normal
  {
    SimpleSelection(s, p);
    var t := OnPageSelected(s, p).value;
    forall i | 0 <= i < |t.dots| ensures t.dots[i].scale == (if i == p then Selected else Normal) {
      assert t.dots[i] == Dot(true, if i == t.lastSelected then Selected else Normal);
    }
  }

  // ---------------------------------------------------------------------
  // Initialisation and re-synchronisation
  // ---------------------------------------------------------------------

  /** Initialising within the budget never raises: the dots are built at
      Normal, page 0 is selected, and the simple-mode shape holds. */
  lemma InitSimple(count: nat, maxDots: int)
    requires count <= maxDots
    ensures Init(count, maxDots).Success?
    ensures var s := Init(count, maxDots).value;
      && s.lastSelected == 0
      && |s.dots| == (if count <= 1 then 0 else count)
      && SimpleShape(s)
  {
    var s0 := Indicator(count, maxDots, -1, CreateIndicators(count, maxDots));
    assert SimpleShape(s0);
    SimpleSelectionKeepsShape(s0, 0);
  }

  /** Initialising past the budget (of at least two) builds every dot at
      Smallest and selects page 0: the window dots are shown at their window
      tier and the others are hidden, still at Smallest. */
  lemma InitOverflow(count: nat, maxDots: int)
    requires 2 <= maxDots < count
    ensures Init(count, maxDots).Success?
    ensures var s := Init(count, maxDots).value;
      && s.lastSelected == 0
      && |s.dots| == count
      && forall i :: 0 <= i < count ==>
           var t := WindowTier(0, count, maxDots, i);
           s.dots[i] == (if t == Gone then Dot(false, Smallest) else Dot(true, t))
  {
    var s0 := Indicator(count, maxDots, -1, CreateIndicators(count, maxDots));
    OverflowSelection(s0, 0);
  }

  /** Without pages there are no dots; the selection of page 0 is recorded
      in simple mode and ignored by the overflow guard (possible only with a
      negative budget). */
  lemma InitNoPages(maxDots: int)
    ensures Init(0, maxDots).Success?
    ensures Init(0, maxDots).value.dots == []
    ensures Init(0, maxDots).value.lastSelected == (if maxDots < 0 then -1 else 0)
  {
  }

  /** A single page with a budget below one puts the widget in overflow mode,
      and the tail pin then stores before the start of the tier array. */
  lemma InitSinglePageFaults(maxDots: int)
    requires maxDots < 1
    ensures Init(1, maxDots) == Failure(Raised(IndexOutOfBounds, Indicator(1, maxDots, -1, [])))
  {
    SingleDotFaults(0, maxDots);
  }

  /** The widget a faulted initialisation leaves behind already records the
      new count, so a later re-synchronisation with the same item count does
      nothing and does not retry the initialisation. */
  lemma FaultedInitIsNotRetried(maxDots: int)
    requires maxDots < 1
    ensures Init(1, maxDots).Failure?
    ensures var left := Init(1, maxDots).error.state;
      UpdateIndicatorsCount(left, 1) == Success(left)
  {
    InitSinglePageFaults(maxDots);
  }

  /** Re-synchronising twice with the same item count is the same as once. */
  lemma ResyncIdempotent(s: Indicator, itemCount: nat)
    ensures var r := UpdateIndicatorsCount(s, itemCount);
      r.Success? ==> UpdateIndicatorsCount(r.value, itemCount) == r
  {
  }

  /** A re-synchronisation that changes the count forgets the previous dots
      and selection: the result depends only on the new count and the budget. */
  lemma ResyncForgetsHistory(s1: Indicator, s2: Indicator, itemCount: nat)
    requires s1.maxDots == s2.maxDots
    requires s1.count != itemCount && s2.count != itemCount
    ensures UpdateIndicatorsCount(s1, itemCount) == UpdateIndicatorsCount(s2, itemCount)
  {
  }

  // ---------------------------------------------------------------------
  // Worked examples
  // ---------------------------------------------------------------------

  /** Three pages with the default budget of nine, page 1 selected: simple
      mode shows Normal, Selected, Normal. */
  lemma ThreePagesSelectSecond()
    ensures Init(3, DefaultMaxDots).Success?
    ensures OnPageSelected(Init(3, DefaultMaxDots).value, 1).Success?
    ensures OnPageSelected(Init(3, DefaultMaxDots).value, 1).value.dots ==
      [Dot(true, Normal), Dot(true, Selected), Dot(true, Normal)]
  {
    InitSimple(3, DefaultMaxDots);
    var s := Init(3, DefaultMaxDots).value;
    SimpleSelectionKeepsShape(s, 1);
    var t := OnPageSelected(s, 1).value;
    assert |t.dots| == 3;
    assert t.dots[0] == Dot(true, Normal) && t.dots[1] == Dot(true, Selected) && t.dots[2] == Dot(true, Normal);
  }
}
