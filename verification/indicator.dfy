/** The indicator widget as a state machine: the dot views it owns, the page
    count, the dot budget and the last selected position, and the events that
    change them (page selected, initialisation, item-count change).

    A dot view is reduced to what the tier logic touches: whether it is shown
    and the scale it was last animated to. Animations are fire-and-forget in
    the widget, so "animate dot i to tier t" is modelled as "dot i now has
    scale t". An exception that escapes an event is modelled as a `Raised`
    value holding the fault and the state the widget is left in. */
module Indicator {
  import opened Wrappers
  import opened Tiers
  import opened Overflow

  /** The budget used when the layout does not configure one. */
  const DefaultMaxDots: int := 9

  /** The runtime exceptions an update can raise. */
  datatype Fault =
    | IndexOutOfBounds  // a store outside the tier array
    | NullView          // a dot index the layout has no child for

  /** One dot view. */
  datatype Dot = Dot(visible: bool, scale: Tier)

  /** The widget's state: the page count it was built for, the configured dot
      budget, the last selected position (-1 before any selection) and one
      dot per page. */
  datatype Indicator = Indicator(count: nat, maxDots: int, lastSelected: int, dots: seq<Dot>)

  /** An exception escaping an event, with the widget state it leaves behind. */
  datatype Raised = Raised(fault: Fault, state: Indicator)

  /** The widget builds either no dots (at most one page) or one per page,
      and never animates a dot to scale zero. */
  predicate Wf(s: Indicator)
  {
    && |s.dots| == (if s.count <= 1 then 0 else s.count)
    && forall i :: 0 <= i < |s.dots| ==> s.dots[i].scale != Gone
  }

  /** The widget is in overflow mode. */
  predicate Overflowing(s: Indicator)
  {
    s.count > s.maxDots
  }

  /** Animating the child at index `i`: the layout yields no child outside
      `[0, |dots|)`, and animating a missing child does nothing. Visibility
      is never touched. */
  function Animate(dots: seq<Dot>, i: int, t: Tier): (r: seq<Dot>)
    ensures |r| == |dots|
    ensures forall j :: 0 <= j < |dots| ==> r[j].visible == dots[j].visible
    ensures !(0 <= i < |dots|) ==> r == dots
    ensures 0 <= i < |dots| ==> r[i].scale == t && forall j :: 0 <= j < |dots| && j != i ==> r[j] == dots[j]
  {
    if 0 <= i < |dots| then dots[i := dots[i].(scale := t)] else dots
  }

  /** Applying one tier to one dot: Gone hides the dot and leaves its scale,
      any other tier shows it and animates it to that tier. */
  function Show(d: Dot, t: Tier): (r: Dot)
    ensures r.visible <==> t != Gone
    ensures r.visible ==> r.scale == t
    ensures !r.visible ==> r.scale == d.scale
  {
    if t == Gone then d.(visible := false) else Dot(true, t)
  }

  /** Applying a tier array to the first `n` dots; slot `n` is never applied.
      A missing child for an index below `n` is a null dereference. */
  function ApplyTiers(dots: seq<Dot>, states: seq<Tier>, n: nat): (r: Result<seq<Dot>, Fault>)
    requires |states| == n + 1
    ensures r.Success? <==> n <= |dots|
    ensures r.Failure? ==> r.error == NullView
    ensures r.Success? ==> |r.value| == |dots|
    ensures r.Success? ==> forall i :: n <= i < |dots| ==> r.value[i] == dots[i]
    ensures r.Success? ==> forall i :: 0 <= i < n ==>
      r.value[i].visible == (states[i] != Gone) && (states[i] != Gone ==> r.value[i].scale == states[i])
  {
    if |dots| < n then Failure(NullView)
    else Success(seq(|dots|, i requires 0 <= i < |dots| => if i < n then Show(dots[i], states[i]) else dots[i]))
  }

  /** Simple mode: the previously selected dot goes back to Normal, the new one
      becomes Selected, and the position is remembered. No guard on `p`. */
  function UpdateSimple(s: Indicator, p: int): (r: Indicator)
    ensures r.count == s.count && r.maxDots == s.maxDots && r.lastSelected == p
    ensures |r.dots| == |s.dots|
  {
    var dots := if s.lastSelected != -1 then Animate(s.dots, s.lastSelected, Normal) else s.dots;
    s.(dots := Animate(dots, p, Selected), lastSelected := p)
  }

  /** Overflow mode: an empty indicator or a position outside `[0, count]`
      leaves the state alone; otherwise the tier array is computed and applied,
      and the position is remembered. The tier array is local and the dots are
      only touched once it is complete, so a fault leaves the state as it was. */
  function UpdateOverflow(s: Indicator, p: int): (r: Result<Indicator, Raised>)
    ensures s.count == 0 || p < 0 || p > s.count ==> r == Success(s)
    ensures r.Success? ==> r.value.count == s.count && r.value.maxDots == s.maxDots
    ensures r.Success? ==> |r.value.dots| == |s.dots|
    ensures r.Success? && r.value != s ==> r.value.lastSelected == p && 0 <= p <= s.count
    ensures r.Failure? ==> r.error.state == s
  {
    if s.count == 0 || p < 0 || p > s.count then Success(s)
    else
      match OverflowStates(p, s.count, s.maxDots)
      case None => Failure(Raised(IndexOutOfBounds, s))
      case Some(states) =>
        match ApplyTiers(s.dots, states, s.count)
        case Failure(f) => Failure(Raised(f, s))
        case Success(dots) => Success(s.(dots := dots, lastSelected := p))
  }

  /** The page-selected event: overflow mode when there are more pages than
      the budget, simple mode otherwise. */
  function OnPageSelected(s: Indicator, p: int): (r: Result<Indicator, Raised>)
    ensures r.Success? ==> r.value.count == s.count && r.value.maxDots == s.maxDots
    ensures r.Failure? ==> r.error.state == s
    ensures r.Success? ==> |r.value.dots| == |s.dots|
    ensures !Overflowing(s) ==> r.Success? && r.value.lastSelected == p
  {
    if Overflowing(s) then UpdateOverflow(s, p) else Success(UpdateSimple(s, p))
  }

  /** The dots built for `count` pages: none for at most one page, otherwise
      one shown dot per page at Smallest in overflow mode and Normal in simple
      mode. */
  function CreateIndicators(count: nat, maxDots: int): (r: seq<Dot>)
    ensures |r| == (if count <= 1 then 0 else count)
    ensures forall i :: 0 <= i < |r| ==> r[i].visible
    ensures forall i :: 0 <= i < |r| ==> r[i].scale == (if count > maxDots then Smallest else Normal)
  {
    if count <= 1 then []
    else seq(count, _ => Dot(true, if count > maxDots then Smallest else Normal))
  }

  /** Initialisation for an adapter holding `count` items: forget the
      selection, rebuild the dots and select page 0. If the selection raises,
      the new count and dots are already in place and no position is
      recorded. */
  function Init(count: nat, maxDots: int): (r: Result<Indicator, Raised>)
    ensures r.Success? ==> r.value.count == count && r.value.maxDots == maxDots
    ensures r.Success? ==> Wf(r.value)
    ensures r.Failure? ==> var left := r.error.state;
      left.count == count && left.maxDots == maxDots && left.lastSelected == -1 && Wf(left)
  {
    var s := Indicator(count, maxDots, -1, CreateIndicators(count, maxDots));
    SelectionPreservesWf(s, 0);
    OnPageSelected(s, 0)
  }

  /** Re-synchronisation after the adapter reports a change: re-initialise
      only when the item count differs. */
  function UpdateIndicatorsCount(s: Indicator, itemCount: nat): (r: Result<Indicator, Raised>)
    ensures r.Success? ==> r.value.count == itemCount && r.value.maxDots == s.maxDots
    ensures s.count == itemCount ==> r == Success(s)
    ensures s.count != itemCount ==> r == Init(itemCount, s.maxDots)
  {
    if s.count != itemCount then Init(itemCount, s.maxDots) else Success(s)
  }

  /** A page selection keeps the dots well formed: the count is untouched and
      every scale written is a non-Gone tier. */
  lemma SelectionPreservesWf(s: Indicator, p: int)
    requires Wf(s)
    ensures OnPageSelected(s, p).Success? ==> Wf(OnPageSelected(s, p).value)
  {
    var r := OnPageSelected(s, p);
    if r.Success? && Overflowing(s) && r.value != s {
      var states := OverflowStates(p, s.count, s.maxDots).value;
      forall i | 0 <= i < |s.dots| ensures r.value.dots[i].scale != Gone {
        if i < s.count && states[i] == Gone {
          assert r.value.dots[i].scale == s.dots[i].scale;
        }
      }
    }
  }
}
