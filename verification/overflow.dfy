/** The overflow-mode tier computation: given the selected position `p`, the
    number of dots `n` and the dot budget `m`, the array of `n + 1` tiers the
    widget computes before it touches any view.

    The computation is modelled twice:
    - `OverflowStates` follows the source statement by statement. Every array
      store goes through `Put`, which fails (`None`) where the JVM would throw
      an index-out-of-bounds exception, so the function is total in `p`, `n`
      and `m`;
    - `WindowTier` is an independent, per-index description of the result in
      terms of the sliding window `[RealStart, RealStart + m)`.
    `OverflowStatesMatchWindow` proves the two agree whenever `n > m >= 2` and
    `0 <= p <= n`, and the shape lemmas below read the window properties off
    the reference definition. */
module Overflow {
  import opened Wrappers
  import opened Tiers
  import opened Counting

  // ---------------------------------------------------------------------
  // Array stores with the JVM's bounds check
  // ---------------------------------------------------------------------

  /** The store `a[i] = t`; `None` when `i` is outside the array. */
  function Put(a: seq<Tier>, i: int, t: Tier): (r: Option<seq<Tier>>)
    ensures r.Some? <==> 0 <= i < |a|
    ensures r.Some? ==> |r.value| == |a| && r.value[i] == t
    ensures r.Some? ==> forall j :: 0 <= j < |a| && j != i ==> r.value[j] == a[j]
  {
    if 0 <= i < |a| then Some(a[i := t]) else None
  }

  /** The loop `for (j = lo; j < hi; j++) a[j] = t;`, failing at the first
      store outside the array. */
  function Fill(a: seq<Tier>, lo: int, hi: int, t: Tier): (r: Option<seq<Tier>>)
    ensures r.Some? <==> lo >= hi || (0 <= lo && hi <= |a|)
    ensures r.Some? ==> |r.value| == |a|
    ensures r.Some? ==> forall j :: 0 <= j < |a| && lo <= j < hi ==> r.value[j] == t
    ensures r.Some? ==> forall j :: 0 <= j < |a| && !(lo <= j < hi) ==> r.value[j] == a[j]
    decreases hi - lo
  {
    if lo >= hi then Some(a)
    else
      var b :- Put(a, lo, t);
      Fill(b, lo + 1, hi, t)
  }

  // ---------------------------------------------------------------------
  // The window
  // ---------------------------------------------------------------------

  /** `Math.max(0, p - m + 4)`: the window start before the tail check. */
  function StartOf(p: int, m: int): (r: int)
    ensures r >= 0
  {
    var start := p - m + 4;
    if 0 >= start then 0 else start
  }

  /** The window would run past the last dot, so it is pinned to the tail. */
  predicate Pinned(p: int, n: int, m: int)
  {
    StartOf(p, m) + m > n
  }

  /** First index of the window actually used. */
  function RealStart(p: int, n: int, m: int): (r: int)
    ensures Pinned(p, n, m) ==> r == n - m
    ensures !Pinned(p, n, m) ==> r == StartOf(p, m) && r + m <= n
    ensures m < n ==> 0 <= r && r + m <= n
  {
    if Pinned(p, n, m) then n - m else StartOf(p, m)
  }

  // ---------------------------------------------------------------------
  // The computation as the source writes it
  // ---------------------------------------------------------------------

  /** The trailing edge: a pinned window forces the last two dots to Normal,
      otherwise the two slots at the end of the window taper to Small and
      Smallest when they exist. */
  function TrailingEdge(a: seq<Tier>, p: int, n: int, m: int): (r: Option<seq<Tier>>)
    ensures r.Some? ==> |r.value| == |a|
    ensures var rs := RealStart(p, n, m);
      r.Some? ==> forall j :: 0 <= j < |a| && j != rs + m - 2 && j != rs + m - 1 ==> r.value[j] == a[j]
  {
    if Pinned(p, n, m) then
      var b :- Put(a, n - 1, Normal);
      Put(b, n - 2, Normal)
    else
      var rs := StartOf(p, m);
      var b :- (if rs + m - 2 < n then Put(a, rs + m - 2, Small) else Some(a));
      if rs + m - 1 < n then Put(b, rs + m - 1, Smallest) else Some(b)
  }

  /** The leading edge, keyed on the absolute position `p`, not on the window. */
  function LeadingEdge(a: seq<Tier>, p: int, rs: int): (r: Option<seq<Tier>>)
    ensures p < 5 ==> r == Some(a)
    ensures r.Some? ==> |r.value| == |a|
    ensures r.Some? ==> forall j :: 0 <= j < |a| && j != rs && j != rs + 1 ==> r.value[j] == a[j]
  {
    if p > 5 then
      var b :- Put(a, rs, Smallest);
      Put(b, rs + 1, Small)
    else if p == 5 then
      Put(a, rs, Small)
    else
      Some(a)
  }

  /** The tier array of length `n + 1` computed for position `p`; `None` when
      one of the stores falls outside the array. */
  function OverflowStates(p: int, n: nat, m: int): (r: Option<seq<Tier>>)
    ensures r.Some? ==> |r.value| == n + 1
    ensures r.Some? ==> 0 <= p <= n && r.value[p] == Selected
  {
    var rs := RealStart(p, n, m);
    var a1 :- TrailingEdge(seq(n + 1, _ => Gone), p, n, m);
    var a2 :- Fill(a1, rs, rs + m - 2, Normal);
    var a3 :- LeadingEdge(a2, p, rs);
    Put(a3, p, Selected)
  }

  // ---------------------------------------------------------------------
  // The reference: the tier of each index, read off the window
  // ---------------------------------------------------------------------

  /** Tier of index `i`: the selected dot, then the leading taper, then the
      Normal block, then the trailing taper (or Normal when pinned); Gone
      outside the window. */
  function WindowTier(p: int, n: int, m: int, i: int): Tier
  {
    var rs := RealStart(p, n, m);
    if i == p then Selected
    else if i < rs || rs + m <= i then Gone
    else if i == rs && p > 5 then Smallest
    else if i == rs && p == 5 then Small
    else if i == rs + 1 && p > 5 then Small
    else if i < rs + m - 2 then Normal
    else if Pinned(p, n, m) then Normal
    else if i == rs + m - 2 then Small
    else Smallest
  }

  /** `s` holds the reference tier at every one of the `n + 1` slots. */
  predicate MatchesWindow(p: int, n: nat, m: int, s: seq<Tier>)
  {
    |s| == n + 1 && forall i :: 0 <= i <= n ==> s[i] == WindowTier(p, n, m, i)
  }

  /** The configurations in which the source reaches the computation and
      the dot budget leaves room for the two trailing slots. */
  predicate InRange(p: int, n: int, m: int)
  {
    2 <= m < n && 0 <= p <= n
  }

  // ---------------------------------------------------------------------
  // The two descriptions agree
  // ---------------------------------------------------------------------

  lemma TrailingEdgeInBounds(a: seq<Tier>, p: int, n: nat, m: int)
    requires InRange(p, n, m) && |a| == n + 1
    ensures TrailingEdge(a, p, n, m).Some?
    ensures var b := TrailingEdge(a, p, n, m).value;
      var rs := RealStart(p, n, m);
      && |b| == n + 1
      && (forall i :: 0 <= i <= n && i != rs + m - 2 && i != rs + m - 1 ==> b[i] == a[i])
      && b[rs + m - 2] == (if Pinned(p, n, m) then Normal else Small)
      && b[rs + m - 1] == (if Pinned(p, n, m) then Normal else Smallest)
  {
    var rs := RealStart(p, n, m);
    if Pinned(p, n, m) {
      assert rs + m - 1 == n - 1 && rs + m - 2 == n - 2;
    } else {
      assert rs == StartOf(p, m) && rs + m <= n;
    }
  }

  lemma LeadingEdgeInBounds(a: seq<Tier>, p: int, n: nat, m: int)
    requires InRange(p, n, m) && |a| == n + 1
    ensures LeadingEdge(a, p, RealStart(p, n, m)).Some?
    ensures var b := LeadingEdge(a, p, RealStart(p, n, m)).value;
      var rs := RealStart(p, n, m);
      && |b| == n + 1
      && (forall i :: 0 <= i <= n ==>
            b[i] == (if i == rs && p > 5 then Smallest
                     else if i == rs && p == 5 then Small
                     else if i == rs + 1 && p > 5 then Small
                     else a[i]))
  {
    var rs := RealStart(p, n, m);
    assert 0 <= rs && rs + m <= n;
  }

  /** For every configuration the source admits with a budget of at least two
      dots, no store leaves the array and the result is the window reference. */
  lemma OverflowStatesMatchWindow(p: int, n: nat, m: int)
    requires InRange(p, n, m)
    ensures OverflowStates(p, n, m).Some?
    ensures MatchesWindow(p, n, m, OverflowStates(p, n, m).value)
  {
    var rs := RealStart(p, n, m);
    assert 0 <= rs && rs + m <= n;
    var a0 := seq(n + 1, _ => Gone);
    TrailingEdgeInBounds(a0, p, n, m);
    var a1 := TrailingEdge(a0, p, n, m).value;
    var f := Fill(a1, rs, rs + m - 2, Normal);
    assert f.Some?;
    var a2 := f.value;
    LeadingEdgeInBounds(a2, p, n, m);
    var a3 := LeadingEdge(a2, p, rs).value;
    var r := OverflowStates(p, n, m);
    assert r == Some(a3[p := Selected]);
    forall i | 0 <= i <= n
      ensures r.value[i] == WindowTier(p, n, m, i)
    {
      if i != p && rs <= i < rs + m - 2 {
        assert a2[i] == Normal;
      } else if i != p && rs + m - 2 <= i < rs + m {
        assert a2[i] == a1[i];
      } else if i != p {
        assert a2[i] == a1[i] == a0[i];
      }
    }
  }

  // ---------------------------------------------------------------------
  // Properties of the computed array
  // ---------------------------------------------------------------------

  /** No store faults exactly when the guards of the source pass, given a
      budget of at least two dots below the dot count. */
  lemma OverflowFaultsOnlyOutsideGuards(p: int, n: nat, m: int)
    requires 2 <= m < n
    ensures OverflowStates(p, n, m).Some? <==> 0 <= p <= n
  {
    if 0 <= p <= n {
      OverflowStatesMatchWindow(p, n, m);
    }
  }

  /** The selected slot is the only Selected one: every other store writes a
      lesser tier. */
  lemma ExactlyOneSelected(p: int, n: nat, m: int)
    requires InRange(p, n, m)
    ensures OverflowStates(p, n, m).Some?
    ensures forall i :: 0 <= i <= n ==> (OverflowStates(p, n, m).value[i] == Selected <==> i == p)
  {
    OverflowStatesMatchWindow(p, n, m);
  }

  /** The window sits inside the dots, and with a budget of at least four
      every dot shown lies in the window, as does the selected position. */
  lemma WindowContainment(p: int, n: nat, m: int)
    requires InRange(p, n, m)
    ensures 0 <= RealStart(p, n, m) && RealStart(p, n, m) + m <= n
    ensures 4 <= m ==> forall i :: 0 <= i < n && OverflowStates(p, n, m).value[i] != Gone ==>
      RealStart(p, n, m) <= i < RealStart(p, n, m) + m
    ensures 4 <= m && p < n ==> RealStart(p, n, m) <= p < RealStart(p, n, m) + m
  {
    OverflowStatesMatchWindow(p, n, m);
  }

  /** Hence at most `m` of the `n` dots are shown. */
  lemma AtMostBudgetShown(p: int, n: nat, m: int)
    requires InRange(p, n, m) && 4 <= m
    ensures CountWhere(OverflowStates(p, n, m).value[..n], (t: Tier) => t != Gone) <= m
  {
    var s := OverflowStates(p, n, m).value;
    var rs := RealStart(p, n, m);
    WindowContainment(p, n, m);
    var shown := s[..n];
    assert forall i :: 0 <= i < |shown| && shown[i] != Gone ==> rs <= i < rs + m by {
      forall i | 0 <= i < |shown| && shown[i] != Gone ensures rs <= i < rs + m {
        assert shown[i] == s[i];
      }
    }
    CountWithinRange(shown, (t: Tier) => t != Gone, rs, rs + m);
  }

  /** When the window is pinned to the tail it starts at `n - m`, and with a
      budget of at least four the last two dots stay Normal unless selected. */
  lemma TailPin(p: int, n: nat, m: int)
    requires InRange(p, n, m) && 4 <= m && Pinned(p, n, m)
    ensures RealStart(p, n, m) == n - m
    ensures n - 1 != p ==> OverflowStates(p, n, m).value[n - 1] == Normal
    ensures n - 2 != p ==> OverflowStates(p, n, m).value[n - 2] == Normal
  {
    OverflowStatesMatchWindow(p, n, m);
  }

  /** An unpinned window tapers its last two slots to Small and Smallest
      (unless one is the selected slot), given a budget of at least four. */
  lemma TrailingTaper(p: int, n: nat, m: int)
    requires InRange(p, n, m) && 4 <= m && !Pinned(p, n, m)
    ensures RealStart(p, n, m) == StartOf(p, m)
    ensures var rs := RealStart(p, n, m);
      rs + m - 2 != p ==> OverflowStates(p, n, m).value[rs + m - 2] == Small
    ensures var rs := RealStart(p, n, m);
      rs + m - 1 != p ==> OverflowStates(p, n, m).value[rs + m - 1] == Smallest
  {
    OverflowStatesMatchWindow(p, n, m);
  }

  /** The leading taper depends on the absolute position: past position 5 the
      first two window slots are Smallest and Small, at position 5 the first
      slot is Small, and below 5 the window starts with a Normal dot; the
      Selected stamp overrides each of these. */
  lemma LeadingTaper(p: int, n: nat, m: int)
    requires InRange(p, n, m)
    ensures var rs := RealStart(p, n, m); var s := OverflowStates(p, n, m).value;
      && (p > 5 && rs != p ==> s[rs] == Smallest)
      && (p > 5 && rs + 1 != p ==> s[rs + 1] == Small)
      && (p == 5 && rs != p ==> s[rs] == Small)
      && (p < 5 && rs != p && 3 <= m ==> s[rs] == Normal)
  {
    OverflowStatesMatchWindow(p, n, m);
    WindowContainment(p, n, m);
  }

  /** Within the window, past the leading taper (two slots past position 5,
      one slot at position 5, none below) and before the trailing slots,
      every dot other than the selected one is Normal. */
  lemma NormalBlock(p: int, n: nat, m: int)
    requires InRange(p, n, m)
    ensures var rs := RealStart(p, n, m); var s := OverflowStates(p, n, m).value;
      var lead := if p > 5 then 2 else if p == 5 then 1 else 0;
      forall i :: rs + lead <= i < rs + m - 2 && i != p ==> s[i] == Normal
  {
    OverflowStatesMatchWindow(p, n, m);
    WindowContainment(p, n, m);
  }

  /** A budget below one dot and a single page make the pinned tail store
      `n - 2` fall before the array. */
  lemma SingleDotFaults(p: int, m: int)
    requires m < 1
    ensures OverflowStates(p, 1, m) == None
  {
    assert Pinned(p, 1, m) || !(0 <= p <= 1);
  }

  /** A budget of one dot never makes a store leave the array once there are
      at least two pages: the window degenerates to its trailing slots. */
  lemma BudgetOneInBounds(p: int, n: nat)
    requires 2 <= n && 0 <= p <= n
    ensures OverflowStates(p, n, 1).Some?
  {
    var rs := RealStart(p, n, 1);
    assert rs == (if p + 4 > n then n - 1 else p + 3);
  }

  /** With a budget of two the window no longer covers the selected dot: three
      dots are shown although only two are budgeted. */
  lemma BudgetTwoShowsThree()
    ensures OverflowStates(0, 5, 2) == Some([Selected, Gone, Small, Smallest, Gone, Gone])
  {
    OverflowStatesMatchWindow(0, 5, 2);
    var s := OverflowStates(0, 5, 2).value;
    var e := [Selected, Gone, Small, Smallest, Gone, Gone];
    forall i | 0 <= i < 6 ensures s[i] == e[i] {
      assert s[i] == WindowTier(0, 5, 2, i);
    }
    assert s == e;
  }

  /** First page of twenty with the default budget of nine. */
  lemma FirstOfTwenty()
    ensures OverflowStates(0, 20, 9) == Some(
      [Selected] + seq(6, _ => Normal) + [Small, Smallest] + seq(12, _ => Gone))
  {
    OverflowStatesMatchWindow(0, 20, 9);
    var s := OverflowStates(0, 20, 9).value;
    var e := [Selected] + seq(6, _ => Normal) + [Small, Smallest] + seq(12, _ => Gone);
    forall i | 0 <= i < 21 ensures s[i] == e[i] {
      assert s[i] == WindowTier(0, 20, 9, i);
    }
    assert s == e;
  }

  /** Last page of twenty with the default budget of nine: the window is
      pinned at eleven. */
  lemma LastOfTwenty()
    ensures RealStart(19, 20, 9) == 11
    ensures OverflowStates(19, 20, 9) == Some(
      seq(11, _ => Gone) + [Smallest, Small] + seq(6, _ => Normal) + [Selected, Gone])
  {
    OverflowStatesMatchWindow(19, 20, 9);
    var s := OverflowStates(19, 20, 9).value;
    var e := seq(11, _ => Gone) + [Smallest, Small] + seq(6, _ => Normal) + [Selected, Gone];
    forall i | 0 <= i < 21 ensures s[i] == e[i] {
      assert s[i] == WindowTier(19, 20, 9, i);
    }
    assert s == e;
  }
}
