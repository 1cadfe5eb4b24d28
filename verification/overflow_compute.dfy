/** The overflow tier computation written imperatively over an array of
    `n + 1` slots, in the order of the source's statements. A store that
    would leave the array ends the computation with `None`, as the JVM's
    index-out-of-bounds exception would. */
module OverflowCompute {
  import opened Wrappers
  import opened Tiers
  import opened Overflow

  /** Stores the trailing edge into `a`: the two last dots at Normal when the
      window is pinned to the tail, otherwise Small and Smallest at the end of
      the window. `false` when a store would leave the array. */
  method StoreTrailingEdge(a: array<Tier>, p: int, n: nat, m: int) returns (ok: bool)
    modifies a
    ensures ok ==> TrailingEdge(old(a[..]), p, n, m) == Some(a[..])
    ensures !ok ==> TrailingEdge(old(a[..]), p, n, m) == None
  {
    var start := p - m + 4;
    var realStart := if 0 >= start then 0 else start;
    if realStart + m > n {
      if !(0 <= n - 1 < a.Length) { return false; }
      a[n - 1] := Normal;
      if !(0 <= n - 2 < a.Length) { return false; }
      a[n - 2] := Normal;
    } else {
      if realStart + m - 2 < n {
        if !(0 <= realStart + m - 2 < a.Length) { return false; }
        a[realStart + m - 2] := Small;
      }
      if realStart + m - 1 < n {
        if !(0 <= realStart + m - 1 < a.Length) { return false; }
        a[realStart + m - 1] := Smallest;
      }
    }
    return true;
  }

  /** Stores the leading taper into `a`, chosen by the absolute position `p`.
      `false` when a store would leave the array. */
  method StoreLeadingEdge(a: array<Tier>, p: int, realStart: int) returns (ok: bool)
    modifies a
    ensures ok ==> LeadingEdge(old(a[..]), p, realStart) == Some(a[..])
    ensures !ok ==> LeadingEdge(old(a[..]), p, realStart) == None
  {
    if p > 5 {
      if !(0 <= realStart < a.Length) { return false; }
      a[realStart] := Smallest;
      if !(0 <= realStart + 1 < a.Length) { return false; }
      a[realStart + 1] := Small;
    } else if p == 5 {
      if !(0 <= realStart < a.Length) { return false; }
      a[realStart] := Small;
    }
    return true;
  }

  /** Builds the whole tier array for position `p` in a fresh array: trailing
      edge, Normal fill of the window, leading taper, Selected stamp. */
  method ComputeOverflowStates(p: int, n: nat, m: int) returns (r: Option<seq<Tier>>)
    ensures r == OverflowStates(p, n, m)
    ensures InRange(p, n, m) ==> r.Some? && MatchesWindow(p, n, m, r.value)
  {
    var a := new Tier[n + 1](_ => Gone);
    assert a[..] == seq(n + 1, _ => Gone);

    var ok := StoreTrailingEdge(a, p, n, m);
    if !ok { return None; }
    ghost var a1 := a[..];

    var start := p - m + 4;
    var realStart := if 0 >= start then 0 else start;
    if realStart + m > n {
      realStart := n - m;
    }
    assert realStart == RealStart(p, n, m);

    var hi := realStart + m - 2;
    var i := realStart;
    while i < hi
      invariant realStart <= i
      invariant a.Length == n + 1
      invariant Fill(a[..], i, hi, Normal) == Fill(a1, realStart, hi, Normal)
      decreases hi - i
    {
      if !(0 <= i < a.Length) { return None; }
      a[i] := Normal;
      i := i + 1;
    }

    ok := StoreLeadingEdge(a, p, realStart);
    if !ok { return None; }

    if !(0 <= p < a.Length) { return None; }
    a[p] := Selected;
    r := Some(a[..]);

    if InRange(p, n, m) {
      OverflowStatesMatchWindow(p, n, m);
    }
  }
}
