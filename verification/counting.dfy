/** Counting the elements of a sequence that satisfy a test. */
module Counting {

  /** Number of elements of `s` for which `f` holds. */
  function CountWhere<T>(s: seq<T>, f: T -> bool): (c: nat)
    ensures c <= |s|
    ensures c == 0 <==> forall i :: 0 <= i < |s| ==> !f(s[i])
  {
    if |s| == 0 then 0
    else
      var c := CountWhere(s[..|s| - 1], f);
      assert forall i :: 0 <= i < |s| - 1 ==> s[..|s| - 1][i] == s[i];
      c + (if f(s[|s| - 1]) then 1 else 0)
  }

  /** If every element satisfying `f` sits at an index in `[lo, hi)`, at most
      `hi - lo` elements satisfy it. */
  lemma {:induction false} CountWithinRange<T>(s: seq<T>, f: T -> bool, lo: int, hi: int)
    requires 0 <= lo <= hi
    requires forall i :: 0 <= i < |s| && f(s[i]) ==> lo <= i < hi
    ensures CountWhere(s, f) <= hi - lo
    ensures |s| <= lo ==> CountWhere(s, f) == 0
    ensures lo < |s| <= hi ==> CountWhere(s, f) <= |s| - lo
    decreases |s|
  {
    if |s| > 0 {
      var t := s[..|s| - 1];
      forall i | 0 <= i < |t| && f(t[i]) ensures lo <= i < hi {
        assert t[i] == s[i];
      }
      CountWithinRange(t, f, lo, hi);
    }
  }
}
