/** The size tiers a dot can take; each tier is also the dot's scale factor. */
module Tiers {

  /** Ordered from hidden to fully emphasised. */
  datatype Tier = Gone | Smallest | Small | Normal | Selected

  /** The scale factor a tier stands for. */
  function Scale(t: Tier): (r: real)
    ensures 0.0 <= r <= 1.0
    ensures r == 0.0 <==> t == Gone
    ensures r == 1.0 <==> t == Selected
  {
    match t
    case Gone => 0.0
    case Smallest => 0.2
    case Small => 0.4
    case Normal => 0.6
    case Selected => 1.0
  }

  /** Position of a tier in the order Gone < Smallest < Small < Normal < Selected. */
  function Rank(t: Tier): nat
  {
    match t
    case Gone => 0
    case Smallest => 1
    case Small => 2
    case Normal => 3
    case Selected => 4
  }

  /** Scale factors are strictly increasing along the tier order, so comparing
      two scale factors is the same as comparing their tiers; in particular the
      float test `state == STATE_GONE` holds exactly for the Gone tier. */
  lemma ScaleOrdersTiers(t: Tier, u: Tier)
    ensures Rank(t) < Rank(u) <==> Scale(t) < Scale(u)
    ensures Scale(t) == Scale(u) <==> t == u
  {
  }
}
