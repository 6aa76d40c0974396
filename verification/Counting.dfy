/** How many indices have a property. */
module Counting {
  /** The indices below n with a property. */
  function Indices(n: nat, p: int -> bool): set<int> { set i | 0 <= i < n && p(i) }

  lemma OneIndexMore(n: nat, p: int -> bool)
    ensures |Indices(n + 1, p)| == |Indices(n, p)| + if p(n) then 1 else 0
    ensures Indices(0, p) == {}
  {
    assert Indices(n + 1, p) == if p(n) then Indices(n, p) + {n} else Indices(n, p);
  }
}
