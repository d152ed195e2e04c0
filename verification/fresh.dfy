/** Names nobody has used yet. */
module Fresh {
  lemma {:induction false} Unused(used: set<nat>) returns (n: nat)
    ensures n !in used
  {
    if used == {} {
      n := 0;
    } else {
      var top := Highest(used);
      n := top + 1;
    }
  }

  lemma {:induction false} Highest(used: set<nat>) returns (top: nat)
    requires used != {}
    ensures top in used && forall n | n in used :: n <= top
    decreases |used|
  {
    var n :| n in used;
    if used == {n} {
      top := n;
    } else {
      assert used - {n} != {};
      var rest := Highest(used - {n});
      top := if rest < n then n else rest;
      forall k | k in used ensures k <= top {
        if k != n { assert k in used - {n}; }
      }
    }
  }
}
