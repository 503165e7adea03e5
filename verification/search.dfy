/** The least index of a stream at which a predicate holds: the value a
    rejection loop (`do { draw } while (bad)`) stops at. */
module Search {

  /** Some least index exists once any index satisfies `p`. */
  lemma {:induction false} LeastExists(p: nat -> bool, w: nat)
    requires p(w)
    ensures exists k: nat :: p(k) && forall j: nat :: j < k ==> !p(j)
    decreases w
  {
    if exists j: nat :: j < w && p(j) {
      var j: nat :| j < w && p(j);
      LeastExists(p, j);
    }
  }

  /** The least index at which `p` holds. */
  ghost function First(p: nat -> bool): (k: nat)
    requires exists w: nat :: p(w)
    ensures p(k)
    ensures forall j: nat :: j < k ==> !p(j)
  {
    var w: nat :| p(w);
    LeastExists(p, w);
    var k: nat :| p(k) && forall j: nat :: j < k ==> !p(j);
    k
  }

  /** An index where `p` holds for the first time is `First(p)`. */
  lemma FirstIsUnique(p: nat -> bool, k: nat)
    requires p(k)
    requires forall j: nat :: j < k ==> !p(j)
    ensures First(p) == k
  {
  }
}
