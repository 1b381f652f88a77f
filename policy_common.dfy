/** What the two heuristic policies share besides the budget: the order in
    which they visit factors, the cost of a selection and the 0/1 calling
    vector they emit. */
module PolicyCommon {
  import opened Interface

  /** Every element of s is a factor index below n. */
  predicate InRange(s: seq<nat>, n: nat)
  {
    forall i :: 0 <= i < |s| ==> s[i] < n
  }

  /** No index occurs twice in s. */
  predicate Distinct(s: seq<nat>)
  {
    forall i, j :: 0 <= i < j < |s| ==> s[i] != s[j]
  }

  /** `order` lists every factor index below n exactly once, as an argsort
      of the factors does. */
  predicate IsOrder(order: seq<nat>, n: nat)
  {
    |order| == n && InRange(order, n) && Distinct(order) &&
    forall x :: 0 <= x < n ==> x in order
  }

  /** `order` visits the keys in non-increasing order; how ties are broken
      is left open. */
  predicate SortedBy(order: seq<nat>, keys: seq<real>)
    requires InRange(order, |keys|)
  {
    forall i, j :: 0 <= i < j < |order| ==> keys[order[i]] >= keys[order[j]]
  }

  /** The total energy cost of the factors listed in s. */
  function SeqCost(factors: seq<Factor>, s: seq<nat>): (c: real)
    requires InRange(s, |factors|)
  {
    if s == [] then 0.0 else factors[s[0]].cost + SeqCost(factors, s[1..])
  }

  /** A selection: the factors taken, in the order taken, and the budget
      left after paying for them. */
  datatype Selection = Selection(picked: seq<nat>, left: real)

  /** The calling vector of n factors with a 1 at every selected index and
      a 0 elsewhere. */
  function CallingVector(n: nat, picked: seq<nat>): (v: seq<int>)
    ensures |v| == n
    ensures forall i :: 0 <= i < n ==> (v[i] == 1 <==> i in picked) && (v[i] == 0 <==> i !in picked)
  {
    seq(n, i => if i in picked then 1 else 0)
  }
}
