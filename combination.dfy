/** The Combination policy: on the first turn for a message it calls, within
    the message's budget, as many factors as fit, best accuracy per unit of
    energy first; on the second turn it weighs the answers by accuracy and
    declares. */
module Combination {
  import opened Interface
  import opened Budget
  import opened PolicyCommon

  /** The visiting key of each factor: accuracy per unit of energy. */
  function Ratios(factors: seq<Factor>): (keys: seq<real>)
    requires WellFormedFactors(factors)
    ensures |keys| == |factors|
    ensures forall i :: 0 <= i < |factors| ==> keys[i] == factors[i].accuracy / factors[i].cost
  {
    seq(|factors|, i requires 0 <= i < |factors| => factors[i].accuracy / factors[i].cost)
  }

  /** The greedy pass along s: a factor is taken when it fits the budget
      left and paid for at once; one that does not fit is skipped and the
      pass goes on. What is taken plus what is left is the budget, and the
      budget left never goes negative. */
  function Greedy(factors: seq<Factor>, s: seq<nat>, budget: real): (sel: Selection)
    requires InRange(s, |factors|)
    ensures forall x :: x in sel.picked ==> x in s
    ensures InRange(sel.picked, |factors|)
    ensures SeqCost(factors, sel.picked) + sel.left == budget
    ensures budget >= 0.0 ==> sel.left >= 0.0
    decreases |s|
  {
    if s == [] then Selection([], budget)
    else
      var cost := factors[s[0]].cost;
      if budget >= cost then
        var rest := Greedy(factors, s[1..], budget - cost);
        Selection([s[0]] + rest.picked, rest.left)
      else
        Greedy(factors, s[1..], budget)
  }

  /** Each factor is taken at most once. */
  lemma {:induction false} GreedyDistinct(factors: seq<Factor>, s: seq<nat>, budget: real)
    requires InRange(s, |factors|) && Distinct(s)
    ensures Distinct(Greedy(factors, s, budget).picked)
    decreases |s|
  {
    if s != [] {
      var cost := factors[s[0]].cost;
      assert Distinct(s[1..]);
      if budget >= cost {
        GreedyDistinct(factors, s[1..], budget - cost);
        var rest := Greedy(factors, s[1..], budget - cost).picked;
        assert s[0] !in s[1..];
        assert s[0] !in rest;
        assert [s[0]] + rest == Greedy(factors, s, budget).picked;
      } else {
        GreedyDistinct(factors, s[1..], budget);
      }
    }
  }

  /** The selection is maximal: the budget left only shrinks, and every
      factor of s that was not taken costs more than what is left, so no
      further factor would fit. */
  lemma {:induction false} GreedyMaximal(factors: seq<Factor>, s: seq<nat>, budget: real)
    requires WellFormedFactors(factors) && InRange(s, |factors|)
    ensures Greedy(factors, s, budget).left <= budget
    ensures forall x :: x in s && x !in Greedy(factors, s, budget).picked ==>
              factors[x].cost > Greedy(factors, s, budget).left
    decreases |s|
  {
    if s != [] {
      var cost := factors[s[0]].cost;
      if budget >= cost {
        GreedyMaximal(factors, s[1..], budget - cost);
      } else {
        GreedyMaximal(factors, s[1..], budget);
      }
      forall x | x in s && x !in Greedy(factors, s, budget).picked
        ensures factors[x].cost > Greedy(factors, s, budget).left
      {
        if x != s[0] {
          assert x in s[1..];
        }
      }
    }
  }

  /** The greedy pass from position k of `order` is one decision about
      `order[k]` followed by the pass from position k + 1. */
  lemma GreedyStep(factors: seq<Factor>, order: seq<nat>, k: nat, left: real)
    requires InRange(order, |factors|) && k < |order|
    ensures var cost := factors[order[k]].cost;
            var tail := Greedy(factors, order[k + 1..], if left >= cost then left - cost else left);
            Greedy(factors, order[k..], left) ==
              if left >= cost then Selection([order[k]] + tail.picked, tail.left) else tail
  {
    assert order[k..][0] == order[k] && order[k..][1..] == order[k + 1..];
  }

  /** The selection loop of the probe turn. */
  method SelectFactors(factors: seq<Factor>, order: seq<nat>, budget: real) returns (picked: seq<nat>, left: real)
    requires InRange(order, |factors|)
    ensures Selection(picked, left) == Greedy(factors, order, budget)
  {
    picked, left := [], budget;
    ghost var target := Greedy(factors, order, budget);
    var k := 0;
    while k < |order|
      invariant 0 <= k <= |order|
      invariant picked + Greedy(factors, order[k..], left).picked == target.picked
      invariant Greedy(factors, order[k..], left).left == target.left
    {
      var index := order[k];
      var cost := factors[index].cost;
      GreedyStep(factors, order, k, left);
      if left >= cost {
        ghost var tail := Greedy(factors, order[k + 1..], left - cost).picked;
        assert picked + ([index] + tail) == (picked + [index]) + tail;
        picked := picked + [index];
        left := left - cost;
      }
      k := k + 1;
    }
    assert order[k..] == [];
    assert picked + [] == picked;
  }

  /** The sum of the accuracies of the factors whose response is v. */
  function WeightedSum(factors: seq<Factor>, responses: seq<int>, v: int): (sum: real)
    requires |responses| == |factors|
  {
    if responses == [] then 0.0
    else
      (if responses[0] == v then factors[0].accuracy else 0.0) + WeightedSum(factors[1..], responses[1..], v)
  }

  /** The decide turn's declaration in the raw encoding: 0 when the
      accuracy-weighted reports of a real source strictly outweigh those of
      a fake one, 2 otherwise (ties included). */
  function CombinationDecision(factors: seq<Factor>, responses: seq<int>): (raw: int)
    requires |responses| == |factors|
    ensures raw == 0 || raw == 2
  {
    if WeightedSum(factors, responses, 1) > WeightedSum(factors, responses, -1) then 0 else 2
  }

  /** Every response flipped. */
  function Negate(responses: seq<int>): (r: seq<int>)
    ensures |r| == |responses| && forall i :: 0 <= i < |r| ==> r[i] == -responses[i]
  {
    seq(|responses|, i requires 0 <= i < |responses| => -responses[i])
  }

  lemma {:induction false} WeightedSumNonNegative(factors: seq<Factor>, responses: seq<int>, v: int)
    requires |responses| == |factors| && WellFormedFactors(factors)
    ensures WeightedSum(factors, responses, v) >= 0.0
    decreases |responses|
  {
    if responses != [] {
      WeightedSumNonNegative(factors[1..], responses[1..], v);
    }
  }

  /** No response equal to v: that sum is zero. */
  lemma {:induction false} WeightedSumAbsent(factors: seq<Factor>, responses: seq<int>, v: int)
    requires |responses| == |factors|
    requires forall i :: 0 <= i < |responses| ==> responses[i] != v
    ensures WeightedSum(factors, responses, v) == 0.0
    decreases |responses|
  {
    if responses != [] {
      WeightedSumAbsent(factors[1..], responses[1..], v);
    }
  }

  /** One response equal to v from a factor of positive accuracy: that sum
      is positive. */
  lemma {:induction false} WeightedSumPositive(factors: seq<Factor>, responses: seq<int>, v: int, i: nat)
    requires |responses| == |factors| && WellFormedFactors(factors)
    requires i < |responses| && responses[i] == v && factors[i].accuracy > 0.0
    ensures WeightedSum(factors, responses, v) > 0.0
    decreases |responses|
  {
    if i == 0 {
      WeightedSumNonNegative(factors[1..], responses[1..], v);
    } else {
      WeightedSumPositive(factors[1..], responses[1..], v, i - 1);
    }
  }

  /** Flipping every response exchanges the two sums. */
  lemma {:induction false} WeightedSumNegate(factors: seq<Factor>, responses: seq<int>, v: int)
    requires |responses| == |factors|
    ensures WeightedSum(factors, Negate(responses), v) == WeightedSum(factors, responses, -v)
    decreases |responses|
  {
    if responses != [] {
      assert Negate(responses)[1..] == Negate(responses[1..]);
      WeightedSumNegate(factors[1..], responses[1..], v);
    }
  }

  /** Nothing probed: both sums are zero and the tie yields 2. */
  lemma NothingProbedDeclaresTwo(factors: seq<Factor>, responses: seq<int>)
    requires |responses| == |factors|
    requires forall i :: 0 <= i < |responses| ==> responses[i] == 0
    ensures CombinationDecision(factors, responses) == 2
  {
    WeightedSumAbsent(factors, responses, 1);
    WeightedSumAbsent(factors, responses, -1);
  }

  /** Only reports of a real source, one of them from a factor of positive
      accuracy: the declaration is 0. */
  lemma UnanimousRealDeclaresZero(factors: seq<Factor>, responses: seq<int>, i: nat)
    requires |responses| == |factors| && WellFormedFactors(factors)
    requires forall j :: 0 <= j < |responses| ==> responses[j] != -1
    requires i < |responses| && responses[i] == 1 && factors[i].accuracy > 0.0
    ensures CombinationDecision(factors, responses) == 0
  {
    WeightedSumAbsent(factors, responses, -1);
    WeightedSumPositive(factors, responses, 1, i);
  }

  /** With every report flipped the declaration is 0 exactly when the fake
      reports strictly outweighed the real ones; so unless the sums tie, the
      two declarations differ. */
  lemma DecisionUnderNegation(factors: seq<Factor>, responses: seq<int>)
    requires |responses| == |factors|
    ensures CombinationDecision(factors, Negate(responses)) == 0 <==>
            WeightedSum(factors, responses, -1) > WeightedSum(factors, responses, 1)
    ensures WeightedSum(factors, responses, 1) != WeightedSum(factors, responses, -1) ==>
              CombinationDecision(factors, Negate(responses)) != CombinationDecision(factors, responses)
  {
    WeightedSumNegate(factors, responses, 1);
    WeightedSumNegate(factors, responses, -1);
  }

  /** On the default matrix the ratios are 1, 1.75, 1.25 and 3, so the
      visiting order is 3, 1, 2, 0; with a budget of 1.0 the pass takes 3
      and 1, then skips 2 and 0, which no longer fit. */
  lemma DefaultMatrixSelection()
    ensures IsOrder([3, 1, 2, 0], 4) && SortedBy([3, 1, 2, 0], Ratios(DefaultFactors))
    ensures Greedy(DefaultFactors, [3, 1, 2, 0], 1.0) == Selection([3, 1], 0.4)
  {
    var s: seq<nat> := [3, 1, 2, 0];
    assert s[1..] == [1, 2, 0] && s[1..][1..] == [2, 0] && s[1..][1..][1..] == [0];
    assert s[1..][1..][1..][1..] == [];
    assert forall x :: 0 <= x < 4 ==> x in s by {
      assert s[0] == 3 && s[1] == 1 && s[2] == 2 && s[3] == 0;
    }
  }

  class CombinationPolicy {
    /** True on the probe turn of a message, false on its decide turn. */
    var isFirstTimeSeeingMessage: bool

    /** The flag starts unset, which the turn test reads as false. */
    constructor()
      ensures !isFirstTimeSeeingMessage
    {
      isFirstTimeSeeingMessage := false;
    }

    method Reset()
      modifies this
      ensures isFirstTimeSeeingMessage
    {
      isFirstTimeSeeingMessage := true;
    }

    /** One turn. `order` is the argsort of the ratios, best first, with the
        ties in whatever order the sort leaves them. The probe turn emits 0
        and calls the greedy selection within the message's budget; the
        decide turn emits the weighted decision and calls nothing. The turns
        alternate. */
    method Action(obs: Observation, order: seq<nat>) returns (act: Action)
      requires WellFormedFactors(obs.factors) && |obs.responses| == |obs.factors|
      requires IsOrder(order, |obs.factors|) && SortedBy(order, Ratios(obs.factors))
      requires isFirstTimeSeeingMessage ==> obs.numberMessages - obs.position >= 1
      modifies this
      ensures isFirstTimeSeeingMessage == !old(isFirstTimeSeeingMessage)
      ensures old(isFirstTimeSeeingMessage) ==>
                act == Act(0, CallingVector(|obs.factors|, Greedy(obs.factors, order, ObservedBudget(obs)).picked))
      ensures !old(isFirstTimeSeeingMessage) ==>
                act == Act(CombinationDecision(obs.factors, obs.responses), Zeros(|obs.factors|))
    {
      var n := |obs.factors|;
      if isFirstTimeSeeingMessage {
        var budget := ObservedBudget(obs);
        var picked, _ := SelectFactors(obs.factors, order, budget);
        act := Act(0, CallingVector(n, picked));
        isFirstTimeSeeingMessage := false;
      } else {
        act := Act(CombinationDecision(obs.factors, obs.responses), Zeros(n));
        isFirstTimeSeeingMessage := true;
      }
    }
  }
}
