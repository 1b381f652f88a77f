/** The Voracious policy: on the first turn for a message it calls the single
    most accurate factor that fits the message's budget; on the second turn
    it declares a real source as soon as one factor reported one. */
module Voracious {
  import opened Interface
  import opened Budget
  import opened PolicyCommon

  /** The visiting key of each factor: its accuracy. */
  function Accuracies(factors: seq<Factor>): (keys: seq<real>)
    ensures |keys| == |factors|
    ensures forall i :: 0 <= i < |factors| ==> keys[i] == factors[i].accuracy
  {
    seq(|factors|, i requires 0 <= i < |factors| => factors[i].accuracy)
  }

  /** The first factor along s whose cost fits the budget, if any: every
      factor before it costs more than the budget. */
  function FirstFit(factors: seq<Factor>, s: seq<nat>, budget: real): (r: Option<nat>)
    requires InRange(s, |factors|)
    ensures r.None? <==> forall i :: 0 <= i < |s| ==> factors[s[i]].cost > budget
    ensures r.Some? ==>
              exists j :: 0 <= j < |s| && s[j] == r.value && factors[s[j]].cost <= budget &&
                forall i :: 0 <= i < j ==> factors[s[i]].cost > budget
    decreases |s|
  {
    if s == [] then None
    else if factors[s[0]].cost <= budget then Some(s[0])
    else
      var r := FirstFit(factors, s[1..], budget);
      assert forall i :: 1 <= i < |s| ==> s[i] == s[1..][i - 1];
      r
  }

  /** None as the empty list, Some(x) as [x]. */
  function AsSeq(o: Option<nat>): (s: seq<nat>)
  {
    if o.Some? then [o.value] else []
  }

  /** The selection loop of the probe turn: the first affordable factor in
      the visiting order is taken and paid for, and no other after it. */
  method SelectFirstAffordable(factors: seq<Factor>, order: seq<nat>, budget: real) returns (picked: seq<nat>, left: real)
    requires InRange(order, |factors|)
    ensures InRange(picked, |factors|)
    ensures picked == AsSeq(FirstFit(factors, order, budget))
    ensures left == budget - SeqCost(factors, picked)
  {
    picked, left := [], budget;
    var callingOneFactor := false;
    for k := 0 to |order|
      invariant callingOneFactor == (picked != [])
      invariant !callingOneFactor ==> left == budget && FirstFit(factors, order, budget) == FirstFit(factors, order[k..], budget)
      invariant callingOneFactor ==> FirstFit(factors, order, budget).Some? &&
                                     picked == [FirstFit(factors, order, budget).value] &&
                                     picked[0] < |factors| &&
                                     left == budget - factors[picked[0]].cost
    {
      var index := order[k];
      var cost := factors[index].cost;
      assert order[k..][0] == index && order[k..][1..] == order[k + 1..];
      if left >= cost && !callingOneFactor {
        picked := picked + [index];
        left := left - cost;
        callingOneFactor := true;
      }
    }
    assert order[|order|..] == [];
  }

  /** Along an argsort by accuracy, best first, the factor taken is a most
      accurate one among all factors that fit the budget. */
  lemma PicksMostAccurateAffordable(factors: seq<Factor>, order: seq<nat>, budget: real)
    requires IsOrder(order, |factors|) && SortedBy(order, Accuracies(factors))
    requires FirstFit(factors, order, budget).Some?
    ensures factors[FirstFit(factors, order, budget).value].cost <= budget
    ensures forall i :: 0 <= i < |factors| && factors[i].cost <= budget ==>
              factors[FirstFit(factors, order, budget).value].accuracy >= factors[i].accuracy
  {
    var x := FirstFit(factors, order, budget).value;
    var j :| 0 <= j < |order| && order[j] == x && factors[order[j]].cost <= budget &&
             forall i :: 0 <= i < j ==> factors[order[i]].cost > budget;
    forall i | 0 <= i < |factors| && factors[i].cost <= budget
      ensures factors[x].accuracy >= factors[i].accuracy
    {
      assert i in order;
      var m :| 0 <= m < |order| && order[m] == i;
      if m != j {
        assert m > j;
        assert Accuracies(factors)[order[j]] >= Accuracies(factors)[order[m]];
      }
    }
  }

  /** The decide turn's declaration in the raw encoding: 1 when some factor
      reported a real source, -1 otherwise. */
  function VoraciousDecision(responses: seq<int>): (raw: int)
    ensures raw == 1 || raw == -1
    ensures raw == 1 <==> exists i :: 0 <= i < |responses| && responses[i] == 1
  {
    if 1 in responses then 1 else -1
  }

  /** On the default matrix the accuracies are 0.8, 0.7, 0.75 and 0.6, so
      the visiting order is 0, 2, 1, 3; with a budget of 0.5 factors 0 and 2
      cost too much and factor 1 is taken. */
  lemma DefaultMatrixPick()
    ensures IsOrder([0, 2, 1, 3], 4) && SortedBy([0, 2, 1, 3], Accuracies(DefaultFactors))
    ensures FirstFit(DefaultFactors, [0, 2, 1, 3], 0.5) == Some(1)
  {
    var s: seq<nat> := [0, 2, 1, 3];
    assert s[1..] == [2, 1, 3] && s[1..][1..] == [1, 3];
    assert forall x :: 0 <= x < 4 ==> x in s by {
      assert s[0] == 0 && s[1] == 2 && s[2] == 1 && s[3] == 3;
    }
  }

  class VoraciousPolicy {
    /** True on the probe turn of a message, false on its decide turn. */
    var isFirstTimeSeeingMessage: bool

    /** The flag starts unset, which the turn test reads as false. */
    constructor()
      ensures !isFirstTimeSeeingMessage
    {
      isFirstTimeSeeingMessage := false;
    }

    method Reset()
      modifies this
      ensures isFirstTimeSeeingMessage
    {
      isFirstTimeSeeingMessage := true;
    }

    /** One turn. `order` is the argsort of the accuracies, best first, with
        the ties in whatever order the sort leaves them. The probe turn
        emits 0 and calls at most the first affordable factor; the decide
        turn emits the OR-rule decision and calls nothing. The turns
        alternate. */
    method Action(obs: Observation, order: seq<nat>) returns (act: Action)
      requires |obs.responses| == |obs.factors|
      requires IsOrder(order, |obs.factors|) && SortedBy(order, Accuracies(obs.factors))
      requires isFirstTimeSeeingMessage ==> obs.numberMessages - obs.position >= 1
      modifies this
      ensures isFirstTimeSeeingMessage == !old(isFirstTimeSeeingMessage)
      ensures old(isFirstTimeSeeingMessage) ==>
                act == Act(0, CallingVector(|obs.factors|, AsSeq(FirstFit(obs.factors, order, ObservedBudget(obs)))))
      ensures !old(isFirstTimeSeeingMessage) ==>
                act == Act(VoraciousDecision(obs.responses), Zeros(|obs.factors|))
    {
      var n := |obs.factors|;
      if isFirstTimeSeeingMessage {
        var budget := ObservedBudget(obs);
        var picked, _ := SelectFirstAffordable(obs.factors, order, budget);
        act := Act(0, CallingVector(n, picked));
        isFirstTimeSeeingMessage := false;
      } else {
        act := Act(VoraciousDecision(obs.responses), Zeros(n));
        isFirstTimeSeeingMessage := true;
      }
    }
  }
}
