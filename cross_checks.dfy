/** Facts that connect the pieces: what the environment's probing loop does
    with a calling vector built from a policy's selection, and how the two
    policies' selections and decisions relate. */
module CrossChecks {
  import opened Interface
  import opened Probing
  import opened Budget
  import opened PolicyCommon
  import opened Combination
  import opened Voracious

  /** A calling vector that requests nothing costs nothing. */
  lemma {:induction false} CalledCostNothing(factors: seq<Factor>, calling: seq<int>, k: nat)
    requires k <= |factors| == |calling|
    requires forall i :: 0 <= i < |calling| ==> calling[i] != 1
    ensures CalledCost(factors, calling, k) == 0.0
    decreases k
  {
    if k > 0 {
      CalledCostNothing(factors, calling, k - 1);
    }
  }

  /** Requesting one more factor p adds its cost once p is inside the
      prefix. */
  lemma {:induction false} CalledCostOneMore(factors: seq<Factor>, c1: seq<int>, c2: seq<int>, p: nat, k: nat)
    requires k <= |factors| == |c1| == |c2| && p < |factors|
    requires forall i :: 0 <= i < |c1| && i != p ==> c1[i] == c2[i]
    requires c1[p] == 1 && c2[p] != 1
    ensures CalledCost(factors, c1, k) == CalledCost(factors, c2, k) + (if p < k then factors[p].cost else 0.0)
    decreases k
  {
    if k > 0 {
      CalledCostOneMore(factors, c1, c2, p, k - 1);
    }
  }

  /** The environment charges a policy's calling vector exactly the cost of
      the selection it was built from. */
  lemma {:induction false} CalledCostOfSelection(factors: seq<Factor>, picked: seq<nat>)
    requires InRange(picked, |factors|) && Distinct(picked)
    ensures CalledCost(factors, CallingVector(|factors|, picked), |factors|) == SeqCost(factors, picked)
    decreases |picked|
  {
    var n := |factors|;
    if picked == [] {
      CalledCostNothing(factors, CallingVector(n, picked), n);
    } else {
      var rest := picked[1..];
      assert InRange(rest, n) && Distinct(rest);
      CalledCostOfSelection(factors, rest);
      assert picked[0] !in rest;
      assert forall i :: i in picked <==> i == picked[0] || i in rest;
      CalledCostOneMore(factors, CallingVector(n, picked), CallingVector(n, rest), picked[0], n);
    }
  }

  /** On a fresh message, a calling vector whose total cost fits the energy
      is processed without a mistake: after k factors the energy is the
      starting energy less what the first k requests cost, and the factors
      not yet reached are still unanswered. */
  lemma {:induction false} FreshProbePrefix(factors: seq<Factor>, isRealSource: bool, calling: seq<int>,
                                            draws: seq<real>, energy: real, k: nat)
    requires WellFormedFactors(factors)
    requires k <= |factors| == |calling| == |draws|
    requires CalledCost(factors, calling, |factors|) <= energy
    ensures var p := ProbeUpTo(factors, isRealSource, calling, draws, ProbeState(Zeros(|factors|), energy, false), k);
            !p.mistake && p.energy == energy - CalledCost(factors, calling, k) &&
            forall j :: k <= j < |factors| ==> p.responses[j] == 0
    decreases k
  {
    if k > 0 {
      FreshProbePrefix(factors, isRealSource, calling, draws, energy, k - 1);
      CalledCostMonotone(factors, calling, k, |factors|);
    }
  }

  /** The cross-file fact: a distinct selection whose cost fits the energy,
      sent as a calling vector on a fresh message, never meets the
      insufficient-energy branch (nor the already-answered one), and is
      charged exactly its cost. */
  lemma FreshProbeOfAffordableSelection(factors: seq<Factor>, isRealSource: bool, picked: seq<nat>,
                                        draws: seq<real>, energy: real)
    requires WellFormedFactors(factors) && InRange(picked, |factors|) && Distinct(picked)
    requires |draws| == |factors|
    requires SeqCost(factors, picked) <= energy
    ensures var p := ProbeUpTo(factors, isRealSource, CallingVector(|factors|, picked), draws,
                               ProbeState(Zeros(|factors|), energy, false), |factors|);
            !p.mistake && p.energy == energy - SeqCost(factors, picked)
  {
    CalledCostOfSelection(factors, picked);
    FreshProbePrefix(factors, isRealSource, CallingVector(|factors|, picked), draws, energy, |factors|);
  }

  /** Combination's probe-turn selection costs at most the budget, hence at
      most the energy, and on a fresh message it is charged in full without
      a mistake. */
  lemma CombinationProbeIsAffordable(obs: Observation, order: seq<nat>, isRealSource: bool, draws: seq<real>)
    requires Consistent(obs) && IsOrder(order, |obs.factors|) && |draws| == |obs.factors|
    requires obs.criticality >= 0.0 && obs.trust >= 0.0 && obs.currentEnergy >= 0.0
    ensures var sel := Greedy(obs.factors, order, ObservedBudget(obs));
            SeqCost(obs.factors, sel.picked) <= ObservedBudget(obs) <= obs.currentEnergy &&
            var p := ProbeUpTo(obs.factors, isRealSource, CallingVector(|obs.factors|, sel.picked), draws,
                               ProbeState(Zeros(|obs.factors|), obs.currentEnergy, false), |obs.factors|);
            !p.mistake && p.energy == obs.currentEnergy - SeqCost(obs.factors, sel.picked)
  {
    var budget := ObservedBudget(obs);
    BudgetBounds(obs.criticality, obs.trust, obs.numberMessages, obs.position, obs.currentEnergy);
    var sel := Greedy(obs.factors, order, budget);
    GreedyDistinct(obs.factors, order, budget);
    FreshProbeOfAffordableSelection(obs.factors, isRealSource, sel.picked, draws, obs.currentEnergy);
  }

  /** Voracious's probe-turn selection likewise: its one factor costs at
      most the budget, hence at most the energy, and on a fresh message it
      is charged without a mistake. */
  lemma VoraciousProbeIsAffordable(obs: Observation, order: seq<nat>, isRealSource: bool, draws: seq<real>)
    requires Consistent(obs) && IsOrder(order, |obs.factors|) && |draws| == |obs.factors|
    requires obs.criticality >= 0.0 && obs.trust >= 0.0 && obs.currentEnergy >= 0.0
    ensures var picked := AsSeq(FirstFit(obs.factors, order, ObservedBudget(obs)));
            InRange(picked, |obs.factors|) &&
            SeqCost(obs.factors, picked) <= ObservedBudget(obs) <= obs.currentEnergy &&
            var p := ProbeUpTo(obs.factors, isRealSource, CallingVector(|obs.factors|, picked), draws,
                               ProbeState(Zeros(|obs.factors|), obs.currentEnergy, false), |obs.factors|);
            !p.mistake && p.energy == obs.currentEnergy - SeqCost(obs.factors, picked)
  {
    var budget := ObservedBudget(obs);
    BudgetBounds(obs.criticality, obs.trust, obs.numberMessages, obs.position, obs.currentEnergy);
    var r := FirstFit(obs.factors, order, budget);
    var picked := AsSeq(r);
    if r.Some? {
      assert r.value in order;
      assert SeqCost(obs.factors, picked) == obs.factors[r.value].cost;
    }
    FreshProbeOfAffordableSelection(obs.factors, isRealSource, picked, draws, obs.currentEnergy);
  }

  /** Along the same order and budget, Voracious takes exactly the first
      factor Combination's greedy pass takes, and nothing when it takes
      nothing. */
  lemma {:induction false} FirstFitStartsGreedy(factors: seq<Factor>, s: seq<nat>, budget: real)
    requires InRange(s, |factors|)
    ensures FirstFit(factors, s, budget).None? <==> Greedy(factors, s, budget).picked == []
    ensures FirstFit(factors, s, budget).Some? ==>
              Greedy(factors, s, budget).picked[0] == FirstFit(factors, s, budget).value
    decreases |s|
  {
    if s != [] && factors[s[0]].cost > budget {
      FirstFitStartsGreedy(factors, s[1..], budget);
    }
  }

  /** When Voracious sees no report of a real source, Combination's
      real-sum is zero and cannot win: it falls back to 2. */
  lemma NoRealReportMeansCombinationFallback(factors: seq<Factor>, responses: seq<int>)
    requires WellFormedFactors(factors) && |responses| == |factors|
    requires VoraciousDecision(responses) == -1
    ensures CombinationDecision(factors, responses) == 2
  {
    WeightedSumAbsent(factors, responses, 1);
    WeightedSumNonNegative(factors, responses, -1);
  }

  /** The converse fails: one report of a real source is enough for
      Voracious, while Combination lets a more accurate fake report win. */
  lemma RealReportCanBeOutweighed()
    ensures VoraciousDecision([1, -1]) == 1
    ensures CombinationDecision([Factor(1.0, 0.6), Factor(1.0, 0.9)], [1, -1]) == 2
  {
    var f := [Factor(1.0, 0.6), Factor(1.0, 0.9)];
    assert f[1..][1..] == [] && [1, -1][1..][1..] == [];
    assert WeightedSum(f, [1, -1], 1) == 0.6;
    assert WeightedSum(f, [1, -1], -1) == 0.9;
  }

  /** A greedy pass skips a factor that does not fit and still takes a
      later, cheaper one. */
  lemma GreedySkipsAndGoesOn()
    ensures Greedy([Factor(0.5, 0.5), Factor(1.0, 0.9), Factor(0.2, 0.1)], [0, 1, 2], 1.0) ==
            Selection([0, 2], 0.3)
  {
    var f := [Factor(0.5, 0.5), Factor(1.0, 0.9), Factor(0.2, 0.1)];
    var s: seq<nat> := [0, 1, 2];
    assert s[1..] == [1, 2] && s[1..][1..] == [2] && s[1..][1..][1..] == [];
  }
}
