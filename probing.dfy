/** The probing call of the environment (`_calling_identification_factors`)
    as a function on values: the loop over factor indices is the left fold
    `ProbeUpTo`, one `ProbeFactor` per index. The method that runs the loop
    on the environment's response array is proved equal to it. */
module Probing {
  import opened Interface

  /** The signed encoding of a source flag: 1 for real, -1 for fake. */
  function BoolToInt(b: bool): (r: int)
  {
    if b then 1 else -1
  }

  /** What a successfully probed factor records, given its draw u: the true
      flag when u is below the factor's accuracy, the inverted flag
      otherwise. */
  function Reading(isRealSource: bool, u: real, accuracy: real): (r: int)
  {
    if u < accuracy then BoolToInt(isRealSource) else BoolToInt(!isRealSource)
  }

  /** The part of the environment a probing call changes, and whether it
      has seen a mistake so far. */
  datatype ProbeState = ProbeState(responses: seq<int>, energy: real, mistake: bool)

  /** One iteration of the loop, for factor index i. */
  function ProbeFactor(f: Factor, isRealSource: bool, call: int, u: real, st: ProbeState, i: nat): (next: ProbeState)
    requires i < |st.responses|
  {
    if call == 1 && st.responses[i] == 0 then
      if st.energy >= f.cost then
        ProbeState(st.responses[i := Reading(isRealSource, u, f.accuracy)], st.energy - f.cost, st.mistake)
      else
        ProbeState(st.responses, st.energy, true)   // not enough energy
    else if call == 1 && st.responses[i] != 0 then
      ProbeState(st.responses, st.energy, true)     // already answered for this message
    else
      st
  }

  /** The state once the loop has visited factors 0 .. k-1. */
  function ProbeUpTo(factors: seq<Factor>, isRealSource: bool, calling: seq<int>, draws: seq<real>,
                     init: ProbeState, k: nat): (st: ProbeState)
    requires k <= |factors| == |calling| == |draws| == |init.responses|
    ensures |st.responses| == |init.responses|
    decreases k
  {
    if k == 0 then init
    else
      ProbeFactor(factors[k - 1], isRealSource, calling[k - 1], draws[k - 1],
                  ProbeUpTo(factors, isRealSource, calling, draws, init, k - 1), k - 1)
  }

  /** The total cost of the factors requested among indices 0 .. k-1. */
  function CalledCost(factors: seq<Factor>, calling: seq<int>, k: nat): (c: real)
    requires k <= |factors| == |calling|
  {
    if k == 0 then 0.0
    else CalledCost(factors, calling, k - 1) + (if calling[k - 1] == 1 then factors[k - 1].cost else 0.0)
  }

  /** The total cost of the factors among indices 0 .. k-1 the loop actually
      answers: requested, unanswered at the start of the call and affordable
      with the energy left when the loop reached them. A mistaken factor adds
      nothing, and the factors after it are still counted. */
  function AnsweredCost(factors: seq<Factor>, isRealSource: bool, calling: seq<int>, draws: seq<real>,
                        init: ProbeState, k: nat): (c: real)
    requires k <= |factors| == |calling| == |draws| == |init.responses|
    decreases k
  {
    if k == 0 then 0.0
    else
      AnsweredCost(factors, isRealSource, calling, draws, init, k - 1) +
      (if calling[k - 1] == 1 && init.responses[k - 1] == 0 &&
          ProbeUpTo(factors, isRealSource, calling, draws, init, k - 1).energy >= factors[k - 1].cost
       then factors[k - 1].cost else 0.0)
  }

  /** With positive costs the requested cost only grows with the prefix. */
  lemma {:induction false} CalledCostMonotone(factors: seq<Factor>, calling: seq<int>, j: nat, k: nat)
    requires WellFormedFactors(factors)
    requires j <= k <= |factors| == |calling|
    ensures CalledCost(factors, calling, j) <= CalledCost(factors, calling, k)
    decreases k
  {
    if j < k {
      CalledCostMonotone(factors, calling, j, k - 1);
    }
  }

  /** A successful probe records a definite answer, and at the extreme
      accuracies the answer no longer depends on the draw. */
  lemma ReadingAtBounds(isRealSource: bool, u: real, accuracy: real)
    requires 0.0 <= u < 1.0
    ensures Reading(isRealSource, u, accuracy) == 1 || Reading(isRealSource, u, accuracy) == -1
    ensures accuracy >= 1.0 ==> Reading(isRealSource, u, accuracy) == BoolToInt(isRealSource)
    ensures accuracy <= 0.0 ==> Reading(isRealSource, u, accuracy) == BoolToInt(!isRealSource)
    ensures (Reading(isRealSource, u, accuracy) == 1) == (isRealSource == (u < accuracy))
  {
  }

  /** The response of factor j after the loop: the draw's reading exactly
      when j was requested, still unanswered and affordable with the energy
      left when the loop reached it; its old value otherwise. In particular a
      factor that is not requested is never touched, and a mistake leaves
      the factor's response as it was. */
  lemma {:induction false} ProbeResponseAt(factors: seq<Factor>, isRealSource: bool, calling: seq<int>,
                                           draws: seq<real>, init: ProbeState, k: nat, j: nat)
    requires k <= |factors| == |calling| == |draws| == |init.responses|
    requires j < |init.responses|
    ensures ProbeUpTo(factors, isRealSource, calling, draws, init, k).responses[j] ==
            if j < k && calling[j] == 1 && init.responses[j] == 0 &&
               ProbeUpTo(factors, isRealSource, calling, draws, init, j).energy >= factors[j].cost
            then Reading(isRealSource, draws[j], factors[j].accuracy)
            else init.responses[j]
    decreases k
  {
    if k > 0 {
      ProbeResponseAt(factors, isRealSource, calling, draws, init, k - 1, j);
      if j != k - 1 {
        ProbeResponseAt(factors, isRealSource, calling, draws, init, k - 1, k - 1);
      }
    }
  }

  /** Energy is charged only when it covers the cost: it never drops below
      zero if it started at zero or more, and with non-negative costs it
      never increases. */
  lemma {:induction false} ProbeEnergy(factors: seq<Factor>, isRealSource: bool, calling: seq<int>,
                                       draws: seq<real>, init: ProbeState, k: nat)
    requires k <= |factors| == |calling| == |draws| == |init.responses|
    ensures init.energy >= 0.0 ==> ProbeUpTo(factors, isRealSource, calling, draws, init, k).energy >= 0.0
    ensures WellFormedFactors(factors) ==>
              ProbeUpTo(factors, isRealSource, calling, draws, init, k).energy <= init.energy
    decreases k
  {
    if k > 0 {
      ProbeEnergy(factors, isRealSource, calling, draws, init, k - 1);
    }
  }

  /** A call is a mistake exactly when some requested factor was already
      answered or cost more than the energy left when the loop reached it;
      the loop goes on after a mistake. */
  lemma {:induction false} ProbeMistake(factors: seq<Factor>, isRealSource: bool, calling: seq<int>,
                                        draws: seq<real>, init: ProbeState, k: nat)
    requires k <= |factors| == |calling| == |draws| == |init.responses|
    ensures ProbeUpTo(factors, isRealSource, calling, draws, init, k).mistake <==>
            init.mistake ||
            exists j :: 0 <= j < k && calling[j] == 1 &&
              (init.responses[j] != 0 ||
               ProbeUpTo(factors, isRealSource, calling, draws, init, j).energy < factors[j].cost)
    decreases k
  {
    if k > 0 {
      ProbeMistake(factors, isRealSource, calling, draws, init, k - 1);
      ProbeResponseAt(factors, isRealSource, calling, draws, init, k - 1, k - 1);
    }
  }

  /** Every call, with or without mistakes, is charged exactly the cost of
      the factors it answers: a mistaken factor leaves the energy as it was
      and the loop goes on probing and charging the factors after it. */
  lemma {:induction false} ProbeCharges(factors: seq<Factor>, isRealSource: bool, calling: seq<int>,
                                        draws: seq<real>, init: ProbeState, k: nat)
    requires k <= |factors| == |calling| == |draws| == |init.responses|
    ensures ProbeUpTo(factors, isRealSource, calling, draws, init, k).energy ==
            init.energy - AnsweredCost(factors, isRealSource, calling, draws, init, k)
    decreases k
  {
    if k > 0 {
      ProbeCharges(factors, isRealSource, calling, draws, init, k - 1);
      ProbeResponseAt(factors, isRealSource, calling, draws, init, k - 1, k - 1);
    }
  }

  /** A call without a mistake answers every factor it requests, so it is
      charged exactly the costs of the requested factors. */
  lemma {:induction false} ProbeChargesRequested(factors: seq<Factor>, isRealSource: bool, calling: seq<int>,
                                                 draws: seq<real>, init: ProbeState, k: nat)
    requires k <= |factors| == |calling| == |draws| == |init.responses|
    requires !init.mistake
    requires !ProbeUpTo(factors, isRealSource, calling, draws, init, k).mistake
    ensures AnsweredCost(factors, isRealSource, calling, draws, init, k) == CalledCost(factors, calling, k)
    ensures ProbeUpTo(factors, isRealSource, calling, draws, init, k).energy ==
            init.energy - CalledCost(factors, calling, k)
    decreases k
  {
    ProbeCharges(factors, isRealSource, calling, draws, init, k);
    if k > 0 {
      ProbeChargesRequested(factors, isRealSource, calling, draws, init, k - 1);
      ProbeResponseAt(factors, isRealSource, calling, draws, init, k - 1, k - 1);
    }
  }

  /** Two requested factors and energy 0.5: the first costs 1.0, which is a
      mistake and charges nothing; the second, of cost 0.2, is still probed,
      answered and charged. */
  lemma MistakeDoesNotStopTheLoop()
    ensures var st := ProbeUpTo([Factor(1.0, 0.5), Factor(0.2, 0.5)], true, [1, 1], [0.0, 0.0],
                                ProbeState([0, 0], 0.5, false), 2);
            st.mistake && st.energy == 0.3 && st.responses == [0, 1]
  {
  }

  /** Responses stay in {-1, 0, 1}. */
  lemma {:induction false} ProbeKeepsRange(factors: seq<Factor>, isRealSource: bool, calling: seq<int>,
                                           draws: seq<real>, init: ProbeState, k: nat)
    requires k <= |factors| == |calling| == |draws| == |init.responses|
    requires ResponsesInRange(init.responses)
    ensures ResponsesInRange(ProbeUpTo(factors, isRealSource, calling, draws, init, k).responses)
    decreases k
  {
    if k > 0 {
      ProbeKeepsRange(factors, isRealSource, calling, draws, init, k - 1);
    }
  }
}
