/** Values exchanged between the identification-management environment and
    its policies: the factor matrix, messages, observation snapshots and
    actions. */
module Interface {

  datatype Option<T> = None | Some(value: T)

  /** One row of the identification-factor matrix: column 0 is the energy
      cost of calling the factor, column 1 its probability of answering
      correctly. */
  datatype Factor = Factor(cost: real, accuracy: real)

  /** The matrix is usable: every cost is positive and every accuracy is a
      probability. */
  predicate WellFormedFactors(factors: seq<Factor>)
  {
    forall i :: 0 <= i < |factors| ==> factors[i].cost > 0.0 && 0.0 <= factors[i].accuracy <= 1.0
  }

  /** An incoming message and its ground truth. */
  datatype Message = Message(criticality: real, trust: real, isRealSource: bool)

  /** The stakes of a message: every non-zero reward is plus or minus this. */
  function Stakes(m: Message): (stakes: real)
  {
    m.criticality * m.trust
  }

  /** A response value: 1 the factor reported a real source, -1 a fake one,
      0 the factor has not answered for the current message. */
  predicate ResponsesInRange(responses: seq<int>)
  {
    forall i :: 0 <= i < |responses| ==> -1 <= responses[i] <= 1
  }

  /** A response vector of n unanswered factors. */
  function Zeros(n: nat): (r: seq<int>)
    ensures |r| == n && forall i :: 0 <= i < n ==> r[i] == 0
  {
    seq(n, _ => 0)
  }

  /** The snapshot the environment hands to a policy. */
  datatype Observation = Observation(
    factors: seq<Factor>,
    responses: seq<int>,
    currentEnergy: real,
    numberMessages: int,
    position: int,
    criticality: real,
    trust: real)

  /** What every snapshot of a running episode satisfies, and what the
      policies rely on: a usable matrix, one response in range per factor,
      and at least one message left (the current one). */
  predicate Consistent(obs: Observation)
  {
    WellFormedFactors(obs.factors) &&
    |obs.responses| == |obs.factors| &&
    ResponsesInRange(obs.responses) &&
    0 <= obs.position < obs.numberMessages
  }

  /** An action in the environment's raw encoding: `isRealSource` is the raw
      integer the environment decodes as `isRealSource - 1`; `calling` has a
      1 at every factor to call. */
  datatype Action = Act(isRealSource: int, calling: seq<int>)

  /** The default factor matrix of the configuration module. */
  const DefaultFactors: seq<Factor> :=
    [Factor(0.8, 0.8), Factor(0.4, 0.7), Factor(0.6, 0.75), Factor(0.2, 0.6)]
}
