/** The episode state machine `IdentificationManagement`: a fixed list of
    messages, a cursor on the current one, the energy left, and one response
    per identification factor for the current message. */
module Environment {
  import opened Interface
  import opened Probing

  /** What `step` returns: the next observation, the reward and the two
      flags; or the lookup failure of `int_to_bool` for a decoded
      declaration that has no entry (the call raises, nothing is changed). */
  datatype StepResult =
    | Transition(observation: Observation, reward: real, terminated: bool, truncated: bool)
    | KeyError(key: int)

  /** The table `int_to_bool`: -1 means fake, 1 means real. */
  function IntToBool(d: int): (claim: Option<bool>)
  {
    if d == -1 then Some(false) else if d == 1 then Some(true) else None
  }

  class IdentificationManagement {
    const factors: seq<Factor>
    const numberMessages: int
    const maximumEnergy: real

    var messages: seq<Message>
    var position: int
    var currentMessage: Message
    var currentEnergy: real
    var responses: array<int>
    var isTerminated: bool
    var isTruncated: bool

    /** The state between two calls of a running episode. */
    ghost predicate Valid()
      reads this, responses
    {
      WellFormedFactors(factors) &&
      numberMessages >= 1 && |messages| == numberMessages &&
      0 <= position < numberMessages && currentMessage == messages[position] &&
      responses.Length == |factors| && ResponsesInRange(responses[..]) &&
      !isTruncated
    }

    /** The probing call as a function of the state before it. */
    ghost function ProbeOutcome(calling: seq<int>, draws: seq<real>): (outcome: ProbeState)
      reads this, responses
      requires responses.Length == |factors| == |calling| == |draws|
    {
      ProbeUpTo(factors, currentMessage.isRealSource, calling, draws,
                ProbeState(responses[..], currentEnergy, false), |factors|)
    }

    /** The effect of resolving the message at cursor `pos` on the current
        state, given the flag and the responses just before: past the last
        message the episode terminates and the cursor and responses stay;
        otherwise the cursor moves to the next message with every response
        reset to 0. */
    ghost predicate ResolvedFrom(pos: int, wasTerminated: bool, before: seq<int>)
      reads this, responses
    {
      if pos >= numberMessages - 1 then
        isTerminated && position == pos && responses[..] == before
      else
        isTerminated == wasTerminated && position == pos + 1 &&
        responses[..] == Zeros(|factors|)
    }

    /** The snapshot handed to the policies. Every snapshot of a running
        episode is consistent, so a policy always sees at least one message
        left. */
    function GetObservation(): (obs: Observation)
      reads this, responses
      requires Valid()
      ensures Consistent(obs)
      ensures obs.numberMessages - obs.position >= 1
      ensures obs.factors == factors && obs.responses == responses[..] && obs.currentEnergy == currentEnergy
      ensures obs.numberMessages == numberMessages && obs.position == position &&
              obs.criticality == currentMessage.criticality &&
              obs.trust == currentMessage.trust
    {
      Observation(factors, responses[..], currentEnergy, numberMessages, position,
                  currentMessage.criticality, currentMessage.trust)
    }

    /** The configuration; the episode state exists only after `Reset`
        (until then the message fields hold placeholders). */
    constructor(factors: seq<Factor>, numberMessages: int, maximumEnergy: real)
      requires WellFormedFactors(factors)
      ensures this.factors == factors && this.numberMessages == numberMessages &&
              this.maximumEnergy == maximumEnergy
    {
      this.factors := factors;
      this.numberMessages := numberMessages;
      this.maximumEnergy := maximumEnergy;
      messages := [];
      position := 0;
      currentMessage := Message(0.0, 0.0, false);
      currentEnergy := maximumEnergy;
      responses := new int[|factors|](_ => 0);
      isTerminated := false;
      isTruncated := false;
    }

    /** Starts an episode on the messages the message source generated. */
    method Reset(generated: seq<Message>) returns (obs: Observation)
      requires WellFormedFactors(factors)
      requires numberMessages >= 1 && |generated| == numberMessages
      modifies this
      ensures Valid() && fresh(responses)
      ensures messages == generated && currentEnergy == maximumEnergy
      ensures position == 0 && currentMessage == generated[0]
      ensures responses[..] == Zeros(|factors|)
      ensures !isTerminated && !isTruncated
      ensures obs == GetObservation()
    {
      messages := generated;
      currentEnergy := maximumEnergy;
      position := 0;
      currentMessage := messages[position];
      responses := new int[|factors|](_ => 0);
      isTerminated := false;
      isTruncated := false;
      obs := GetObservation();
    }

    /** Moves the cursor to the next message and clears the responses. */
    method NextMessage()
      requires Valid() && position < numberMessages - 1
      modifies this
      ensures Valid() && fresh(responses)
      ensures position == old(position) + 1 && responses[..] == Zeros(|factors|)
      ensures messages == old(messages) && currentEnergy == old(currentEnergy)
      ensures isTerminated == old(isTerminated) && isTruncated == old(isTruncated)
    {
      position := position + 1;
      responses := new int[|factors|](_ => 0);
      currentMessage := messages[position];
    }

    /** Resolves the current message: terminates on the last one, moves on
        otherwise. */
    method ResolveCurrentMessage()
      requires Valid()
      modifies this
      ensures Valid()
      ensures ResolvedFrom(old(position), old(isTerminated), old(responses[..]))
      ensures messages == old(messages) && currentEnergy == old(currentEnergy)
      ensures responses == old(responses) || fresh(responses)
    {
      if position >= numberMessages - 1 {
        isTerminated := true;
      } else {
        NextMessage();
      }
    }

    /** The probing loop: visits the factors in index order, charging and
        answering every requested, unanswered, affordable factor and
        recording a mistake for every other requested one. */
    method CallIdentificationFactors(calling: seq<int>, draws: seq<real>) returns (madeMistake: bool)
      requires Valid() && |calling| == |factors| && |draws| == |factors|
      modifies this`currentEnergy, responses
      ensures Valid()
      ensures ProbeState(responses[..], currentEnergy, madeMistake) ==
              old(ProbeOutcome(calling, draws))
    {
      ghost var init := ProbeState(responses[..], currentEnergy, false);
      madeMistake := false;
      for i := 0 to |factors|
        invariant ProbeState(responses[..], currentEnergy, madeMistake) ==
                  ProbeUpTo(factors, currentMessage.isRealSource, calling, draws, init, i)
      {
        if calling[i] == 1 && responses[i] == 0 {
          var cost := factors[i].cost;
          var accuracy := factors[i].accuracy;
          if currentEnergy >= cost {
            currentEnergy := currentEnergy - cost;
            if draws[i] < accuracy {
              responses[i] := BoolToInt(currentMessage.isRealSource);
            } else {
              responses[i] := BoolToInt(!currentMessage.isRealSource);
            }
          } else {
            madeMistake := true;
          }
        } else if calling[i] == 1 && responses[i] != 0 {
          madeMistake := true;
        }
      }
      ProbeKeepsRange(factors, currentMessage.isRealSource, calling, draws, init, |factors|);
    }

    /** One step of the episode. The raw declaration is decoded as
        `action.isRealSource - 1`: a non-zero value is a declaration (-1
        fake, 1 real, anything else has no entry in `int_to_bool`), zero is
        a probing call with `draws[i]` as the uniform draw for factor i. */
    method Step(action: Action, draws: seq<real>) returns (result: StepResult)
      requires Valid() && |action.calling| == |factors| && |draws| == |factors|
      modifies this, responses
      ensures Valid()
      // never touched by a step
      ensures messages == old(messages) && !isTruncated
      ensures responses == old(responses) || fresh(responses)
      // energy is charged only when it covers the cost
      ensures currentEnergy <= old(currentEnergy)
      ensures old(currentEnergy) >= 0.0 ==> currentEnergy >= 0.0
      // the cursor moves by 0 or 1
      ensures position == old(position) || position == old(position) + 1
      // the episode terminates only when the last message is resolved
      ensures !old(isTerminated) && isTerminated ==> old(position) == numberMessages - 1
      // a declaration with no entry in int_to_bool changes nothing
      ensures var d := action.isRealSource - 1;
              d != 0 && IntToBool(d).None? ==>
                result == KeyError(d) && position == old(position) && responses == old(responses) &&
                responses[..] == old(responses[..]) && currentEnergy == old(currentEnergy) &&
                isTerminated == old(isTerminated)
      // a declaration: reward +-stakes, energy unchanged, message resolved
      ensures var d := action.isRealSource - 1;
              d != 0 && IntToBool(d).Some? ==>
                result.Transition? &&
                result.reward == (if IntToBool(d).value == old(currentMessage).isRealSource
                                  then Stakes(old(currentMessage)) else -Stakes(old(currentMessage))) &&
                currentEnergy == old(currentEnergy) &&
                ResolvedFrom(old(position), old(isTerminated), old(responses[..]))
      // a probing call: reward 0 and the message stays unless a mistake was made
      ensures var p := old(ProbeOutcome(action.calling, draws));
              action.isRealSource - 1 == 0 ==>
                result.Transition? && currentEnergy == p.energy &&
                result.reward == (if p.mistake then -Stakes(old(currentMessage)) else 0.0) &&
                (p.mistake ==> ResolvedFrom(old(position), old(isTerminated), p.responses)) &&
                (!p.mistake ==> position == old(position) && isTerminated == old(isTerminated) &&
                                responses[..] == p.responses)
      ensures result.Transition? ==>
                result.observation == GetObservation() &&
                result.terminated == isTerminated && !result.truncated
    {
      var d := action.isRealSource - 1;
      var reward: real;
      ghost var p := ProbeOutcome(action.calling, draws);
      ProbeEnergy(factors, currentMessage.isRealSource, action.calling, draws,
                  ProbeState(responses[..], currentEnergy, false), |factors|);
      if d != 0 {
        var claim := IntToBool(d);
        if claim.None? {
          return KeyError(d);
        }
        if claim.value == currentMessage.isRealSource {
          reward := Stakes(currentMessage);
        } else {
          reward := -Stakes(currentMessage);
        }
        ResolveCurrentMessage();
      } else {
        var madeMistake := CallIdentificationFactors(action.calling, draws);
        reward := 0.0;
        if madeMistake {
          reward := -Stakes(currentMessage);
          ResolveCurrentMessage();
        }
      }
      result := Transition(GetObservation(), reward, isTerminated, isTruncated);
    }
  }

  /** One factor of cost 0.4 and accuracy 0.7, energy 1.0 and one real
      message of criticality and trust 1.0. Probing the factor (raw 1) costs
      0.4 and earns nothing; its answer is the truth exactly when the draw is
      below 0.7. Declaring real (raw 2) then earns 1.0 and ends the episode. */
  method SingleMessageScenario(u: real)
    returns (probeReward: real, energyAfterProbe: real, response: int, declareReward: real, terminated: bool)
    ensures probeReward == 0.0 && energyAfterProbe == 0.6
    ensures response == (if u < 0.7 then 1 else -1)
    ensures declareReward == 1.0 && terminated
  {
    var env := new IdentificationManagement([Factor(0.4, 0.7)], 1, 1.0);
    var _ := env.Reset([Message(1.0, 1.0, true)]);
    var first := env.Step(Act(1, [1]), [u]);
    probeReward, energyAfterProbe, response := first.reward, env.currentEnergy, env.responses[0];
    var second := env.Step(Act(2, [0]), [u]);
    declareReward, terminated := second.reward, second.terminated;
  }
}
