/** The per-message energy budget that both heuristic policies compute on
    their probe turn: the current message's stakes relative to the
    remaining messages, each assumed to be average, as a share of the energy
    left, capped at the energy left. */
module Budget {
  import opened Interface

  /** The assumed average criticality and trust of a message. */
  const AverageCriticality: real := 0.5
  const AverageTrust: real := 0.5

  /** The uncapped share for a message with the given stakes when
      `remaining` messages (the current one included) are left. */
  function RawBudget(criticality: real, trust: real, remaining: int, energy: real): (b: real)
    requires remaining >= 1
  {
    (criticality * trust) / (remaining as real * AverageCriticality * AverageTrust) * energy
  }

  /** The budget for the message at `position`: the raw share when it fits
      in the energy left, the energy left otherwise; never more than the
      energy left. */
  function EnergyBudget(criticality: real, trust: real, numberMessages: int, position: int, energy: real): (b: real)
    requires numberMessages - position >= 1
    ensures b <= energy
    ensures b == energy || b == RawBudget(criticality, trust, numberMessages - position, energy)
    ensures RawBudget(criticality, trust, numberMessages - position, energy) > energy ==> b == energy
    ensures RawBudget(criticality, trust, numberMessages - position, energy) <= energy ==>
              b == RawBudget(criticality, trust, numberMessages - position, energy)
  {
    var raw := RawBudget(criticality, trust, numberMessages - position, energy);
    if raw > energy then energy else raw
  }

  /** With non-negative stakes and energy the budget is well defined and
      between zero and the energy left. */
  lemma BudgetBounds(criticality: real, trust: real, numberMessages: int, position: int, energy: real)
    requires numberMessages - position >= 1
    requires criticality >= 0.0 && trust >= 0.0 && energy >= 0.0
    ensures 0.0 <= EnergyBudget(criticality, trust, numberMessages, position, energy) <= energy
  {
    var r := (numberMessages - position) as real * AverageCriticality * AverageTrust;
    var s := criticality * trust;
    assert s >= 0.0;
    assert r > 0.0;
    assert s / r >= 0.0;
    assert s / r * energy >= 0.0;
  }

  /** A message of average stakes (criticality times trust equal to 1/4)
      receives exactly an equal share of the energy left among the
      remaining messages. */
  lemma AverageMessageGetsEqualShare(criticality: real, trust: real, numberMessages: int, position: int,
                                     energy: real)
    requires numberMessages - position >= 1
    requires criticality * trust == AverageCriticality * AverageTrust
    requires energy >= 0.0
    ensures EnergyBudget(criticality, trust, numberMessages, position, energy) ==
            energy / (numberMessages - position) as real
  {
    var n := (numberMessages - position) as real;
    assert RawBudget(criticality, trust, numberMessages - position, energy) == energy / n;
    assert energy / n <= energy by {
      assert energy / n * n == energy;
      assert n >= 1.0;
    }
  }

  /** The budget a policy computes from an observation. */
  function ObservedBudget(obs: Observation): (b: real)
    requires obs.numberMessages - obs.position >= 1
  {
    EnergyBudget(obs.criticality, obs.trust, obs.numberMessages, obs.position, obs.currentEnergy)
  }
}
