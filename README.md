# Identification management: episode state machine and heuristic policies

This Dafny project models an identification-management simulation and proves properties of the model. An agent sees a stream of messages and must declare each one as coming from a real or a spoofed source. Before declaring, it may spend a finite, non-renewable energy reserve on noisy identification factors (sensors). Each factor has a cost and an accuracy.

The project models three pieces:

- **The episode state machine** `IdentificationManagement` (`environment.dfy`) is a class.
  - Its fields are the message list, the cursor, the energy left, a response array (one entry per factor, in {-1, 0, 1}) and the termination and truncation flags.
  - `Reset` builds a fresh episode.
  - `Step` decodes the raw declaration as `raw - 1`. A non-zero value is a declaration, rewarded with plus or minus criticality × trust. Zero is a probing call.
  - The probing loop (`CallIdentificationFactors`) charges energy, records answers and flags mistakes. A mistake is calling an answered factor, or one the energy cannot cover. It costs minus criticality × trust and resolves the message.
  - Resolving a message terminates the episode on the last message. Otherwise it moves the cursor on and clears the responses.
  - The probing loop is proved equal to a pure left fold, `Probing.ProbeUpTo` (`probing.dfy`). The lemmas about that fold carry the energy and response properties.
- **The Combination policy** (`combination.dfy`) alternates a probe turn and a decide turn.
  - On the probe turn it computes the message's energy budget (`budget.dfy`), capped at the energy left.
  - It then makes a greedy pass over the factors, best accuracy-per-cost first. It takes every factor that still fits and skips the ones that do not.
  - On the decide turn it compares the accuracy-weighted sums of the factors reporting +1 and -1.
- **The Voracious policy** (`voracious.dfy`) uses the same budget.
  - On the probe turn it takes only the first affordable factor in order of decreasing accuracy.
  - On the decide turn it applies an OR rule: "did any factor report +1?".
- **Cross-checks** (`cross_checks.dfy`) relate the pieces.
  - A policy's selection, run through the environment's probing loop on a fresh message, never meets the insufficient-energy branch and is charged exactly its cost.
  - Voracious's pick is the first factor of Combination's pass along the same order.
  - When Voracious sees no real report, Combination falls back to its default declaration.

Each file keeps the raw integers of its source file:

- The environment reads raw 0 as "declare fake", 1 as "probe" and 2 as "declare real".
- Both policies emit 0 on their probe turn.
- Combination emits 0 or 2 on its decide turn, and Voracious emits 1 or -1.
- In the environment modelled here, a raw -1 decodes to -2, which has no entry in the decoding table. `Step` returns `KeyError` for it and changes nothing.

The policies are driven elsewhere by an environment module, `Identification_management`, that is not part of this model. For that reason the model states no closed-loop reward theorem for policy and environment together.

The model follows the code on these points:

- The factor matrix is not validated by the code. The model states positive costs and accuracies in [0, 1] as preconditions instead.
- Stepping after termination is not refused by the code. It is not refused here either.
- The raw decision values are those above.

Randomness becomes inputs:

- `Reset` receives the generated message list.
- `Step` receives one uniform draw per factor index. `draws[i]` is used only when factor i is probed.
- The tie order of the sorts (numpy's argsort is not stable) is a parameter `order`. It is constrained to list every index once in non-increasing order of the key.

Python floats are modelled as `real`.

## Model

| member | source | states |
|---|---|---|
| `Probing.ProbeUpTo` | environments/identification_management/new_env.py:180-202 | The probing loop as a fold over factor indices 0..k-1. The response vector keeps its length. |
| `Probing.ReadingAtBounds` | environments/identification_management/new_env.py:189-192 | For a draw u in [0,1) a successful probe records +1 or -1, never 0. It records the true flag iff u < accuracy. Accuracy >= 1 always gives the true flag; accuracy <= 0 always gives the inverted flag. |
| `Probing.ProbeResponseAt` | environments/identification_management/new_env.py:182-198 | After the loop, factor j holds the draw's reading exactly when it was requested, unanswered and affordable with the energy left when the loop reached it. Otherwise it keeps its old value. So unrequested factors are never touched, and a mistake leaves that factor's response as it was. |
| `Probing.ProbeEnergy` | environments/identification_management/new_env.py:187-188 | Energy never drops below 0 if it started at 0 or more. With valid costs it never increases. |
| `Probing.ProbeMistake` | environments/identification_management/new_env.py:183-201 | A mistake is flagged iff some requested factor was already answered, or cost more than the energy left when the loop reached it. The loop continues past mistakes in index order. |
| `Probing.ProbeCharges` | environments/identification_management/new_env.py:182-201 | Every call, mistakes included, is charged exactly the cost of the factors it answers. A mistaken factor leaves the energy unchanged, and the later factors of the same call are still probed and charged. |
| `Probing.ProbeChargesRequested` | environments/identification_management/new_env.py:182-201 | A call without a mistake answers every requested factor. So it is charged exactly the total cost of the requested factors. |
| `Probing.MistakeDoesNotStopTheLoop` | environments/identification_management/new_env.py:182-201 | With energy 0.5, requesting a factor of cost 1.0 and then one of cost 0.2 flags a mistake. The first factor is not charged; the second is still answered, and 0.3 energy is left. |
| `Probing.ProbeKeepsRange` | environments/identification_management/new_env.py:189-192 | Responses stay in {-1, 0, 1}. |
| `Probing.CalledCostMonotone` | environments/identification_management/new_env.py:182-188 | With positive costs, the requested cost of a prefix grows with the prefix. |
| `Environment.IdentificationManagement.constructor` | environments/identification_management/new_env.py:23-50 | Stores the factor matrix, the number of messages and the maximum energy. |
| `Environment.IdentificationManagement.Reset` | environments/identification_management/new_env.py:103-118 | `messages` is the generated list, of length `number_messages`. Energy is the maximum energy and the cursor is 0 on `messages[0]`. Every response is 0 and both flags are false. Returns the snapshot. |
| `Environment.IdentificationManagement.GetObservation` | environments/identification_management/new_env.py:163-173 | The snapshot carries the matrix, the responses, the energy, the message count, the cursor and the current message's criticality and trust. It is always consistent: valid matrix, one in-range response per factor, and at least one message left (`number_messages - position >= 1`). |
| `Environment.IdentificationManagement.NextMessage` | environments/identification_management/new_env.py:175-178 | The cursor goes up by exactly 1 onto the next message. The responses are a new all-zero array. Nothing else changes. |
| `Environment.IdentificationManagement.ResolveCurrentMessage` | environments/identification_management/new_env.py:135-138 | On the last message the episode terminates and the cursor and responses are unchanged. Otherwise the next message becomes current with all responses 0. |
| `Environment.IdentificationManagement.CallIdentificationFactors` | environments/identification_management/new_env.py:180-202 | The new responses, the energy and the mistake flag are exactly those of `ProbeUpTo` over all factors, from the state before the call. |
| `Environment.IdentificationManagement.Step` | environments/identification_management/new_env.py:123-153 | Preserves the episode invariant. `messages` never change and `is_truncated` stays false. Energy never increases and stays >= 0. The cursor moves by 0 or 1 and termination happens only on the last message. A declaration without a table entry is a `KeyError` that changes nothing. A declaration earns +stakes if it matches the truth, -stakes otherwise; it keeps the energy and resolves the message. A probe earns 0 and leaves cursor and flag alone, or earns -stakes and resolves the message if a mistake occurred. |
| `Environment.SingleMessageScenario` | environments/identification_management/new_env.py:123-153 | One factor (cost 0.4, accuracy 0.7), energy 1.0, one real message with stakes 1. A probe earns 0 and leaves 0.6 energy; its response is +1 iff the draw is below 0.7. Declaring real then earns 1.0 and terminates. |
| `Budget.EnergyBudget` | policies/combination.py:31-38 | The budget is never above the energy left. It equals the raw share (stakes / (remaining × 0.5 × 0.5) × energy) whenever that share fits, and the energy left otherwise. Voracious uses the same formula (policies/voracious.py:30-36). |
| `Budget.BudgetBounds` | policies/combination.py:32-38 | With criticality, trust and energy >= 0 and at least one message left, the budget is well defined and lies between 0 and the energy left. |
| `Budget.AverageMessageGetsEqualShare` | policies/combination.py:33-36 | A message of average stakes (criticality × trust = 0.25) gets exactly energy / remaining. |
| `PolicyCommon.CallingVector` | policies/combination.py:49-50 | The calling vector has length N with entries in {0, 1}, and its ones are exactly the selected indices. |
| `Combination.Ratios` | policies/combination.py:26-27 | Combination's visiting key is accuracy / cost for every factor. |
| `Combination.Greedy` | policies/combination.py:43-47 | The greedy pass only takes factors from the order. Cost taken plus budget left equals the budget, and the budget left never goes negative when the budget is >= 0. |
| `Combination.GreedyDistinct` | policies/combination.py:43-50 | Along an order without repeats, each factor is taken at most once. |
| `Combination.GreedyMaximal` | policies/combination.py:43-47 | The budget left only shrinks. Every factor that was not taken costs more than what is left, so an unaffordable factor was skipped and no further factor fits. |
| `Combination.GreedyStep` | policies/combination.py:43-47 | The pass from position k is one decision about the factor there: take it and pay when its cost fits what is left, skip it otherwise. Then it continues from k + 1. |
| `Combination.SelectFactors` | policies/combination.py:41-47 | The selection loop returns exactly the greedy pass's selection and leftover budget. |
| `Combination.CombinationDecision` | policies/combination.py:59-75 | The decide turn emits 0 or 2, and 0 exactly when the real-weighted sum strictly exceeds the fake-weighted one. |
| `Combination.WeightedSumNonNegative` | policies/combination.py:69-70 | With accuracies in [0, 1], each weighted sum is >= 0. |
| `Combination.WeightedSumAbsent` | policies/combination.py:59-70 | A sum over a response value that no factor holds is 0. |
| `Combination.WeightedSumPositive` | policies/combination.py:59-70 | A sum over a value held by a factor of positive accuracy is > 0. |
| `Combination.WeightedSumNegate` | policies/combination.py:59-70 | Flipping every response swaps the real and fake sums. |
| `Combination.NothingProbedDeclaresTwo` | policies/combination.py:72-75 | With nothing probed both sums are 0, and the tie yields 2. |
| `Combination.UnanimousRealDeclaresZero` | policies/combination.py:72-75 | With no -1 report and some +1 report from a factor of positive accuracy, the decision is 0. |
| `Combination.DecisionUnderNegation` | policies/combination.py:72-75 | With every report flipped the decision is 0 iff the fake sum strictly exceeded the real sum. Unless the sums tie, flipping changes the decision. |
| `Combination.DefaultMatrixSelection` | policies/combination.py:26-47 | On the default matrix the order 3, 1, 2, 0 is a valid argsort by ratio. With budget 1.0 the pass takes 3 and 1 and leaves 0.4. |
| `Combination.CombinationPolicy.constructor` | policies/combination.py:9-11 | The turn flag starts unset, which the turn test reads as false. |
| `Combination.CombinationPolicy.Reset` | policies/combination.py:13-14 | The next turn is a probe turn. |
| `Combination.CombinationPolicy.Action` | policies/combination.py:16-84 | Turns alternate. A probe turn emits 0 with the calling vector of the greedy pass within the budget. A decide turn emits `CombinationDecision` with an all-zero calling vector. |
| `Voracious.Accuracies` | policies/voracious.py:26 | Voracious's visiting key is the accuracy of each factor. |
| `Voracious.FirstFit` | policies/voracious.py:41-47 | Returns nothing iff no factor of the order fits the budget. Otherwise returns a factor that fits, and every factor before it in the order does not fit. |
| `Voracious.SelectFirstAffordable` | policies/voracious.py:39-50 | The loop takes exactly `FirstFit`'s factor, or nothing, and leaves the budget minus its cost. |
| `Voracious.PicksMostAccurateAffordable` | policies/voracious.py:26-47 | Along an argsort by accuracy, the factor taken fits the budget (hence the energy). It is at least as accurate as every factor that fits. |
| `Voracious.VoraciousDecision` | policies/voracious.py:60-63 | The decide turn emits 1 iff some response is +1, else -1. The responses are only read. |
| `Voracious.DefaultMatrixPick` | policies/voracious.py:26-47 | On the default matrix the order 0, 2, 1, 3 is a valid argsort by accuracy. With budget 0.5 factor 1 is taken. |
| `Voracious.VoraciousPolicy.constructor` | policies/voracious.py:9-11 | The turn flag starts unset, which the turn test reads as false. |
| `Voracious.VoraciousPolicy.Reset` | policies/voracious.py:13-14 | The next turn is a probe turn. |
| `Voracious.VoraciousPolicy.Action` | policies/voracious.py:16-72 | Turns alternate. A probe turn emits 0 with a calling vector holding at most `FirstFit`'s factor. A decide turn emits `VoraciousDecision` with an all-zero calling vector. |
| `CrossChecks.CalledCostOfSelection` | policies/combination.py:49-50 | The environment's charge for a calling vector built from a selection without repeats equals the selection's total cost. |
| `CrossChecks.FreshProbePrefix` | environments/identification_management/new_env.py:180-202 | On a fresh message with enough energy for all requests, the first k factors are processed without a mistake. Energy falls by exactly their requested cost, and later factors are still unanswered. |
| `CrossChecks.FreshProbeOfAffordableSelection` | environments/identification_management/new_env.py:183-194 | A selection without repeats that costs at most the energy, sent as a calling vector on a fresh message, never triggers the insufficient-energy or already-answered branch. It is charged exactly its cost. |
| `CrossChecks.CombinationProbeIsAffordable` | policies/combination.py:31-50 | Combination's selection costs at most the budget, which is at most the energy. On a fresh message it is probed without a mistake. |
| `CrossChecks.VoraciousProbeIsAffordable` | policies/voracious.py:30-50 | Voracious's selection costs at most the budget, which is at most the energy. On a fresh message it is probed without a mistake. |
| `CrossChecks.FirstFitStartsGreedy` | policies/voracious.py:41-47 | Along the same order and budget, Voracious takes nothing iff the greedy pass takes nothing. Otherwise it takes the greedy pass's first factor. |
| `CrossChecks.NoRealReportMeansCombinationFallback` | policies/combination.py:59-75 | When no factor reports +1 (Voracious's -1 case), Combination's decision is 2. |
| `CrossChecks.RealReportCanBeOutweighed` | policies/voracious.py:60-63 | The converse fails: responses [1, -1] with accuracies 0.6 and 0.9 make Voracious emit 1 and Combination emit 2. |
| `CrossChecks.GreedySkipsAndGoesOn` | policies/combination.py:43-47 | A factor that does not fit is skipped and a later, cheaper one is still taken: costs 0.5, 1.0, 0.2 with budget 1.0 give the selection [0, 2] with 0.3 left. |

## Left out

- Randomness: the uniform draw of each probe is an input (`draws[i]`), and the message generator is replaced by the generated list passed to `Reset`. The random configuration helpers and the random policy (a delegation to the action space's sampler) are not modelled.
- Floating point: energy, cost, accuracy, criticality and trust are `real`. The rounding of repeated `current_energy -= cost` and numpy's division by zero (inf/nan with a warning) are not modelled. Instead the policies require at least one message left on the probe turn, and Combination requires positive costs.
- Argsort tie order: the visiting order is a parameter that must list every factor once, sorted non-increasingly by the key. Which of several tied orders numpy picks is not modelled.
- Gymnasium plumbing: the observation and action `spaces`, `render` and its JSON dump, the diagnostic prints, `_get_information`, `Message.get_information`, the `current_action` field and the `render_mode` option are not modelled.
- The observation holds the live response array in the code; later writes to the array show through it. The model hands out a copy of the responses instead. Neither policy writes the response array, so both see the same values.
- The numpy shape of `bool_to_int[False]` (a one-element array) is not modelled; responses are plain integers.
- Malformed calls are excluded by preconditions rather than modelled:
  - a calling vector whose length is not the number of factors. In the code, a declaration never reads the vector, so any length passes. A probing call reads only entries 0..N-1, so a longer vector is accepted. A shorter vector raises IndexError in the loop, after the factors before it have already been charged and answered;
  - `step` before `reset`;
  - `reset` with `number_messages < 1` (an IndexError on `messages[0]`).
- The policy base class (an interface with no behaviour), the episode driver loop, the RLlib training script and the environment registration are not part of this model.
- `Voracious.VoraciousPolicy.Action`: when the budget is capped at the energy, the code's budget shares the observation's energy array (voracious.py:30, 36). The code then subtracts the chosen factor's cost from that array in place (voracious.py:46), which writes into the caller's observation. The model takes the observation by value and does not model this write. The environment's own energy is unaffected, because each observation gets a new energy array (new_env.py:167).
- `Environment.IdentificationManagement.Step`: energy non-negativity is stated only relative to the previous step ("if it was >= 0 it stays >= 0"). A negative `maximum_energy` is accepted by the code, so it is not made part of the episode invariant.
- `CrossChecks.CombinationProbeIsAffordable` and `CrossChecks.VoraciousProbeIsAffordable` assume criticality, trust and energy >= 0, which the message generator and a non-negative maximum energy provide. With negative stakes the budget is negative, nothing is selected, and the cost bound against the budget would not hold.
