# AI Rudder cost calculator: a verified model of its engine, state and storage

This project models the three core modules of the AI Rudder cost calculator in Dafny:

- **Calculator** (`calculator.dfy`) is the cost engine.
  - Retained agents after deflection, rounded up.
  - The admin-hours value and the payroll saved.
  - The ledger of cost items. Each item is dispatched on its lower-cased frequency: one-time, monthly, yearly, per minute, per session, per agent, or anything else.
  - The monthly comparison of the client's current set-up against the AI solution. Client items are tagged as client side and AI items as AI side.
  - The 24-month cumulative ROI timeline with its break-even month.
  - The dashboard metrics.

  Money is an exact `real`. The JavaScript coercion `x || 0` is the `Input` datatype together with `OrZero`. The ledger's `forEach` is the method `LedgerTotals`. It is proved equal to `LedgerSum`, a fold over the items. The timeline and the dashboard are loops, proved against the `Series`, `Labels` and `BreakEvenMonth` functions.
- **State** (`state.dfy`) is the reactive state container, a `class StateContainer`.
  - It holds the current state record, the registered listeners, the channel-id counter, and a log of every listener call.
  - `setState` merges a partial record and notifies every listener. `resetState` restores the defaults and notifies. `subscribe` returns the function that unsubscribes.
- **Storage** (`storage.dfy`) is the scenario store, a `class ScenarioStore` over the key-value store.
  - Each scenario record lives under `airudder_scenario_<name>`.
  - An index of `{name, timestamp}` entries lives under `airudder_scenarios_list`.
  - Each operation is proved equal to a function on the store (`AfterSave`, `AfterDelete`, `AfterClear`, `LoadOf`). The round trips and the index consistency are lemmas about those functions.

Shared modules:

- `text.dfy` holds the ASCII `toLowerCase`, `trim` and the decimal rendering of month numbers.
- `values.dfy` holds the JSON-like values that records are made of.
- `wrappers.dfy` holds `Option`.

Where the code and its tests disagree, the model follows the code:

- `calculateMonthlyCosts` (js/calculator.js:108-143) puts no payroll into the monthly totals. tests/calculator.test.js:429-468 expects agent salaries in them.
- `calculateDashboardMetrics` (js/calculator.js:218-219) subtracts the admin value from the AI side's monthly cost. tests/calculator.test.js:566-606 expects savings without it.
- The ledger reads `deflectionRate` (js/calculator.js:51-55), not `effectiveDeflection`.
  - With `{totalAgents: 100, effectiveDeflection: 0.2}`, the code keeps all 100 agents, while tests/calculator.test.js:373-380 expects 80.
  - The model proves the 80 of tests/calculator.test.js:391-398, which passes `deflectionRate`.
- The default state (js/state.js:7-35) has no `channelDeflections` field. tests/state.test.js:22 expects one. `State.DefaultStateValues` states that the field is absent.

## Model

| member | source | states |
|---|---|---|
| Calculator.OrZero | js/calculator.js:18-19 | a missing or invalid input reads as 0 and a number reads as itself |
| Calculator.CeilBounds | js/calculator.js:21 | `Math.ceil(x)` lies in `[x, x + 1)` |
| Calculator.CeilIsLeast | js/calculator.js:21 | `Math.ceil(x)` is below every integer not below `x` |
| Calculator.RetainedAgents | js/calculator.js:17-22 | the result `r` satisfies `x <= r < x + 1` for the workload `x = total * (1 - rate)`, missing inputs read as 0 |
| Calculator.RetainedAgentsIsCeiling | js/calculator.js:17-22 | the retained agents are the least integer covering `total * (1 - rate)`, with missing inputs read as 0 |
| Calculator.RetainedAgentsNoDeflection | js/calculator.js:17-22 | with no deflection, a whole head count is kept unchanged |
| Calculator.RetainedAgentsBounds | js/calculator.js:17-22 | for a whole non-negative head count and a rate in [0, 1], the result lies between 0 and the head count |
| Calculator.RetainedAgentsAntitone | js/calculator.js:17-22 | a higher deflection rate never needs more agents |
| Calculator.AgentsReplacedIsFloor | js/calculator.js:125-128 | agents replaced = `floor(totalAgents * deflectionRate)` for a whole head count |
| Calculator.RetainedAgentsExamples | tests/calculator.test.js:18-36 | the retained-agent values the tests expect, including the rounded and null cases |
| Calculator.AdminValue | js/calculator.js:30-34 | zero hours or a zero rate, missing or not, give value 0 |
| Calculator.AdminValueNonNegative | js/calculator.js:30-34 | non-negative hours at a non-negative rate give a non-negative value |
| Calculator.AdminValueAdditive | js/calculator.js:30-34 | the admin value is additive in the hours |
| Calculator.AdminValueExamples | tests/calculator.test.js:38-53 | the admin values the tests expect, including null inputs |
| Calculator.PayrollSaved | js/calculator.js:152-157 | no agents replaced means no payroll saved |
| Calculator.PayrollSavedNonNegative | js/calculator.js:152-157 | non-negative agents and costs give a non-negative saving |
| Calculator.PayrollSavedLicense | js/calculator.js:152-157 | a missing licence cost equals a licence cost of 0, and a licence cost adds `agents * license` |
| Calculator.PayrollSavedExamples | tests/calculator.test.js:497-516 | the payroll figures the tests expect, including the licence and null cases |
| Text.LowerChar | js/calculator.js:62 | an upper-case ASCII letter moves to lower case; every other character stays |
| Text.Lower | js/calculator.js:62 | `toLowerCase` keeps the length and lower-cases each character |
| Text.LowerIdempotent | js/calculator.js:62 | lower-casing twice is lower-casing once |
| Calculator.ParseFrequency | js/calculator.js:62-95 | the default case is taken exactly when the lower-cased text is none of the six case labels |
| Calculator.ParseFrequencyNames | js/calculator.js:62-95 | each frequency is chosen exactly when the lower-cased text is its case label |
| Calculator.FrequencyCaseInsensitive | js/calculator.js:62-64 | frequency matching ignores letter case |
| Calculator.FrequencyExamples | js/calculator.js:64-90 | the frequency texts of the examples select their cases |
| Calculator.Contribution | js/calculator.js:64-95 | only one-time items touch capex, and one-time items touch nothing else |
| Calculator.ContributionPerAgent | js/calculator.js:88-90 | a per-agent item adds `amount * retainedAgents` to the monthly cost and nothing to capex |
| Calculator.AddItem | js/calculator.js:60-96 | one `forEach` step adds exactly the item's contribution to the running totals |
| Calculator.LedgerTotals | js/calculator.js:42-99 | the loop's totals equal the fold `LedgerSum` over the items; missing or empty items give zero totals |
| Calculator.LedgerSum | js/calculator.js:57-98 | an empty ledger totals zero capex and zero monthly cost |
| Calculator.LedgerSumSingle | js/calculator.js:57-98 | a one-item ledger is that item's contribution |
| Calculator.LedgerSumAppend | js/calculator.js:57-98 | the totals of `a + b` are the totals of `a` plus those of `b` |
| Calculator.LedgerSumPermutation | js/calculator.js:60-96 | reordering the items leaves the totals unchanged |
| Calculator.LedgerCapexOnlyOneTime | js/calculator.js:64-67 | without one-time items capex is 0 |
| Calculator.LedgerSumParams | js/calculator.js:47-55 | the ledger reads only volume, the two handle times and the retained-agent count |
| Calculator.LedgerSumSideTime | js/calculator.js:77-82 | client-side items never read `aiTime`, and AI-side items never read `humanTime` |
| Calculator.LedgerMixedExample | tests/calculator.test.js:400-409 | one-time 50000, monthly 10000 and yearly 120000 give capex 50000 and monthly 20000 |
| Calculator.LedgerPerAgentExample | tests/calculator.test.js:391-398 | 2000 per agent with 100 agents at a 0.2 rate costs `2000 * 80` per month |
| Calculator.LedgerPerAgentNoParamsExample | tests/calculator.test.js:411-417 | without parameters, a per-agent item costs nothing |
| Calculator.LedgerCreditExample | tests/calculator.test.js:419-425 | a negative monthly amount is a credit of that amount |
| Calculator.WithSide | js/calculator.js:112-120 | every item keeps its fields except the side tag, which is set; null lists read as empty |
| Calculator.CalculateMonthlyCosts | js/calculator.js:108-143 | each side's totals are the ledger of its side-tagged items; retained agents plus agents replaced equal the head count; the admin value is the hours times the rate |
| Calculator.MonthlyCostsIgnoreIncomingTags | js/calculator.js:112-120 | the side tags the incoming items carry do not change the result |
| Calculator.MonthlyCostsSideTimes | js/calculator.js:108-123 | client costs do not depend on `aiTime`, and AI costs do not depend on `humanTime` |
| Calculator.MonthlyCostsIgnoreSalary | js/calculator.js:108-143 | the monthly salary has no effect on the monthly costs |
| Calculator.MonthlyCostsNoItems | js/calculator.js:109-123 | missing or empty item lists cost nothing on either side |
| Calculator.Cumulative | js/calculator.js:180-181 | at month 0 the cumulative cost is the capex |
| Calculator.CumulativeStep | js/calculator.js:180-181 | each further month adds the monthly cost once |
| Calculator.CumulativeMonotone | js/calculator.js:180-181 | a non-negative monthly cost gives a non-decreasing cumulative cost, and a positive one a strictly increasing cost |
| Calculator.BreakEvenFrom | js/calculator.js:186-189 | the search from a month returns a cheaper month no later than 24, and no earlier month from there is cheaper |
| Calculator.BreakEvenMonth | js/calculator.js:227-236 | the result is the first month in 1..24 at which the AI side is cheaper, or none if there is none |
| Calculator.FirstBreakEvenUnique | js/calculator.js:186-189 | the first break-even month is unique |
| Calculator.NeverCheaperWithoutSavings | js/calculator.js:228-232 | with no monthly saving and no capex advantage, no month is cheaper |
| Calculator.NoBreakEvenWithoutSavings | js/calculator.js:227-236 | with no saving the break-even month is null |
| Calculator.BreakEvenWithinHorizon | js/calculator.js:227-236 | savings that recover the extra capex within 24 months give a break-even month |
| Text.NatToString | js/calculator.js:177 | a month renders as decimal digits with no leading zero |
| Text.NatToStringRoundTrip | js/calculator.js:177 | the digits of a month label read back as the month |
| Text.NatToStringInjective | js/calculator.js:177 | different months render differently |
| Calculator.MonthLabelReadsBack | js/calculator.js:177 | a label is `Month `, then decimal digits that read back as the month |
| Calculator.Labels | js/calculator.js:176-177 | one label per month |
| Calculator.LabelsAt | js/calculator.js:177 | label `m` is `Month m` |
| Calculator.LabelsDistinct | js/calculator.js:177 | no two months share a label |
| Calculator.Series | js/calculator.js:180-184 | one cumulative point per month |
| Calculator.SeriesAt | js/calculator.js:180-184 | point `m` is `capex + monthly * m` |
| Calculator.SeriesShape | tests/calculator.test.js:541-563 | a series starts at the capex, is non-decreasing for a non-negative monthly cost and strictly increasing for a positive one |
| Calculator.GenerateROITimeline | js/calculator.js:168-198 | 25 labels and both cumulative series for months 0..24, the AI side net of the admin value (missing reads as 0), and the first break-even month after month 0 |
| Calculator.TimelineExamples | tests/calculator.test.js:518-563 | the month 1 and month 12 points the tests expect, and break-even at month 2 for (100000, 50000, 0, 50000) |
| Calculator.Year1FromTimeline | js/calculator.js:221-224 | first-year net savings are the gap between the two series at month 12 |
| Calculator.DashboardMetrics | js/calculator.js:210-245 | initial investment is the AI capex; monthly savings are net of the admin value; first-year savings are 12 months of savings minus the extra capex; the break-even month is the first cheaper month, or null |
| State.DefaultStateValues | js/state.js:7-35 | the default fields and values, with one voice channel of id 1 and no `channelDeflections` |
| State.Merge | js/state.js:54 | the merged record has both key sets; the partial's values win and all other values are kept |
| State.MergeIdentityAndIdempotent | js/state.js:54 | merging nothing changes nothing, and merging the same partial twice equals merging it once |
| State.Broadcast | js/state.js:55 | one call per registered listener, in registration order, each with the same state |
| State.Without | js/state.js:66 | the filter never lengthens the listener list |
| State.WithoutRemoves | js/state.js:65-67 | unsubscribing removes every registration of the listener and keeps every other registration |
| State.WithoutAppend | js/state.js:66 | the filter keeps the others in order: it distributes over concatenation |
| State.WithoutAbsent | js/state.js:66 | unsubscribing an unregistered listener changes nothing |
| State.WithoutIdempotent | js/state.js:65-67 | calling an unsubscribe function twice is the same as calling it once |
| State.UnsubscribedNotNotified | js/state.js:53-67 | an unsubscribed listener receives no later notification |
| State.StateContainer.constructor | js/state.js:37-39 | the state starts as the defaults, with no listeners and ids from 2 |
| State.StateContainer.GetState | js/state.js:45-47 | returns the current state |
| State.StateContainer.NotifyAll | js/state.js:55 | appends one notification per listener in order, each carrying the current state, and changes nothing else |
| State.StateContainer.SetState | js/state.js:53-56 | the state becomes the merge, and every listener is notified once with the new state |
| State.StateContainer.Subscribe | js/state.js:63-68 | appends the listener and returns its unsubscriber |
| State.StateContainer.Unsubscribe | js/state.js:65-67 | the listener list becomes the filtered list; nothing else changes |
| State.StateContainer.ResetState | js/state.js:73-77 | defaults restored, id counter back to 2, every listener notified with the defaults |
| State.StateContainer.GenerateChannelId | js/state.js:83-85 | returns the counter and advances it; never hands out the default channel's id 1 |
| State.GetDefaultState | js/state.js:91-93 | returns the defaults whatever the current state |
| Storage.ScenarioKey | js/storage.js:29 | the key is the prefix followed by the name |
| Storage.ListKeyIsNoScenarioKey | js/storage.js:7-8 | the index key is not a scenario key |
| Storage.ScenarioKeyInjective | js/storage.js:29 | different names get different keys |
| Text.TrimStart | js/storage.js:17 | cutting leading whitespace leaves a suffix of the text |
| Text.TrimEnd | js/storage.js:17 | cutting trailing whitespace leaves a prefix of the text |
| Text.TrimStartCuts | js/storage.js:17 | what is cut off the front is all whitespace, and what is kept does not start with whitespace |
| Text.TrimEndCuts | js/storage.js:17 | what is cut off the back is all whitespace, and what is kept does not end with whitespace |
| Text.Trim | js/storage.js:17 | the result is a slice of the text with only whitespace before and after it, neither end of the slice is whitespace, and it is empty exactly when the text is all whitespace |
| Text.TrimCharacterised | js/storage.js:17 | conversely, any slice with only whitespace outside it and none at its ends is what `trim` returns |
| Text.TrimIdempotent | js/storage.js:23 | trimming a trimmed name changes nothing |
| Text.TrimPadded | js/storage.js:23 | a name padded with whitespace on both sides trims to the name |
| Text.TrimExample | tests/storage.test.js:39-44 | `"  My Scenario  "` trims to `"My Scenario"` |
| Storage.ListOf | js/storage.js:73-81 | the entries the index key holds, or the empty list when the key is absent |
| Storage.RecordOf | js/storage.js:61-62 | a record is found exactly when the name's key holds one, and it is that record |
| Storage.LoadOf | js/storage.js:55-67 | an invalid name loads nothing; a valid one loads the record under its trimmed name, if any |
| Storage.FindIndex | js/storage.js:34 | -1 exactly when the name is absent, otherwise its first position |
| Storage.FindIndexAt | js/storage.js:34 | the first position holding the name is the one found |
| Storage.Upsert | js/storage.js:33-40 | the index grows by at most one entry |
| Storage.Drop | js/storage.js:97 | the filter never lengthens the index |
| Storage.UpsertIndex | js/storage.js:33-40 | the name is listed afterwards and its first entry carries the new timestamp; the length grows only for a new name; entries for other names are kept; no duplicate is introduced |
| Storage.DropIndex | js/storage.js:96-97 | every entry for the name goes, exactly the entries for other names stay, and no duplicate is introduced |
| Storage.DropMembers | js/storage.js:97 | an entry is kept exactly when its name differs |
| Storage.DropNoDuplicates | js/storage.js:97 | filtering an index without duplicates leaves none |
| Storage.DropAppend | js/storage.js:97 | filtering a concatenation filters each part, so the kept entries stay in their order |
| Storage.DropAbsent | js/storage.js:97 | filtering out a name the index does not list changes nothing |
| Storage.NewRecord | js/storage.js:22-26 | the data's fields override the added `name` and `timestamp` |
| Storage.KeysOf | js/storage.js:123-126 | exactly the scenario keys of the indexed names: every indexed name's key is in the set, and every key in it belongs to an indexed name |
| Storage.AfterSave | js/storage.js:16-48 | a save adds the name's key and the index key and removes no key |
| Storage.AfterDelete | js/storage.js:88-105 | a delete removes the name's key, writes the index key and keeps every other key |
| Storage.AfterClear | js/storage.js:121-133 | clearing removes the index key, adds no key and changes no surviving entry |
| Storage.SaveThenLoad | js/storage.js:16-67 | a saved record loads back under the name as given and under its trimmed form |
| Storage.SaveThenRecord | js/storage.js:22-31 | after a save the name's record is `{ name, timestamp, ...data }` |
| Storage.TrimmedNameExample | tests/storage.test.js:39-44 | `"  My Scenario  "` is a valid name stored as `"My Scenario"`, and that record loads back with `name` `"My Scenario"` |
| Storage.SaveKeepsOthers | js/storage.js:28-31 | saving leaves the records of other names unchanged |
| Storage.SaveIndex | js/storage.js:33-42 | a save lists the name once more if it was new, else refreshes its timestamp only |
| Storage.DeleteThenLoad | js/storage.js:88-105 | after a delete the name neither loads nor is listed |
| Storage.DeleteKeepsOthers | js/storage.js:94 | deleting leaves the records of other names unchanged |
| Storage.ClearThenList | js/storage.js:121-128 | after clearing, the index is empty and no formerly listed name loads |
| Storage.ClearSparesUnindexed | js/storage.js:123-126 | a record whose name the index does not list survives clearing |
| Storage.EmptyConsistent | js/storage.js:73-77 | an empty store is consistent |
| Storage.SavePreservesConsistent | js/storage.js:16-48 | saving keeps the index duplicate-free and backed by records |
| Storage.DeletePreservesConsistent | js/storage.js:88-105 | deleting keeps the index duplicate-free and backed by records |
| Storage.ClearPreservesConsistent | js/storage.js:121-133 | clearing leaves a consistent store |
| Storage.ForeignKeysUntouched | js/storage.js:16-133 | save, delete and clear touch no key outside the scenario keys and the index key |
| Storage.ScenarioStore.constructor | tests/storage.test.js:22-24 | the key-value store starts empty |
| Storage.ScenarioStore.ListScenarios | js/storage.js:73-81 | the stored index, or the empty list when there is none |
| Storage.ScenarioStore.LoadScenario | js/storage.js:55-67 | equals `LoadOf` on the current store |
| Storage.ScenarioStore.SaveScenario | js/storage.js:16-48 | returns true exactly for a valid name; then the store becomes `AfterSave` under the trimmed name, otherwise it is unchanged |
| Storage.ScenarioStore.DeleteScenario | js/storage.js:88-105 | returns true exactly for a valid name; then the store becomes `AfterDelete`, otherwise it is unchanged |
| Storage.ScenarioStore.ExportToJSON | js/storage.js:112-115 | null exactly when loading finds nothing, otherwise the serialised record |
| Storage.ScenarioStore.ClearAllScenarios | js/storage.js:121-133 | removes the record of every indexed name and then the index, and returns true |

## Left out

- `formatCurrency` and `formatNumber` (js/calculator.js:252-271) are not modelled: they are locale formatting through `Intl.NumberFormat`. The `window.AIRudder` namespace object is not modelled either.
- Numbers are exact reals.
  - IEEE-754 rounding is not modelled. For example, `100 * (1 - 0.2)` is taken as exactly 80.
  - NaN, Infinity and `parseFloat` of text are not modelled. An item amount is already a number or missing.
- Calculator.LedgerTotals: a `null` parameter object passed straight to `calculateLedgerTotals` throws in the source. The model takes a parameter record, so that call has no counterpart. A `null` field, which the destructuring defaults leave as `null`, multiplies as 0 in JavaScript, and the model reads it as 0.
- Calculator.DashboardMetrics: `adminValue` is a required argument. Called with four arguments, the source computes with NaN and finds no break-even month. That case is not modelled.
- Calculator.GenerateROITimeline: its ensures gives the series as `Series`. That the series rise and start at the capex is stated by `SeriesShape` rather than in the method's own contract.
- The timeline and the dashboard find the same break-even month. Both methods are proved to return `BreakEvenMonth` of the same arguments. No single lemma states this, because lemmas cannot call methods.
- Text.Lower and Text.Trim handle ASCII only. Unicode case mapping and Unicode whitespace are not modelled.
- Failures of the browser's key-value store are not modelled: the `try`/`catch` paths, a quota exceeded, a JSON parse error.
- JSON text is not modelled. The store holds parsed values. `ExportToJSON` takes the serialiser as a parameter.
- Storage: a list key holding something other than an index reads as an empty list. Content under a scenario key that is not a record reads as absent.
- `new Date().toISOString()` is not modelled. The save time is a parameter.
- State: listener callbacks are identities, and a call is recorded as a notification.
  - Side effects of the callbacks, and re-entrant calls from them, are not modelled.
  - `structuredClone` is value semantics: records are immutable values, so every copy is independent.
- The functions that only the tests and the user interface call are not part of this model: channel costs, effective deflection, efficiency gains, per-interaction cost.
