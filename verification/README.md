# Heat pump optimizer: verified models of its state machines, grammar and kernels

This project models the parts of the heat pump optimizer integration in which one mistake
is remembered: parsers and printers that must agree, records that must survive a crash,
learners whose state is stored for months, and numeric kernels that must give the same bits
in a batch. Times in the window grammar are whole minutes of the day; everywhere else
instants are exact numbers on one clock, and arithmetic is over exact reals.

| file | what it models |
|---|---|
| Options, Reals, Text, Windows | missing values; shared arithmetic; strings as the grammar uses them; windows on the clock and their canonical form |
| WindowGrammar, GrammarMeaning, GrammarRoundTrip, GrammarParsers, GrammarLaws | the window grammar: readers and renderer as functions, what its words, times and ranges mean, the round trip, the loops that implement them, and where code and documentation part |
| WindowQueries | admission, overlap, next opening and labels over a schedule |
| SwitchOwnership, DisinfectionSwitch | the ownership protocol of the disinfection switch over an unreliable device, cut at any await, and the controller's methods against it |
| SwitchCommands, SwitchSafety, SwitchClaims, SwitchWaits, SwitchScenarios | when ON and OFF are sent, what the record survives, whose switches it holds, how long it waits for one, and the concrete runs for what it does not promise |
| DefrostSurface, DefrostLearner, DefrostWindow | the derate surface, the memoised two-estimator learner, the on-time integrator |
| RowSums | the batched pairwise reduction over an arbitrary addition |
| ProfileProjection, UsageLearner | the usage profile's projection by bisection, and the learner that stores only projected profiles |
| BoostOverlay | boost and block windows and the settling tail |
| CurveLearner, ComfortLearner, DrivingGrade, HeatLossRefit, DrawStats | the slow learners and their bookkeeping |

Code that changes fields or loops over accumulators is a class or a method here, tied by its
contract to a function of the old state; the laws are lemmas about those functions, over
whole runs where the source makes promises about whole runs.

Where the code does not do what its documentation says, the code is modelled, a concrete
input is given, and the exact condition is proved:

- A bare range before the first day selector is dropped by the weekly parser
  (`GrammarLaws.SpecDocumentedIff`, `LeadingBareCounterexample`).
- The half-hour wait for an unreadable switch is not closed by a legible reading while that
  switch is the kept one (`SwitchWaits.LostTooSoonIff`,
  `SwitchScenarios.OverlookedWaitCounterexample`).
- A switch given up may still be on, and the repair that says so is its last word
  (`custom_components/heatpump_optimizer/disinfection.py:26-31`); but the shortened record is
  saved before the repair is raised
  (`custom_components/heatpump_optimizer/legionella.py:442-457`), so a process that ends
  between the two leaves neither (`SwitchSafety.CrashSafety`, `CycleSafeIff`,
  `SwitchScenarios.ForgottenSwitch`).
- A switch that already reads on is never claimed
  (`custom_components/heatpump_optimizer/disinfection.py:22`) by the reading of its cycle, but
  one that turned on since that reading is, and so is one whose ON was never sent
  (`SwitchClaims.OffsAreOursIff`, `SwitchScenarios.ClaimedThoughOn`, `ClaimedBeforeOn`).
- A cancel or block after a space window's end but before a cycle expired it starts no
  settling tail (`BoostOverlay.FrozenWhileSettlingIff`, `LateCancelForgetsBoost`), and a cycle
  can cut the tail of a left boost mode (`BoostOverlay.ModeTailIff`, `CycleCutsModeTail`).
- The curve bias can move 0.6 K in six days (`CurveLearner.WeeklyCapCounterexample`,
  `SevenDayCapIff`, `RateBound`).
- A fortnight of quiet outweighs every single complaint
  (`ComfortLearner.FortnightOutweighsEveryComplaint`, `StrongestComplaintOutweighed`).
- A configured comfort weight outside [1, 40], which the options form accepts below 1
  (`custom_components/heatpump_optimizer/config_flow.py:1735`), is moved
  against the evidence by the clip (`ComfortLearner.FollowsInEveryRunIff`,
  `QuietRaisesLowWeight`).
- The cheap hours of a day can push its grade down and the dear ones up
  (`DrivingGrade.DriverSignsIff`, `CheapHoursCanPushDown`).

Two assumptions of the switch protocol come with a lemma that shows each is needed: a write
that does not read back never lands later (`SwitchSafety.WithdrawalIff`, which says exactly
when), and a save takes effect (`SwitchSafety.SaveNeeded`). That a cycle sees one configured
switch is not assumed: it is part of the exact condition (`SwitchSafety.CycleSafeIff`).

## Model

| member | source | states |
|---|---|---|
| Windows.NormalizedIsCanonical | custom_components/heatpump_optimizer/dhw_schedule.py:420-448 | For every list of windows in the day, wrapping or not, the normal form is sorted, pairwise separated and inside the day, and covers exactly the clock minutes the windows as written stand for. |
| Windows.CanonicalUnique | custom_components/heatpump_optimizer/dhw_schedule.py:432-448 | Two canonical lists covering the same minutes are the same list. |
| Windows.SameTimesSameForm | custom_components/heatpump_optimizer/dhw_schedule.py:432-448 | Two lists normalise to the same list if and only if they stand for the same clock minutes. |
| Windows.NormalIsFixed | custom_components/heatpump_optimizer/dhw_schedule.py:432-448 | A canonical list is returned unchanged, so normalising is idempotent. |
| Windows.SplitWrapping | custom_components/heatpump_optimizer/dhw_schedule.py:420-429 | The splitting loop yields, in order, the non-empty pieces of every window, wrapping ones cut at midnight. |
| Windows.MergeOverlaps | custom_components/heatpump_optimizer/dhw_schedule.py:432-448 | The in-place merge of a sorted list refines the recursive merge the canonical-form lemmas are about. |
| Windows.Normalize | custom_components/heatpump_optimizer/dhw_schedule.py:432-448 | The whole routine: its result is the normal form, canonical, and covers the minutes written, through midnight. |
| GrammarRoundTrip.SelectorRoundTrip | custom_components/heatpump_optimizer/dhw_schedule.py:97-153 | Every non-empty proper set of weekdays is rendered to a selector that parses back to exactly that set, ranges, wrapping ranges and lists included. |
| GrammarRoundTrip.ClockRoundTrip | custom_components/heatpump_optimizer/dhw_schedule.py:156-170 | A rendered minute of the day, 24:00 included, is read back as itself. |
| GrammarMeaning.SpanMeans | custom_components/heatpump_optimizer/dhw_schedule.py:86-94 | A cyclic range holds exactly the values from its start round to its end, both included, on a cycle of any size and first value. |
| GrammarMeaning.RangeMeans | custom_components/heatpump_optimizer/dhw_schedule.py:117-125 | A range of day names means the days from the first to the second, both included, through the end of the week when the second comes first: "Mo-Fr", "Sa-Mo". |
| GrammarMeaning.ListMeans | custom_components/heatpump_optimizer/dhw_schedule.py:126-131 | A list of day names means the days it names. |
| GrammarMeaning.WordsMean | custom_components/heatpump_optimizer/dhw_schedule.py:105-112 | "daily", "everyday" and "all" mean the week, "weekdays" Monday to Friday, "weekend" and "weekends" Saturday and Sunday. |
| GrammarMeaning.OnlySelectors | custom_components/heatpump_optimizer/dhw_schedule.py:97-131 | Nothing else is a selector, whatever the case and the blanks: one unknown name makes it none. |
| GrammarMeaning.LeadMeans | custom_components/heatpump_optimizer/dhw_schedule.py:277-282 | Letters, commas, dashes and blanks before a digit are taken off a range exactly when they are a selector. |
| GrammarMeaning.SelectorForm | custom_components/heatpump_optimizer/dhw_schedule.py:134-153 | A set of days is written as its word if it has one, as a range when it is one stretch of at least three days, and otherwise as its names in order. |
| GrammarMeaning.ClockMeans | custom_components/heatpump_optimizer/dhw_schedule.py:156-170 | "H:M" in one or two digits each is that minute of the day up to 23:59, 24:00 is its end, and every other pair is refused with its own error. |
| GrammarMeaning.HourMeans | custom_components/heatpump_optimizer/dhw_schedule.py:156-170 | An hour alone is the full hour. |
| GrammarMeaning.OnlyTimes | custom_components/heatpump_optimizer/dhw_schedule.py:156-170 | Nothing else is read as a time at all. |
| GrammarMeaning.WindowMeans | custom_components/heatpump_optimizer/dhw_schedule.py:266-298 | A range is split at its first dash; the first bad end decides the error, "00:00-00:00" is the whole day, and any other range that ends where it starts is refused. |
| GrammarRoundTrip.SegmentRoundTrip | custom_components/heatpump_optimizer/dhw_schedule.py:266-298 | A rendered "days start-end" segment is read as exactly its days and its window by both readers of a segment. |
| GrammarRoundTrip.SegmentsOfItems | custom_components/heatpump_optimizer/dhw_schedule.py:205-243 | The one segment reader splits a rendered list at exactly its items, although day lists use the same comma. |
| GrammarRoundTrip.ParseFormatted | custom_components/heatpump_optimizer/dhw_schedule.py:301-380 | On the rendering of any normal week the every-day view sees every written window and the weekly view each day's own list (none when all days agree). |
| GrammarRoundTrip.WeeklyRoundTrip | custom_components/heatpump_optimizer/dhw_schedule.py:350-417 | For every week of normal days both parsers accept the rendering and each weekday resolves to its own windows again: the invariant the module states for itself. |
| GrammarRoundTrip.RenderedVerdict | custom_components/heatpump_optimizer/dhw_schedule.py:567-589 | The form's verdict on a rendered week is "too short" exactly when some window is under fifteen minutes, and acceptance otherwise. |
| GrammarMeaning.VerdictMeans | custom_components/heatpump_optimizer/dhw_schedule.py:567-589 | Any accepted text is too short exactly when some range of it covers fewer than fifteen minutes of the clock, through midnight too. |
| GrammarParsers.Segments | custom_components/heatpump_optimizer/dhw_schedule.py:205-243 | The comma-joining loop refines the recursive segment reader, error case included. |
| GrammarParsers.ParseWeeklyWindows | custom_components/heatpump_optimizer/dhw_schedule.py:301-347 | The weekly parser, with its accumulating per-day lists, refines the recursive reading of the segments, errors included. |
| GrammarParsers.AddDay | custom_components/heatpump_optimizer/dhw_schedule.py:358-360 | Adding one more day to the grouping by equal window lists keeps the grouping exact: each group holds just the days of one list, groups ordered by first day. |
| GrammarParsers.FormatWeeklyWindows | custom_components/heatpump_optimizer/dhw_schedule.py:350-380 | The grouping and sorting renderer refines the specification of the canonical text. |
| GrammarLaws.SameLanguage | custom_components/heatpump_optimizer/dhw_schedule.py:34-38 | Both parsers accept exactly the same strings, and refuse the others with the same error. |
| GrammarLaws.ParsedIsCanonical | custom_components/heatpump_optimizer/dhw_schedule.py:173-182 | Every accepted specification parses to canonical windows covering exactly the minutes its ranges name. |
| GrammarLaws.SpecDocumentedIff | custom_components/heatpump_optimizer/dhw_schedule.py:301-347 | For every accepted specification that names days and each day: the schedule returned is the canonical form of what the ranges from the first selector on give the day, and it is the documented one (a bare range means all seven days) if and only if the bare ranges before that selector add no minute to it. |
| GrammarLaws.WholeWeekDocumentedIff | custom_components/heatpump_optimizer/dhw_schedule.py:301-347 | Over the week: all seven schedules are the documented ones exactly when no day lacks a minute of the leading bare ranges. |
| GrammarLaws.WeeklyReads | custom_components/heatpump_optimizer/dhw_schedule.py:315-344 | The weekly parser reads every accepted list of segments as the days and windows of its segments, folded in order. |
| GrammarLaws.DocumentedIff | custom_components/heatpump_optimizer/dhw_schedule.py:334-344 | Before normalising: the per-day lists are those of the documented reading exactly when the first segment names days; otherwise each lacks exactly the leading bare ranges. |
| GrammarLaws.DroppedRangesMatter | custom_components/heatpump_optimizer/dhw_schedule.py:432-448 | Any two lists of windows in the day: putting one before the other leaves the canonical form as it is exactly when it adds no minute. |
| GrammarLaws.LeadingBareCounterexample | custom_components/heatpump_optimizer/dhw_schedule.py:334-344 | The text "06:00-07:00, Mo 08:00-09:00": the every-day view has the morning range and no day of the weekly view does. |
| WindowQueries.HourIsCovered | custom_components/heatpump_optimizer/dhw_schedule.py:468-479 | On canonical windows an hour is admitted exactly when its clock minute is covered; the 24:00 guard changes nothing. |
| WindowQueries.OverlapsCount | custom_components/heatpump_optimizer/dhw_schedule.py:503-507 | Summed overlaps of canonical windows with a stretch of the day count each covered minute once. |
| WindowQueries.StretchesCount | custom_components/heatpump_optimizer/dhw_schedule.py:493-507 | Walking an interval in at most two stretches through midnight counts the admitted minutes of the interval. |
| WindowQueries.OverlapFraction | custom_components/heatpump_optimizer/dhw_schedule.py:482-512 | The share times the length is the number of admitted minutes in the interval's first 24 hours, so the closing clamp never binds. |
| WindowQueries.FirstOpening | custom_components/heatpump_optimizer/dhw_schedule.py:521-530 | The least distance to a window start is the first instant at which any window admits the clock. |
| WindowQueries.MinutesUntilNextWindow | custom_components/heatpump_optimizer/dhw_schedule.py:515-530 | The first hitting time on the 24-hour circle: the clock is admitted after the answer and at no earlier minute; no answer exactly without windows. |
| WindowQueries.LabelNames | custom_components/heatpump_optimizer/dhw_draws.py:144-153 | An hour has a label exactly when some window, wrapping or not, holds it, and the label is the text of such a window. |
| WindowQueries.LabelIffAdmitted | custom_components/heatpump_optimizer/dhw_draws.py:144-153 | On canonical windows the label is non-empty for exactly the hours the schedule query admits. |
| WindowQueries.LabelIffSameWindow | custom_components/heatpump_optimizer/dhw_draws.py:144-153 | Two labelled hours share their label exactly when they fall in the same window. |
| WindowQueries.LabelsDistinguish | custom_components/heatpump_optimizer/dhw_draws.py:156-157 | A window's label determines the window. |
| SwitchCommands.MemoIff | custom_components/heatpump_optimizer/disinfection.py:128-166 | Over every run the memory of a boost already served is set if and only if some cycle of the boost found its switch on or switched it on, and no cycle since wanted it off. |
| SwitchCommands.SendsOnIff | custom_components/heatpump_optimizer/disinfection.py:134-166 | Over every run a cycle calls its switch on if and only if it wants it on in control mode, the pump makes hot water, the switch has a usable state and is not read on, and no earlier cycle of the boost found it on or switched it on. |
| SwitchCommands.CycleSendsOff | custom_components/heatpump_optimizer/disinfection.py:174-183 | Every owned switch read on that the cycle is not keeping is sent an OFF: it is on by this code afterwards exactly if it was before and the OFF did not read back, and it stays on record. |
| SwitchSafety.CrashSafety | custom_components/heatpump_optimizer/disinfection.py:128-206 | In every run of an honest device, with the process allowed to die at any await of any operation, to be cancelled there and unloaded, or to run on: after every step each switch that is on by this code is in the record on disk if and only if no step is one that forgets: a completed cycle that slips, a cycle that abandons a switch (slips, or gives up one still on by this code) and is cut after its final save and before the report, or one cancelled with such a switch out of memory whose unload lands an OFF and saves. Then memory holds the record too. |
| SwitchSafety.NextAwaitsSafeIff | custom_components/heatpump_optimizer/legionella.py:418-463 | After such a run every await of the next operation is safe exactly when it is not a cycle that slips or gives up a switch still on by this code. |
| SwitchSafety.SafeUnlessAbandoning | custom_components/heatpump_optimizer/disinfection.py:19-31 | A run in which no cycle slips or gives up a switch still on by this code is safe wherever it is cut and however it is unloaded. |
| SwitchSafety.CycleSafeIff | custom_components/heatpump_optimizer/legionella.py:434-457 | One cycle is safe at every await and at its end if and only if the configured switch is not changed under an ON that landed after an off reading, and no switch on by this code is given up: unreadable, waited out, not kept, and not the configured switch merely unavailable. |
| SwitchSafety.CycledCuts | custom_components/heatpump_optimizer/legionella.py:442-457 | All awaits of a cycle but the one after its final save are safe whatever it does; that one is safe exactly when it abandons nothing, and the end exactly when it did not slip. |
| SwitchSafety.CutSafeIff | custom_components/heatpump_optimizer/coordinator.py:6590-6600 | An operation cut at a safe await and unloaded on the memory it left stays safe if and only if no switch on by this code had left the record in memory, or no OFF lands. |
| SwitchSafety.WithdrawalIff | custom_components/heatpump_optimizer/disinfection.py:154-166 | Withdrawing a failed claim is safe if and only if its ON cannot land late, the target had no usable state, or the switch was owned already: the assumption about the device cannot be dropped. |
| SwitchSafety.SaveNeeded | custom_components/heatpump_optimizer/disinfection.py:154-160 | In every run a first ON that lands without its write-ahead save is on by this code and nowhere on disk. |
| SwitchSafety.BlindSafe | custom_components/heatpump_optimizer/disinfection.py:201-206 | The unload path between operations is safe at every await, leaves no switch on by this code out of memory or off the disk, and drops exactly the switches whose OFF read back. |
| SwitchOwnership.DiskIsOwned | custom_components/heatpump_optimizer/legionella.py:165-202 | Between the operations of every run the record on disk is the one in memory. |
| SwitchOwnership.RunNeat | custom_components/heatpump_optimizer/disinfection.py:154-206 | In every run, whatever the device does and wherever it is cut, neither record holds a switch twice. |
| SwitchScenarios.ForgottenSwitch | custom_components/heatpump_optimizer/legionella.py:442-457 | A run of three cycles from the first setup ends with a switch on by this code, in no record in memory or on disk, and in no notice: given up, saved, and dead (or cancelled and unloaded) before the report. |
| SwitchClaims.OffsAreOursIff | custom_components/heatpump_optimizer/disinfection.py:19-31 | Over every run an OFF goes only to a switch claimed in an earlier cycle and owned ever since, or to the one a cancelled cycle was about to switch on; the claim was of the configured switch, wanted on, control on, no block, and not read on; and its ON is what turned the switch on if and only if the switch was off at the write and the ON took (read back, and not cut before it landed). |
| SwitchClaims.ClaimIs | custom_components/heatpump_optimizer/disinfection.py:134-160 | A step brings into the record only a switch its own cycle claims, crashes and unloads included. |
| SwitchScenarios.ClaimedThoughOn | custom_components/heatpump_optimizer/disinfection.py:149-160 | A switch read off, and switched on by its user before the write, is claimed and later switched off. |
| SwitchScenarios.ClaimedBeforeOn | custom_components/heatpump_optimizer/disinfection.py:155-160 | A process dead between the write-ahead save and the ON leaves a record of an ON never sent; what the user then switches on is switched off. |
| SwitchWaits.CycleExits | custom_components/heatpump_optimizer/disinfection.py:168-199 | In a cycle a record ends only on an off reading or after the wait, unreadable; only the latter is reported lost, and never the kept switch. |
| SwitchWaits.LostAfterWait | custom_components/heatpump_optimizer/disinfection.py:168-199 | In every run of any device, cut anywhere, a switch is reported lost only unreadable, not kept, and at least thirty minutes after its wait began; unless its wait was overlooked, the last legible reading is at least thirty minutes old. |
| SwitchWaits.LostTooSoonIff | custom_components/heatpump_optimizer/disinfection.py:168-199 | In every run a legible reading lies in the thirty minutes before a loss if and only if some cycle in that time read the switch while keeping it on; every cycle that read it in that time kept it. |
| SwitchWaits.OverlookedWhenKept | custom_components/heatpump_optimizer/disinfection.py:174-177 | In every run a wait survives a legible reading only through a cycle that kept that switch on. |
| SwitchWaits.RunWaits | custom_components/heatpump_optimizer/disinfection.py:185-199 | Over every run the waits and the last legible readings stay consistent: none in the future, and a wait older than a legible reading is exactly an overlooked one. |
| SwitchScenarios.OverlookedWaitCounterexample | custom_components/heatpump_optimizer/disinfection.py:168-199 | A run from the first setup: a kept switch goes missing, is read on, and goes missing again; it is lost at once, two minutes after a legible reading in a cycle that kept it. |
| DisinfectionSwitchController.DisinfectionSwitch.constructor | custom_components/heatpump_optimizer/legionella.py:165-172 | A controller started from a stored record is the restarted state of the protocol. |
| DisinfectionSwitchController.DisinfectionSwitch.Persist | custom_components/heatpump_optimizer/legionella.py:174-202 | Saving passes the crash points "old record" and "new record" and leaves the new one. |
| DisinfectionSwitchController.DisinfectionSwitch.Write | custom_components/heatpump_optimizer/disinfection.py:213-244 | One write: what it reports, its failure fields, and what a crash during the call finds, for every behaviour of the device. |
| DisinfectionSwitchController.DisinfectionSwitch.TurnOn | custom_components/heatpump_optimizer/disinfection.py:128-166 | The guarded ON does what the protocol step says, and answers true exactly when the configured switch is known to be on. |
| DisinfectionSwitchController.DisinfectionSwitch.Claim | custom_components/heatpump_optimizer/disinfection.py:154-166 | Write-ahead: the record is saved before the ON and withdrawn after a failed one. |
| DisinfectionSwitchController.DisinfectionSwitch.ReleaseOne | custom_components/heatpump_optimizer/disinfection.py:174-199 | One owned switch resolved against its reading, every branch. |
| DisinfectionSwitchController.DisinfectionSwitch.AwaitOrGiveUp | custom_components/heatpump_optimizer/disinfection.py:188-199 | The wait for an unreadable switch, and giving it up after thirty minutes. |
| DisinfectionSwitchController.DisinfectionSwitch.Release | custom_components/heatpump_optimizer/disinfection.py:168-199 | The loop over a copy of the record is the fold of the single resolutions. |
| DisinfectionSwitchController.DisinfectionSwitch.ReleaseBlind | custom_components/heatpump_optimizer/disinfection.py:201-206 | The unload loop: OFF to every owned switch, then one save without those that landed. |
| DisinfectionSwitchController.DisinfectionSwitch.Observe | custom_components/heatpump_optimizer/disinfection.py:246-261 | The readings are those of the configured switch and every owned one, and nothing else. |
| DisinfectionSwitchController.DisinfectionSwitch.Drive | custom_components/heatpump_optimizer/legionella.py:436-441 | ON when wanted, then the release, with the configured switch kept or not. |
| DisinfectionSwitchController.DisinfectionSwitch.RunCycle | custom_components/heatpump_optimizer/legionella.py:418-464 | Observe, drive, save on a change, and hand over exactly the records lost. |
| DefrostSurface.CurveIsGentle | custom_components/heatpump_optimizer/defrost.py:172-187 | Linear interpolation between centres is Lipschitz with the steepest cell's slope, across any number of cells. |
| DefrostSurface.SurfaceIsLipschitz | custom_components/heatpump_optimizer/defrost.py:349-374 | For any learned grids the factor moves at most 0.18 per degree and 0.45/50.5 per percent of humidity, across all cells. |
| DefrostSurface.SurfaceMeetsBuckets | custom_components/heatpump_optimizer/defrost.py:349-374 | The surface equals each bucket's value at the bucket's centre. |
| DefrostSurface.SurfaceIsFlatBeyond | custom_components/heatpump_optimizer/defrost.py:172-187 | Beyond the outer centres the surface is constant. |
| DefrostSurface.SurfaceInRange | custom_components/heatpump_optimizer/defrost.py:349-374 | The surface never leaves [0.55, 1]. |
| DefrostSurface.SurfaceIsMix | custom_components/heatpump_optimizer/defrost.py:349-374 | The four-corner code, shortcut included, is the humidity mix of two temperature curves. |
| DefrostSurface.CurveIsStraight | custom_components/heatpump_optimizer/defrost.py:172-189 | Between two centres the curve rises in the proportion the value does. |
| DefrostLearner.DutyDerate | custom_components/heatpump_optimizer/defrost.py:197-205 | The duty's derate is in range, linear below the duty cap and constant above: its outer clamp never binds. |
| DefrostLearner.Arbitration | custom_components/heatpump_optimizer/defrost.py:259-315 | Empty exactly without evidence; below twelve duty samples never above either trust-blended estimate; from twelve on the measurement alone. |
| DefrostLearner.DecideMeans | custom_components/heatpump_optimizer/defrost.py:260-315 | What a bucket rests on and its value: nothing; the one estimator with evidence; the measured one alone from twelve samples on; until then the lower of the two, each in proportion to its evidence, full at twelve. |
| DefrostLearner.FactorMeetsBuckets | custom_components/heatpump_optimizer/defrost.py:349-374 | At a bucket centre the answer is that bucket value, dry and humid each its own. |
| DefrostLearner.FreshIsInert | custom_components/heatpump_optimizer/defrost.py:349-374 | A learner that has seen nothing answers one everywhere. |
| DefrostLearner.LearningIsLocal | custom_components/heatpump_optimizer/defrost.py:248-258 | An observation changes only the bucket its conditions lie in: the temperature between the bucket's edges or beyond an outer one, the humid column from 70 per cent on and never without a humidity; a ratio moves its factor a twentieth of the way to the ratio clamped to [0.55, 1], a duty its duty a tenth of the way. |
| DefrostLearner.LearningStaysPhysical | custom_components/heatpump_optimizer/defrost.py:378-430 | Either kind of observation keeps every bucket physical. |
| DefrostLearner.StepStaysHonest | custom_components/heatpump_optimizer/defrost.py:317-430 | Asking, learning either way and loading keep the grids physical and every memo entry equal to the surface. |
| DefrostLearner.MemoIsInvisible | custom_components/heatpump_optimizer/defrost.py:317-347 | After any interleaving of questions, observations and loads, an answer is the surface's on the current grids and in range. |
| DefrostLearner.LoadedIsPhysical | custom_components/heatpump_optimizer/defrost.py:480-598 | Whatever was stored, the loaded grids are physical. |
| DefrostLearner.LoadMeans | custom_components/heatpump_optimizer/defrost.py:480-598 | One bucket of any store: each half is loaded from its own usable cells, and is as new without them. |
| DefrostLearner.StoreRoundTrip | custom_components/heatpump_optimizer/defrost.py:461-598 | Saving and loading restores every physical learner's grids, without the upgrade mark. |
| DefrostLearner.ReachableRoundTrip | custom_components/heatpump_optimizer/defrost.py:461-598 | So every reachable learner survives a restart. |
| DefrostLearner.DefrostDerate.Factor | custom_components/heatpump_optimizer/defrost.py:317-347 | The memoised question answers the surface, the dry end of it without a humidity, and changes only the memo, cleared when full. |
| DefrostLearner.DefrostDerate.Observe | custom_components/heatpump_optimizer/defrost.py:378-401 | A ratio in (0, 3] moves only the factor of the bucket its temperature and humidity lie between the edges of, a twentieth of the way to the ratio clamped to [0.55, 1], and clears the memo; any other changes nothing. |
| DefrostLearner.DefrostDerate.ObserveDuty | custom_components/heatpump_optimizer/defrost.py:403-430 | A duty in [0, 1] moves only the duty and the counts of the bucket its temperature and humidity lie between the edges of, a tenth of the way, and clears the memo; any other changes nothing. |
| DefrostLearner.DefrostDerate.FromDict | custom_components/heatpump_optimizer/defrost.py:480-598 | Loading any stored data gives a learner with physical grids and an empty memo. |
| DefrostWindowIntegrator.NothingIsLost | custom_components/heatpump_optimizer/defrost.py:743-838 | For any ordered trace of readings and settlements, closed duty times length plus the open on-time is the time the level was on, and the events are the rising edges of the whole trace. |
| DefrostWindowIntegrator.CloseReports | custom_components/heatpump_optimizer/defrost.py:812-838 | A settlement reports, in terms of the trace alone, the length since the last settlement, the time the level was on in it, a duty in [0, 1], its rising edges, and "observed" exactly for intervals with a legible and no unreadable reading. |
| DefrostWindowIntegrator.SinceLastSettlement | custom_components/heatpump_optimizer/defrost.py:743-786 | Between settlements the fields hold the on-time, the rising edges and the start of the interval since the last one. |
| DefrostWindowIntegrator.AfterIsConsistent | custom_components/heatpump_optimizer/defrost.py:743-838 | Over every ordered trace the fields mean what the trace says: the level, the open interval, what was seen in it, and an on-time within its length. |
| DefrostWindowIntegrator.PeekIsClose | custom_components/heatpump_optimizer/defrost.py:788-810 | Peeking answers exactly what closing would. |
| DefrostWindowIntegrator.ExtraReadIsInvisible | custom_components/heatpump_optimizer/defrost.py:750-786 | A repeated reading of the held level changes neither duty nor events nor length of a peek or of the next settlement. |
| DefrostWindowIntegrator.ExtraReadAnywhere | custom_components/heatpump_optimizer/defrost.py:750-786 | A redundant reading anywhere in a trace leaves every settled interval as it was: two sources cannot double-count. |
| DefrostWindowIntegrator.DefrostWindow.Observe | custom_components/heatpump_optimizer/defrost.py:750-786 | One reading folded into the fields, every branch. |
| DefrostWindowIntegrator.DefrostWindow.Peek | custom_components/heatpump_optimizer/defrost.py:788-810 | The open interval's answer, without a change. |
| DefrostWindowIntegrator.DefrostWindow.Close | custom_components/heatpump_optimizer/defrost.py:812-838 | The answer of a peek, and the next interval opened with the level carried over. |
| RowSums.RowSums | custom_components/heatpump_optimizer/batchmath.py:26-64 | For an arbitrary, non-associative addition and any width, each row of the batch is the pairwise sum of that row alone. |
| RowSums.WideOrder | custom_components/heatpump_optimizer/batchmath.py:44-48 | Over 128 values: the sums of the two halves, the first cut down to whole eights. |
| RowSums.BlockOrder | custom_components/heatpump_optimizer/batchmath.py:54-64 | Eight to 128 values: eight lanes met in pairs, the rest added after them, zero last. |
| RowSums.LaneOrder | custom_components/heatpump_optimizer/batchmath.py:54-57 | A lane holds every eighth value, added in order. |
| RowSums.NarrowOrder | custom_components/heatpump_optimizer/batchmath.py:49-53 | Fewer than eight: from negative zero, left to right, zero last. |
| RowSums.AddTail | custom_components/heatpump_optimizer/batchmath.py:48-53 | The column loop over a tail is the left fold of each row. |
| RowSums.Partials | custom_components/heatpump_optimizer/batchmath.py:54-57 | The eight interleaved partials, updated in place, are the lane sums of each row. |
| RowSums.BatchIgnoresOthers | custom_components/heatpump_optimizer/batchmath.py:37-40 | A row in a batch and the same row alone give the identical value. |
| RowSums.LanesCover | custom_components/heatpump_optimizer/batchmath.py:54-60 | Under an associative, commutative addition the tree of the lane sums is the plain sum of the whole blocks. |
| RowSums.PairwiseIsPlain | custom_components/heatpump_optimizer/batchmath.py:26-64 | Under an associative, commutative addition with a neutral zero the whole order computes the plain sum. |
| ProfileProjection.NormalizeProfile | custom_components/heatpump_optimizer/dhw_learning.py:137-169 | For any stored value the result is admitted (every hour in [0.2, 3.5], mean within 1e-12 of 1), is one positive scale and the clip applied to the input, keeps the order of the hours as written, and is the input itself when that was admitted. |
| ProfileProjection.NormalizeTwice | custom_components/heatpump_optimizer/dhw_learning.py:141-143 | Normalising its own output returns it unchanged. |
| ProfileProjection.ShapeKeepsOrder | custom_components/heatpump_optimizer/dhw_learning.py:137-169 | A result of that shape keeps the order of the hours. |
| ProfileProjection.ProjectionUnique | custom_components/heatpump_optimizer/dhw_learning.py:159-168 | However the scale is found, two admitted profiles of one shape agree to within 48e-12 in every hour. |
| ProfileProjection.MeanAtMoves | custom_components/heatpump_optimizer/dhw_learning.py:160-161 | The mean of the clipped profile is monotone in the scale and Lipschitz with 3.5. |
| ProfileProjection.Bisect | custom_components/heatpump_optimizer/dhw_learning.py:162-167 | A hundred rounds keep the crossing of mean one inside the bracket and halve it exactly. |
| ProfileProjection.SolveScale | custom_components/heatpump_optimizer/dhw_learning.py:159-168 | The bracket starts with the floor and the ceiling at its ends, and the scale found is positive with a mean within 1e-12 above one. |
| UsageLearner.EvidenceMovesItsHour | custom_components/heatpump_optimizer/dhw_learning.py:521-548 | A draw above what an hour had learned never lowers that hour or raises another, and one below never raises it or lowers another, through the projection and to its tolerance. |
| UsageLearner.BlendIsAdmitted | custom_components/heatpump_optimizer/dhw_learning.py:318-338 | A blend of two admitted profiles is admitted as it stands: the volume is kept, so the re-normalising changes nothing. |
| UsageLearner.RestartKeepsProfile | custom_components/heatpump_optimizer/dhw_learning.py:260-288 | A profile a valid learner stored comes back exactly, with its day count. |
| UsageLearner.UsageLearner.constructor | custom_components/heatpump_optimizer/dhw_learning.py:99-126 | A learner starts with the projected shipped pattern for all three profiles and no evidence. |
| UsageLearner.UsageLearner.LearnUsage | custom_components/heatpump_optimizer/dhw_learning.py:496-554 | A drop under 0.15 K, a heated interval, or a drop within five hundredths of a degree an hour of the standby loss changes nothing; otherwise the intensity that makes up the drop with the standby loss moves its hour of the pooled and of the day type's own profile twelve hundredths of the way, both projected, and the day is counted once. |
| UsageLearner.UsageLearner.PatternFor | custom_components/heatpump_optimizer/dhw_learning.py:318-338 | Each hour counts the day type's profile once per day of evidence against the pooled profile's fourteen; the result is admitted as it stands. |
| UsageLearner.BlendCounts | custom_components/heatpump_optimizer/dhw_learning.py:318-338 | A blend after n days weighs the day type n to fourteen against the pooled profile. |
| UsageLearner.IntensityExplains | custom_components/heatpump_optimizer/dhw_learning.py:514-521 | The intensity of a draw, over its hours and with the standby loss, makes up the drop. |
| UsageLearner.UsageLearner.RestoreDayType | custom_components/heatpump_optimizer/dhw_learning.py:265-281 | One day type restored from any payload is admitted. |
| UsageLearner.UsageLearner.ApplyPayload | custom_components/heatpump_optimizer/dhw_learning.py:260-288 | Any payload leaves every profile admitted and keeps what it does not hold as a list of 24. |
| BoostOverlay.BoostExcludesBlock | custom_components/heatpump_optimizer/boost.py:170-197 | Over every run on any clock a boost and a block never share a channel. |
| BoostOverlay.CycleBoundsWindows | custom_components/heatpump_optimizer/boost.py:146-163 | After a cycle every window ends within (now, now + 2 h], stepped-back clocks included, and what was live stays live. |
| BoostOverlay.BlockedIff | custom_components/heatpump_optimizer/boost.py:120-197 | Which events open and which end a block window, and where it ends: exactly the presses, floors, missing tanks and cycles that may. |
| BoostOverlay.BoostedIff | custom_components/heatpump_optimizer/boost.py:120-197 | The same for a boost window. |
| BoostOverlay.TailIff | custom_components/heatpump_optimizer/boost.py:146-197 | Which events start the settling tail, and when it ends; nothing else touches it. |
| BoostOverlay.FrozenWhileSettlingIff | custom_components/heatpump_optimizer/boost.py:262-287 | On a monotone clock, after every step of a run the learners are frozen whenever the space boost governed in the last twelve hours, if and only if no cancel or block met an ended window before a cycle expired it (inside its tail, with no other tail as long). |
| BoostOverlay.TailsKeepPromise | custom_components/heatpump_optimizer/boost.py:146-197 | Runs that never drop a tail keep that promise at every later instant, presses, blocks and a left boost mode included. |
| BoostOverlay.DroppedTailBreaks | custom_components/heatpump_optimizer/boost.py:170-197 | Each such drop forgets some governed instant at once. |
| BoostOverlay.FreshCyclesSuffice | custom_components/heatpump_optimizer/boost.py:146-163 | A cycle at the moment of the cancel or block rules the drop out. |
| BoostOverlay.LateCancelForgetsBoost | custom_components/heatpump_optimizer/boost.py:190-197 | A boost cancelled just over two hours after the press leaves the learners unfrozen. |
| BoostOverlay.ModeTailIff | custom_components/heatpump_optimizer/boost.py:146-163 | After the global boost mode is left, on every monotone run and after every later step the learners are frozen for its twelve hours, whatever other tails begin, if and only if no cycle in that time expires a space window that ended before the mode was left. |
| BoostOverlay.CycleCutsModeTail | custom_components/heatpump_optimizer/boost.py:146-163 | A boost window that ended five minutes before the mode was left, expired just after: the learners thaw before the mode's twelve hours are over. |
| BoostOverlay.BoostState.Expire | custom_components/heatpump_optimizer/boost.py:146-163 | Both in-place loops: ended windows go, the rest end at most two hours from now, and an ended space window leaves a tail of twelve hours from its end. |
| BoostOverlay.BoostState.Set | custom_components/heatpump_optimizer/boost.py:181-197 | A boost press opens two hours and clears the block, a block press the reverse, and ending a live space boost by either leaves a tail of twelve hours from now. |
| BoostOverlay.BoostState.SetBlocked | custom_components/heatpump_optimizer/boost.py:170-179 | A block press opens two hours of block and ends the boost, with its tail; releasing it ends only the block. |
| CurveLearner.BiasStaysInRange | custom_components/heatpump_optimizer/curve_learning.py:76-137 | On every run the bias stays in [-4, 0]. |
| CurveLearner.OnlyMissesRaise | custom_components/heatpump_optimizer/curve_learning.py:102-119 | A miss leaves the bias at exactly 0, nothing else raises it, it falls only in a step, and resets count the misses under a bias. |
| CurveLearner.RateSinceStep | custom_components/heatpump_optimizer/curve_learning.py:121-137 | After a step everything that follows moves down no faster than half a kelvin in seven days. |
| CurveLearner.RateBound | custom_components/heatpump_optimizer/curve_learning.py:121-137 | Counting that first step too, the bound carries one step more: 0.2 + 0.5 per seven days up to the last step. |
| CurveLearner.WeeklyCapCounterexample | custom_components/heatpump_optimizer/curve_learning.py:43-52 | The documented half kelvin a week fails: nine comfortable days in a row move 0.6 K within six days. |
| CurveLearner.SevenDayCapIff | custom_components/heatpump_optimizer/curve_learning.py:76-137 | Any stretch of seven days of any run dated by its clock holds at most three steps, and moves at most half a kelvin exactly when it holds fewer than three, or three whose gaps, each counted up to 2.8 days and to the room the clamp leaves, come to at most seven days. |
| CurveLearner.FullStepCapIff | custom_components/heatpump_optimizer/curve_learning.py:76-137 | When the first step of such a stretch is a full one clear of the clamp, the cap holds exactly with fewer than three steps. |
| CurveLearner.EverySevenDaysIff | custom_components/heatpump_optimizer/curve_learning.py:76-137 | Over a whole run every seven days keep to the cap exactly when no three steps within seven days are too large together. |
| CurveLearner.StepsNeedNewEvidence | custom_components/heatpump_optimizer/curve_learning.py:98-100 | Between two consecutive steps lie at least three newly recorded comfortable days. |
| CurveLearner.CurveLearner.RecordDay | custom_components/heatpump_optimizer/curve_learning.py:76-100 | One day, once per date: nothing without a reading, a surrender at or below the floor, no evidence within 0.3 of it, else a comfortable day and with the third a step. |
| CurveLearner.CurveLearner.RecordMiss | custom_components/heatpump_optimizer/curve_learning.py:102-119 | A miss ends the count, and takes back any bias and counts it. |
| CurveLearner.CurveLearner.StepDown | custom_components/heatpump_optimizer/curve_learning.py:121-137 | A step of 0.2 K, or a fourteenth of a kelvin for each day when less than 2.8 have passed, down to four kelvin; none without time passed. |
| ComfortLearner.EvidenceNeverSpentTwice | custom_components/heatpump_optimizer/comfort_learning.py:100-176 | Over any sequence of overrides, quiet periods, decays and resets, each direction on its own: twice the adjustments plus the evidence left is at most the evidence brought. |
| ComfortLearner.EvidenceBudget | custom_components/heatpump_optimizer/comfort_learning.py:166-168 | Both directions together, from a learner without evidence. |
| ComfortLearner.BudgetIsTight | custom_components/heatpump_optimizer/comfort_learning.py:166-168 | The bound is met: an override worth two units is spent whole, and forgetting brings nothing. |
| ComfortLearner.AdjustmentFollowsEvidence | custom_components/heatpump_optimizer/comfort_learning.py:157-165 | For any weight: an adjustment moves it the way the evidence points by a factor change of at most 0.36 exactly when the weight before is at least 1/1.36 and at most 40 (up), or at least 1 and at most 62.5 (down); in bounds it moves by at least 0.12 or to the bound, and nothing but a reset moves it otherwise. |
| ComfortLearner.FollowsInEveryRunIff | custom_components/heatpump_optimizer/comfort_learning.py:157-183 | In every run all adjustments follow the evidence if and only if the configured weight lies in [1, 40]. |
| ComfortLearner.QuietRaisesLowWeight | custom_components/heatpump_optimizer/comfort_learning.py:130-165 | With a configured weight under one, quiet of which two units outlast their decays brings an adjustment for less comfort that raises the weight to one or more. |
| ComfortLearner.InBoundsSinceAdjustment | custom_components/heatpump_optimizer/comfort_learning.py:157-165 | Whatever the configured weight, from the first adjustment to a reset the weight is in [1, 40]. |
| ComfortLearner.FortnightOutweighsEveryComplaint | custom_components/heatpump_optimizer/comfort_learning.py:148-153 | The documented claim that a fortnight of quiet cannot outweigh one clear complaint holds for no complaint: on a learner without evidence for more comfort, any quiet records counting fourteen days, at any decay and with the adjustments in between, turn the evidence negative or bring an adjustment down. |
| ComfortLearner.QuietOutweighs | custom_components/heatpump_optimizer/comfort_learning.py:130-169 | Any evidence is outweighed by quiet worth more than it, however it is recorded, decayed or spent. |
| ComfortLearner.LongRecordIff | custom_components/heatpump_optimizer/comfort_learning.py:152-153 | A single record of a week or more leaves a complaint standing exactly when at least 2.45 of it remains under its decay. |
| ComfortLearner.StrongestComplaintOutweighed | custom_components/heatpump_optimizer/comfort_learning.py:74-84 | The strongest complaint leaves 5.5, and two quiet weeks later the evidence is -1.4. |
| ComfortLearner.ComfortLearner.RecordOverride | custom_components/heatpump_optimizer/comfort_learning.py:110-128 | The old evidence ages; an override of at least 0.3 K adds its degrees, at most three, times the relative price held to [0.5, 2.5], is counted, and the sum is acted on. |
| ComfortLearner.ComfortLearner.RecordQuietPeriod | custom_components/heatpump_optimizer/comfort_learning.py:130-153 | With a band, a duration and a span of at most a quarter of the band: 0.35 a day against comfort, seven days at most, then acted on; otherwise nothing. |
| ComfortLearner.ComfortLearner.MaybeAdjust | custom_components/heatpump_optimizer/comfort_learning.py:157-169 | Two units of evidence either way move the weight by six hundredths a unit, six units at most, within [1, 40], and are spent; less changes nothing. |
| ComfortLearner.ComfortLearner.Reset | custom_components/heatpump_optimizer/comfort_learning.py:178-183 | Back to the configured weight, no evidence, nothing counted. |
| DrivingGrade.DriversSumToSample | custom_components/heatpump_optimizer/driving_grade.py:71-85 | With energy bought and a positive mean price the two drivers of a day sum to its score, clipped or not. |
| DrivingGrade.SampleScores | custom_components/heatpump_optimizer/driving_grade.py:91-92 | A day scores 0 exactly when it paid its flat price or more, 100 exactly when it paid at most eight tenths of it, and in between a hundredth for each part of the fifth it saved. |
| DrivingGrade.DriversSplit | custom_components/heatpump_optimizer/driving_grade.py:71-85 | The drivers split a scoring day in the proportion of what each side saved against buying flat; a day that scores nothing has none. |
| DrivingGrade.BookedAdds | custom_components/heatpump_optimizer/driving_grade.py:45-63 | What one more interval adds to a day: energy and cost when priced, its spot price for its hours when it lasts, and the cheap side exactly when both hold and its price is under the mean of the day so far, itself included. |
| DrivingGrade.PublishedAfterDays | custom_components/heatpump_optimizer/driving_grade.py:88-115 | After any number of folded days the published parts sum to the grade, and the part called earlier days is exactly 0.95 to that number times what it was. |
| DrivingGrade.EarlierAfterDays | custom_components/heatpump_optimizer/driving_grade.py:88-115 | After n folded days the unexplained part is exactly (1 - 0.05)^n of what it was. |
| DrivingGrade.EarlierDecays | custom_components/heatpump_optimizer/driving_grade.py:88-102 | One fold scales the unexplained part by 0.95, and a first day leaves none. |
| DrivingGrade.FreshGradeIsExplained | custom_components/heatpump_optimizer/driving_grade.py:88-102 | A grade folded from nothing is explained in full and stays in [0, 100]. |
| DrivingGrade.CheapSideIsPart | custom_components/heatpump_optimizer/driving_grade.py:45-63 | The cheap side of a day booked from empty is part of the day. |
| DrivingGrade.DriverSignsIff | custom_components/heatpump_optimizer/driving_grade.py:71-85 | For every day: the cheap driver pushes up exactly when the day scores nothing or the cheap side cost at most its energy at the day's mean price, and the other pushes down exactly when the day scores nothing or the rest cost at least its own. |
| DrivingGrade.CheapHoursCanPushDown | custom_components/heatpump_optimizer/driving_grade.py:74-75 | A booked day whose hours below the running mean push the grade down and whose others push it up. |
| DrivingGrade.HeldDrivers.Fold | custom_components/heatpump_optimizer/driving_grade.py:88-102 | A first day gives its documented score and split; a later one moves the grade and both drivers a twentieth of the way to them. |
| HeatLossRefit.PooledIsConvex | custom_components/heatpump_optimizer/accuracy.py:721-763 | With a positive least difference, step and base loss, the unclipped scale lies between any bounds on the single-pair Newton estimates, hence between the least and the greatest. |
| HeatLossRefit.RecoversTruth | custom_components/heatpump_optimizer/accuracy.py:721-763 | On pairs consistent with a true scale the refit answers that scale, clipped and rounded. |
| HeatLossRefit.OrderDoesNotMatter | custom_components/heatpump_optimizer/accuracy.py:721-781 | Any two orders of the same samples give the same answer. |
| HeatLossRefit.FenceIgnoresTheUnsettled | custom_components/heatpump_optimizer/accuracy.py:654-663 | Nothing measured at or before the fence of the last boost plus settle and the last restore reaches the answer. |
| HeatLossRefit.TotalsBounded | custom_components/heatpump_optimizer/accuracy.py:757-764 | Numerator and denominator stay between the two slopes while pairs are pooled. |
| HeatLossRefit.RefitMeans | custom_components/heatpump_optimizer/accuracy.py:654-763 | Every answer of the refit has that meaning. |
| HeatLossRefit.AdmittedIs | custom_components/heatpump_optimizer/accuracy.py:666-690 | A pair is admitted exactly when it is complete, outside a boost, dark, warm enough and believable; its residual is actual less predicted, its difference their mean less outdoors. |
| HeatLossRefit.HeatLossRefit | custom_components/heatpump_optimizer/accuracy.py:721-781 | The accumulating loop gives the refit in the source's terms: settled since the last restore and every boost with its settling time, the number of settled admitted pairs, the settled span in days, and a scale exactly when three days hold a day's worth of pairs. |
| DrawStats.FoldRefinesGrouping | custom_components/heatpump_optimizer/dhw_draws.py:60-82 | For every tick sequence each window's reservoir is the last forty rounded totals of its closed maximal runs of one (window, date), oldest first, quiet runs included, and the final run is the one open. |
| DrawStats.FinalRunCloses | custom_components/heatpump_optimizer/dhw_draws.py:69-73 | A tick of another occurrence appends exactly the final run's total to its own window's list. |
| DrawStats.PruneIsInert | custom_components/heatpump_optimizer/dhw_draws.py:84-92 | While the configured windows stay what the ticks were labelled by, pruning forgets nothing. |
| DrawStats.DrawStats.Fold | custom_components/heatpump_optimizer/dhw_draws.py:60-75 | One tick folded, closing the open occurrence on a change. |
| DrawStats.DrawStats.Close | custom_components/heatpump_optimizer/dhw_draws.py:77-82 | The closed total appended and the reservoir cut to forty. |
| DrawStats.DrawStats.Prune | custom_components/heatpump_optimizer/dhw_draws.py:84-92 | Exactly the reservoirs of labels no longer configured are dropped. |

## Left out

- Window specifications as lists or tuples, and characters outside ASCII other than the two long dashes: a specification is a string here.
- Per-weekday overrides, the holiday overlay and the per-day form: only the default specification's resolution is modelled.
- Fractions of a minute in the window queries, and the floating-point rounding of hours: the grammar has minute resolution and times are whole minutes.
- Rounding of stored and published numbers, except where a rounding function is a parameter (`HeatLossRefit`, `DrawStats`); NaN and infinities enter as None.
- Logging, repair notices, entities, services, listeners, the publishing of learned values to the planner, and the stores themselves.
- A save of the ownership record is taken to succeed once started: one the store refuses, or one asked for before the guard has loaded its timestamp, writes nothing and is not repeated until the record changes again.
- The latch on a disinfection command that outlasted its bound: whether a cycle wants the switch on is an input.
- SwitchWaits.LostAfterWait: weaker than "thirty minutes without a legible reading", which the code does not keep; the exact condition is SwitchWaits.LostTooSoonIff.
- The issue registry: a repair handed over counts as reported, though the registry writes it to disk a little later.
- Stamps that cannot be compared (one with, one without a zone) in the defrost window: instants are numbers here.
- BoostOverlay.FrozenWhileSettlingIff: speaks of the space channel; while the global boost mode itself is selected the learners are frozen by that alone.
- BoostOverlay.ModeTailIff: likewise speaks of the time after the mode was left; a mode selected again in between freezes the learners by itself.
- The overlay's writes into the action, the safety floors that release a block, and restoring windows from the store: case splits that would add easy members, or decisions taken outside the file.
- The half-life's value in the comfort learner: any factor in (0, 1]; the kept history of forty overrides and the stored form, whose weight is clipped on loading, are not modelled.
- Local dates in the curve learner follow the clock to within the hour of summer time, and never run back.
- The learned cooling rate and the 0.9 quantile of a reservoir: logarithms and quantiles.
- The standby cooling rate is an input of a usage observation, and the calendar day an abstract number.
- The draw statistics' stored form, and pruning after the windows were changed: only its inertness while they are unchanged, and its own effect, are stated.
- A stored day book with negative hours: the mean price of a day with no hours at all is taken as not below any price.
- The solver, the thermal model, the coordinator and the pump arbiter: their guards appear as preconditions (energy and mean price positive, positive interval length).
- Battery, comfort band, currency and diagnosis helpers: short closed formulas.
