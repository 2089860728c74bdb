# Interval timer: a Dafny model of the phase sequencer and its engine

This project models the core of an interval-training countdown timer. The user sets four durations:
preparation, work, rest and set rest, all in whole seconds. The user also sets two counts: cycles per
set and number of sets. The timer counts down once a second. It moves from preparation through work
and rest phases, with a longer rest between sets, until it is complete, and it asks a cue player for a
named cue at each phase change and in the last seconds of each phase.

Modules, one per source file:

- `TimerTypes` (`timer_types.dfy`): the `Settings` record, the `Phase` enumeration and the `TimerState`
  record of `src/types/timer.ts`.
- `TimerHook` (`timer_hook.dfy`): the hook `useTimer`. It holds:
  - the phase sequencer `NextPhase`;
  - the record updaters for a clock tick, `start`, `pause` and `stop`/`reset`;
  - the choice of cue names;
  - the class `TimerEngine`, whose fields are the six fields of the state record plus the log of cue
    names handed to the cue player. Its methods `Tick`, `Start`, `Pause`, `Stop` and `Reset` update
    those fields in place.

  Around the engine there are theorems about whole runs, counted both in phase changes and in clock ticks.
- `TimerScreen` (`timer_screen.dfy`): the phase caption, the full length of the current phase (the
  divisor of the progress ring) and the `m:ss` clock text.
- `NumberInput` (`number_input.dfy`): the bounded stepper (`+`, `-`, typed text) with default bounds
  1 and 999.
- `SettingsScreen` (`settings_screen.dfy`): default settings, single-field update, the validity check
  and the start button.
- `Decimal` (`decimal.dfy`) and `Wrappers` (`wrappers.dfy`): decimal text of integers, standing in for
  JavaScript's `toString` and `parseInt`, and an `Option` type.

Cues are symbolic names appended to `TimerEngine.cues`; nothing is played. The clock is not modelled
as time passing. A tick is a call of `TimerEngine.Tick`, which may only be made while the engine is
running and not paused, because the source only schedules its one-second interval then.

Two behaviours of the source worth noting:

- At completion the counters keep the values of the last cycle and the last set, so they never leave
  their ranges; `Consistent` records this.
- `stop` in the source does not cancel a pending delayed `beforeNewSet` cue. The model appends that cue
  at once, so there is nothing to cancel.

## Model

| member | source | states |
|---|---|---|
| `TimerHook.NextPhase` | src/hooks/useTimer.ts:49-81 | Every running phase is left when it runs out, and `Completed` maps to itself. The next phase is work exactly when the current one is preparation, rest or set rest. It is `Completed` exactly when the run was complete or was in a work phase on the last cycle of the last set. A new running phase gets its full length as the timer screen measures it, and `Completed` gets 0. Only entering work moves the counters. |
| `TimerHook.NextPhaseTable` | src/hooks/useTimer.ts:56-78 | The transition table row by row. Preparation goes to work at cycle 1, set 1. Work goes to rest while cycle < cycles, else to set rest while set < sets, else to completed, with the counters unchanged. Rest goes to work with the next cycle. Set rest goes to work at cycle 1 of the next set. Completed maps to itself with time 0. |
| `TimerHook.NextPhaseKeepsConsistent` | src/hooks/useTimer.ts:49-81 | With all settings at least 1, the sequencer keeps the counters in [1, cycles] and [1, sets]. It only rests before the last cycle of a set. It only takes a set rest after the last cycle of a set that is not the last. It only completes on the last cycle of the last set. |
| `TimerHook.NextPhaseProgress` | src/hooks/useTimer.ts:49-81 | Each phase change brings completion exactly one step closer. The number of work phases still ahead drops by one exactly when the change enters work. |
| `TimerHook.IterateKeepsConsistent` | src/hooks/useTimer.ts:49-81 | Any number of expiries in a row keeps the phase and counters consistent. |
| `TimerHook.RunCompletes` | src/hooks/useTimer.ts:49-81 | From any consistent phase and counters, the sequencer is first `Completed` after exactly `StepsAhead` expiries. It enters exactly `WorkAhead` work phases on the way. |
| `TimerHook.WholeRun` | src/hooks/useTimer.ts:49-81 | From the first phase of a run, `Completed` is reached after exactly 2 * cycles * sets expiries and not before. Exactly cycles * sets work phases are entered. The run ends on cycle = cycles, set = sets. |
| `TimerHook.RunSkipsRestsItCannotHave` | src/hooks/useTimer.ts:60-68 | Throughout a run the counters stay within their ranges. No rest occurs when cycles = 1, and no set rest occurs when sets = 1. |
| `TimerHook.TwoCyclesTwoSets` | src/hooks/useTimer.ts:49-81 | With two cycles and two sets the phases are: work(1,1), rest, work(2,1), set rest, work(1,2), rest, work(2,2), completed(2,2). |
| `TimerHook.CueName` | src/hooks/useTimer.ts:19-46 | The name the cue player is asked for, per cue. No contract of its own; `CueNamesDistinct` states its properties. |
| `TimerHook.CueNamesDistinct` | src/hooks/useTimer.ts:19-46 | Every cue name is non-empty, and two cues share a name exactly when they are the same cue. |
| `TimerHook.PhaseCues` | src/hooks/useTimer.ts:19-46 | The cues asked for on entering a phase from another (`playPhaseSound`). No contract of its own; `TransitionCues` and `TickExpires` state its properties. |
| `TimerHook.StartCues` | src/hooks/useTimer.ts:129 | The cue `start` asks for. No contract of its own; `StartKeepsPosition` states that it is the `preparation` cue alone. |
| `TimerHook.Initial` | src/hooks/useTimer.ts:6-13 | The state record derived from settings, as at mount and at `stop`. No contract of its own; `UpdatersKeepValid`, `WholeRunTicks` and the engine's constructor and `Stop` state its properties. |
| `TimerHook.TickUpdate` | src/hooks/useTimer.ts:86-109 | The updater of one clock tick. No contract of its own; `TickCountsDown`, `TickExpires`, `CompletedIsAbsorbing`, `UpdatersKeepValid` and `TicksRunToCompletion` state its properties. |
| `TimerHook.TickCues` | src/hooks/useTimer.ts:86-99 | The cues one tick asks for: the tick cue near the end of a phase and the phase cues on a change. No contract of its own; `TickCueWindow`, `TickCountsDown` and `TransitionCues` state its properties. |
| `TimerHook.Started` | src/hooks/useTimer.ts:127-131 | The record update of `start`. No contract of its own; `StartKeepsPosition` and `UpdatersKeepValid` state its properties. |
| `TimerHook.Paused` | src/hooks/useTimer.ts:133-135 | The record update of `pause`. No contract of its own; `PauseTwiceIsIdentity` and `UpdatersKeepValid` state its properties. |
| `TimerHook.UpdatersKeepValid` | src/hooks/useTimer.ts:86-109 | The initial record is valid, and a tick, `start` and `pause` keep a record valid. Valid means: counters consistent, and time left in [1, full length of the phase], or 0 once complete. |
| `TimerHook.TickCountsDown` | src/hooks/useTimer.ts:88-93 | A tick with more than one second left takes off exactly one second and changes no other field. It asks for the tick cue exactly when 2 or 3 seconds were left. |
| `TimerHook.TickCueWindow` | src/hooks/useTimer.ts:88-90 | A tick asks for the tick cue exactly when it starts with 2 or 3 seconds left. |
| `TimerHook.TickExpires` | src/hooks/useTimer.ts:94-108 | A tick with at most one second left commits the sequencer's phase, counters and time. It keeps running exactly when the new phase is not `Completed` and leaves pausing unchanged. It asks for cues only when the phase changed, and then those of `PhaseCues`. |
| `TimerHook.TransitionCues` | src/hooks/useTimer.ts:19-46 | The cue for each phase change: `workStart` for work after preparation or a set rest, `workAfterRest` for work after a rest, `rest`, `setEnd` then `beforeNewSet`, and `completion`. A tick that ends a phase asks for cues exactly when the phase changes, and never a tick cue with them. |
| `TimerHook.CompletedIsAbsorbing` | src/hooks/useTimer.ts:78 | A tick on a completed run leaves it completed with the same counters and time 0. It stops the clock and asks for no cue. |
| `TimerHook.PauseTwiceIsIdentity` | src/hooks/useTimer.ts:133-135 | Pausing flips only the paused flag, so pausing twice changes nothing. |
| `TimerHook.StartKeepsPosition` | src/hooks/useTimer.ts:127-131 | Start sets running and not paused, keeps the phase, counters and time, and asks for the `preparation` cue. |
| `TimerHook.TicksThroughPhase` | src/hooks/useTimer.ts:86-109 | A phase with t seconds left lasts exactly t ticks. Before the last one only the time changes, and the last one enters the next phase. |
| `TimerHook.TicksRunToCompletion` | src/hooks/useTimer.ts:86-109 | From any valid record, the run is complete after exactly `TicksLeft` ticks: last cycle, last set, time 0, and the clock stopped if the run was not already complete. Before that it is never complete, pausing never changes, and a running clock keeps running. |
| `TimerHook.TicksLeftIsSumOfPhases` | src/hooks/useTimer.ts:86-109 | The ticks left are the current phase's time plus the full length of every phase still ahead. |
| `TimerHook.WholeRunTicks` | src/hooks/useTimer.ts:83-111 | A whole run lasts preparation + cycles*sets*work + sets*(cycles-1)*rest + (sets-1)*setRest ticks. |
| `TimerHook.FifteenTickRun` | src/hooks/useTimer.ts:83-111 | With preparation 3, work 5, rest 2, two cycles, set rest 10 and one set, a started run is complete after 15 ticks, on cycle 2 of set 1 with the clock stopped. It keeps running and is not complete before that. |
| `TimerHook.Mount` | src/hooks/useTimer.ts:6-13 | The first render: the state record is derived once from the settings the hook is first given (the page's defaults). No contract of its own; `StalePreparationTime` states its consequence. |
| `TimerHook.StalePreparationTime` | src/hooks/useTimer.ts:6-13 | As written, a first run with preparation 5 counts down from the default 15, more than the phase's full length, so the record is not valid. |
| `TimerHook.BeginRunStartsValid` | src/hooks/useTimer.ts:6-13 | A run whose first state is derived from its own settings starts valid: preparation, cycle 1, set 1, the full preparation time, running and not paused. |
| `TimerHook.TimerEngine.constructor` | src/hooks/useTimer.ts:6-13 | A new engine holds the initial record: preparation, cycle 1, set 1, the preparation time, not running, not paused. No cues have been asked for, and the record is valid. |
| `TimerHook.TimerEngine.Tick` | src/hooks/useTimer.ts:83-111 | Only while running and not paused: the fields become `TickUpdate` of the old record, and the cue log grows by `TickCues`. The record stays valid. |
| `TimerHook.TimerEngine.Start` | src/hooks/useTimer.ts:127-131 | The fields become `Started` of the old record (running, not paused, nothing else changed), and the `preparation` cue is logged. |
| `TimerHook.TimerEngine.Pause` | src/hooks/useTimer.ts:133-135 | Only the paused flag flips, and no cue is logged. |
| `TimerHook.TimerEngine.Stop` | src/hooks/useTimer.ts:137-149 | Whatever the prior state, the fields become the initial record of the engine's settings, so stopping twice gives the same record. |
| `TimerHook.TimerEngine.Reset` | src/hooks/useTimer.ts:151-153 | The same as `Stop`. |
| `TimerScreen.PhaseLabel` | src/components/TimerScreen.tsx:14-26 | The caption of each phase. No contract of its own; `PhaseLabelDistinguishes` states its properties. |
| `TimerScreen.TotalTime` | src/components/TimerScreen.tsx:29-42 | The full length of the current phase. No contract of its own; `TotalTimeIsPhaseSetting` states its properties. |
| `TimerScreen.FormatTime` | src/components/TimerScreen.tsx:46-50 | The `m:ss` clock text. No contract of its own; `FormatTimeFields`, `ParseClockOfFormatTime` and `FormatTimeInjective` state its properties. |
| `TimerScreen.PhaseLabelDistinguishes` | src/components/TimerScreen.tsx:14-26 | The caption is empty exactly for `Completed`, and no two phases share a caption. |
| `TimerScreen.TotalTimeIsPhaseSetting` | src/components/TimerScreen.tsx:29-42 | The full length of each running phase is its own setting, and `Completed` gives 1. So the divisor is at least 1 whenever the durations are. |
| `TimerScreen.PadStart` | src/components/TimerScreen.tsx:49 | The padded text is as long as the width, or as the text if that is longer. It ends with the text and begins with fill characters only. |
| `TimerScreen.FormatTimeFields` | src/components/TimerScreen.tsx:46-50 | The clock text is the minutes field, a colon, then a seconds field of exactly two digits. The minutes field reads as seconds div 60 and the seconds field as seconds mod 60, which is below 60. |
| `TimerScreen.ParseClockOfFormatTime` | src/components/TimerScreen.tsx:46-50 | Reading the clock text back as minutes * 60 + seconds gives the duration. |
| `TimerScreen.FormatTimeInjective` | src/components/TimerScreen.tsx:46-50 | Two different durations never show the same clock text. |
| `Decimal.NatToString` | src/components/TimerScreen.tsx:49 | The text of a non-negative integer is non-empty and all digits. It is one character exactly below 10 and has no leading zero. |
| `Decimal.ParseInt` | src/components/NumberInput.tsx:24 | The decimal reading of typed text, `None` standing for NaN. No contract of its own; `ParseIntOfIntToString`, `HandleChangeAccepts` and `HandleChangeOfIntToString` state its properties. |
| `Decimal.ParseIntOfIntToString` | src/components/NumberInput.tsx:24 | Parsing the decimal text of any integer gives that integer back. |
| `NumberInput.IncrementDisabled` | src/components/NumberInput.tsx:64 | Whether the `+` button is disabled (value >= max). No contract of its own; `StepperEmitsNeighbour` states that `+` hands on a value exactly when it is enabled. |
| `NumberInput.DecrementDisabled` | src/components/NumberInput.tsx:39 | Whether the `-` button is disabled (value <= min). No contract of its own; `StepperEmitsNeighbour` states that `-` hands on a value exactly when it is enabled. |
| `NumberInput.Increment` | src/components/NumberInput.tsx:15-17 | The `+` handler: the value it hands on, if any. No contract of its own; `StepperEmitsNeighbour`, `StepperStaysInBounds` and `StepperInverse` state its properties. |
| `NumberInput.Decrement` | src/components/NumberInput.tsx:19-21 | The `-` handler: the value it hands on, if any. No contract of its own; `StepperEmitsNeighbour`, `StepperStaysInBounds` and `StepperInverse` state its properties. |
| `NumberInput.HandleChange` | src/components/NumberInput.tsx:23-28 | The typed-text handler: the value it hands on, if any. No contract of its own; `HandleChangeAccepts` and `HandleChangeOfIntToString` state its properties. |
| `NumberInput.StepperEmitsNeighbour` | src/components/NumberInput.tsx:15-64 | `+` hands on value + 1 exactly when value < max, `-` hands on value - 1 exactly when value > min, and otherwise they hand on nothing. Each acts exactly when its button is enabled. |
| `NumberInput.StepperStaysInBounds` | src/components/NumberInput.tsx:15-21 | From a value within [min, max], whatever `+` or `-` hands on is within [min, max]. |
| `NumberInput.StepperInverse` | src/components/NumberInput.tsx:15-21 | Within the bounds, `-` undoes `+` and `+` undoes `-`. |
| `NumberInput.HandleChangeAccepts` | src/components/NumberInput.tsx:23-28 | Typed text is handed on exactly when it reads as an integer within [min, max], and then as that integer. Unreadable text (NaN) is dropped, and so is out-of-range text. |
| `NumberInput.HandleChangeOfIntToString` | src/components/NumberInput.tsx:23-28 | Typing the decimal text of an in-range value hands on that value, and of an out-of-range value, nothing. |
| `NumberInput.HandlersStayInBounds` | src/components/NumberInput.tsx:14-28 | Given a shown value within the bounds, any value handed on by any of the three handlers is within the bounds. |
| `SettingsScreen.InitialSettings` | src/components/SettingsScreen.tsx:14-31 | The form's first settings, given the outcome of reading storage. No contract of its own; `InitialSettingsDefaults` states its properties. |
| `SettingsScreen.IsValid` | src/components/SettingsScreen.tsx:49 | The validity check over the six values. No contract of its own; `IsValidIffEveryField` states its properties. |
| `SettingsScreen.UpdateSetting` | src/components/SettingsScreen.tsx:41-43 | The update of one field. No contract of its own; `UpdateSettingGet`, `UpdateSettingKeepsValid` and `SteppersKeepSettingsValid` state its properties. |
| `SettingsScreen.HandleStart` | src/components/SettingsScreen.tsx:45-100 | The start button: the settings it hands on, if enabled. No contract of its own; `HandleStartPassesValid` states its properties. |
| `SettingsScreen.IsValidIffEveryField` | src/components/SettingsScreen.tsx:49 | The settings are valid exactly when each of the six fields is in [1, 999]. |
| `SettingsScreen.UpdateSettingGet` | src/components/SettingsScreen.tsx:41-43 | Updating a field gives it the new value and leaves the other five unchanged. |
| `SettingsScreen.UpdateSettingKeepsValid` | src/components/SettingsScreen.tsx:41-49 | Updating one field of valid settings with a value in [1, 999] keeps them valid. |
| `SettingsScreen.SteppersKeepSettingsValid` | src/components/SettingsScreen.tsx:62-95 | Whatever value a field's stepper hands to `updateSetting`, using its default bounds, valid settings stay valid. |
| `SettingsScreen.InitialSettingsDefaults` | src/components/SettingsScreen.tsx:14-31 | With nothing saved, or when loading fails, the form starts from {15, 30, 10, 5, 120, 3}, which is valid. A saved record is used as read. |
| `SettingsScreen.HandleStartPassesValid` | src/components/SettingsScreen.tsx:45-100 | The start button hands on the form's settings unchanged, and only when they are valid. Otherwise it is disabled. |

## Findings

| source | as written | input that shows it | evidently intended | confidence | as-written member | corrected member |
|---|---|---|---|---|---|---|
| src/hooks/useTimer.ts:6-13 | The state record is derived from settings only at the hook's first render (the page's default settings) and at `stop`. A run started with new settings (src/pages/Index.tsx:23-27) keeps that older preparation time. | On the first run after the page loads, the user sets preparation to 5 and presses start. The countdown starts from 15, and the progress ring shows 300%. | Each run starts its preparation countdown from its own preparation setting. | not executed; follows from React's rule that a state initialiser runs once | `TimerHook.BeginRunAsWritten`, shown by `TimerHook.StalePreparationTime` | `TimerHook.BeginRun`, proved by `TimerHook.BeginRunStartsValid`; `TimerEngine` is built from the run's own settings, and `FifteenTickRun` starts from `BeginRun` |

## Left out

- Scheduling is not modelled: `setInterval`/`clearInterval`, the effects that install and clear the
  interval, the 100 ms and 500 ms screen delays of the page, and the 1.5 s delay before `beforeNewSet`.
  `beforeNewSet` is appended right after `setEnd`, so the fact that `stop` does not cancel it is not visible.
  Nor is `pause` holding the delayed cue back, which it does not do. The order of cues also differs
  when a set rest lasts 3 s or less. With set rest 1, the source plays `setEnd`, `workStart`,
  `beforeNewSet`, while the model logs `setEnd`, `beforeNewSet`, `workStart`. With set rest 2 or 3, the
  source plays tick cues before `beforeNewSet`.
- `previousPhaseRef` and `isFirstWorkPhaseRef` are written but never read, so they have no model.
- Audio playback (`src/utils/soundManager.ts`) is not part of this model. Its sound table has no entries
  for `workStart`, `workAfterRest`, `beforeNewSet` or `tick`, so those names are silent in the running
  program. The model records which names are asked for, not whether they sound.
- Saving settings to local storage, and the read and JSON decoding, are browser I/O. `InitialSettings`
  takes the outcome of the read as a parameter. A saved record is taken as read, without validation,
  as in the source. Records with missing or non-numeric fields are not modelled.
- The progress percentage (floating point), `CircularProgress.tsx`, `CompletionScreen.tsx`, the page's
  screen routing and all markup are not modelled.
- `Decimal.ParseInt` accepts only a whole string of an optional '-' and digits. JavaScript's `parseInt`
  also skips leading blanks, accepts '+' and ignores trailing characters; those cases are not modelled.
- Settings and counters are unbounded integers. JavaScript numbers can be fractional or non-finite.
  The steppers and typed input only hand on integers, but `isValid` checks only the range. So a saved
  record with fractional values in [1, 999] would pass `isValid` and reach the hook; that case is not
  modelled.
- `TimerScreen.FormatTime` takes a non-negative number of seconds. The engine never shows a negative
  time (`ValidState` keeps it at 0 or more). JavaScript's `%` on a negative number is therefore not
  modelled.
- `TimerHook.TimerEngine.constructor`: requires every setting to be at least 1. The hook itself accepts
  any settings. The settings form only starts a run with settings in [1, 999], and the page's defaults
  are in that range too.
