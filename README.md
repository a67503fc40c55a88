# Autonomous command scheduler — Dafny model

This project models the autonomous command scheduler of an FRC robot
program. The scheduler exists in two revisions, the newer package
`frc.robot.libraries.AutoFramework` and the legacy copy in
`frc.robot.libraries`. Both are modelled.

A scheduler (`AutoCommandScheduler`) holds an array of commands
(`AutoCommandBase`). It also holds a default-command slot and two timers,
`AutoTimer` and `DefaultCommandTimer`. Its `execute` loops while the auto
timer reads below 15 seconds. Each iteration is one *pass*:

- It visits the commands in array order.
- For each command it reads the condition. It calls `TruePoll` or
  `FalsePoll` on the command's trigger mode (`WhileTrue`, `WhileFalse`,
  `OnTrue`, `OnFalse`) and calls `schedule()` on the command if the poll
  says run.
- It then polls every tag of the command on the same branch. The only tag
  is the pause-default tag (`PauseDefaultCommand` / `c_PauseDefaultCommand`).
  It empties the default slot on the first true poll of a run and restores
  what it saved on the first false poll.
- Finally it schedules every command in the default slot.

Files:

- `behaviours.dfy`: command identities, the default slot (`Null` or an
  array of identities), and the events the scheduler emits on the outer
  command framework (`schedule()`, `end(false)`, `initialize()`).
- `timing.dfy`: timers as values (running flag, elapsed milliseconds) and
  the 15 000 ms budget.
- `operation_modes.dfy`: the four trigger modes as transition functions, the
  mode object as a class with a `lock` latch, and the edge and latch
  properties.
- `pause_spec.dfy`: both revisions' pause tag as functions of the tag's
  fields and the scheduler's, with the one-shot and round-trip properties.
- `pass_model.dfy`: one pass and the budgeted loop as functions of a world.
  The world holds every mode latch, every tag, the scheduler's fields, and
  whether an exception escaped. It also has the properties of a pass and
  of the loop.
- `auto_framework.dfy` and `legacy.dfy`: the classes of each revision.
  Their methods update fields in place. Each method that changes the
  scheduler's world is proved to produce the world that the pass-model
  function computes from the old one.

How the model departs from the code, and why:

- **Mode classes.** The mode subclasses become one class, `OperationMode`,
  with a constant `kind`. The legacy `c_*` mode classes have the same
  bodies as the newer ones, so both revisions use this class.
- **Shared legacy modes.** Dafny has no static fields, so the legacy
  static mode objects become the fields of a `StaticModes` object that the
  caller creates and hands to the commands. Two commands share a latch
  exactly when they are handed the same mode object. Nothing in the model
  forces a single `StaticModes` per program, as the Java statics would.
- **Null values.** Only these nulls are modelled (null array elements
  are listed under "Left out"):
  - A never-declared condition makes the pass throw.
  - So does a null mode (legacy) and a null default slot, which the
    default loop iterates.
  - In the newer revision, `end(false)` or `initialize()` on a null saved
    value throws.
  - An exception ends the loop. It is recorded as a `thrown` flag.
- **Newer-revision type errors.** The newer revision does not type-check
  as written:
  - `condition` is a `BooleanSupplier[]`, but the scheduler calls
    `getAsBoolean()` on it.
  - `pausedDefaultCommand` is a single command, but it is assigned the
    default array.

  The model reads the condition's value on each pass as an input. It uses
  one slot type for both the default array and the tag's saved copy, and
  `end(false)` / `initialize()` act on the whole saved value as one event.

The scheduler does less than a reader might expect from its names and
comments. The model follows the code:

- **Conditions.** There is no AND-combination of conditions. The value a
  pass sees is an input.
- **No exactly-once `end`.** There is no `wasActive` flag and no
  exactly-once `end` on commands. `schedule()` is emitted on every poll
  that says run.
- **No isolation.** There is no per-command exception isolation. An
  exception aborts the whole `execute`.
- **`end` only stops timers.** `end` stops both timers and emits nothing
  on the default command.
- **Blocking loop.** The loop blocks inside `execute`. `RunPass` models
  one pass on its own.
- **Timer restart.** A restored default timer is restarted with `start()`.
  Whether WPILib's `start()` resumes or resets the elapsed time is not
  visible in this code. The model resumes.

## Model

Paths are relative to the repository root.

| member | source | states |
|---|---|---|
| OperationModes.LevelModesIgnoreHistory | src/main/java/frc/robot/libraries/AutoFramework/AutoOperationMode.java:32-47 | `WhileTrue` runs exactly when the condition is true and `WhileFalse` exactly when it is false, on every poll, whatever the latch and the history; the legacy `c_WhileTrue` / `c_WhileFalse` have the same bodies |
| OperationModes.OnTrueFiresOnRisingEdges | src/main/java/frc/robot/libraries/AutoFramework/AutoOperationMode.java:52-65 | on any condition sequence, poll i of `OnTrue` runs iff the condition is true now and was false at the previous poll (the initial latch stands for the value before the first); so a false poll never runs and re-arms the next true poll |
| OperationModes.OnTrueOncePerRun | src/main/java/frc/robot/libraries/AutoFramework/AutoOperationMode.java:52-60 | from a cleared latch, `OnTrue` runs on the first poll of every maximal run of true values and on no other poll of that run; the legacy `c_OnTrue` has the same body |
| OperationModes.OnFalseFiresOnFallingEdges | src/main/java/frc/robot/libraries/AutoFramework/AutoOperationMode.java:70-83 | the mirror of the rising-edge lemma: `OnFalse` runs iff the condition is false now and was true at the previous poll |
| OperationModes.OnFalseOncePerRun | src/main/java/frc/robot/libraries/AutoFramework/AutoOperationMode.java:70-83 | from a cleared latch, `OnFalse` runs on the first poll of every maximal run of false values and on no other poll of that run; the legacy `c_OnFalse` has the same body |
| OperationModes.EdgeLatchTracksLastCondition | src/main/java/frc/robot/libraries/AutoFramework/AutoOperationMode.java:52-83 | after any non-empty sequence of polls, the `OnTrue` latch equals the last condition value and the `OnFalse` latch its negation |
| OperationModes.OperationMode.constructor | src/main/java/frc/robot/libraries/AutoFramework/AutoOperationMode.java:52-53 | a new mode object has the chosen variant and a cleared latch |
| OperationModes.OperationMode.TruePoll | src/main/java/frc/robot/libraries/AutoFramework/AutoOperationMode.java:32-83 | the returned decision and the new latch are the variant's true-branch transition of the old latch |
| OperationModes.OperationMode.FalsePoll | src/main/java/frc/robot/libraries/AutoFramework/AutoOperationMode.java:32-83 | the returned decision and the new latch are the variant's false-branch transition of the old latch |
| OperationModes.TrueStep | src/main/java/frc/robot/libraries/AutoFramework/AutoOperationMode.java:32-83 | on a true condition `WhileTrue` always runs, `OnTrue` runs only from a clear latch and `WhileFalse` / `OnFalse` never run; level modes keep the latch, `OnTrue` sets it and `OnFalse` clears it |
| OperationModes.FalseStep | src/main/java/frc/robot/libraries/AutoFramework/AutoOperationMode.java:32-83 | on a false condition `WhileFalse` always runs, `OnFalse` runs only from a clear latch and `WhileTrue` / `OnTrue` never run; level modes keep the latch, `OnFalse` sets it and `OnTrue` clears it |
| OperationModes.PollLatch | src/main/java/frc/robot/libraries/AutoFramework/AutoCommandScheduler.java:119-133 | exactly one of the two polls is called, by the condition; it returns that branch's decision and only that mode's latch changes (the legacy loop at AutoCommandScheduler.java:83-97 is the same code) |
| Timing.PassesRunRespectBudget | src/main/java/frc/robot/libraries/AutoFramework/AutoCommandScheduler.java:112 | every loop iteration that starts finds the auto timer below 15 000 ms, and the loop stops before the supplied iterations run out only because the budget was reached |
| Timing.RunningAutoTimerEnds | src/main/java/frc/robot/libraries/AutoFramework/AutoCommandScheduler.java:103-112 | with the auto timer running and at least 1 ms per iteration, at most the remaining budget's worth of iterations start |
| Timing.StoppedAutoTimerNeverEnds | src/main/java/frc/robot/libraries/AutoCommandScheduler.java:16-76 | a stopped auto timer below the budget never ends the legacy loop: every supplied iteration starts (nothing in the legacy scheduler starts the timer) |
| Behaviours.Schedules | src/main/java/frc/robot/libraries/AutoFramework/AutoCommandScheduler.java:143-145 | one `schedule()` per default command, in array order |
| PauseSpec.TagPoll | src/main/java/frc/robot/libraries/AutoFramework/AutoOperationMode.java:123-164 | a tag poll never touches the auto timer and only appends to the event log; a legacy tag poll never throws and emits nothing |
| PauseSpec.PauseTrue | src/main/java/frc/robot/libraries/AutoFramework/AutoOperationMode.java:124-144 | the true poll clears `flock` and throws exactly when it is not latched and the slot is null; otherwise it sets `tlock`; unlatched and not throwing, it saves the slot, installs the placeholder, stops the default timer and emits `end(false)` on the saved value; latched, the scheduler is untouched |
| PauseSpec.PauseFalse | src/main/java/frc/robot/libraries/AutoFramework/AutoOperationMode.java:147-164 | the false poll clears `tlock`, keeps the saved value, and throws exactly when it is not latched and the saved value is null; unlatched, it writes the saved value back into the slot, and if it does not throw it restarts the default timer and emits `initialize()` on that value; latched, the scheduler is untouched |
| PauseSpec.LegacyPauseTrue | src/main/java/frc/robot/libraries/AutoOperationMode.java:97-114 | the legacy true poll never throws or emits, sets `tlock` and clears `flock`; unlatched, it saves the slot, installs the empty array and stops the default timer; latched, the scheduler is untouched |
| PauseSpec.LegacyPauseFalse | src/main/java/frc/robot/libraries/AutoOperationMode.java:117-131 | the legacy false poll never throws or emits, clears `tlock` and sets `flock`; unlatched, it writes the saved array (possibly null) back and restarts the default timer; latched, the scheduler is untouched |
| PauseSpec.PauseInstallsPausedDefaults | src/main/java/frc/robot/libraries/AutoFramework/AutoOperationMode.java:124-144 | an unlatched true poll throws exactly in the newer revision on a null slot; otherwise it latches, saves the old slot and leaves the paused defaults (the placeholder, or, in the legacy revision, the empty array that `setDefaultCommand()` with no arguments installs) in the slot with the default timer stopped |
| PauseSpec.PollIsIdempotent | src/main/java/frc/robot/libraries/AutoFramework/AutoOperationMode.java:124-164 | a second poll on the same branch after one that did not throw changes nothing |
| PauseSpec.RepeatedPollsActOnce | src/main/java/frc/robot/libraries/AutoFramework/AutoOperationMode.java:124-164 | any number of polls on the same branch act exactly as the first one does (both revisions) |
| PauseSpec.PauseRoundTrip | src/main/java/frc/robot/libraries/AutoFramework/AutoOperationMode.java:124-164 | k >= 1 true polls then one false poll restore exactly the slot value held before, leave the default timer running, and emit `end(false)` then `initialize()` on that value (legacy: nothing) |
| PauseSpec.PauseOnNullThrows | src/main/java/frc/robot/libraries/AutoFramework/AutoOperationMode.java:131-134 | pausing while the slot holds null saves null and throws from `end(false)` with both latches clear |
| PauseSpec.RestoreWithoutPause | src/main/java/frc/robot/libraries/AutoFramework/AutoOperationMode.java:104-163 | the first false poll after construction restores the value the constructor captured and emits `initialize()` on it, although nothing was paused |
| PauseSpec.LegacyRestoreWithoutPauseWritesNull | src/main/java/frc/robot/libraries/AutoOperationMode.java:90-129 | a legacy false poll before any true poll writes null into the default slot |
| PassModel.TagStep | src/main/java/frc/robot/libraries/AutoFramework/AutoCommandScheduler.java:126-138 | one tag poll leaves every mode latch and the auto timer alone, never undoes an exception and only appends to the trace |
| PassModel.TagsStep | src/main/java/frc/robot/libraries/AutoFramework/AutoCommandScheduler.java:126-138 | the tag loop, stopped by an exception, leaves every mode latch and the auto timer alone and only appends to the trace |
| PassModel.CommandStep | src/main/java/frc/robot/libraries/AutoFramework/AutoCommandScheduler.java:119-139 | a command with no condition or no mode throws and changes nothing else; otherwise exactly its mode's latch moves, by the branch's transition from its old value |
| PassModel.CommandsStep | src/main/java/frc/robot/libraries/AutoFramework/AutoCommandScheduler.java:114-140 | the command loop never touches the auto timer, only appends to the trace and, once an exception escapes, changes nothing |
| PassModel.ScheduleDefaults | src/main/java/frc/robot/libraries/AutoFramework/AutoCommandScheduler.java:143-145 | the default loop leaves latches, tags and the slot alone and throws exactly on a null slot |
| PassModel.Pass | src/main/java/frc/robot/libraries/AutoFramework/AutoCommandScheduler.java:114-145 | a pass never touches the auto timer, only appends to the trace and changes nothing after an exception |
| PassModel.Run | src/main/java/frc/robot/libraries/AutoFramework/AutoCommandScheduler.java:109-147 | the loop starts at most the supplied passes, only appends to the trace, and does nothing when an exception has already escaped |
| PassModel.RunStops | src/main/java/frc/robot/libraries/AutoFramework/AutoCommandScheduler.java:112 | with no input left, an exception escaped or the auto timer at 15 000 ms, the loop starts no pass and changes nothing |
| PassModel.PollMode | src/main/java/frc/robot/libraries/AutoFramework/AutoCommandScheduler.java:119-133 | with a declared condition and a mode, only the command's own latch moves, by the branch's transition, and `schedule()` is appended iff that poll ran; tags, slot and default timer are untouched |
| PassModel.DefaultsComeLast | src/main/java/frc/robot/libraries/AutoFramework/AutoCommandScheduler.java:142-145 | a pass that does not throw appends, after everything the commands emitted, exactly one `schedule()` per entry of the slot as the tags left it in that same pass |
| PassModel.PauseTakesEffectInSamePass | src/main/java/frc/robot/libraries/AutoFramework/AutoCommandScheduler.java:114-145 | for any commands before and after: when a command whose tag is unlatched sees a true condition, it emits its `schedule()` if its mode ran, then `end(false)` on the old default (newer revision); later commands whose tags have already acted on their branch emit only `schedule()` events; and the same pass ends with the placeholder (newer) or the empty array (legacy) in the slot, the default timer stopped, and schedules only those paused defaults |
| PassModel.PausingCommand | src/main/java/frc/robot/libraries/AutoFramework/AutoCommandScheduler.java:119-138 | the single command whose tag pauses: its `schedule()` if the mode ran, then `end(false)` on the old default (newer revision), and the paused defaults left in the slot with the default timer stopped |
| PassModel.SettledCommandsOnlySchedule | src/main/java/frc/robot/libraries/AutoFramework/AutoCommandScheduler.java:114-140 | commands with conditions and modes whose tags have all already acted on their branch do not throw, leave tags, slot and default timer unchanged, and append only `schedule()` events |
| PassModel.LatchedTagsAreIdle | src/main/java/frc/robot/libraries/AutoFramework/AutoOperationMode.java:124-164 | polling tags that have already acted on that branch changes nothing |
| PassModel.LegacyRestoreBeforePauseThrows | src/main/java/frc/robot/libraries/AutoCommandScheduler.java:78-109 | for any commands before and after: a fresh legacy tag polled false writes null into the slot without throwing, later commands whose tags have already acted leave it null, and the same pass then throws when it iterates the defaults |
| PassModel.LegacyRestoringCommand | src/main/java/frc/robot/libraries/AutoCommandScheduler.java:93-102 | a legacy command whose fresh tag is polled false does not throw and leaves null in the slot |
| PassModel.TagsIgnoreModeDecision | src/main/java/frc/robot/libraries/AutoFramework/AutoCommandScheduler.java:125-138 | a command's tags leave the same tags, slot and default timer whatever its mode decided |
| PassModel.TagsStepIgnoresLocksAndTrace | src/main/java/frc/robot/libraries/AutoCommandScheduler.java:89-102 | what tags do depends only on the tags, the slot, the default timer and whether an exception escaped |
| PassModel.EachModePolledOnce | src/main/java/frc/robot/libraries/AutoFramework/AutoCommandScheduler.java:114-140 | with its own mode per command, tagged or not, a command loop that does not throw polls each mode once on its condition's branch from its pre-pass latch; the `schedule()` events it emits are exactly those of the commands whose poll ran, in array order; every other latch is unchanged; the legacy loop is the same code |
| PassModel.TagsStepSchedulesNothing | src/main/java/frc/robot/libraries/AutoFramework/AutoCommandScheduler.java:126-138 | tag polls emit no `schedule()` event |
| PassModel.CommandStepSchedulesOnPoll | src/main/java/frc/robot/libraries/AutoFramework/AutoCommandScheduler.java:119-139 | a command with a condition and a mode moves only its own latch and emits exactly one `schedule()` if its poll ran and none otherwise, whatever its tags emit |
| PassModel.SharedEdgeModeFiresOnce | src/main/java/frc/robot/libraries/AutoCommandBase.java:25-34 | two legacy commands sharing the static `onTrue` object, both true, get one `schedule()` between them |
| PassModel.SeparateEdgeModesFireEach | src/main/java/frc/robot/libraries/AutoFramework/AutoCommandScheduler.java:114-123 | with an `OnTrue` object each, the same two commands are both scheduled, in array order |
| PassModel.RunFollowsAutoTimer | src/main/java/frc/robot/libraries/AutoFramework/AutoCommandScheduler.java:109-147 | unless an exception ends the loop, it starts exactly the passes the auto timer allows; once the timer reads at least 15 000 ms no pass starts and nothing changes |
| PassModel.PausedDefaultTimerHolds | src/main/java/frc/robot/libraries/AutoFramework/AutoOperationMode.java:139-160 | while every tagged command's condition stays true, a stopped default timer stays frozen through the whole loop, however much time passes (only a false tag poll restarts it) |
| PassModel.TrueTagsKeepStoppedTimer | src/main/java/frc/robot/libraries/AutoFramework/AutoOperationMode.java:124-144 | true tag polls never restart a stopped default timer |
| PassModel.CommandsKeepStoppedTimer | src/main/java/frc/robot/libraries/AutoFramework/AutoCommandScheduler.java:114-140 | a command loop in which every tagged command sees a true condition never restarts a stopped default timer |
| AutoFramework.PauseDefaultCommand.constructor | src/main/java/frc/robot/libraries/AutoFramework/AutoOperationMode.java:104-121 | the tag is bound to the scheduler, both latches are clear, and it saves the scheduler's current default |
| AutoFramework.PauseDefaultCommand.TruePoll | src/main/java/frc/robot/libraries/AutoFramework/AutoOperationMode.java:124-144 | the tag's and scheduler's new fields and the exception are the pause transition of their old values |
| AutoFramework.PauseDefaultCommand.FalsePoll | src/main/java/frc/robot/libraries/AutoFramework/AutoOperationMode.java:147-164 | the tag's and scheduler's new fields and the exception are the restore transition of their old values |
| AutoFramework.AutoCommandBase.constructor | src/main/java/frc/robot/libraries/AutoFramework/AutoCommandBase.java:20-84 | no parent, no condition, a fresh `WhileTrue` mode with a clear latch, an empty tag list, `endLock` true |
| AutoFramework.AutoCommandBase.DeclareCondition | src/main/java/frc/robot/libraries/AutoFramework/AutoCommandBase.java:37-41 | the condition becomes exactly the given suppliers and nothing else changes; returns this |
| AutoFramework.AutoCommandBase.DeclareOperationMode | src/main/java/frc/robot/libraries/AutoFramework/AutoCommandBase.java:54-58 | the mode becomes the given one and nothing else changes; returns this |
| AutoFramework.AutoCommandBase.DeclareOperationTag | src/main/java/frc/robot/libraries/AutoFramework/AutoCommandBase.java:68-77 | the tag list becomes exactly the arguments in order, whatever it held before (so declaring twice equals declaring once); returns this |
| AutoFramework.AutoCommandScheduler.AutoTimePassed | src/main/java/frc/robot/libraries/AutoFramework/AutoCommandScheduler.java:37-39 | true iff the auto timer reads at least the threshold |
| AutoFramework.AutoCommandScheduler.DefaultTimePassed | src/main/java/frc/robot/libraries/AutoFramework/AutoCommandScheduler.java:45-47 | true iff the default timer reads at least the threshold |
| AutoFramework.AutoCommandScheduler.constructor | src/main/java/frc/robot/libraries/AutoFramework/AutoCommandScheduler.java:16-57 | both timers new, no default, the commands stored and each told this is its parent |
| AutoFramework.AutoCommandScheduler.SetCommands | src/main/java/frc/robot/libraries/AutoFramework/AutoCommandScheduler.java:65-76 | replaces the command array, sets every listed command's parent to this scheduler, returns this |
| AutoFramework.AutoCommandScheduler.SetDefaultCommand | src/main/java/frc/robot/libraries/AutoFramework/AutoCommandScheduler.java:88-99 | `GetDefaultCommand()` afterwards returns exactly the value passed; returns this |
| AutoFramework.AutoCommandScheduler.Initialize | src/main/java/frc/robot/libraries/AutoFramework/AutoCommandScheduler.java:103-106 | both timers are started |
| AutoFramework.AutoCommandScheduler.End | src/main/java/frc/robot/libraries/AutoFramework/AutoCommandScheduler.java:151-154 | both timers are stopped and no event is emitted |
| AutoFramework.AutoCommandScheduler.ScheduleDefaultCommands | src/main/java/frc/robot/libraries/AutoFramework/AutoCommandScheduler.java:143-145 | the loop emits `schedule()` on the slot's entries in order, or throws on a null slot, as the pass model's last step says |
| AutoFramework.AutoCommandScheduler.PollTag | src/main/java/frc/robot/libraries/AutoFramework/AutoCommandScheduler.java:126-138 | polling one tag in place yields the pass model's tag step |
| AutoFramework.AutoCommandScheduler.PollTags | src/main/java/frc/robot/libraries/AutoFramework/AutoCommandScheduler.java:126-138 | the tag loop, which stops at an exception, yields the pass model's tag sequence step |
| AutoFramework.AutoCommandScheduler.PollModeOf | src/main/java/frc/robot/libraries/AutoFramework/AutoCommandScheduler.java:119-133 | reading the condition, polling the mode and scheduling yields `PollMode` of the old world |
| AutoFramework.AutoCommandScheduler.PollCommand | src/main/java/frc/robot/libraries/AutoFramework/AutoCommandScheduler.java:119-139 | one command's mode then tags yields the pass model's command step |
| AutoFramework.AutoCommandScheduler.PollCommands | src/main/java/frc/robot/libraries/AutoFramework/AutoCommandScheduler.java:114-140 | the `for` loop over the commands yields the pass model's commands step |
| AutoFramework.AutoCommandScheduler.PassOn | src/main/java/frc/robot/libraries/AutoFramework/AutoCommandScheduler.java:114-145 | one iteration of the `while` body yields `Pass` of the old world |
| AutoFramework.AutoCommandScheduler.Elapse | src/main/java/frc/robot/libraries/AutoFramework/AutoCommandScheduler.java:16-21 | each timer counts the elapsed time exactly when it is running |
| AutoFramework.AutoCommandScheduler.PassThenElapse | src/main/java/frc/robot/libraries/AutoFramework/AutoCommandScheduler.java:112-146 | a pass, then (if it did not throw) the time before the next test |
| AutoFramework.AutoCommandScheduler.RunOn | src/main/java/frc/robot/libraries/AutoFramework/AutoCommandScheduler.java:109-147 | the `while` loop ends in the world `Run` computes, after the number of passes it counts |
| AutoFramework.AutoCommandScheduler.RunPass | src/main/java/frc/robot/libraries/AutoFramework/AutoCommandScheduler.java:114-145 | one pass over the scheduler's own commands yields `Pass` of the old world |
| AutoFramework.AutoCommandScheduler.Execute | src/main/java/frc/robot/libraries/AutoFramework/AutoCommandScheduler.java:109-147 | `execute` over the scheduler's own commands ends in `Run` of the old world |
| Legacy.StaticModes.constructor | src/main/java/frc/robot/libraries/AutoCommandBase.java:25-34 | four distinct mode objects, one per variant, edge latches clear |
| Legacy.PauseDefaultCommand.constructor | src/main/java/frc/robot/libraries/AutoOperationMode.java:86-94 | the tag is bound to its command, both latches are clear and the saved array is null |
| Legacy.PauseDefaultCommand.TruePoll | src/main/java/frc/robot/libraries/AutoOperationMode.java:97-114 | the tag's and the parent scheduler's new fields are the legacy pause transition of their old values |
| Legacy.PauseDefaultCommand.FalsePoll | src/main/java/frc/robot/libraries/AutoOperationMode.java:117-131 | the tag's and the parent scheduler's new fields are the legacy restore transition of their old values |
| Legacy.AutoCommandBase.constructor | src/main/java/frc/robot/libraries/AutoCommandBase.java:20-43 | no parent, a fresh pause tag bound to this command, null condition, null mode, empty tag list |
| Legacy.AutoCommandBase.DeclareCondition | src/main/java/frc/robot/libraries/AutoCommandBase.java:54-58 | the condition becomes the given supplier and nothing else changes; returns this |
| Legacy.AutoCommandBase.DeclareOperationMode | src/main/java/frc/robot/libraries/AutoCommandBase.java:71-75 | the mode becomes the given one (possibly a shared static) and nothing else changes; returns this |
| Legacy.AutoCommandScheduler.constructor | src/main/java/frc/robot/libraries/AutoCommandScheduler.java:16-47 | both timers new, no default, the commands stored and each told this is its parent |
| Legacy.AutoCommandScheduler.SetDefaultCommand | src/main/java/frc/robot/libraries/AutoCommandScheduler.java:59-70 | `GetDefaultCommand()` afterwards returns exactly the value passed; returns this |
| Legacy.AutoCommandScheduler.ScheduleDefaultCommands | src/main/java/frc/robot/libraries/AutoCommandScheduler.java:107-109 | the loop emits `schedule()` on the slot's entries in order, or throws on a null slot |
| Legacy.AutoCommandScheduler.PollTag | src/main/java/frc/robot/libraries/AutoCommandScheduler.java:90-102 | polling one tag in place yields the pass model's legacy tag step |
| Legacy.AutoCommandScheduler.PollTags | src/main/java/frc/robot/libraries/AutoCommandScheduler.java:89-102 | the tag loop yields the pass model's legacy tag sequence step |
| Legacy.AutoCommandScheduler.PollModeOf | src/main/java/frc/robot/libraries/AutoCommandScheduler.java:83-97 | reading the condition, polling the (possibly shared, possibly null) mode and scheduling yields `PollMode` of the old world |
| Legacy.AutoCommandScheduler.PollCommand | src/main/java/frc/robot/libraries/AutoCommandScheduler.java:83-103 | one command's mode then tags yields the pass model's command step |
| Legacy.AutoCommandScheduler.PollCommands | src/main/java/frc/robot/libraries/AutoCommandScheduler.java:78-104 | the `for` loop over the commands yields the pass model's commands step |
| Legacy.AutoCommandScheduler.PassOn | src/main/java/frc/robot/libraries/AutoCommandScheduler.java:78-109 | one iteration of the `while` body yields `Pass` of the old world |
| Legacy.AutoCommandScheduler.Elapse | src/main/java/frc/robot/libraries/AutoCommandScheduler.java:16-21 | each timer counts the elapsed time exactly when it is running |
| Legacy.AutoCommandScheduler.PassThenElapse | src/main/java/frc/robot/libraries/AutoCommandScheduler.java:76-110 | a pass, then (if it did not throw) the time before the next test |
| Legacy.AutoCommandScheduler.RunOn | src/main/java/frc/robot/libraries/AutoCommandScheduler.java:73-111 | the `while` loop ends in the world `Run` computes, after the number of passes it counts |
| Legacy.AutoCommandScheduler.RunPass | src/main/java/frc/robot/libraries/AutoCommandScheduler.java:78-109 | one pass over the scheduler's own commands yields `Pass` of the old world |
| Legacy.AutoCommandScheduler.Execute | src/main/java/frc/robot/libraries/AutoCommandScheduler.java:73-111 | `execute` over the scheduler's own commands ends in `Run` of the old world |

## Left out

- **Timers.** WPILib `Timer` is modelled as whole milliseconds plus a
  running flag. `start()` resumes the count; whether the library resets it
  is not visible here. Wall-clock time is a caller-supplied `dt` after each
  pass.
- **Condition values.** What a `BooleanSupplier` reads is outside the
  model. Each command's condition value on each pass is an input.
- **Length of `execute`.** `execute` is modelled over a finite,
  caller-supplied sequence of passes. If that sequence runs out, the model
  stops while the Java loop would go on.
- **Outer framework calls.** `schedule()`, `end(false)` and `initialize()`
  are calls into the outer WPILib command scheduler. They are recorded as
  trace events. What those commands then do is not modelled.
- **Exceptions.** A `NullPointerException` is a `thrown` flag that stops
  the loop. Nothing after the throwing statement runs.
- **`InstantAutoCommand`.** It is the distinguished identity `Instant`.
  Its only behaviour, finishing at once, belongs to the outer framework.
- **Tag binding.** A newer-revision tag acts on the scheduler it was
  built with, and a legacy tag on its command's parent. The pass methods
  require that scheduler to be the one running the pass. A tag bound to
  another scheduler, which would change that scheduler's slot, is not
  modelled.
- **Worlds for unlisted modes and tags.** The pass model reads a mode
  absent from the world as a cleared latch and a tag absent from it as a
  clear tag. The class methods always list every mode and tag their
  commands use, so these defaults are never read there.
- **`endLock`.** It is declared and initialised but never used, so it is
  only a constructor field.
- **Legacy lifecycle.** The legacy scheduler has no `initialize`, `end`,
  `setCommands`, `autoTimePassed` or `defaultTimePassed`, so none is
  modelled for it.
- **Legacy `parentScheduler`.** A legacy command without a parent would
  throw from its tag. Such a command is excluded by requiring every polled
  tag's command to have this scheduler as its parent.
- **Null array elements.** Commands, default entries and tags are
  identities or object references that are never null. So the model does
  not express:
  - a null command in `setCommands` (src/main/java/frc/robot/libraries/AutoFramework/AutoCommandScheduler.java:70-72)
    or in the legacy constructor (src/main/java/frc/robot/libraries/AutoCommandScheduler.java:43-45), which
    would throw when its parent is set;
  - a null entry of the default array (src/main/java/frc/robot/libraries/AutoFramework/AutoCommandScheduler.java:143-145;
    src/main/java/frc/robot/libraries/AutoCommandScheduler.java:107-109 in the legacy revision), which would throw from `schedule()`;
  - a null tag in `operationTagArr` (src/main/java/frc/robot/libraries/AutoFramework/AutoCommandScheduler.java:126-128
    and 136-138), which would throw from its poll.
- **Peripheral code.** These files are not part of this model:
  - `RobotContainer.java`, including its commented-out pause scenario;
  - the example commands;
  - `MacroCANSparkMax.java` and `MacroCANSparkMaxGroup.java`, which do
    file I/O and drive motor hardware.
