# A supervised motion controller, modelled and proved in Dafny

The system drives one axis through a motor, under a safety supervisor, on an RTOS. A Motion task samples
the encoder, takes commands, runs a PID position loop or a homing sequence, and publishes what it did. A
Safety task evaluates inputs, task health and motion evidence, latches faults, and opens or closes the gate
in front of the motor. A Communications task turns received bytes into commands. A simulated plant closes
the loop.

Modules follow the source files, except that `motion.dfy` joins the motion controller with homing, which
share a record, and `safety.dfy` the safety manager with the fault manager it owns. Values are datatypes;
objects that the firmware updates in place are classes, and every method of a class is proved to compute a
function of the old state. What the system promises is then proved about those functions, over all inputs,
runs and interleavings.

| file | contents |
|---|---|
| `words.dfy` | 32-bit words, timer differences, float arguments |
| `motor.dfy` | the motor gate: request, inhibit latch, directional guard |
| `encoder.dfy` | the wrapping counter, its reference, wrapped deltas |
| `pid.dfy` | the PID loop |
| `motion.dfy`, `motion_rules.dfy`, `motion_runs.dfy` | the position controller and homing; their rules, spelled out; independence of the past |
| `safety.dfy`, `safety_rules.dfy`, `safety_runs.dfy` | the safety policy; its rules, spelled out; latches, reset and the no-motion fault over histories |
| `runtime.dfy` | the runtime as a transition system, one step for each critical section |
| `runtime_safety.dfy` | the invariant of every interleaving, and what it says about the drive |
| `runtime_runs.dfy` | latches, reset, reference and contact allowance over runs |
| `runtime_moves.dfy` | accounting for accepted moves |
| `runtime_completion.dfy` | when a move completes, over every run from its acceptance on |
| `runtime_commands.dfy` | which commands are accepted, and what they do; targets and STOP over runs |
| `runtime_samples.dfy` | what moves and updates go by, in terms of the encoder and of true time |
| `runtime_stopping.dfy` | when a STOP has come to its end, over every run |
| `runtime_switch.dfy` | on the switch after HOME: the closed gate, and the departure |
| `runtime_jams.dfy` | lost motion, answered in time over every run |
| `runtime_history.dfy` | every run as a history of the supervisor; the no-motion fault and its recovery over runs |
| `runtime_response.dfy` | bounded response to silent tasks, E-stop and limits |
| `runtime_homing.dfy`, `runtime_attempts.dfy` | the HOME deadline; the record of an attempt |
| `runtime_adapter.dfy` | the adapter and the task bodies, imperatively, against the transition system |
| `uart.dfy`, `command.dfy`, `pipeline.dfy` | bytes to frames, frames to commands, commands to Motion |
| `format.dfy` | the bounded text writer and its numbers |
| `plant.dfy`, `homing_trajectory.dfy`, `closed_loop.dfy` | the plant, its homing trajectory, and HOME in closed loop |
| `startup.dfy` | runs from power-up to an accepted HOME while the plant rests or coasts, so that what is said of reachable states is said of something |
| `homing_failures.dfy` | the two ways in which HOME fails, each shown in a reachable state |
| `move_overshoot.dfy` | the default position loop on the plant: how little it overshoots, and HOME after a move |
| `findings.dfy` | runs from power-up that show the other findings below |

How the modelling is done:

* Every update of shared state happens inside a critical section of the firmware, so each critical section
  is one atomic step of `RuntimeModel.Step`: a Safety cycle, a Motion sample, a Motion synchronisation, one
  command, a control update with publication, a heartbeat. Environment steps let time pass, change inputs
  and the raw count, and issue arbitrary stale motor requests. Any order is a run.
* Motion keeps a private record that lags behind the published one, as in the firmware.
* `uint32_t` values are integers modulo 2^32 with the wrapping written out. Properties of time are stated
  against an unbounded clock, which no code reads; it is one of the history variables in `Aux`.
* Floats are real numbers, with a separate non-finite case where the firmware tests for it.
* Properties of inputs are stated over the inputs the supervisor last evaluated, or with its period as a bound.

Findings, each proved:

* The HOME deadline is judged on a time captured at the start of the Motion cycle, but HOME takes its start
  time when the command is taken. If the clock moves in between, the first update sees a huge age and times
  out. `RuntimeHoming.VerdictIsRightIffCapturedAfter` gives the exact condition, and
  `HomingFailures.TickBeforeHomeTimesOut` a run from power-up in which one millisecond is enough. With HOME
  accepted at the captured time the deadline is exact, over runs of any length (`RuntimeHoming.DeadlineOverRuns`).
* Tasks that have been silent for a whole timer wrap look fresh again, and the watchdog is refreshed for them, in
  reachable states (`Findings.SilentForAWrapRefreshes`, `Findings.RefreshIsReached`).
* A RESET that is accepted in the very Motion cycle in which Safety has latched forgets a HOME: the axis is
  idle, and the published record says that a HOME is running (`Findings.ResetForgetsHome`, from power-up). It
  is the only step that makes the record inaccurate (`RuntimeAttempts.RecordIsAccurate`).
* On the default plant HOME beats its deadline from every position and velocity from which the plant, on
  its way out, does not run into the positive stop. `ClosedLoop.HomeIsSafeExactly` shows that this condition
  is exact, and `ClosedLoop.ClearanceSuffices` bounds it. `HomingFailures.OutboundHomeFails` runs the closed
  loop from power-up, with the plant coasting towards the stop, to the latch. That start is admissible, and
  some duties bring the plant there (`HomingFailures.OutboundIsAttained`), but no default move leaves it
  (`MoveOvershoot.OutboundIsNoMove`): after a move whose start and target are 7 counts short of the stop,
  cut at any moment, HOME always goes through (`MoveOvershoot.HomeIsSafeAfterAMove`).
* A move that is accepted inside its band completes one sample early: the update of the accepting
  cycle judges the sample from before the command, and counts (`RuntimeCompletion.CompletionIsExact`; a run
  from power-up is `Findings.FirstUpdateNeedsNoSample`).
* A line feed after a carriage return is absorbed even when bytes with line errors came between them. It then
  ends nothing, so the errors cost the line behind it (`UartFraming.ErrorBeforeLf`,
  `UartFraming.SpoiledLineIsLost`); before a second carriage return they would not (`UartFraming.ErrorBeforeCr`).

## Model

| member | source | states |
|---|---|---|
| MotorGate.Motor.SetOutput | firmware/platform/host/motor_host.c:20-36 | a request is saturated, recorded, and applied only if neither the latch nor the guard blocks it; the result code in every case |
| MotorGate.Motor.Inhibit | firmware/platform/host/motor_host.c:44-50 | asserting or releasing the latch zeroes the output |
| MotorGate.Motor.BlockNegative | firmware/platform/host/motor_host.c:51-57 | the guard is set, and a negative output is removed when it is asserted |
| MotorGate.LatchesFollowHistory | firmware/platform/host/motor_host.c:44-57 | over every sequence of calls the latch and the guard are the last ones asked for, and the gate is sound |
| MotorGate.OutputIsTheLiveRequest | firmware/platform/host/motor_host.c:20-57 | over every sequence of calls the output is nonzero exactly if the history holds a request that nothing has withdrawn, latched or blocked since, and is then that request saturated |
| Encoders.ReferenceRoundTrip | firmware/platform/host/encoder_host.c:15-34 | referencing makes the present position read as asked, and later readings are that plus the raw displacement, modulo 2^32 |
| Encoders.OffsetCancels | firmware/platform/host/encoder_host.c:15-34 | the reference offset cancels out of every difference of two readings |
| Encoders.DeltaIsDisplacement | firmware/control/motion_controller.c:49-56 | the wrapped delta of two samples is the true displacement whenever that is below half the range |
| Encoders.OnlyHalfRangeIsAmbiguous | firmware/control/motion_controller.c:50-51 | the rejected half-range delta is the only one that two displacements of at most half the range share |
| Encoders.DeltasTelescope | firmware/control/motion_controller.c:49-58 | along every true trajectory the deltas add up to the total displacement, across any number of wraps |
| PidControl.PidController.Update | firmware/control/pid.c:22-40 | one update: derivative on measurement, clamped integral, clamped output; unusable input changes nothing |
| PidControl.RunStaysBounded | firmware/control/pid.c:26-36 | over every run the integral stays in its clamp and every output in its range |
| PidControl.LargerTargetsGiveLargerOutputs | firmware/control/pid.c:26-36 | pointwise larger targets with the same measurements give no smaller integral and no smaller output |
| PidControl.UnwindsInTime | firmware/control/pid.c:28-36 | under errors of at most -e with steps of at least d the integral is at its lower bound after (max - min) / (ki e d) updates, rounded up |
| PidControl.LoopIsTextbook | firmware/control/pid.c:22-40 | over every run that does not meet the clamp of the integral, the output is the textbook sum of error, accumulated error and speed of the measurement, saturated |
| PidControl.FirstOutputHasNoKick | firmware/control/pid.c:22-40 | the first update of a run goes by error and accumulated error alone |
| MotionControl.Controller.Sample | firmware/control/motion_controller.c:43-64 | a sample: position, wrapped velocity, error; or a failure that stops the drive and distrusts the feedback |
| MotionControl.Controller.Take | firmware/control/motion_controller.c:65-89 | STOP and the two moves, each refusal in its order, and the fresh start of an accepted move |
| MotionControl.Controller.Update | firmware/control/motion_controller.c:90-114 | dwell, completion and drive of one update |
| MotionControl.Controller.HomingBegin | firmware/control/homing.c:12-22 | an accepted HOME clears the control and starts its clock |
| MotionControl.Controller.HomingAbort | firmware/control/homing.c:23-27 | the control is cleared, and a running attempt gets its result |
| MotionControl.Controller.HomingUpdate | firmware/control/homing.c:28-50 | timeout before switch before drive; contact references the encoder at zero |
| RuntimeCompletion.SuffixIsMaximal | firmware/control/motion_controller.c:96-98 | the dwell count is compared with the length of the longest in-band run that ends at the last update |
| RuntimeCompletion.CounterIsTheSuffix | firmware/control/motion_controller.c:95-98 | while a move is under way its counter is the length of the in-band run of updates since acceptance, whatever other steps come between |
| RuntimeCompletion.CompletionIsExact | firmware/control/motion_controller.c:95-104 | over every run from the acceptance of a move on, a step completes it if and only if it is an update that gets as far as the dwell test and the last dwell updates since acceptance, that of the accepting cycle included, were all in the band |
| Findings.FirstUpdateNeedsNoSample | firmware/tasks/motion_task.c:41-82 | a run from power-up in which the first update of a move counts as in band before any sample is taken |
| RuntimeCompletion.UpdateJudgesTheEncoder | firmware/tasks/motion_task.c:37-82 | what an update judges is the count the encoder showed at the sample of its cycle, and the wrapped difference of two successive samples over the time between them |
| RuntimeSamples.CycleTimeIsTrue | firmware/tasks/motion_task.c:37-39 | the gap a cycle goes by is the true time since the cycle before, modulo 2^32 ms |
| RuntimeSamples.BandIsTheEncoder | firmware/control/motion_controller.c:96-97 | an update is in the band exactly if the encoder showed a count within the tolerance of the target on either side, and had moved since the sample before by no more than the completion velocity times the true time, in either direction |
| RuntimeSamples.CompletionInWords | firmware/control/motion_controller.c:95-104 | a step completes a move exactly if it is a tested update, and at it and at each of the dwell - 1 updates before it since acceptance the error and the velocity were within their bounds on both sides |
| RuntimeSamples.FirstSampleAfterHome | firmware/control/homing.c:39-41 | over every run the first good sample after a completed HOME reports a velocity of zero |
| RuntimeSamples.MovesGoWhereTheySay | firmware/control/motion_controller.c:77-79 | an accepted MOVE goes to the target it names, an accepted MOVE_REL to the count that the encoder showed at the sample of its cycle plus the distance it names, and the target stays for as long as the move is under way |
| RuntimeStopping.StopEndsExactly | firmware/control/motion_controller.c:95-103 | over every run from a STOP on, an update makes the axis idle exactly if it is a tested one and ends a dwell of updates that were slow in either direction, position and target playing no part |
| MotionRules.SampleFailsExactly | firmware/control/motion_controller.c:43-64 | a sample is good exactly if the step is more than 0 and at most 1 s, the encoder ready and the jump not half the range; otherwise the controller gives up: idle, off, nothing remembered, feedback not trusted |
| MotionRules.VelocityIsTrue | firmware/control/motion_controller.c:49-58 | under every reference the velocity is the true displacement since the last sample over the time of the step |
| MotionRules.UpdateDrivesExactly | firmware/control/motion_controller.c:90-114 | a move that is not complete is driven by the output of its loop, in gate and record alike, exactly if feedback and step are usable and the gate does not refuse; otherwise the controller gives up |
| MotionRules.HomingUpdateDecides | firmware/control/homing.c:28-50 | what a homing update decides on every axis, case by case: hazard, deadline of 40000 ms, switch, drive at -0.30 |
| MotionRuns.NoLeakageBetweenMoves | firmware/control/motion_controller.c:76-113 | controllers with any different pasts that agree at acceptance give the same drive, dwell and completions for every later sequence of operations |
| SafetyPolicy.SafetyManager.RaiseFault | firmware/safety/fault_manager.c:2-7 | the first fault is the one retained |
| SafetyPolicy.SafetyManager.Evaluate | firmware/safety/safety_manager.c:22-57 | the ordered steps of an evaluation compute one table of conditions: state, retained fault, contact, suspicion, recovery |
| SafetyRules.SuspicionIsExact | firmware/safety/safety_manager.c:42-52 | an evaluation suspects a jam exactly if nothing else latches and a move, or a HOME off the switch, is driven at 0.3 or more either way on trusted feedback of at most 25 counts a second either way; one condition that fails ends the suspicion |
| SafetyRules.StaysUnlatchedExactly | firmware/safety/safety_manager.c:24-52 | an evaluation latches nothing exactly if inputs and tasks are good, contact is in order (sought by HOME; rested on, or left with a target ahead and no drive backwards, under the allowance), and no jam is 500 ms old |
| SafetyRules.LatchesInOrder | firmware/safety/safety_manager.c:24-51 | which latch and which fault it is otherwise |
| SafetyRules.AllowanceSurvivesExactly | firmware/safety/safety_manager.c:30-36 | the allowance survives an evaluation exactly if the switch is still closed and nothing is latched |
| SafetyRules.EvidenceIsKept | firmware/safety/safety_manager.c:27-56 | what recovery will have to wait for: an integrity failure for good, lost motion until a trusted count is two away from where it latched, and whether the retained fault is marked active |
| SafetyPolicy.SafetyManager.Recover | firmware/safety/safety_manager.c:58-64 | reset clears the latch and files the fault, or changes nothing |
| SafetyRuns.LatchesAreMonotone | firmware/safety/safety_manager.c:6-21 | over every history without a successful reset ESTOP stays, a latch stays, and the first fault keeps its code, time and source; an internal failure never clears |
| SafetyRuns.ResetIsExact | firmware/safety/safety_manager.c:53-64 | right after an evaluation reset succeeds if and only if no hazard is present, whichever fault was recorded first |
| SafetyRuns.RecoveryNeedsDisplacement | firmware/safety/safety_manager.c:40-50 | after a no-motion trip every reset is refused until a displacement of two counts from the trip has been observed |
| SafetyRuns.CandidateIsTheRun | firmware/safety/safety_manager.c:42-52 | the candidate and its start time are the unbroken run of qualifying evaluations that ends at the last one |
| SafetyRuns.NoMotionIsExact | firmware/safety/safety_manager.c:42-52 | an evaluation latches the no-motion fault if and only if it ends an unbroken run of qualifying evaluations spanning at least 500 ms of true time, across timer wrap |
| RuntimeAdapter.Runtime.constructor | firmware/rtos/runtime.c:31-34 | initialisation leaves the gate inhibited, nothing healthy, nothing latched |
| RuntimeAdapter.Runtime.FollowPolicy | firmware/rtos/safety_runtime.c:15-20 | guard first, then the latch, which is only touched when it changes |
| RuntimeAdapter.Runtime.Enforce | firmware/rtos/safety_runtime.c:8-27 | the gate is set as the policy and the published state say |
| RuntimeAdapter.Runtime.Evaluate | firmware/rtos/safety_runtime.c:28-42 | inputs, health mask and feedback are gathered, evaluated and enforced in one section |
| RuntimeAdapter.Runtime.Sync | firmware/rtos/safety_runtime.c:43-57 | a latched policy takes the controller with it |
| RuntimeAdapter.Runtime.TakeReset | firmware/rtos/safety_runtime.c:65-74 | RESET through a fresh evaluation |
| RuntimeAdapter.Runtime.TakeCommand | firmware/rtos/safety_runtime.c:58-106 | every command, in every state of policy, gate and controller |
| RuntimeAdapter.Runtime.UpdateHoming | firmware/rtos/safety_runtime.c:116-131 | a homing update with its evaluation before and its consequences after |
| RuntimeAdapter.Runtime.UpdateControl | firmware/rtos/safety_runtime.c:107-132 | the control update of either mode |
| RuntimeAdapter.Runtime.SafetyTaskCycle | firmware/tasks/safety_task.c:14-20 | the body of the Safety task is one step of the transition system; the invariant of every interleaving is kept |
| RuntimeAdapter.Runtime.Heartbeat | firmware/health/task_health.c:3-8 | a beat is one step of the transition system; the invariant of every interleaving is kept |
| RuntimeAdapter.Runtime.BeginMotionCycle | firmware/tasks/motion_task.c:36-41 | startup step, capture of the time, sample; the invariant of every interleaving is kept |
| RuntimeAdapter.Runtime.SyncMotionCycle | firmware/tasks/motion_task.c:42-49 | a lost sample latches, and the policy is followed; the invariant of every interleaving is kept |
| RuntimeAdapter.Runtime.ReceiveCommand | firmware/tasks/motion_task.c:51-73 | one command, refused before startup has finished; the invariant of every interleaving is kept |
| RuntimeAdapter.Runtime.FinishMotionCycle | firmware/tasks/motion_task.c:78-102 | update, the latch if it fails, publication, and the time for the next gap; the invariant of every interleaving is kept |
| RuntimeSafety.StepKeepsInv | firmware/rtos/safety_runtime.c:8-132 | every step of every kind keeps the invariant that ties gate, policy and controller together |
| RuntimeSafety.RunKeepsInv | firmware/tasks/motion_task.c:33-105 | so does every run |
| RuntimeSafety.EveryReachableStateIsSafe | firmware/rtos/safety_runtime.c:8-42 | in every reachable state a nonzero output implies an unlatched healthy policy on good inputs, and on the negative switch the allowance and a positive output; allowance and guard are one; IDLE has no active fault and FAULT has one |
| RuntimeRuns.ResetTakenIsExact | firmware/rtos/safety_runtime.c:65-74 | RESET is accepted if and only if no move is live and inputs, health, encoder evidence and integrity are good at that moment |
| RuntimeRuns.LatchesHoldOverRuns | firmware/rtos/safety_runtime.c:43-74 | over every interleaving latches and the first fault are monotone without an accepted RESET, and an internal failure is absorbing with the output at zero |
| RuntimeRuns.OnlyResetUnlatches | firmware/rtos/safety_runtime.c:65-74 | a latch is only left through an accepted RESET |
| RuntimeRuns.OnlyCompletionReferences | firmware/control/homing.c:36-47 | the encoder offset moves exactly when the completion counter does, with the output at zero; every other end of an attempt leaves it alone |
| RuntimeRuns.CountIsDisplacementSinceContact | firmware/platform/host/encoder_host.c:15-34 | in every reachable state with a standing reference the logical count is the raw displacement since contact, modulo 2^32 |
| RuntimeRuns.OnlyCompletionGrants | firmware/rtos/safety_runtime.c:126-130 | a step that makes the contact allowance appear is an update that completes a HOME |
| RuntimeRuns.AllowanceStaysRevoked | firmware/safety/safety_manager.c:30-36 | once withdrawn it stays withdrawn until another HOME completes |
| RuntimeRuns.ContactAfterReleaseLatches | firmware/safety/safety_manager.c:30-36 | after an observed release, and until another HOME completes, contact found outside HOMING by any step, an evaluation inside a command or an update included, latches with the gate closed |
| RuntimeRuns.ContactMetBySafetyLatches | firmware/safety/safety_manager.c:30-36 | so does contact that a Safety cycle meets, found before or not |
| RuntimeCommands.MoveIsAcceptedExactly | firmware/rtos/safety_runtime.c:83-105 | in every reachable state a move is accepted exactly if startup is over, nothing latched, Motion idle, the gate open or closed only by HOME's contact, the target ahead if so, and in range; out of range is refused as such, the rest as an invalid state, and what is accepted goes to its goal from a fresh loop |
| RuntimeCommands.HomeIsAcceptedExactly | firmware/rtos/safety_runtime.c:88-93 | HOME likewise; what it starts, and what is left if it latches at once |
| RuntimeCommands.StopIsTaken | firmware/rtos/safety_runtime.c:75-87 | STOP is always accepted after startup, leaves the motor off and the loop empty, and ends a move or a HOME unless the gate is closed |
| RuntimeCommands.EstopIsTaken | firmware/rtos/safety_runtime.c:60-64 | ESTOP latches in every state, closes the gate and takes a running HOME with it |
| RuntimeCommands.OthersChangeNothing | firmware/tasks/motion_task.c:58-63 | SET_SPEED, STATUS, HELP, and every command before startup has finished, change nothing |
| RuntimeCommands.TargetsAreInRange | firmware/control/motion_controller.c:78-78 | in every reachable state in which the axis moves, its target lies between minimum and maximum |
| RuntimeCommands.StopHolds | firmware/control/motion_controller.c:68-73 | over every run from a STOP, until a move or a HOME is accepted, every update leaves the motor off through any stale requests, and without them it is off all the time |
| RuntimeCommands.LoopIsEmptyAtRest | firmware/control/motion_controller.c:65-113 | in every reachable state in which the axis does not move its loop holds nothing, however the last move, HOME or latch ended |
| RuntimeSwitch.GateOpensExactly | firmware/rtos/safety_runtime.c:8-27 | an evaluation leaves the gate open exactly if nothing was latched, the inputs are good, every task has beaten within 150 ms, the axis is not stuck, and the switch is released or being left under the allowance; a closed gate opens with the motor off |
| RuntimeSwitch.GateStaysClosedAfterHome | firmware/rtos/safety_runtime.c:13-20 | over every run from the completion of a HOME until a move is accepted, while the allowance stands, the gate is closed and the motor off, through any stale requests |
| RuntimeSwitch.CompletionParks | firmware/rtos/safety_runtime.c:126-130 | on good inputs with fresh tasks a completed HOME leaves the allowance, the axis idle at zero in both records, nothing latched, the gate closed |
| RuntimeSwitch.DepartureIsTaken | firmware/rtos/safety_runtime.c:97-104 | what becomes of every move from there: refused, out of range, under way behind an open gate, or latched because the counter has passed its target |
| RuntimeSwitch.DepartureGoesThrough | firmware/rtos/safety_runtime.c:83-104 | in every run, after a completed HOME: a move to any target in range ahead of the axis is accepted and under way, with nothing latched and the gate open, and the update of the cycle drives it forwards |
| RuntimeSwitch.NoMoveOntoTheSwitch | firmware/rtos/safety_runtime.c:98-99 | and a move to no more than the present position is refused with nothing changed |
| RuntimeMoves.StepBalances | firmware/tasks/motion_task.c:74-88 | every step accounts for every move it starts or ends |
| RuntimeMoves.EveryMoveIsAccountedFor | firmware/control/motion_controller.c:65-104 | over every run accepted moves are the completed, stopped and aborted ones plus the one under way, and the firmware's counter is the completed ones |
| RuntimeHistory.RunIsHistory | firmware/rtos/safety_runtime.c:28-132 | what any run does to the supervisor is a history of its operations, allowed and clocked, so that every result on histories holds of runs |
| RuntimeHistory.NoMotionOverRuns | firmware/safety/safety_manager.c:42-52 | in every run an evaluation, whichever step makes it, latches the no-motion fault if and only if it ends an unbroken run of qualifying evaluations spanning at least 500 ms |
| RuntimeHistory.SafetyCycleLatchesExactly | firmware/tasks/safety_task.c:14-20 | in particular a Safety cycle |
| RuntimeJams.JamIsAnswered | firmware/safety/safety_manager.c:42-52 | over every run with Safety on its 20 ms period, an axis jammed for more than 519 ms since a Safety cycle saw it, or for more than 539 ms in all, is latched with the gate closed and the motor off; what a jam is, is spelled out in drive, speed, inputs and beats |
| RuntimeJams.JamIsNoMotion | firmware/safety/safety_manager.c:48-51 | and if a Safety cycle latches it, the fault retained is that of lost motion |
| RuntimeHistory.RecoveryNeedsSighting | firmware/safety/safety_manager.c:40-50 | in every run after a no-motion trip the latch stands, with the gate closed, until an evaluation has seen trusted feedback two counts from the trip |
| RuntimeHistory.RecoveryNeedsMotion | firmware/rtos/safety_runtime.c:65-74 | and while the counter stays within one count of the trip every RESET is refused |
| RuntimeResponse.FreshnessIsModular | firmware/health/task_health.c:10-13 | the freshness test against true time, modulo 2^32 |
| Findings.SilentForAWrapRefreshes | firmware/tasks/safety_task.c:16-17 | where that fails: from any reachable state that refreshes, after a wrap of silence of every task, a Safety cycle refreshes again |
| Findings.RefreshIsReached | firmware/tasks/safety_task.c:14-20 | and from power-up such states are reached |
| RuntimeResponse.RefreshIsExact | firmware/tasks/safety_task.c:16-17 | a Safety cycle refreshes the watchdog if and only if every critical task has beaten within 150 ms, modulo 2^32 |
| RuntimeResponse.OnlySafetyRefreshes | firmware/tasks/safety_task.c:17-17 | nothing else refreshes it |
| RuntimeResponse.SilentTaskIsAnswered | firmware/safety/safety_manager.c:37-39 | with Safety on its 20 ms period, a task silent for over 170 ms finds the gate inhibited, a latch set after startup grace, and RESET refused |
| RuntimeResponse.SilentTaskStaysAnswered | firmware/rtos/safety_runtime.c:14-21 | and it stays so over every run without an accepted RESET |
| RuntimeResponse.HeldEstopIsAnswered | firmware/safety/safety_manager.c:26-28 | over every run, however the other inputs are rewritten meanwhile, an E-stop held for more than a Safety period has latched ESTOP with the gate closed and zero output, and RESET is refused at any time while it is held |
| RuntimeResponse.HeldHazardIsAnswered | firmware/safety/safety_manager.c:24-29 | likewise any mixture of unreadable inputs, E-stop and positive limit: a latch is set, the gate closed, RESET refused |
| RuntimeHoming.UpdateOutcome | firmware/control/homing.c:28-50 | every homing update has exactly one of five outcomes, timeout before switch |
| RuntimeHoming.DeadlineIsExact | firmware/rtos/safety_runtime.c:107-131 | in every reachable state an update at a true age of 40000 ms or more leaves HOMING and none times out earlier, if the clock stood still between capture and acceptance |
| RuntimeHoming.DeadlineOverRuns | firmware/tasks/motion_task.c:36-102 | the same over every run from power-up, however long an attempt lasts, if cycles begin less than 2^32 - 40000 ms apart and HOME is accepted at its captured time |
| RuntimeHoming.VerdictIsRightIffCapturedAfter | firmware/tasks/motion_task.c:37-37 | in every reachable state whose update judges the age of an attempt, within a wrap of the deadline, the update is a timeout exactly when it should be if and only if HOME was not accepted after the capture |
| HomingFailures.TickBeforeHomeTimesOut | firmware/rtos/safety_runtime.c:89-89 | from power-up, however the plant coasts: one millisecond between capture and acceptance, and the first update of the accepted HOME is a FAULT with the homing timeout recorded |
| RuntimeHoming.CyclesAdvance | firmware/tasks/motion_task.c:37-41 | sampled cycles capture ever later times, so an attempt gets nearer its deadline with each |
| RuntimeAttempts.RecordIsAccurate | firmware/rtos/safety_runtime.c:43-81 | over every run from power-up the record says that a HOME is running only while one is, or its lost sample is about to be latched, exactly as long as no RESET is accepted while Motion is homing |
| Findings.ResetForgetsHome | firmware/rtos/safety_runtime.c:65-74 | where that fails: from power-up, an E-stop that is latched, released and RESET within one Motion cycle leaves an idle axis whose published record says that a HOME is running |
| UartFraming.UartReceiver.Interrupt | firmware/platform/stm32/uart.c:35-58 | one interrupt of the framing automaton |
| UartFraming.UartReceiver.TryReadLine | firmware/platform/stm32/uart.c:59-64 | the oldest frame leaves the queue |
| UartFraming.InterruptComputesFrames | firmware/platform/stm32/uart.c:35-58 | over every stream of good and bad bytes the frames offered are the declarative split of the stream |
| UartFraming.ErrorsAreCounted | firmware/platform/stm32/uart.c:40-42 | every line error of a stream is counted, and nothing else is |
| UartFraming.TextFrames | firmware/platform/stm32/uart.c:43-58 | without line errors they are the lines ended by CR, LF or CRLF, each cut to 64 bytes |
| UartFraming.FramesAreLines | firmware/platform/stm32/uart.c:40-53 | every frame is made of one whole line of the stream: from where a line can begin, without errors, to the terminator that ends it |
| UartFraming.LinesAreFrames | firmware/platform/stm32/uart.c:40-53 | and no whole line is passed over: each makes one of the frames |
| UartFraming.ErrorBeforeLf | firmware/platform/stm32/uart.c:40-44 | an error between CR and LF spoils the line behind the LF |
| UartFraming.ErrorBeforeCr | firmware/platform/stm32/uart.c:40-53 | an error between two CRs spoils nothing behind them |
| UartFraming.SpoiledLineIsLost | firmware/platform/stm32/uart.c:40-53 | a spoiled line yields no frame, whatever comes before its terminator |
| CommandLine.ParseNumber | firmware/protocol/command.c:41-56 | the overflow-checked loop accepts exactly the signed 32-bit numbers, with their value |
| CommandLine.Parse | firmware/protocol/command.c:23-61 | the scanner; the output is written on success only |
| CommandLine.ParseIsExact | firmware/protocol/command.c:23-61 | a line is accepted as a command if and only if the grammar says that command; the grammar gives each kind of command its keyword and its argument without the table that the scanner searches |
| CommandLine.RefusalsAreExact | firmware/protocol/command.c:25-60 | the exact condition of each of the four refusals |
| CommandPipeline.CommandBus.Send | firmware/rtos/command_bus.c:12-24 | bounded enqueue with its statistics |
| CommandPipeline.CommandBus.Receive | firmware/rtos/command_bus.c:26-33 | first in, first out |
| CommandPipeline.CommsTask.HandleLine | firmware/tasks/comms_task.c:19-39 | one line: read, parsed, counted or sent |
| CommandPipeline.CommsTask.Poll | firmware/tasks/comms_task.c:18-40 | up to four lines, one after the other |
| CommandPipeline.CommandsFollowTheStream | firmware/tasks/comms_task.c:18-40 | in every interleaving accepted commands are the meanings of frames of the byte stream, in order, none twice, and Motion has taken a prefix of them |
| CommandPipeline.EveryCommandIsALine | firmware/protocol/command.c:25-25 | every accepted command is what a whole line of the stream says, from a line start to its terminator, error-free and of at most 63 bytes |
| CommandPipeline.EveryFrameIsAccountedFor | firmware/rtos/command_bus.c:12-33 | every frame was dropped, waits, was refused, was rejected or became a command, and the statistics say so modulo 2^32 |
| CommandPipeline.EveryCommandGetsThrough | firmware/tasks/comms_task.c:18-40 | over every run in which fewer than 16 frames wait when a byte arrives and fewer than 8 commands when a line is dealt with, nothing is lost: the commands Motion gets are exactly those that the frames of the stream say, in order |
| TinyFormat.Writer.Character | firmware/platform/stm32/tiny_format.c:7-11 | what fits is written, with room kept for the terminator |
| TinyFormat.Writer.String | firmware/platform/stm32/tiny_format.c:12-16 | as much of a text as fits |
| TinyFormat.Writer.Integer | firmware/platform/stm32/tiny_format.c:17-23 | the decimal notation of a word, padded with zeros |
| TinyFormat.Writer.Signed | firmware/platform/stm32/tiny_format.c:61-65 | sign and magnitude, also for the least value |
| TinyFormat.Writer.Normalise | firmware/platform/stm32/tiny_format.c:29-34 | the normalisation loops terminate for every double and give six digits and an exponent |
| TinyFormat.Writer.Real | firmware/platform/stm32/tiny_format.c:24-39 | as much of the text of a number as fits |
| TinyFormat.Writer.Finish | firmware/platform/stm32/tiny_format.c:70-70 | the terminator has its place; the length, or -1 exactly if something was cut off |
| TinyFormat.DecimalValue | firmware/platform/stm32/tiny_format.c:17-23 | decimal notation denotes the number it was made from |
| TinyFormat.ParserUndoesPrinter | firmware/platform/stm32/tiny_format.c:61-65 | the command parser reads back every printed 32-bit value, with or without leading zeros |
| TinyFormat.EveryPrintedValueIsRead | firmware/platform/stm32/tiny_format.c:61-65 | at the widths that the formatter knows the line always fits, so no premise is left |
| TinyFormat.RealTextIsAccurate | firmware/platform/stm32/tiny_format.c:24-39 | the text of every finite nonzero number is d.ddddde+dd and denotes it to within five parts in a million |
| PlantModel.Plant.Init | simulator/plant_model.c:69-79 | an invalid setup preserves plant, motor, encoder and inputs; a valid one places the plant at rest with the drive off and publishes its count and limits |
| PlantModel.Plant.Step | simulator/plant_model.c:87-114 | one step of semi-implicit Euler between the stops, published to the peripherals |
| PlantModel.RunStaysInBounds | simulator/plant_model.c:87-114 | for every sequence of duties position, speed and counts stay in range and the limits are never both active |
| PlantModel.StalledStays | simulator/plant_model.c:100-110 | a stalled plant stays at rest where it is, whatever the drive, and shows what it showed |
| PlantModel.CoastIsBounded | simulator/plant_model.c:94-108 | without drive the velocity never changes sign and the total coast is below its magnitude over the damping |
| HomingTrajectory.HomingStep | simulator/plant_model.c:93-108 | one step of the default plant under the homing drive |
| HomingTrajectory.ContactIsInevitable | simulator/plant_model.c:11-18 | from every admissible start the homing drive brings the plant to the switch within 35326 steps |
| HomingTrajectory.NeverPassesPeak | simulator/plant_model.c:93-99 | the trajectory never passes the peak computed for its way out |
| HomingTrajectory.SlowIsShort | simulator/plant_model.c:93-99 | a reversing plant is slower than a count in ten steps for less than 416 steps |
| ClosedLoop.SuspicionStaysShort | firmware/safety/safety_manager.c:42-52 | on the way to the switch the no-motion suspicion never gets 500 ms old, encoder quantisation included |
| ClosedLoop.UpdateCompletes | firmware/rtos/safety_runtime.c:116-131 | the first update after contact completes HOME at logical zero, with nothing latched |
| ClosedLoop.HomeBeatsDeadline | simulator/plant_model.c:87-114 | in every order of sections, and of commands other than STOP and ESTOP, HOME is in progress with nothing latched or has completed, at most 35336 ms after it was accepted |
| ClosedLoop.HomeCompletes | firmware/control/homing.c:28-50 | wherever such a run has got to, it can go on to completion, by the same deadline |
| ClosedLoop.HomeIsSafeExactly | firmware/safety/safety_manager.c:29-29 | all such runs let HOME go through if and only if the plant's way out stays short of the positive stop |
| ClosedLoop.ClearanceSuffices | simulator/plant_model.c:11-18 | with a clearance of 0.249 times the outward velocity they all do |
| Startup.PowerUpReachesHome | firmware/tasks/motion_task.c:33-73 | however the plant rests or coasts between its stops, there is a run from power-up to a state in which HOME is accepted and the closed-loop results apply |
| Startup.RestingCoastsClear | simulator/plant_model.c:93-99 | a plant that rests between its stops is one of these |
| Startup.DriveIsReachable | firmware/rtos/runtime.c:31-34 | and from there to a state in which the motor is driven |
| HomingFailures.OutboundHomeFails | simulator/plant_model.c:87-114 | from power-up with the plant coasting towards the positive stop there is a reachable state that accepts HOME and a run of the closed loop from it that latches |
| HomingFailures.OutboundIsAttained | simulator/plant_model.c:87-114 | the plant comes to that state from rest under some duties from 0 to 0.8 |
| MoveOvershoot.OvershootIsBounded | firmware/control/motion_controller.c:90-114 | from rest anywhere to any target the default move keeps the plant, at every millisecond, between its start and 6.1 counts past the target, and the place it would coast to as well; quantised counts and sampled velocity included |
| MoveOvershoot.RuntimeAcceptance | firmware/control/motion_controller.c:75-87 | a move that the runtime accepts at rest after startup is one of these |
| MoveOvershoot.RuntimeCycle | firmware/tasks/motion_task.c:36-102 | and an uninterrupted cycle of the runtime is a cycle of theirs |
| MoveOvershoot.HomeIsSafeAfterAMove | firmware/safety/safety_manager.c:29-29 | after a move with start and target up to 4993, cut at any moment and coasting for any time, HOME goes through in every order of events |
| MoveOvershoot.OutboundIsNoMove | firmware/control/pid.c:26-36 | no default move from rest leaves the start from which HOME is shown to fail |

## Left out

- ClosedLoop.HomeBeatsDeadline: excludes starts from which the plant runs into the positive stop, because there the claim is false; ClosedLoop.HomeIsSafeExactly gives the exact condition. The Motion period of its runs is exactly the configured 10 ms, without jitter, and Safety comes at least every 20 ms. STOP and ESTOP, which end the attempt, and stale motor requests, which would drive the plant, are not among its events; nor are they in ClosedLoop.HomeIsSafeExactly and ClosedLoop.ClearanceSuffices.
- PidControl.PidController.Update: leaves out the refusals on a non-finite intermediate result, which real arithmetic does not have.
- RuntimeHoming.DeadlineIsExact: assumes that the clock stands still between the capture of a cycle's time and its HOME command, because otherwise the claim is false; RuntimeHoming.VerdictIsRightIffCapturedAfter gives the exact condition. The age is taken to be below a timer wrap, which RuntimeHoming.DeadlineOverRuns derives from a bound on the time between cycles.
- RuntimeResponse.SilentTaskIsAnswered: silence of a whole timer wrap or more is excluded, because the freshness test is modular; Findings.SilentForAWrapRefreshes is the failing run. The end of the startup grace is judged on the wrapped timer too, as in the source.
- Rounding and overflow of floats: control arithmetic is real arithmetic, so the tests for a non-finite intermediate result never fire, and non-finite configurations are not modelled.
- The kernel: scheduling, notifications, stack sizes and interrupt latency; critical sections are atomic and queues are bounded sequences.
- STM32 registers, clocks, independent watchdog, startup code, the STM32 motor driver and UART transmission; the watchdog is taken to be initialised, so a refresh never fails.
- Telemetry and diagnostic text, name tables, STATUS and HELP lines, and the directive scanner of the formatter; its number and text writers are modelled.
- The startup application: only its three steps and the rule that commands are refused before it is idle.
- Null pointers and uninitialised objects, except where the source returns a result code for an uninitialised driver.
- The receive-drop and line-error counters of the UART are unbounded in the model.
- Scenario runners and metrics of the simulator; the plant's hold and frozen-encoder switches are modelled in the plant but not used in the closed loop.
- Exactness of the aborted-moves statistic, which the source can advance twice for one operation; EveryMoveIsAccountedFor uses history counts instead.
- Convergence of a PID move on the quantised plant: it is bounded, but not shown to complete.
- MoveOvershoot.OvershootIsBounded: for cycles of exactly 10 ms, from rest, with the encoder offset of a plant referenced at its switch, until a switch is reached, which ends the move.
- The link between the command bus and the runtime: the runtime accepts any command at any point of its cycle, which includes those of the bus.
