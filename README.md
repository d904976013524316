# Test checklist and controller self-test, in Dafny

This project models the robot's pit checklist (`TestChecklist`). The checklist is a fixed list of 26 steps, run one at a
time while the driver station is in Test mode. The robot calls `testPeriodic` once per tick. Each tick:

- consumes the dashboard's Reset and Skip buttons;
- optionally runs the TeleOp pass-through;
- evaluates the step under the cursor `checklistStep`;
- moves the cursor on when that step reports complete.

Sub-steps (column > 0) come before the main step (column 0) that groups them. Index 25, "Tests Complete", is the terminal
step. Leaf steps are small state machines, driven by the Step button or by a hardware condition. Parent steps recompute
the AND of their children on every call.

The project also models the controller self-test table of `DualJoysticksOI`. This is a 3 x 20 table of flags that latch
true once the matching axis or button has been seen.

Files:

- `steps.dfy` (module `Steps`): the item table, the per-tick hardware `Probe`, the `Command`s a step may issue, and one
  function per step function of the source. It also states a second description of the leaf machines as transition tables
  (`DoGated`, `Advances`, `FollowsTable`), with lemmas proving that each leaf follows its table.
- `sequencer.dfy` (module `Sequencer`): the checklist as a value `State`, plus reset, skip, one tick and runs of many
  ticks, with the lemmas about them.
- `checklist.dfy` (module `Checklist`): class `TestChecklist`. An `array<Item>` is updated in place, with the cursor, the
  enable flag, the three button latches and the TeleOp toggle as fields. Every method is proved against the `Sequencer`
  or `Steps` function it implements, through `Abs()`.
- `dual_joysticks.dfy` (module `DualJoysticks`): the flag table as a value, with its lemmas, and class `DualJoysticksOI`
  over an `array2<bool>`.

Hardware is seen through one `Probe` per tick:

- each floating-point comparison of the source is one boolean (`voltageOk`, `liftAtMaxHeight`, `extendRetracted`, …);
- the battery and gyro readings shown in status texts are opaque strings;
- the CAN devices are a list of `Device(kind, id, present)`;
- the two controller-test results are booleans.

Motor, encoder, gyro, pneumatics and operator-interface calls are returned as a list of `Command`s.

Where the code and its documentation differ, the model follows the code:

- `allTestsComplete` ANDs every step 0 to 24, sub-steps included, not only the main steps.
- `testInit` always resets the checklist. Re-entering Test mode does not resume.
- A step evaluated twice in the same situation is not always unchanged. A hardware-gated transition moves the state again
  on the next tick if its guard still holds.

The code's own quirks are kept:

- `checkArm` leaves out the calibration step.
- `checkControllers` shows "Grip Tests complete".
- `checkLeaks` shows the lift test's "Arm Raised to Max Height - Measure".
- The controller steps leave their status unchanged on completion.

## Model

| member | source | states |
|---|---|---|
| Steps.InitialItems | src/main/java/frc/robot/TestChecklist.java:119-147 | the list holds 26 items with the fixed titles and columns, each at state 0 with no status and not complete |
| Steps.Item.Reset | src/main/java/frc/robot/TestChecklist.java:52-57 | a reset item is at state 0 with no status and not complete, and keeps its title and column |
| Steps.MainSteps | src/main/java/frc/robot/TestChecklist.java:73-75 | an item in its table column is a main step exactly when it is the battery step, the device step or a parent step |
| Steps.Battery | src/main/java/frc/robot/TestChecklist.java:329-334 | the battery step completes exactly when the voltage reaches its threshold; it keeps its state, reads no button and issues nothing |
| Steps.Devices | src/main/java/frc/robot/TestChecklist.java:336-417 | the device step completes exactly when every device is present; its status is never empty; it keeps its state, reads no button and issues nothing |
| Steps.SwerveModule | src/main/java/frc/robot/TestChecklist.java:419-439 | the evaluation of testSwerveModule, which the SwerveModuleTable lemma and the class method are proved against; its own contract keeps the title and the column |
| Steps.GyroYaw | src/main/java/frc/robot/TestChecklist.java:453-475 | the evaluation of checkGyroYaw, which the YawTable lemma and the class method are proved against; its own contract keeps the title and the column |
| Steps.GyroPitch | src/main/java/frc/robot/TestChecklist.java:477-499 | the evaluation of checkGyroPitch, which the PitchTable lemma and the class method are proved against; its own contract keeps the title and the column |
| Steps.ExtendSwitch | src/main/java/frc/robot/TestChecklist.java:511-531 | the evaluation of checkArmExtendSwitch, which the ExtendSwitchTable lemma and the class method are proved against; its own contract keeps the title and the column |
| Steps.LiftSwitch | src/main/java/frc/robot/TestChecklist.java:533-553 | the evaluation of checkArmLiftSwitch, which the LiftSwitchTable lemma and the class method are proved against; its own contract keeps the title and the column |
| Steps.Calibrate | src/main/java/frc/robot/TestChecklist.java:565-598 | the evaluation of checkArmCalibrate, which the CalibrateTable lemma and the class method are proved against; its own contract keeps the title and the column |
| Steps.LiftMaxHeight | src/main/java/frc/robot/TestChecklist.java:600-619 | the evaluation of checkArmLiftMaxHeight, which the LiftMaxTable lemma and the class method are proved against; its own contract keeps the title and the column |
| Steps.ExtendMaxLength | src/main/java/frc/robot/TestChecklist.java:621-640 | the evaluation of checkArmExtendMaxLength, which the ExtendMaxTable lemma and the class method are proved against; its own contract keeps the title and the column |
| Steps.ToZero | src/main/java/frc/robot/TestChecklist.java:642-665 | the evaluation of checkArmToZero, which the ToZeroTable lemma and the class method are proved against; its own contract keeps the title and the column |
| Steps.Compressor | src/main/java/frc/robot/TestChecklist.java:678-694 | the evaluation of checkCompressor, which the CompressorTable lemma and the class method are proved against; its own contract keeps the title and the column |
| Steps.Leaks | src/main/java/frc/robot/TestChecklist.java:696-708 | the evaluation of checkLeaks, which the LeaksTable lemma and the class method are proved against; its own contract keeps the title and the column |
| Steps.GripperOpenClose | src/main/java/frc/robot/TestChecklist.java:710-731 | the evaluation of checkGripperOpenClose, which the GripperTable lemma and the class method are proved against; its own contract keeps the title and the column |
| Steps.DriverController | src/main/java/frc/robot/TestChecklist.java:744-759 | the evaluation of checkDriverController, which the DriverControllerTable lemma and the class method are proved against; its own contract keeps the title and the column |
| Steps.OperatorController | src/main/java/frc/robot/TestChecklist.java:761-776 | the evaluation of checkOperatorController, which the OperatorControllerTable lemma and the class method are proved against; its own contract keeps the title and the column |
| Steps.DevicesStep | src/main/java/frc/robot/TestChecklist.java:336-417 | the device step completes exactly when every device is present; its status is then "All devices present", otherwise the non-empty text of the missing devices |
| Steps.MissingText | src/main/java/frc/robot/TestChecklist.java:340-412 | the missing-device text is empty exactly when all devices are present |
| Steps.MissingTextConcat | src/main/java/frc/robot/TestChecklist.java:340-412 | the text of a list is the text of its first part followed by the text of the rest, so labels appear in list order |
| Steps.MissingTextOne | src/main/java/frc/robot/TestChecklist.java:341-412 | one device contributes its `Kind(id) ` label exactly when it is not present |
| Steps.SwerveModuleTable | src/main/java/frc/robot/TestChecklist.java:419-439 | testSwerveModule follows its table: states 0 and 1 wait for Step, and the state moves by one exactly on a press; completion is set only on entering state 2; state 2 changes nothing |
| Steps.YawTable | src/main/java/frc/robot/TestChecklist.java:453-475 | the yaw step follows its two-press table, as above |
| Steps.PitchTable | src/main/java/frc/robot/TestChecklist.java:477-499 | the pitch step follows its two-press table, as above |
| Steps.ExtendSwitchTable | src/main/java/frc/robot/TestChecklist.java:511-531 | the extend switch step advances on switch released, then pressed, then released, without reading Step, and completes on entering state 3 |
| Steps.LiftSwitchTable | src/main/java/frc/robot/TestChecklist.java:533-553 | the lift switch step advances on switch released, then pressed, then released, without reading Step, and completes on entering state 3 |
| Steps.CalibrateTable | src/main/java/frc/robot/TestChecklist.java:565-598 | calibration waits for Step in state 0, then for the extend and the lift minimum switch, and completes on entering state 3 |
| Steps.LiftMaxTable | src/main/java/frc/robot/TestChecklist.java:600-619 | the lift step waits for Step, then for the lift to reach its maximum, and completes on entering state 2 |
| Steps.ExtendMaxTable | src/main/java/frc/robot/TestChecklist.java:621-640 | the extend step waits for Step, then for full extension, and completes on entering state 2 |
| Steps.ToZeroTable | src/main/java/frc/robot/TestChecklist.java:642-665 | the zeroing step waits for Step, then for retraction, then for lowering, and completes on entering state 3 |
| Steps.CompressorTable | src/main/java/frc/robot/TestChecklist.java:678-694 | the compressor step waits for Step, then for the pressure switch to open, and completes on entering state 2 |
| Steps.LeaksTable | src/main/java/frc/robot/TestChecklist.java:696-708 | the leak check completes on the first Step press |
| Steps.GripperTable | src/main/java/frc/robot/TestChecklist.java:710-731 | the actuator step needs three presses and completes on entering state 3 |
| Steps.DriverControllerTable | src/main/java/frc/robot/TestChecklist.java:744-759 | the driver controller step waits for Step, then for the driver test to pass, and completes on entering state 2 |
| Steps.OperatorControllerTable | src/main/java/frc/robot/TestChecklist.java:761-776 | the operator controller step waits for Step, then for the operator test to pass, and completes on entering state 2 |
| Steps.MachineStep | src/main/java/frc/robot/TestChecklist.java:419-776 | every leaf step moves its state by at most one, never down; it reads the Step latch exactly in its do-gated states; its final state has no way out; it becomes complete only on entering the final state |
| Steps.NoPressNoMove | src/main/java/frc/robot/TestChecklist.java:257-263 | a do-gated state is never final, and without a Step press it keeps its state and its completion |
| Steps.Aggregate | src/main/java/frc/robot/TestChecklist.java:441-451 | a parent completes exactly when each of its children is complete; it keeps its state, reads no button and issues nothing |
| Steps.Evaluate | src/main/java/frc/robot/TestChecklist.java:121-147 | position k runs the test its list entry supplies; the result keeps the title and the column |
| Steps.AllComplete | src/main/java/frc/robot/TestChecklist.java:444-448 | the left-to-right AND of the children is true exactly when each of them is complete |
| Steps.SwerveModulesGroup | src/main/java/frc/robot/TestChecklist.java:441-451 | the swerve parent ANDs steps 2 to 5 |
| Steps.GyroGroup | src/main/java/frc/robot/TestChecklist.java:501-509 | the gyro parent ANDs steps 7 and 8 |
| Steps.LimitSwitchGroup | src/main/java/frc/robot/TestChecklist.java:555-563 | the limit-switch parent ANDs steps 10 and 11 |
| Steps.ArmGroup | src/main/java/frc/robot/TestChecklist.java:667-676 | the arm parent ANDs steps 14 to 16 |
| Steps.GripGroup | src/main/java/frc/robot/TestChecklist.java:733-742 | the grip parent ANDs steps 18 to 20 |
| Steps.ControllerGroup | src/main/java/frc/robot/TestChecklist.java:778-786 | the controller parent ANDs steps 22 and 23 |
| Steps.TerminalGroup | src/main/java/frc/robot/TestChecklist.java:788-797 | the terminal step ANDs every step 0 to 24 |
| Steps.ParentStep | src/main/java/frc/robot/TestChecklist.java:441-451 | a parent stores and returns the AND of its children, sets its fixed text, keeps its state and issues nothing |
| Steps.TerminalStep | src/main/java/frc/robot/TestChecklist.java:788-797 | the terminal step completes exactly when every step before it is complete |
| Steps.ArmIgnoresCalibration | src/main/java/frc/robot/TestChecklist.java:669-672 | the arm step completes with calibration incomplete |
| Sequencer.Initial | src/main/java/frc/robot/TestChecklist.java:89-147 | a fresh checklist is well formed and disabled |
| Sequencer.ResetAll | src/main/java/frc/robot/TestChecklist.java:294-302 | a reset keeps the number of items, the enable flag and the TeleOp toggle, puts the cursor at 0 and clears the three buttons |
| Sequencer.Enter | src/main/java/frc/robot/TestChecklist.java:207-213 | entering Test mode enables the checklist, switches the TeleOp toggle off, puts the cursor at 0 and clears the three buttons |
| Sequencer.Exit | src/main/java/frc/robot/TestChecklist.java:238-241 | leaving Test mode disables the checklist and keeps the items, the cursor, the buttons and the TeleOp toggle |
| Sequencer.ResetClears | src/main/java/frc/robot/TestChecklist.java:294-302 | after a reset every item is at state 0, with no status and not complete, keeping its title and column; the cursor is 0 and the three buttons are clear |
| Sequencer.EnterClears | src/main/java/frc/robot/TestChecklist.java:207-213 | entering Test mode enables the checklist, restores every item to its initial value, clears the buttons and the TeleOp toggle, and stays well formed |
| Sequencer.NextMain | src/main/java/frc/robot/TestChecklist.java:275-281 | the first main step at or after a position, with only sub-steps before it |
| Sequencer.SkipWalk | src/main/java/frc/robot/TestChecklist.java:273-284 | the skip loop keeps all 26 items and leaves the cursor within 0 to 25 |
| Sequencer.Skip | src/main/java/frc/robot/TestChecklist.java:273-284 | a skip keeps the checklist's shape |
| Sequencer.SkipWalkCloses | src/main/java/frc/robot/TestChecklist.java:273-284 | the skip loop marks every step from the cursor to the next main step incomplete, changes nothing else, and puts the cursor one past that main step, or on the terminal step |
| Sequencer.SkipCases | src/main/java/frc/robot/TestChecklist.java:273-284 | from main step k < 25 the cursor becomes k + 1 and only step k turns incomplete; from a sub-step every step up to the next main step turns incomplete and the cursor lands one past it; at 25 the cursor stays; no state or status changes |
| Sequencer.Apply | src/main/java/frc/robot/TestChecklist.java:228-229 | evaluating step k replaces item k and no other; the Step button is cleared exactly when the step read it and the TeleOp toggle exactly when the step cleared it; the cursor, the enable flag, Skip and Reset are kept |
| Sequencer.Prepare | src/main/java/frc/robot/TestChecklist.java:217-222 | after the Reset and Skip handling the checklist keeps its shape and neither Skip nor Reset is pending |
| Sequencer.RunStep | src/main/java/frc/robot/TestChecklist.java:224-234 | running the step at the cursor leaves the cursor within 0 to 25 |
| Sequencer.Tick | src/main/java/frc/robot/TestChecklist.java:215-236 | one tick keeps the cursor within 0 to 25 |
| Sequencer.DisabledTick | src/main/java/frc/robot/TestChecklist.java:215-216 | while disabled a tick changes nothing and issues nothing |
| Sequencer.PlainTick | src/main/java/frc/robot/TestChecklist.java:228-233 | without Reset or Skip, the cursor moves by one exactly when the step under it reports complete and the cursor is below 25; a leaf under the cursor moves one state exactly when its guard holds; no other item changes |
| Sequencer.ResetTick | src/main/java/frc/robot/TestChecklist.java:217-222 | a Reset pre-empts a Skip in the same tick: every item is reset, the first step is evaluated at once, and the cursor ends at 1 or 0 as the battery passes or not |
| Sequencer.TerminalTick | src/main/java/frc/robot/TestChecklist.java:228-233 | on the terminal step, without Reset, the cursor stays at 25, and the step completes exactly when every earlier step is complete |
| Sequencer.EvaluateKeepsItemOk | src/main/java/frc/robot/TestChecklist.java:419-797 | evaluating a step keeps its title, its column and its state within its machine's range |
| Sequencer.TickKeepsWellFormed | src/main/java/frc/robot/TestChecklist.java:215-236 | every tick keeps the checklist well formed |
| Sequencer.Run | src/main/java/frc/robot/TestChecklist.java:215-236 | any number of ticks keeps the cursor within 0 to 25 |
| Sequencer.TerminalIsFinal | src/main/java/frc/robot/TestChecklist.java:228-233 | once the cursor is at 25 it stays there through any ticks, presses and completions without Reset |
| Sequencer.StallsWithoutPress | src/main/java/frc/robot/TestChecklist.java:257-263 | a leaf under the cursor waiting for Step keeps its state, stays incomplete and holds the cursor for as long as no button is pressed |
| Checklist.TestChecklist.constructor | src/main/java/frc/robot/TestChecklist.java:89-147 | a new checklist is disabled, with the cursor at 0 and the 26 initial items, and is well formed |
| Checklist.TestChecklist.TestInit | src/main/java/frc/robot/TestChecklist.java:207-213 | enables, resets and clears the TeleOp toggle, and keeps the checklist well formed |
| Checklist.TestChecklist.TestExit | src/main/java/frc/robot/TestChecklist.java:238-241 | disables and changes nothing else, so the checklist stays well formed |
| Checklist.TestChecklist.TestPeriodic | src/main/java/frc/robot/TestChecklist.java:215-236 | the new state and the commands are those of one tick of the value model, and a well-formed checklist stays well formed |
| Checklist.TestChecklist.HandleButtons | src/main/java/frc/robot/TestChecklist.java:217-222 | reading Reset and then Skip has the effect of the value model's first half of a tick |
| Checklist.TestChecklist.RunCurrentStep | src/main/java/frc/robot/TestChecklist.java:224-234 | the TeleOp command, the step's evaluation and the cursor move are those of the value model's second half of a tick |
| Checklist.TestChecklist.GetCurrentStep | src/main/java/frc/robot/TestChecklist.java:243-248 | "Disabled" while disabled, otherwise the table title of the step under the cursor |
| Checklist.TestChecklist.GetCurrentStepStatus | src/main/java/frc/robot/TestChecklist.java:250-255 | the fixed "Place DriverStation in Test Mode to run checklists" text while disabled, otherwise the status of the step under the cursor |
| Checklist.TestChecklist.GetDoStep | src/main/java/frc/robot/TestChecklist.java:257-263 | returns the Step latch and clears it, changing nothing else |
| Checklist.TestChecklist.GetSkipStep | src/main/java/frc/robot/TestChecklist.java:265-271 | returns the Skip latch and clears it, changing nothing else |
| Checklist.TestChecklist.GetResetTests | src/main/java/frc/robot/TestChecklist.java:286-292 | returns the Reset latch and clears it, changing nothing else |
| Checklist.TestChecklist.GetEnableTeleop | src/main/java/frc/robot/TestChecklist.java:304-306 | returns the TeleOp toggle of the value model |
| Checklist.TestChecklist.ResetTeleopWidget | src/main/java/frc/robot/TestChecklist.java:308-310 | clears the TeleOp toggle and nothing else |
| Checklist.TestChecklist.DoSkipStep | src/main/java/frc/robot/TestChecklist.java:273-284 | the loop does what the skip of the value model does |
| Checklist.TestChecklist.DoResetTests | src/main/java/frc/robot/TestChecklist.java:294-302 | the loop does what the reset of the value model does |
| Checklist.TestChecklist.RunTest | src/main/java/frc/robot/TestChecklist.java:228-229 | running the step under the cursor has the effect of that step's evaluation |
| Checklist.TestChecklist.CheckBattery | src/main/java/frc/robot/TestChecklist.java:329-334 | shows voltage and threshold, and completes exactly when the voltage is high enough |
| Checklist.TestChecklist.CheckDevices | src/main/java/frc/robot/TestChecklist.java:336-417 | the appending loop gives the device step's evaluation |
| Checklist.TestChecklist.CheckSwerveModules | src/main/java/frc/robot/TestChecklist.java:441-451 | stores and returns the AND of steps 2 to 5 |
| Checklist.TestChecklist.CheckGyro | src/main/java/frc/robot/TestChecklist.java:501-509 | stores and returns the AND of steps 7 and 8 |
| Checklist.TestChecklist.CheckLimitSwitches | src/main/java/frc/robot/TestChecklist.java:555-563 | stores and returns the AND of steps 10 and 11 |
| Checklist.TestChecklist.CheckArm | src/main/java/frc/robot/TestChecklist.java:667-676 | stores and returns the AND of steps 14 to 16 |
| Checklist.TestChecklist.CheckGrip | src/main/java/frc/robot/TestChecklist.java:733-742 | stores and returns the AND of steps 18 to 20 |
| Checklist.TestChecklist.CheckControllers | src/main/java/frc/robot/TestChecklist.java:778-786 | stores and returns the AND of steps 22 and 23 |
| Checklist.TestChecklist.AllTestsComplete | src/main/java/frc/robot/TestChecklist.java:788-797 | the accumulator loop stores and returns the AND of steps 0 to 24 |
| Checklist.TestChecklist.TestSwerveModule | src/main/java/frc/robot/TestChecklist.java:419-439 | the in-place update is the module step's evaluation |
| Checklist.TestChecklist.CheckGyroYaw | src/main/java/frc/robot/TestChecklist.java:453-475 | the in-place update is the yaw step's evaluation |
| Checklist.TestChecklist.CheckGyroPitch | src/main/java/frc/robot/TestChecklist.java:477-499 | the in-place update is the pitch step's evaluation |
| Checklist.TestChecklist.CheckArmExtendSwitch | src/main/java/frc/robot/TestChecklist.java:511-531 | the in-place update is the extend switch step's evaluation |
| Checklist.TestChecklist.CheckArmLiftSwitch | src/main/java/frc/robot/TestChecklist.java:533-553 | the in-place update is the lift switch step's evaluation |
| Checklist.TestChecklist.CheckArmCalibrate | src/main/java/frc/robot/TestChecklist.java:565-598 | the in-place update is the calibration step's evaluation, including clearing the TeleOp toggle |
| Checklist.TestChecklist.CheckArmLiftMaxHeight | src/main/java/frc/robot/TestChecklist.java:600-619 | the in-place update is the lift step's evaluation |
| Checklist.TestChecklist.CheckArmExtendMaxLength | src/main/java/frc/robot/TestChecklist.java:621-640 | the in-place update is the extend step's evaluation |
| Checklist.TestChecklist.CheckArmToZero | src/main/java/frc/robot/TestChecklist.java:642-665 | the in-place update is the zeroing step's evaluation |
| Checklist.TestChecklist.CheckCompressor | src/main/java/frc/robot/TestChecklist.java:678-694 | the in-place update is the compressor step's evaluation |
| Checklist.TestChecklist.CheckLeaks | src/main/java/frc/robot/TestChecklist.java:696-708 | the in-place update is the leak step's evaluation |
| Checklist.TestChecklist.CheckGripperOpenClose | src/main/java/frc/robot/TestChecklist.java:710-731 | the in-place update is the actuator step's evaluation |
| Checklist.TestChecklist.CheckDriverController | src/main/java/frc/robot/TestChecklist.java:744-759 | the in-place update is the driver controller step's evaluation |
| Checklist.TestChecklist.CheckOperatorController | src/main/java/frc/robot/TestChecklist.java:761-776 | the in-place update is the operator controller step's evaluation |
| DualJoysticks.Reading | src/main/java/frc/robot/operator_interface/DualJoysticksOI.java:38-70 | every flag other than 0 to 8 reads true outright |
| DualJoysticks.LatchRow | src/main/java/frc/robot/operator_interface/DualJoysticksOI.java:35-73 | a flag already true stays true; a false flag takes the current reading; every flag from index 9 on is true afterwards |
| DualJoysticks.AllTrue | src/main/java/frc/robot/operator_interface/DualJoysticksOI.java:94-99 | the AND fold over a row is true exactly when every flag is true |
| DualJoysticks.ResultsOf | src/main/java/frc/robot/operator_interface/DualJoysticksOI.java:88-102 | testResults keeps the table's shape and never touches the operator row 2 |
| DualJoysticks.ClearRows | src/main/java/frc/robot/operator_interface/DualJoysticksOI.java:76-85 | the driver mode clears rows 0 and 1 and keeps row 2; the operator mode clears row 2 and keeps rows 0 and 1; mode 2, owned by neither, changes nothing, and so does a mode outside 0 to 2, for which testOI throws before writing a flag |
| DualJoysticks.DriverResultMeaning | src/main/java/frc/robot/operator_interface/DualJoysticksOI.java:88-100 | the driver result is true exactly when every flag of rows 0 and 1 is true after latching; row 2 is untouched |
| DualJoysticks.OtherModeResult | src/main/java/frc/robot/operator_interface/DualJoysticksOI.java:89-101 | any other mode returns true and changes no flag |
| DualJoysticks.PassedStaysPassed | src/main/java/frc/robot/operator_interface/DualJoysticksOI.java:36-38 | with both driver rows true, a driver test passes and changes nothing |
| DualJoysticks.Replay | src/main/java/frc/robot/operator_interface/DualJoysticksOI.java:76-102 | any run of testResults and testOI calls, an out-of-range testOI included, keeps the table's shape |
| DualJoysticks.ReplayKeepsPassed | src/main/java/frc/robot/operator_interface/DualJoysticksOI.java:76-102 | no sequence of calls without a driver-mode testOI clears a passed driver row |
| DualJoysticks.DriverPassIsSticky | src/main/java/frc/robot/operator_interface/DualJoysticksOI.java:88-102 | once testResults(DRIVER) has returned true it keeps returning true, whatever is read, until testOI(DRIVER) |
| DualJoysticks.DualJoysticksOI.constructor | src/main/java/frc/robot/operator_interface/DualJoysticksOI.java:18 | the table starts as three rows of twenty false flags |
| DualJoysticks.DualJoysticksOI.TestController | src/main/java/frc/robot/operator_interface/DualJoysticksOI.java:35-73 | the loop latches one row of the table as the value model does and leaves the other rows alone |
| DualJoysticks.DualJoysticksOI.TestOI | src/main/java/frc/robot/operator_interface/DualJoysticksOI.java:76-85 | the clearing loop clears the rows of the mode as the value model does; a mode outside 0 to 2 is reported as `outOfRange`, the ArrayIndexOutOfBoundsException of the source, with the table unchanged |
| DualJoysticks.DualJoysticksOI.TestResults | src/main/java/frc/robot/operator_interface/DualJoysticksOI.java:88-102 | the table and the result are those of the value model |

## Left out

- `doTeleop` (TestChecklist.java:312-327) is deadband and drive arithmetic on doubles, calling the arm and the drive train. A tick that runs it issues the single command `Teleop`.
- Floating-point sensor values are out. The battery voltage against its threshold, the arm positions against their thresholds and the pressure switch are booleans of the `Probe`. The voltage, threshold and gyro angle texts are opaque strings.
- Hardware calls are not executed. The motor, encoder, gyro, compressor, gripper and `testOI` calls a step makes are returned as `Command`s, and the numeric motor outputs and targets are names.
- The two controller steps read their test result as a `Probe` boolean. The checklist is not linked to a `DualJoysticksOI` object. Note that, as written, `testResults(OPERATOR)` returns true without reading a joystick (`DualJoysticks.OtherModeResult`).
- The device list of `checkDevices` is any list of devices. The source checks a fixed list of 17 devices, one `if` per device. The CAN ids are opaque text.
- Widget plumbing is out: the Shuffleboard layout, widget colours (`setCurrentStep`, the colour in `reset`) and rows. The completion flag of a step is the `complete` field of its item.
- The compressor calls in `testInit` and `testExit` (TestChecklist.java:209, 240) are out.
- `DRIVER` and `OPERATOR` are declared in OperatorInterface.java, which is not part of this model. They are taken to be 0 and 1.
- Each flag of `testController` reads one boolean per axis ("deflected past the deadband in the positive direction") and per button. The source reads buttons numbered 0 to 5, while the constructor's comment says buttons are numbered from 1. Whether button 0 can ever read pressed depends on the joystick library and is not modelled.
- The joystick getters, `getDriveScaling` and `getRotateScaling` of DualJoysticksOI.java are out. They are library wrappers, double clamping and printing.
- PneumaticsIO.java, ArmConstants.java and TeleopArm.java are out. They are an interface of empty defaults, floating-point constants and a thin command.
- A tick reads each sensor once. The only sensor `checkBattery` reads twice in one call is the battery voltage (TestChecklist.java:331 and :333). The model keeps those two reads apart: `voltageText` is the shown value and `voltageOk` the comparison.
- DualJoysticks.DualJoysticksOI.TestOI: the ArrayIndexOutOfBoundsException that testOI throws for a mode outside 0 to 2 is the result `outOfRange`, with the table unchanged. How a caller handles the exception is out.
