/** The steps of the robot's test checklist: the fixed list of checklist
    items, the hardware readings and commands a step uses, and what one
    evaluation of each step does to its item (TestChecklist.java). */
module Steps {
  import DualJoysticks

  // Positions of the steps in the checklist.
  const BatteryTest := 0
  const DevicesTest := 1
  const SwerveMod0 := 2
  const SwerveModules := 6
  const GyroYawTest := 7
  const GyroPitchTest := 8
  const GyroTest := 9
  const ExtendSwitchTest := 10
  const LiftSwitchTest := 11
  const LimitSwitchTest := 12
  const ArmCalibrate := 13
  const ArmMaxLiftTest := 14
  const ArmMaxExtendTest := 15
  const ArmToZero := 16
  const ArmTest := 17
  const GripCompressor := 18
  const GripLeaksCheck := 19
  const GripCloseOpenClose := 20
  const GripTests := 21
  const DriverCtrlTests := 22
  const OperatorCtrlTests := 23
  const ControllerTests := 24
  /** The terminal step; the cursor never moves past it. */
  const TestsComplete := 25
  const StepCount := 26

  const Titles: seq<string> := [
    "1. Battery Test", "2. CAN Devices",
    "3a. Module 0", "3b. Module 1", "3c. Module 2", "3d. Module 3", "3. Swerve Module Test",
    "4a. Yaw", "4b. Pitch", "4. Gyro Test",
    "5a. Extend", "5b. Lift", "5. Limit Switches",
    "6a. Calibrate", "6b. Lift MaxHeight", "6c. Extend MaxLength", "6d. Zero Arm", "6. Arm Tests",
    "7a. Compressor", "7b. Check for Leaks", "7c. Actuator Tests", "7. Grip Tests",
    "8a. Driver Ctrls", "8b. Operator Ctrls", "8. Controller Tests",
    "Tests Complete"]

  /** Display column of each step; 0 marks a main step. Sub-steps come
      before the main step that closes their group. */
  const Columns: seq<int> := [
    0, 0,
    2, 4, 6, 8, 0,
    2, 4, 0,
    2, 4, 0,
    2, 4, 6, 8, 0,
    2, 4, 6, 0,
    2, 4, 0,
    0]

  /** One checklist entry. The completion flag is the dashboard box that
      the source reads back with isComplete. */
  datatype Item = Item(title: string, column: int, state: int, status: string, complete: bool)
  {
    predicate IsMainStep() { column == 0 }

    /** reset: back to state 0 with no status and not complete. */
    function Reset(): (r: Item)
      ensures r.title == title && r.column == column
      ensures r.state == 0 && r.status == "" && !r.complete
    {
      this.(state := 0, status := "", complete := false)
    }
  }

  function InitialItems(): (items: seq<Item>)
    ensures |items| == StepCount
    ensures forall i :: 0 <= i < StepCount ==>
      items[i].title == Titles[i] && items[i].column == Columns[i] &&
      items[i].state == 0 && items[i].status == "" && !items[i].complete
  {
    seq(StepCount, i requires 0 <= i < StepCount => Item(Titles[i], Columns[i], 0, "", false))
  }

  // ---------------------------------------------------------------------
  // Hardware seen through booleans and opaque text

  datatype DeviceKind = TalonFX | CANCoder | Gyro | PH | PDP | SparkMax

  /** A CAN device as checkDevices probes it; `id` is the text the source
      prints between the parentheses. */
  datatype Device = Device(kind: DeviceKind, id: string, present: bool)

  /** What the step functions read from the robot during one tick. Each
      floating-point comparison of the source is one boolean here. */
  datatype Probe = Probe(
    voltageText: string, thresholdText: string, voltageOk: bool,
    devices: seq<Device>,
    extendMinSwitch: bool, liftMinSwitch: bool,
    liftAtMaxHeight: bool, extendAtMaxLength: bool,
    extendRetracted: bool, liftLowered: bool,
    pressureSwitch: bool,
    yawText: string, pitchText: string,
    driverControlsPass: bool, operatorControlsPass: bool)

  datatype MotorOutput = Stop | ResetOutput | ReverseResetOutput
  datatype Target = MaxPosition | ZeroPosition

  /** The hardware commands a step may issue. `Teleop` stands for one run of
      the teleoperation pass-through. */
  datatype Command =
    | DriveTestModule(swerveModule: int, speed: real, angle: real)
    | GyroReset
    | ExtendMotor(output: MotorOutput)
    | LiftMotor(output: MotorOutput)
    | ExtendEncoderZero
    | LiftEncoderZero
    | ExtendTarget(target: Target)
    | LiftTarget(target: Target)
    | EnableCompressor
    | GripClose
    | GripOpen
    | TestOI(mode: int)
    | Teleop

  /** The effect of one evaluation of one step: its new item, whether it
      read (and so cleared) the do-step latch, whether it cleared the teleop
      toggle, and the commands it issued. The value the step returns is
      `item.complete`. */
  datatype Eval = Eval(item: Item, readDoStep: bool, clearTeleop: bool, cmds: seq<Command>)

  /** An evaluation leaves the title and the column of its item alone. */
  predicate Keeps(it: Item, e: Eval)
  {
    e.item.title == it.title && e.item.column == it.column
  }

  function Stay(it: Item, readDoStep: bool): Eval { Eval(it, readDoStep, false, []) }

  function Digit(n: int): string
    requires 0 <= n < 10
  {
    [(('0' as int) + n) as char]
  }

  // ---------------------------------------------------------------------
  // Status texts the steps display.
  const DevicesPresentText: string := "All devices present"
  const ClickStartMotorText: string := "Click 'Step' to Start Motor "
  const VerifyMotorText: string := "Verify motor is moving forward, angle is 90 degrees - flip toggle when complete"
  const ModulePrefix: string := "Module "
  const ModuleCompleteSuffix: string := " complete"
  const ClickDoStepStartYawTestText: string := "Click DoStep to start Yaw Test"
  const RotateRobotAboutYawText: string := "Rotate robot about Yaw"
  const GyroTestCompleteText: string := "Gyro test complete"
  const YawPrefix: string := "Yaw: "
  const ClickStartGyroPitchTestText: string := "Click 'Step' to Start Gyro Pitch Test"
  const LiftRobotCheckPitchText: string := "Lift robot to check Pitch"
  const PitchPrefix: string := "Pitch: "
  const ExtendingArmText: string := "Extending Arm"
  const ClickArmExtendLimitSwitchText: string := "Click Arm Extend Limit Switch"
  const ReleaseArmExtendLimitSwitchText: string := "Release Arm Extend Limit Switch"
  const ArmExtendLimitSwitchCompleteText: string := "Arm Extend Limit Switch complete"
  const LiftingArmText: string := "Lifting Arm"
  const ClickArmLiftLimitSwitchText: string := "Click Arm Lift Limit Switch"
  const ReleaseArmLiftLimitSwitchText: string := "Release Arm Lift Limit Switch"
  const ArmLiftLimitSwitchCompleteText: string := "Arm Lift Limit Switch complete"
  const ClickStartArmCalibrationText: string := "Click 'Step' to Start Arm Calibration"
  const CalibratingExtendArmText: string := "Calibrating Extend Arm"
  const CalibratingLiftArmText: string := "Calibrating Lift Arm"
  const CalibratingArmCompleteText: string := "Calibrating Arm Complete"
  const ClickRaiseArmMaxHeightText: string := "Click 'Step' to Raise Arm to Max Height"
  const RaisingArmText: string := "Raising Arm"
  const ArmRaisedMaxHeightMeasureText: string := "Arm Raised to Max Height - Measure"
  const ClickExtendArmMaxLengthText: string := "Click 'Step' to Extend Arm to Max Length"
  const ArmExtendedMaxLengthMeasureText: string := "Arm Extended to Max Length - Measure"
  const ClickResetArmZeroText: string := "Click 'Step' to reset Arm to Zero"
  const RetractingArmText: string := "Retracting Arm"
  const LoweringArmText: string := "Lowering Arm"
  const ArmSetZeroPositionText: string := "Arm Set to Zero Position"
  const ClickStartCompressorText: string := "Click 'Step' to Start Compressor"
  const CompressorEnabledText: string := "Compressor Enabled - waiting for full pressure"
  const CompressorCheckCompleteText: string := "Compressor check complete"
  const ClickAfterCheckingLeaksText: string := "Click 'Step' after checking for leaks"
  const ClickCloseGripperText: string := "Click 'Step' to Close Gripper"
  const ClickOpenGripperText: string := "Click 'Step' to Open Gripper"
  const ActuatorTestCompleteText: string := "Actuator Test Complete"
  const ClickPressDriverText: string := "Click 'Step' and press all Driver buttons/axis"
  const PressDriverText: string := "Press all Driver controller buttons/axis"
  const ClickPressOperatorText: string := "Click 'Step' and press all Operator buttons/axis"
  const PressOperatorText: string := "Press all Operator controller buttons/axis"
  const ModuleTestsCompleteText: string := "Module Tests complete"
  const ArmLimitSwitchesCompleteText: string := "Arm Limit Switches complete"
  const ArmTestsCompleteText: string := "Arm Tests complete"
  const GripTestsCompleteText: string := "Grip Tests complete"
  const TestsCompletedText: string := "All Tests Completed"

  // Steps recomputed on every call

  function Battery(it: Item, hw: Probe): (e: Eval)
    ensures Keeps(it, e) && e.item.state == it.state
    ensures e.item.complete == hw.voltageOk
    ensures !e.readDoStep && !e.clearTeleop && e.cmds == []
  {
    Stay(it.(status := hw.voltageText + " | " + hw.thresholdText, complete := hw.voltageOk), false)
  }

  function KindName(k: DeviceKind): string
  {
    match k
    case TalonFX => "TalonFX"
    case CANCoder => "CANCoder"
    case Gyro => "Gyro"
    case PH => "PH"
    case PDP => "PDP"
    case SparkMax => "SparkMax"
  }

  function Label(d: Device): (s: string)
    ensures |s| > 0
  {
    KindName(d.kind) + "(" + d.id + ") "
  }

  predicate AllPresent(devs: seq<Device>)
  {
    forall i :: 0 <= i < |devs| ==> devs[i].present
  }

  /** The labels of the devices that are not present, in list order. */
  function MissingText(devs: seq<Device>): (s: string)
    ensures s == "" <==> AllPresent(devs)
  {
    if devs == [] then ""
    else
      var last := devs[|devs| - 1];
      MissingText(devs[..|devs| - 1]) + (if last.present then "" else Label(last))
  }

  /** The missing-device text of a list is the text of its first part
      followed by the text of the rest: labels appear in list order. */
  lemma {:induction false} MissingTextConcat(a: seq<Device>, b: seq<Device>)
    ensures MissingText(a + b) == MissingText(a) + MissingText(b)
    decreases |b|
  {
    if b == [] {
      assert a + b == a;
    } else {
      MissingTextConcat(a, b[..|b| - 1]);
      ConcatLast(a, b);
    }
  }

  /** The induction step of MissingTextConcat, for the last device of b. */
  lemma ConcatLast(a: seq<Device>, b: seq<Device>)
    requires b != []
    requires MissingText(a + b[..|b| - 1]) == MissingText(a) + MissingText(b[..|b| - 1])
    ensures MissingText(a + b) == MissingText(a) + MissingText(b)
  {
    UnfoldLast([], b);
    UnfoldLast(a, b);
    assert [] + b == b && [] + b[..|b| - 1] == b[..|b| - 1];
    AppendAssoc(MissingText(a), MissingText(b[..|b| - 1]),
                if b[|b| - 1].present then "" else Label(b[|b| - 1]));
  }

  lemma AppendAssoc(x: string, y: string, z: string)
    ensures (x + y) + z == x + (y + z)
  {
  }

  lemma UnfoldLast(a: seq<Device>, b: seq<Device>)
    requires b != []
    ensures MissingText(a + b) ==
            MissingText(a + b[..|b| - 1]) + (if b[|b| - 1].present then "" else Label(b[|b| - 1]))
  {
    var ab := a + b;
    assert ab[..|ab| - 1] == a + b[..|b| - 1];
    assert ab[|ab| - 1] == b[|b| - 1];
  }

  /** One more device of the list: its label is appended exactly when it
      is missing. */
  lemma MissingTextStep(devs: seq<Device>, i: int)
    requires 0 <= i < |devs|
    ensures MissingText(devs[..i + 1]) ==
            MissingText(devs[..i]) + (if devs[i].present then "" else Label(devs[i]))
    ensures AllPresent(devs[..i + 1]) == (AllPresent(devs[..i]) && devs[i].present)
  {
    assert devs[..i + 1][..i] == devs[..i];
    assert devs[..i + 1][i] == devs[i];
  }

  /** A single device contributes its label exactly when it is missing. */
  lemma MissingTextOne(d: Device)
    ensures MissingText([d]) == if d.present then "" else Label(d)
  {
    assert [d][..0] == [];
  }

  function Devices(it: Item, devs: seq<Device>): (e: Eval)
    ensures Keeps(it, e) && e.item.state == it.state
    ensures e.item.complete == AllPresent(devs)
    ensures e.item.status != ""
    ensures !e.readDoStep && !e.clearTeleop && e.cmds == []
  {
    var ok := AllPresent(devs);
    Stay(it.(status := if ok then DevicesPresentText else MissingText(devs), complete := ok), false)
  }

  // ---------------------------------------------------------------------
  // Leaf state machines

  function SwerveModule(mod: int, it: Item, doStep: bool): (e: Eval)
    ensures Keeps(it, e)
    requires 0 <= mod < 4
  {
    if it.state == 0 then
      if !doStep then Stay(it.(status := ClickStartMotorText + Digit(mod)), true)
      else Eval(it.(state := 1, status := VerifyMotorText),
                true, false, [DriveTestModule(mod, 0.5, 90.0)])
    else if it.state == 1 then
      if doStep then Eval(it.(state := 2, status := ModulePrefix + Digit(mod) + ModuleCompleteSuffix, complete := true),
                          true, false, [DriveTestModule(mod, 0.0, 0.0)])
      else Stay(it, true)
    else Stay(it, false)
  }

  function GyroYaw(it: Item, doStep: bool, yawText: string): (e: Eval)
    ensures Keeps(it, e)
  {
    if it.state == 0 then
      if !doStep then Stay(it.(status := ClickDoStepStartYawTestText), true)
      else Eval(it.(state := 1, status := RotateRobotAboutYawText), true, false, [GyroReset])
    else if it.state == 1 then
      if doStep then Stay(it.(state := 2, status := GyroTestCompleteText, complete := true), true)
      else Stay(it.(status := YawPrefix + yawText), true)
    else Stay(it, false)
  }

  function GyroPitch(it: Item, doStep: bool, pitchText: string): (e: Eval)
    ensures Keeps(it, e)
  {
    if it.state == 0 then
      if !doStep then Stay(it.(status := ClickStartGyroPitchTestText), true)
      else Eval(it.(state := 1, status := LiftRobotCheckPitchText), true, false, [GyroReset])
    else if it.state == 1 then
      if doStep then Stay(it.(state := 2, status := GyroTestCompleteText, complete := true), true)
      else Stay(it.(status := PitchPrefix + pitchText), true)
    else Stay(it, false)
  }

  function ExtendSwitch(it: Item, pressed: bool): (e: Eval)
    ensures Keeps(it, e)
  {
    if it.state == 0 then
      if pressed then Eval(it.(status := ExtendingArmText), false, false, [ExtendMotor(ReverseResetOutput)])
      else Eval(it.(state := 1, status := ClickArmExtendLimitSwitchText), false, false, [ExtendMotor(Stop)])
    else if it.state == 1 && pressed then
      Stay(it.(state := 2, status := ReleaseArmExtendLimitSwitchText), false)
    else if it.state == 2 && !pressed then
      Stay(it.(state := 3, status := ArmExtendLimitSwitchCompleteText, complete := true), false)
    else Stay(it, false)
  }

  function LiftSwitch(it: Item, pressed: bool): (e: Eval)
    ensures Keeps(it, e)
  {
    if it.state == 0 then
      if pressed then Eval(it.(status := LiftingArmText), false, false, [LiftMotor(ReverseResetOutput)])
      else Eval(it.(state := 1, status := ClickArmLiftLimitSwitchText), false, false, [LiftMotor(Stop)])
    else if it.state == 1 && pressed then
      Stay(it.(state := 2, status := ReleaseArmLiftLimitSwitchText), false)
    else if it.state == 2 && !pressed then
      Stay(it.(state := 3, status := ArmLiftLimitSwitchCompleteText, complete := true), false)
    else Stay(it, false)
  }

  function Calibrate(it: Item, doStep: bool, extendMin: bool, liftMin: bool): (e: Eval)
    ensures Keeps(it, e)
  {
    if it.state == 0 then
      if !doStep then Stay(it.(status := ClickStartArmCalibrationText), true)
      else Eval(it.(state := 1, status := CalibratingExtendArmText), true, true,
                if !extendMin then [ExtendMotor(ResetOutput)] else [])
    else if it.state == 1 then
      if extendMin then
        Eval(it.(state := 2, status := CalibratingLiftArmText), false, false,
             [ExtendMotor(Stop), ExtendEncoderZero] + (if !liftMin then [LiftMotor(ResetOutput)] else []))
      else Stay(it, false)
    else if it.state == 2 then
      if liftMin then
        Eval(it.(state := 3, status := CalibratingArmCompleteText, complete := true), false, false,
             [LiftMotor(Stop), LiftEncoderZero])
      else Stay(it, false)
    else Stay(it, false)
  }

  function LiftMaxHeight(it: Item, doStep: bool, atMax: bool): (e: Eval)
    ensures Keeps(it, e)
  {
    if it.state == 0 then
      if !doStep then Stay(it.(status := ClickRaiseArmMaxHeightText), true)
      else Eval(it.(state := 1, status := RaisingArmText), true, false, [LiftTarget(MaxPosition)])
    else if it.state == 1 && atMax then
      Stay(it.(state := 2, status := ArmRaisedMaxHeightMeasureText, complete := true), false)
    else Stay(it, false)
  }

  function ExtendMaxLength(it: Item, doStep: bool, atMax: bool): (e: Eval)
    ensures Keeps(it, e)
  {
    if it.state == 0 then
      if !doStep then Stay(it.(status := ClickExtendArmMaxLengthText), true)
      else Eval(it.(state := 1, status := ExtendingArmText), true, false, [ExtendTarget(MaxPosition)])
    else if it.state == 1 && atMax then
      Stay(it.(state := 2, status := ArmExtendedMaxLengthMeasureText, complete := true), false)
    else Stay(it, false)
  }

  function ToZero(it: Item, doStep: bool, retracted: bool, lowered: bool): (e: Eval)
    ensures Keeps(it, e)
  {
    if it.state == 0 then
      if !doStep then Stay(it.(status := ClickResetArmZeroText), true)
      else Eval(it.(state := 1, status := RetractingArmText), true, false, [ExtendTarget(ZeroPosition)])
    else if it.state == 1 && retracted then
      Eval(it.(state := 2, status := LoweringArmText), false, false, [LiftTarget(ZeroPosition)])
    else if it.state == 2 && lowered then
      Stay(it.(state := 3, status := ArmSetZeroPositionText, complete := true), false)
    else Stay(it, false)
  }

  function Compressor(it: Item, doStep: bool, pressureSwitch: bool): (e: Eval)
    ensures Keeps(it, e)
  {
    if it.state == 0 then
      if !doStep then Stay(it.(status := ClickStartCompressorText), true)
      else Eval(it.(state := 1, status := CompressorEnabledText), true, false, [EnableCompressor])
    else if it.state == 1 && !pressureSwitch then
      Stay(it.(state := 2, status := CompressorCheckCompleteText, complete := true), false)
    else Stay(it, false)
  }

  /** The source gives this step the status text of the lift test. */
  function Leaks(it: Item, doStep: bool): (e: Eval)
    ensures Keeps(it, e)
  {
    if it.state == 0 then
      if !doStep then Stay(it.(status := ClickAfterCheckingLeaksText), true)
      else Stay(it.(state := 1, status := ArmRaisedMaxHeightMeasureText, complete := true), true)
    else Stay(it, false)
  }

  function GripperOpenClose(it: Item, doStep: bool): (e: Eval)
    ensures Keeps(it, e)
  {
    if it.state == 0 then
      if !doStep then Stay(it.(status := ClickCloseGripperText), true)
      else Eval(it.(state := 1, status := ClickOpenGripperText), true, false, [GripClose])
    else if it.state == 1 then
      if doStep then Eval(it.(state := 2, status := ClickCloseGripperText), true, false, [GripOpen])
      else Stay(it, true)
    else if it.state == 2 then
      if doStep then Eval(it.(state := 3, status := ActuatorTestCompleteText, complete := true), true, false, [GripClose])
      else Stay(it, true)
    else Stay(it, false)
  }

  /** The source leaves the status unchanged on completion. */
  function DriverController(it: Item, doStep: bool, pass: bool): (e: Eval)
    ensures Keeps(it, e)
  {
    if it.state == 0 then
      if !doStep then Stay(it.(status := ClickPressDriverText), true)
      else Eval(it.(state := 1, status := PressDriverText), true, false,
                [TestOI(DualJoysticks.Driver)])
    else if it.state == 1 && pass then
      Stay(it.(state := 2, complete := true), false)
    else Stay(it, false)
  }

  function OperatorController(it: Item, doStep: bool, pass: bool): (e: Eval)
    ensures Keeps(it, e)
  {
    if it.state == 0 then
      if !doStep then Stay(it.(status := ClickPressOperatorText), true)
      else Eval(it.(state := 1, status := PressOperatorText), true, false,
                [TestOI(DualJoysticks.Operator)])
    else if it.state == 1 && pass then
      Stay(it.(state := 2, complete := true), false)
    else Stay(it, false)
  }

  // ---------------------------------------------------------------------
  // Parent steps: recomputed from the completion of named children

  predicate IsParent(k: int)
  {
    k == SwerveModules || k == GyroTest || k == LimitSwitchTest || k == ArmTest ||
    k == GripTests || k == ControllerTests || k == TestsComplete
  }

  /** The children each parent ANDs. The arm parent leaves out the
      calibration step 13, as the source does; the terminal step takes
      every step before it, sub-steps included. */
  function Children(k: int): (c: seq<int>)
    requires IsParent(k)
    ensures forall i :: 0 <= i < |c| ==> 0 <= c[i] < k
  {
    if k == SwerveModules then [2, 3, 4, 5]
    else if k == GyroTest then [7, 8]
    else if k == LimitSwitchTest then [10, 11]
    else if k == ArmTest then [14, 15, 16]
    else if k == GripTests then [18, 19, 20]
    else if k == ControllerTests then [22, 23]
    else seq(TestsComplete, i => i)
  }

  /** The controller parent reuses the grip parent's text, as in the source. */
  function ParentStatus(k: int): string
    requires IsParent(k)
  {
    if k == SwerveModules then ModuleTestsCompleteText
    else if k == GyroTest then GyroTestCompleteText
    else if k == LimitSwitchTest then ArmLimitSwitchesCompleteText
    else if k == ArmTest then ArmTestsCompleteText
    else if k == GripTests then GripTestsCompleteText
    else if k == ControllerTests then GripTestsCompleteText
    else TestsCompletedText
  }

  /** Left-to-right AND of the completion flags at the given positions. */
  function AllComplete(items: seq<Item>, idx: seq<int>): (r: bool)
    requires forall i :: 0 <= i < |idx| ==> 0 <= idx[i] < |items|
    ensures r <==> forall i :: 0 <= i < |idx| ==> items[idx[i]].complete
  {
    if idx == [] then true
    else AllComplete(items, idx[..|idx| - 1]) && items[idx[|idx| - 1]].complete
  }

  /** checkSwerveModules ANDs the four module steps. */
  lemma SwerveModulesGroup(items: seq<Item>)
    requires |items| == StepCount
    ensures AllComplete(items, Children(SwerveModules)) ==
            (items[SwerveMod0].complete && items[SwerveMod0 + 1].complete && items[SwerveMod0 + 2].complete && items[SwerveMod0 + 3].complete)
  {
    var c := Children(SwerveModules);
    assert c == [2, 3, 4, 5];
    if items[2].complete && items[3].complete && items[4].complete && items[5].complete {
      forall i | 0 <= i < |c| ensures items[c[i]].complete {
        assert i == 0 || i == 1 || i == 2 || i == 3;
      }
    } else {
      assert !items[c[0]].complete || !items[c[1]].complete || !items[c[2]].complete || !items[c[3]].complete;
    }
  }

  /** checkGyro ANDs the yaw and pitch steps. */
  lemma GyroGroup(items: seq<Item>)
    requires |items| == StepCount
    ensures AllComplete(items, Children(GyroTest)) ==
            (items[GyroYawTest].complete && items[GyroPitchTest].complete)
  {
    var c := Children(GyroTest);
    assert c == [7, 8];
    if items[7].complete && items[8].complete {
      forall i | 0 <= i < |c| ensures items[c[i]].complete {
        assert i == 0 || i == 1;
      }
    } else {
      assert !items[c[0]].complete || !items[c[1]].complete;
    }
  }

  /** checkLimitSwitches ANDs the extend and lift switch steps. */
  lemma LimitSwitchGroup(items: seq<Item>)
    requires |items| == StepCount
    ensures AllComplete(items, Children(LimitSwitchTest)) ==
            (items[ExtendSwitchTest].complete && items[LiftSwitchTest].complete)
  {
    var c := Children(LimitSwitchTest);
    assert c == [10, 11];
    if items[10].complete && items[11].complete {
      forall i | 0 <= i < |c| ensures items[c[i]].complete {
        assert i == 0 || i == 1;
      }
    } else {
      assert !items[c[0]].complete || !items[c[1]].complete;
    }
  }

  /** checkArm ANDs the lift, extend and zero steps, without calibration. */
  lemma ArmGroup(items: seq<Item>)
    requires |items| == StepCount
    ensures AllComplete(items, Children(ArmTest)) ==
            (items[ArmMaxLiftTest].complete && items[ArmMaxExtendTest].complete && items[ArmToZero].complete)
  {
    var c := Children(ArmTest);
    assert c == [14, 15, 16];
    if items[14].complete && items[15].complete && items[16].complete {
      forall i | 0 <= i < |c| ensures items[c[i]].complete {
        assert i == 0 || i == 1 || i == 2;
      }
    } else {
      assert !items[c[0]].complete || !items[c[1]].complete || !items[c[2]].complete;
    }
  }

  /** checkGrip ANDs the compressor, leak and actuator steps. */
  lemma GripGroup(items: seq<Item>)
    requires |items| == StepCount
    ensures AllComplete(items, Children(GripTests)) ==
            (items[GripCompressor].complete && items[GripLeaksCheck].complete && items[GripCloseOpenClose].complete)
  {
    var c := Children(GripTests);
    assert c == [18, 19, 20];
    if items[18].complete && items[19].complete && items[20].complete {
      forall i | 0 <= i < |c| ensures items[c[i]].complete {
        assert i == 0 || i == 1 || i == 2;
      }
    } else {
      assert !items[c[0]].complete || !items[c[1]].complete || !items[c[2]].complete;
    }
  }

  /** checkControllers ANDs the driver and operator controller steps. */
  lemma ControllerGroup(items: seq<Item>)
    requires |items| == StepCount
    ensures AllComplete(items, Children(ControllerTests)) ==
            (items[DriverCtrlTests].complete && items[OperatorCtrlTests].complete)
  {
    var c := Children(ControllerTests);
    assert c == [22, 23];
    if items[22].complete && items[23].complete {
      forall i | 0 <= i < |c| ensures items[c[i]].complete {
        assert i == 0 || i == 1;
      }
    } else {
      assert !items[c[0]].complete || !items[c[1]].complete;
    }
  }

  /** allTestsComplete ANDs every step before the terminal one. */
  lemma TerminalGroup(items: seq<Item>)
    requires |items| == StepCount
    ensures AllComplete(items, Children(TestsComplete)) <==>
            forall i :: 0 <= i < TestsComplete ==> items[i].complete
  {
    var c := Children(TestsComplete);
    if AllComplete(items, c) {
      forall i | 0 <= i < TestsComplete ensures items[i].complete {
        assert c[i] == i;
      }
    }
  }

  function Aggregate(items: seq<Item>, k: int): (e: Eval)
    requires |items| == StepCount && IsParent(k)
    ensures Keeps(items[k], e) && e.item.state == items[k].state
    ensures e.item.complete <==> forall i :: 0 <= i < |Children(k)| ==> items[Children(k)[i]].complete
    ensures !e.readDoStep && !e.clearTeleop && e.cmds == []
  {
    var ok := AllComplete(items, Children(k));
    Stay(items[k].(status := ParentStatus(k), complete := ok), false)
  }

  /** The main steps (column 0) are exactly the battery and device steps,
      which close no group, and the parents, each closing the group of
      sub-steps before it. */
  lemma MainSteps(items: seq<Item>, k: int)
    requires |items| == StepCount && 0 <= k < StepCount && items[k].column == Columns[k]
    ensures items[k].IsMainStep() <==> k == BatteryTest || k == DevicesTest || IsParent(k)
  {
  }

  // ---------------------------------------------------------------------
  // Dispatch

  predicate IsMachine(k: int)
  {
    SwerveMod0 <= k < SwerveModules || k == GyroYawTest || k == GyroPitchTest ||
    k == ExtendSwitchTest || k == LiftSwitchTest || ArmCalibrate <= k <= ArmToZero ||
    GripCompressor <= k <= GripCloseOpenClose || k == DriverCtrlTests || k == OperatorCtrlTests
  }

  /** The last state of each leaf state machine; 0 for the other steps. */
  function FinalState(k: int): int
  {
    if ExtendSwitchTest <= k <= LiftSwitchTest || k == ArmCalibrate || k == ArmToZero ||
       k == GripCloseOpenClose then 3
    else if k == GripLeaksCheck then 1
    else if IsMachine(k) then 2
    else 0
  }

  /** The test that the step at position k runs (the runTest supplier of
      each entry in the source's list). */
  function Evaluate(items: seq<Item>, k: int, doStep: bool, hw: Probe): (e: Eval)
    requires |items| == StepCount && 0 <= k < StepCount
    ensures Keeps(items[k], e)
  {
    if k == BatteryTest then Battery(items[k], hw)
    else if k == DevicesTest then Devices(items[k], hw.devices)
    else if IsParent(k) then Aggregate(items, k)
    else if k < ExtendSwitchTest then DriveStep(k, items[k], doStep, hw)
    else if k < GripCompressor then ArmStep(k, items[k], doStep, hw)
    else GripOrControllerStep(k, items[k], doStep, hw)
  }

  /** The swerve module and gyro leaves. */
  function DriveStep(k: int, it: Item, doStep: bool, hw: Probe): (e: Eval)
    requires SwerveMod0 <= k < ExtendSwitchTest && !IsParent(k)
    ensures Keeps(it, e)
  {
    if k < SwerveModules then SwerveModule(k - SwerveMod0, it, doStep)
    else if k == GyroYawTest then GyroYaw(it, doStep, hw.yawText)
    else GyroPitch(it, doStep, hw.pitchText)
  }

  /** The limit switch and arm leaves. */
  function ArmStep(k: int, it: Item, doStep: bool, hw: Probe): (e: Eval)
    requires ExtendSwitchTest <= k < GripCompressor && !IsParent(k)
    ensures Keeps(it, e)
  {
    if k == ExtendSwitchTest then ExtendSwitch(it, hw.extendMinSwitch)
    else if k == LiftSwitchTest then LiftSwitch(it, hw.liftMinSwitch)
    else if k == ArmCalibrate then Calibrate(it, doStep, hw.extendMinSwitch, hw.liftMinSwitch)
    else if k == ArmMaxLiftTest then LiftMaxHeight(it, doStep, hw.liftAtMaxHeight)
    else if k == ArmMaxExtendTest then ExtendMaxLength(it, doStep, hw.extendAtMaxLength)
    else ToZero(it, doStep, hw.extendRetracted, hw.liftLowered)
  }

  /** The gripper and controller leaves. */
  function GripOrControllerStep(k: int, it: Item, doStep: bool, hw: Probe): (e: Eval)
    requires GripCompressor <= k < TestsComplete && !IsParent(k)
    ensures Keeps(it, e)
  {
    if k == GripCompressor then Compressor(it, doStep, hw.pressureSwitch)
    else if k == GripLeaksCheck then Leaks(it, doStep)
    else if k == GripCloseOpenClose then GripperOpenClose(it, doStep)
    else if k == DriverCtrlTests then DriverController(it, doStep, hw.driverControlsPass)
    else OperatorController(it, doStep, hw.operatorControlsPass)
  }

  // ---------------------------------------------------------------------
  // A second description of the leaf machines, as transition tables

  /** The states of step k that wait for the do-step latch. */
  predicate DoGated(k: int, s: int)
  {
    if SwerveMod0 <= k < SwerveModules || k == GyroYawTest || k == GyroPitchTest then 0 <= s < 2
    else if k == GripCloseOpenClose then 0 <= s < 3
    else if k == ArmCalibrate || ArmMaxLiftTest <= k <= GripLeaksCheck ||
            k == DriverCtrlTests || k == OperatorCtrlTests then s == 0
    else false
  }

  /** The guard under which step k leaves state s. */
  predicate Advances(k: int, s: int, doStep: bool, hw: Probe)
  {
    if DoGated(k, s) then doStep
    else if k == ExtendSwitchTest then
      (s == 0 && !hw.extendMinSwitch) || (s == 1 && hw.extendMinSwitch) || (s == 2 && !hw.extendMinSwitch)
    else if k == LiftSwitchTest then
      (s == 0 && !hw.liftMinSwitch) || (s == 1 && hw.liftMinSwitch) || (s == 2 && !hw.liftMinSwitch)
    else if k == ArmCalibrate then (s == 1 && hw.extendMinSwitch) || (s == 2 && hw.liftMinSwitch)
    else if k == ArmMaxLiftTest then s == 1 && hw.liftAtMaxHeight
    else if k == ArmMaxExtendTest then s == 1 && hw.extendAtMaxLength
    else if k == ArmToZero then (s == 1 && hw.extendRetracted) || (s == 2 && hw.liftLowered)
    else if k == GripCompressor then s == 1 && !hw.pressureSwitch
    else if k == DriverCtrlTests then s == 1 && hw.driverControlsPass
    else if k == OperatorCtrlTests then s == 1 && hw.operatorControlsPass
    else false
  }

  /** Evaluation e of step k from item it follows the transition tables:
      the state moves up by one exactly when the guard holds; the latch is
      read exactly in the do-gated states; the final state has no way out;
      and completion becomes true exactly on entering the final state. */
  predicate FollowsTable(k: int, it: Item, doStep: bool, hw: Probe, e: Eval)
  {
    && e.item.state == (if Advances(k, it.state, doStep, hw) then it.state + 1 else it.state)
    && e.readDoStep == DoGated(k, it.state)
    && (it.state == FinalState(k) ==> e.item == it && e.cmds == [] && !e.readDoStep)
    && e.item.complete == (it.complete || (e.item.state != it.state && e.item.state == FinalState(k)))
  }

  lemma SwerveModuleTable(mod: int, it: Item, doStep: bool, hw: Probe)
    requires 0 <= mod < 4 && 0 <= it.state <= 2
    ensures FollowsTable(SwerveMod0 + mod, it, doStep, hw, SwerveModule(mod, it, doStep))
  {
  }

  lemma YawTable(it: Item, doStep: bool, hw: Probe)
    requires 0 <= it.state <= 2
    ensures FollowsTable(GyroYawTest, it, doStep, hw, GyroYaw(it, doStep, hw.yawText))
  {
  }

  lemma PitchTable(it: Item, doStep: bool, hw: Probe)
    requires 0 <= it.state <= 2
    ensures FollowsTable(GyroPitchTest, it, doStep, hw, GyroPitch(it, doStep, hw.pitchText))
  {
  }

  lemma ExtendSwitchTable(it: Item, doStep: bool, hw: Probe)
    requires 0 <= it.state <= 3
    ensures FollowsTable(ExtendSwitchTest, it, doStep, hw, ExtendSwitch(it, hw.extendMinSwitch))
  {
  }

  lemma LiftSwitchTable(it: Item, doStep: bool, hw: Probe)
    requires 0 <= it.state <= 3
    ensures FollowsTable(LiftSwitchTest, it, doStep, hw, LiftSwitch(it, hw.liftMinSwitch))
  {
  }

  lemma CalibrateTable(it: Item, doStep: bool, hw: Probe)
    requires 0 <= it.state <= 3
    ensures FollowsTable(ArmCalibrate, it, doStep, hw, Calibrate(it, doStep, hw.extendMinSwitch, hw.liftMinSwitch))
  {
  }

  lemma LiftMaxTable(it: Item, doStep: bool, hw: Probe)
    requires 0 <= it.state <= 2
    ensures FollowsTable(ArmMaxLiftTest, it, doStep, hw, LiftMaxHeight(it, doStep, hw.liftAtMaxHeight))
  {
  }

  lemma ExtendMaxTable(it: Item, doStep: bool, hw: Probe)
    requires 0 <= it.state <= 2
    ensures FollowsTable(ArmMaxExtendTest, it, doStep, hw, ExtendMaxLength(it, doStep, hw.extendAtMaxLength))
  {
  }

  lemma ToZeroTable(it: Item, doStep: bool, hw: Probe)
    requires 0 <= it.state <= 3
    ensures FollowsTable(ArmToZero, it, doStep, hw, ToZero(it, doStep, hw.extendRetracted, hw.liftLowered))
  {
  }

  lemma CompressorTable(it: Item, doStep: bool, hw: Probe)
    requires 0 <= it.state <= 2
    ensures FollowsTable(GripCompressor, it, doStep, hw, Compressor(it, doStep, hw.pressureSwitch))
  {
  }

  lemma LeaksTable(it: Item, doStep: bool, hw: Probe)
    requires 0 <= it.state <= 1
    ensures FollowsTable(GripLeaksCheck, it, doStep, hw, Leaks(it, doStep))
  {
  }

  lemma GripperTable(it: Item, doStep: bool, hw: Probe)
    requires 0 <= it.state <= 3
    ensures FollowsTable(GripCloseOpenClose, it, doStep, hw, GripperOpenClose(it, doStep))
  {
  }

  lemma DriverControllerTable(it: Item, doStep: bool, hw: Probe)
    requires 0 <= it.state <= 2
    ensures FollowsTable(DriverCtrlTests, it, doStep, hw, DriverController(it, doStep, hw.driverControlsPass))
  {
  }

  lemma OperatorControllerTable(it: Item, doStep: bool, hw: Probe)
    requires 0 <= it.state <= 2
    ensures FollowsTable(OperatorCtrlTests, it, doStep, hw, OperatorController(it, doStep, hw.operatorControlsPass))
  {
  }

  /** Every leaf machine follows its transition table. */
  lemma MachineStep(items: seq<Item>, k: int, doStep: bool, hw: Probe)
    requires |items| == StepCount && IsMachine(k)
    requires 0 <= items[k].state <= FinalState(k)
    ensures FollowsTable(k, items[k], doStep, hw, Evaluate(items, k, doStep, hw))
  {
    var it := items[k];
    if SwerveMod0 <= k < SwerveModules { SwerveModuleTable(k - SwerveMod0, it, doStep, hw); }
    else if k == GyroYawTest { YawTable(it, doStep, hw); }
    else if k == GyroPitchTest { PitchTable(it, doStep, hw); }
    else if k == ExtendSwitchTest { ExtendSwitchTable(it, doStep, hw); }
    else if k == LiftSwitchTest { LiftSwitchTable(it, doStep, hw); }
    else if k == ArmCalibrate { CalibrateTable(it, doStep, hw); }
    else if k == ArmMaxLiftTest { LiftMaxTable(it, doStep, hw); }
    else if k == ArmMaxExtendTest { ExtendMaxTable(it, doStep, hw); }
    else if k == ArmToZero { ToZeroTable(it, doStep, hw); }
    else if k == GripCompressor { CompressorTable(it, doStep, hw); }
    else if k == GripLeaksCheck { LeaksTable(it, doStep, hw); }
    else if k == GripCloseOpenClose { GripperTable(it, doStep, hw); }
    else if k == DriverCtrlTests { DriverControllerTable(it, doStep, hw); }
    else { OperatorControllerTable(it, doStep, hw); }
  }

  /** A do-gated state is never final, and without a press it stays put. */
  lemma NoPressNoMove(items: seq<Item>, k: int, hw: Probe)
    requires |items| == StepCount && IsMachine(k)
    requires DoGated(k, items[k].state)
    ensures items[k].state < FinalState(k)
    ensures Evaluate(items, k, false, hw).item.state == items[k].state
    ensures !Evaluate(items, k, false, hw).item.complete <==> !items[k].complete
  {
    MachineStep(items, k, false, hw);
  }

  /** A parent step stores and returns the AND of its children, sets its
      fixed status text and issues nothing. */
  lemma ParentStep(items: seq<Item>, k: int, doStep: bool, hw: Probe)
    requires |items| == StepCount && IsParent(k)
    ensures var e := Evaluate(items, k, doStep, hw);
      && (e.item.complete <==> forall i :: 0 <= i < |Children(k)| ==> items[Children(k)[i]].complete)
      && e.item.status == ParentStatus(k)
      && e.item.state == items[k].state
      && !e.readDoStep && !e.clearTeleop && e.cmds == []
  {
  }

  /** The terminal step completes exactly when every step before it is
      complete, sub-steps included. */
  lemma TerminalStep(items: seq<Item>, doStep: bool, hw: Probe)
    requires |items| == StepCount
    ensures Evaluate(items, TestsComplete, doStep, hw).item.complete <==>
            forall i :: 0 <= i < TestsComplete ==> items[i].complete
  {
    TerminalGroup(items);
  }

  /** checkArm does not look at the calibration step: with every arm
      sub-step but calibration complete the arm step completes. */
  lemma ArmIgnoresCalibration(items: seq<Item>, doStep: bool, hw: Probe)
    requires |items| == StepCount
    requires items[ArmMaxLiftTest].complete && items[ArmMaxExtendTest].complete && items[ArmToZero].complete
    requires !items[ArmCalibrate].complete
    ensures Evaluate(items, ArmTest, doStep, hw).item.complete
  {
  }

  /** The device step completes exactly when every device is present; its
      status is then the fixed text, otherwise the non-empty list of the
      missing devices' labels. */
  lemma DevicesStep(items: seq<Item>, doStep: bool, hw: Probe)
    requires |items| == StepCount
    ensures var e := Evaluate(items, DevicesTest, doStep, hw);
      && (e.item.complete <==> forall i :: 0 <= i < |hw.devices| ==> hw.devices[i].present)
      && (e.item.complete ==> e.item.status == DevicesPresentText)
      && (!e.item.complete ==> e.item.status == MissingText(hw.devices) && e.item.status != "")
  {
  }
}
