/** The test checklist as the robot runs it (TestChecklist.java): an array
    of 26 items updated in place, the cursor, the enable flag, the three
    read-and-clear dashboard buttons and the TeleOp toggle. Every method is
    proved against the value model of the Sequencer and Steps modules. */
module Checklist {
  import opened Steps
  import opened Sequencer
  import DualJoysticks

  const DisabledText: string := "Disabled"
  const NotInTestModeText: string := "Place DriverStation in Test Mode to run checklists"

  class TestChecklist {
    /** The items of the checklist, in display order. */
    const items: array<Item>
    /** The index of the step being run. */
    var checklistStep: int
    var enableCheckList: bool
    /** The Step, Skip and Reset buttons: set by the operator, cleared when read. */
    var doStepLatch: bool
    var skipStepLatch: bool
    var resetTestsLatch: bool
    /** The TeleOp toggle. */
    var enableTeleop: bool

    ghost predicate Valid()
      reads this
    {
      items.Length == StepCount && 0 <= checklistStep <= TestsComplete
    }

    /** The value this object stands for. */
    function Abs(): State
      reads this, items
    {
      State(items[..], checklistStep, enableCheckList, doStepLatch, skipStepLatch, resetTestsLatch, enableTeleop)
    }

    constructor ()
      ensures Valid() && fresh(items)
      ensures Abs() == Initial() && WellFormed(Abs())
    {
      items := new Item[StepCount](i requires 0 <= i < StepCount => Item(Titles[i], Columns[i], 0, "", false));
      checklistStep := 0;
      enableCheckList := false;
      doStepLatch, skipStepLatch, resetTestsLatch, enableTeleop := false, false, false, false;
      new;
      assert items[..] == InitialItems();
    }

    // -------------------------------------------------------------------
    // Entering and leaving test mode, the periodic tick

    method TestInit()
      requires Valid()
      modifies this, items
      ensures Valid()
      ensures Abs() == Enter(old(Abs()))
      ensures WellFormed(old(Abs())) ==> WellFormed(Abs())
    {
      ghost var s0 := Abs();
      enableCheckList := true;
      DoResetTests();
      ResetTeleopWidget();
      if WellFormed(s0) {
        EnterClears(s0);
      }
    }

    method TestExit()
      modifies this
      ensures Abs() == Exit(old(Abs()))
      ensures WellFormed(old(Abs())) ==> WellFormed(Abs())
    {
      enableCheckList := false;
    }

    method TestPeriodic(hw: Probe) returns (cmds: seq<Command>)
      requires Valid()
      modifies this, items
      ensures Valid()
      ensures var o := Tick(old(Abs()), hw); Abs() == o.state && cmds == o.cmds
      ensures WellFormed(old(Abs())) ==> WellFormed(Abs())
    {
      ghost var s0 := Abs();
      if WellFormed(s0) {
        TickKeepsWellFormed(s0, hw);
      }
      cmds := [];
      if enableCheckList {
        HandleButtons();
        cmds := RunCurrentStep(hw);
      }
    }

    /** The first half of testPeriodic: Reset, then Skip. */
    method HandleButtons()
      requires Valid()
      modifies this, items
      ensures Valid()
      ensures Abs() == Prepare(old(Abs()))
    {
      var reset := GetResetTests();
      if reset {
        DoResetTests();
      }
      var skip := GetSkipStep();
      if skip {
        DoSkipStep();
      }
    }

    /** The second half of testPeriodic: TeleOp, then the step at the cursor. */
    method RunCurrentStep(hw: Probe) returns (cmds: seq<Command>)
      requires Valid()
      modifies this, items
      ensures Valid()
      ensures var o := RunStep(old(Abs()), hw); Abs() == o.state && cmds == o.cmds
    {
      cmds := [];
      if GetEnableTeleop() {
        cmds := [Teleop];
      }
      if checklistStep < items.Length {
        var done, stepCmds := RunTest(hw);
        cmds := cmds + stepCmds;
        if done {
          if checklistStep < TestsComplete {
            checklistStep := checklistStep + 1;
          }
        }
      }
    }

    // -------------------------------------------------------------------
    // What the dashboard shows

    function GetCurrentStep(): (r: string)
      requires Valid()
      reads this, items
      ensures !enableCheckList ==> r == DisabledText
      ensures enableCheckList && WellFormed(Abs()) ==> r == Titles[checklistStep]
    {
      if enableCheckList then items[checklistStep].title else DisabledText
    }

    function GetCurrentStepStatus(): (r: string)
      requires Valid()
      reads this, items
      ensures !enableCheckList ==> r == NotInTestModeText
      ensures enableCheckList ==> r == Abs().items[Abs().cursor].status
    {
      if enableCheckList then items[checklistStep].status else NotInTestModeText
    }

    // -------------------------------------------------------------------
    // The buttons

    method GetDoStep() returns (result: bool)
      modifies this
      ensures result == old(doStepLatch)
      ensures Abs() == old(Abs()).(doStep := false)
    {
      result := doStepLatch;
      if result {
        doStepLatch := false;
      }
    }

    method GetSkipStep() returns (result: bool)
      modifies this
      ensures result == old(skipStepLatch)
      ensures Abs() == old(Abs()).(skipStep := false)
    {
      result := skipStepLatch;
      if result {
        skipStepLatch := false;
      }
    }

    method GetResetTests() returns (result: bool)
      modifies this
      ensures result == old(resetTestsLatch)
      ensures Abs() == old(Abs()).(resetTests := false)
    {
      result := resetTestsLatch;
      if result {
        resetTestsLatch := false;
      }
    }

    function GetEnableTeleop(): (r: bool)
      reads this, items
      ensures r == Abs().teleop
    {
      enableTeleop
    }

    method ResetTeleopWidget()
      modifies this
      ensures Abs() == old(Abs()).(teleop := false)
    {
      enableTeleop := false;
    }

    // -------------------------------------------------------------------
    // Skip and reset

    method DoSkipStep()
      requires Valid()
      modifies this, items
      ensures Valid()
      ensures Abs() == Skip(old(Abs()))
    {
      ghost var w := SkipWalk(items[..], checklistStep);
      while checklistStep < items.Length
        invariant Valid()
        invariant SkipWalk(items[..], checklistStep) == w
        invariant Abs() == old(Abs()).(items := items[..], cursor := checklistStep)
        decreases TestsComplete - checklistStep
      {
        var isMain := items[checklistStep].IsMainStep();
        items[checklistStep] := items[checklistStep].(complete := false);
        if checklistStep < TestsComplete {
          checklistStep := checklistStep + 1;
        }
        if isMain || checklistStep == TestsComplete {
          return;
        }
      }
    }

    method DoResetTests()
      requires Valid()
      modifies this, items
      ensures Valid()
      ensures Abs() == ResetAll(old(Abs()))
    {
      for i := 0 to items.Length
        modifies items
        invariant forall j :: 0 <= j < i ==> items[j] == old(items[j]).Reset()
        invariant forall j :: i <= j < items.Length ==> items[j] == old(items[j])
      {
        items[i] := items[i].Reset();
      }
      checklistStep := 0;
      doStepLatch := false;
      skipStepLatch := false;
      resetTestsLatch := false;
      assert forall j :: 0 <= j < StepCount ==> items[..][j] == ResetItems(old(items[..]))[j];
      assert items[..] == ResetItems(old(items[..]));
    }

    // -------------------------------------------------------------------
    // Running the step at the cursor

    /** The runTest supplier of the item at the cursor. */
    method RunTest(hw: Probe) returns (done: bool, cmds: seq<Command>)
      requires Valid()
      modifies this, items
      ensures Valid()
      ensures var k := old(checklistStep);
        var e := Evaluate(old(items[..]), k, old(doStepLatch), hw);
        Abs() == Apply(old(Abs()), k, e) && done == e.item.complete && cmds == e.cmds
    {
      var k := checklistStep;
      if k == BatteryTest { done := CheckBattery(hw); cmds := []; }
      else if k == DevicesTest { done := CheckDevices(hw.devices); cmds := []; }
      else if IsParent(k) { done := RunGroupTest(); cmds := []; }
      else if k < ExtendSwitchTest { done, cmds := RunDriveTest(hw); }
      else if k < GripCompressor { done, cmds := RunArmTest(hw); }
      else { done, cmds := RunGripOrControllerTest(hw); }
    }

    /** The swerve module and gyro steps. */
    method RunDriveTest(hw: Probe) returns (done: bool, cmds: seq<Command>)
      requires Valid() && SwerveMod0 <= checklistStep < ExtendSwitchTest && !IsParent(checklistStep)
      modifies this, items
      ensures Valid()
      ensures var k := old(checklistStep);
        var e := DriveStep(k, old(items[k]), old(doStepLatch), hw);
        Abs() == Apply(old(Abs()), k, e) && done == e.item.complete && cmds == e.cmds
    {
      var k := checklistStep;
      if k < SwerveModules { done, cmds := TestSwerveModule(k - SwerveMod0); }
      else if k == GyroYawTest { done, cmds := CheckGyroYaw(hw.yawText); }
      else { done, cmds := CheckGyroPitch(hw.pitchText); }
    }

    /** The limit switch and arm steps. */
    method RunArmTest(hw: Probe) returns (done: bool, cmds: seq<Command>)
      requires Valid() && ExtendSwitchTest <= checklistStep < GripCompressor && !IsParent(checklistStep)
      modifies this, items
      ensures Valid()
      ensures var k := old(checklistStep);
        var e := ArmStep(k, old(items[k]), old(doStepLatch), hw);
        Abs() == Apply(old(Abs()), k, e) && done == e.item.complete && cmds == e.cmds
    {
      var k := checklistStep;
      if k == ExtendSwitchTest { done, cmds := CheckArmExtendSwitch(hw.extendMinSwitch); }
      else if k == LiftSwitchTest { done, cmds := CheckArmLiftSwitch(hw.liftMinSwitch); }
      else if k == ArmCalibrate { done, cmds := CheckArmCalibrate(hw.extendMinSwitch, hw.liftMinSwitch); }
      else if k == ArmMaxLiftTest { done, cmds := CheckArmLiftMaxHeight(hw.liftAtMaxHeight); }
      else if k == ArmMaxExtendTest { done, cmds := CheckArmExtendMaxLength(hw.extendAtMaxLength); }
      else { done, cmds := CheckArmToZero(hw.extendRetracted, hw.liftLowered); }
    }

    /** The gripper and controller steps. */
    method RunGripOrControllerTest(hw: Probe) returns (done: bool, cmds: seq<Command>)
      requires Valid() && GripCompressor <= checklistStep < TestsComplete && !IsParent(checklistStep)
      modifies this, items
      ensures Valid()
      ensures var k := old(checklistStep);
        var e := GripOrControllerStep(k, old(items[k]), old(doStepLatch), hw);
        Abs() == Apply(old(Abs()), k, e) && done == e.item.complete && cmds == e.cmds
    {
      var k := checklistStep;
      if k == GripCompressor { done, cmds := CheckCompressor(hw.pressureSwitch); }
      else if k == GripLeaksCheck { done, cmds := CheckLeaks(); }
      else if k == GripCloseOpenClose { done, cmds := CheckGripperOpenClose(); }
      else if k == DriverCtrlTests { done, cmds := CheckDriverController(hw.driverControlsPass); }
      else { done, cmds := CheckOperatorController(hw.operatorControlsPass); }
    }

    // -------------------------------------------------------------------
    // Steps recomputed on every call

    method CheckBattery(hw: Probe) returns (done: bool)
      requires Valid()
      modifies items
      ensures Valid()
      ensures var e := Battery(old(items[BatteryTest]), hw);
        Abs() == Apply(old(Abs()), BatteryTest, e) && done == e.item.complete
    {
      items[BatteryTest] := items[BatteryTest].(status := hw.voltageText + " | " + hw.thresholdText);
      items[BatteryTest] := items[BatteryTest].(complete := hw.voltageOk);
      done := hw.voltageOk;
    }

    /** Appends the label of each missing device to the status, in order. */
    method CheckDevices(devs: seq<Device>) returns (done: bool)
      requires Valid()
      modifies items
      ensures Valid()
      ensures var e := Devices(old(items[DevicesTest]), devs);
        Abs() == Apply(old(Abs()), DevicesTest, e) && done == e.item.complete
    {
      var allPresent := true;
      var status := "";
      for i := 0 to |devs|
        modifies {}
        invariant allPresent == AllPresent(devs[..i])
        invariant status == MissingText(devs[..i])
      {
        MissingTextStep(devs, i);
        if !devs[i].present {
          allPresent := false;
          status := status + Label(devs[i]);
        }
      }
      assert devs[..|devs|] == devs;
      if allPresent {
        status := DevicesPresentText;
      }
      items[DevicesTest] := items[DevicesTest].(status := status, complete := allPresent);
      done := allPresent;
    }

    /** The parent steps and the terminal step. */
    method RunGroupTest() returns (done: bool)
      requires Valid() && IsParent(checklistStep)
      modifies items
      ensures Valid()
      ensures var k := old(checklistStep);
        var e := Aggregate(old(items[..]), k);
        Abs() == Apply(old(Abs()), k, e) && done == e.item.complete
    {
      var k := checklistStep;
      if k == SwerveModules { done := CheckSwerveModules(); }
      else if k == GyroTest { done := CheckGyro(); }
      else if k == LimitSwitchTest { done := CheckLimitSwitches(); }
      else if k == ArmTest { done := CheckArm(); }
      else if k == GripTests { done := CheckGrip(); }
      else if k == ControllerTests { done := CheckControllers(); }
      else { done := AllTestsComplete(); }
    }

    method CheckSwerveModules() returns (done: bool)
      requires Valid()
      modifies items
      ensures Valid()
      ensures var e := Aggregate(old(items[..]), SwerveModules);
        Abs() == Apply(old(Abs()), SwerveModules, e) && done == e.item.complete
    {
      var result := items[SwerveMod0].complete && items[SwerveMod0 + 1].complete &&
                    items[SwerveMod0 + 2].complete && items[SwerveMod0 + 3].complete;
      SwerveModulesGroup(items[..]);
      items[SwerveModules] := items[SwerveModules].(status := ModuleTestsCompleteText, complete := result);
      done := result;
    }

    method CheckGyro() returns (done: bool)
      requires Valid()
      modifies items
      ensures Valid()
      ensures var e := Aggregate(old(items[..]), GyroTest);
        Abs() == Apply(old(Abs()), GyroTest, e) && done == e.item.complete
    {
      var result := items[GyroYawTest].complete && items[GyroPitchTest].complete;
      GyroGroup(items[..]);
      items[GyroTest] := items[GyroTest].(status := GyroTestCompleteText, complete := result);
      done := result;
    }

    method CheckLimitSwitches() returns (done: bool)
      requires Valid()
      modifies items
      ensures Valid()
      ensures var e := Aggregate(old(items[..]), LimitSwitchTest);
        Abs() == Apply(old(Abs()), LimitSwitchTest, e) && done == e.item.complete
    {
      var result := items[ExtendSwitchTest].complete && items[LiftSwitchTest].complete;
      LimitSwitchGroup(items[..]);
      items[LimitSwitchTest] := items[LimitSwitchTest].(status := ArmLimitSwitchesCompleteText, complete := result);
      done := result;
    }

    method CheckArm() returns (done: bool)
      requires Valid()
      modifies items
      ensures Valid()
      ensures var e := Aggregate(old(items[..]), ArmTest);
        Abs() == Apply(old(Abs()), ArmTest, e) && done == e.item.complete
    {
      var result := items[ArmMaxLiftTest].complete && items[ArmMaxExtendTest].complete &&
                    items[ArmToZero].complete;
      ArmGroup(items[..]);
      items[ArmTest] := items[ArmTest].(status := ArmTestsCompleteText, complete := result);
      done := result;
    }

    method CheckGrip() returns (done: bool)
      requires Valid()
      modifies items
      ensures Valid()
      ensures var e := Aggregate(old(items[..]), GripTests);
        Abs() == Apply(old(Abs()), GripTests, e) && done == e.item.complete
    {
      var result := items[GripCompressor].complete && items[GripLeaksCheck].complete &&
                    items[GripCloseOpenClose].complete;
      GripGroup(items[..]);
      items[GripTests] := items[GripTests].(status := GripTestsCompleteText, complete := result);
      done := result;
    }

    method CheckControllers() returns (done: bool)
      requires Valid()
      modifies items
      ensures Valid()
      ensures var e := Aggregate(old(items[..]), ControllerTests);
        Abs() == Apply(old(Abs()), ControllerTests, e) && done == e.item.complete
    {
      var result := items[DriverCtrlTests].complete && items[OperatorCtrlTests].complete;
      ControllerGroup(items[..]);
      items[ControllerTests] := items[ControllerTests].(status := GripTestsCompleteText, complete := result);
      done := result;
    }

    /** The accumulator loop over steps 0 to 24. */
    method AllTestsComplete() returns (done: bool)
      requires Valid()
      modifies items
      ensures Valid()
      ensures var e := Aggregate(old(items[..]), TestsComplete);
        Abs() == Apply(old(Abs()), TestsComplete, e) && done == e.item.complete
    {
      var result := true;
      for i := BatteryTest to TestsComplete
        modifies {}
        invariant result <==> forall j :: 0 <= j < i ==> items[j].complete
      {
        result := result && items[i].complete;
      }
      TerminalGroup(items[..]);
      items[TestsComplete] := items[TestsComplete].(status := TestsCompletedText, complete := result);
      done := result;
    }

    // -------------------------------------------------------------------
    // Leaf state machines

    method TestSwerveModule(mod: int) returns (done: bool, cmds: seq<Command>)
      requires Valid() && 0 <= mod < 4
      modifies this, items
      ensures Valid()
      ensures var e := SwerveModule(mod, old(items[SwerveMod0 + mod]), old(doStepLatch));
        Abs() == Apply(old(Abs()), SwerveMod0 + mod, e) && done == e.item.complete && cmds == e.cmds
    {
      var item := items[SwerveMod0 + mod];
      cmds := [];
      if item.state == 0 {
        var pressed := GetDoStep();
        if !pressed {
          item := item.(status := ClickStartMotorText + Digit(mod));
        } else {
          cmds := [DriveTestModule(mod, 0.5, 90.0)];
          item := item.(state := 1, status := VerifyMotorText);
        }
      } else if item.state == 1 {
        var pressed := GetDoStep();
        if pressed {
          cmds := [DriveTestModule(mod, 0.0, 0.0)];
          item := item.(state := 2, status := ModulePrefix + Digit(mod) + ModuleCompleteSuffix, complete := true);
        }
      }
      items[SwerveMod0 + mod] := item;
      done := item.complete;
    }

    method CheckGyroYaw(yawText: string) returns (done: bool, cmds: seq<Command>)
      requires Valid()
      modifies this, items
      ensures Valid()
      ensures var e := GyroYaw(old(items[GyroYawTest]), old(doStepLatch), yawText);
        Abs() == Apply(old(Abs()), GyroYawTest, e) && done == e.item.complete && cmds == e.cmds
    {
      var item := items[GyroYawTest];
      cmds := [];
      if item.state == 0 {
        var pressed := GetDoStep();
        if !pressed {
          item := item.(status := ClickDoStepStartYawTestText);
        } else {
          cmds := [GyroReset];
          item := item.(state := 1, status := RotateRobotAboutYawText);
        }
      } else if item.state == 1 {
        item := item.(status := YawPrefix + yawText);
        var pressed := GetDoStep();
        if pressed {
          item := item.(state := 2, status := GyroTestCompleteText, complete := true);
        }
      }
      items[GyroYawTest] := item;
      done := item.complete;
    }

    method CheckGyroPitch(pitchText: string) returns (done: bool, cmds: seq<Command>)
      requires Valid()
      modifies this, items
      ensures Valid()
      ensures var e := GyroPitch(old(items[GyroPitchTest]), old(doStepLatch), pitchText);
        Abs() == Apply(old(Abs()), GyroPitchTest, e) && done == e.item.complete && cmds == e.cmds
    {
      var item := items[GyroPitchTest];
      cmds := [];
      if item.state == 0 {
        var pressed := GetDoStep();
        if !pressed {
          item := item.(status := ClickStartGyroPitchTestText);
        } else {
          cmds := [GyroReset];
          item := item.(state := 1, status := LiftRobotCheckPitchText);
        }
      } else if item.state == 1 {
        item := item.(status := PitchPrefix + pitchText);
        var pressed := GetDoStep();
        if pressed {
          item := item.(state := 2, status := GyroTestCompleteText, complete := true);
        }
      }
      items[GyroPitchTest] := item;
      done := item.complete;
    }

    method CheckArmExtendSwitch(pressed: bool) returns (done: bool, cmds: seq<Command>)
      requires Valid()
      modifies items
      ensures Valid()
      ensures var e := ExtendSwitch(old(items[ExtendSwitchTest]), pressed);
        Abs() == Apply(old(Abs()), ExtendSwitchTest, e) && done == e.item.complete && cmds == e.cmds
    {
      var item := items[ExtendSwitchTest];
      cmds := [];
      if item.state == 0 {
        if pressed {
          item := item.(status := ExtendingArmText);
          cmds := [ExtendMotor(ReverseResetOutput)];
        } else {
          item := item.(state := 1, status := ClickArmExtendLimitSwitchText);
          cmds := [ExtendMotor(Stop)];
        }
      } else if item.state == 1 && pressed {
        item := item.(state := 2, status := ReleaseArmExtendLimitSwitchText);
      } else if item.state == 2 && !pressed {
        item := item.(state := 3, status := ArmExtendLimitSwitchCompleteText, complete := true);
      }
      items[ExtendSwitchTest] := item;
      done := item.complete;
    }

    method CheckArmLiftSwitch(pressed: bool) returns (done: bool, cmds: seq<Command>)
      requires Valid()
      modifies items
      ensures Valid()
      ensures var e := LiftSwitch(old(items[LiftSwitchTest]), pressed);
        Abs() == Apply(old(Abs()), LiftSwitchTest, e) && done == e.item.complete && cmds == e.cmds
    {
      var item := items[LiftSwitchTest];
      cmds := [];
      if item.state == 0 {
        if pressed {
          item := item.(status := LiftingArmText);
          cmds := [LiftMotor(ReverseResetOutput)];
        } else {
          item := item.(state := 1, status := ClickArmLiftLimitSwitchText);
          cmds := [LiftMotor(Stop)];
        }
      } else if item.state == 1 && pressed {
        item := item.(state := 2, status := ReleaseArmLiftLimitSwitchText);
      } else if item.state == 2 && !pressed {
        item := item.(state := 3, status := ArmLiftLimitSwitchCompleteText, complete := true);
      }
      items[LiftSwitchTest] := item;
      done := item.complete;
    }

    method CheckArmCalibrate(extendMin: bool, liftMin: bool) returns (done: bool, cmds: seq<Command>)
      requires Valid()
      modifies this, items
      ensures Valid()
      ensures var e := Calibrate(old(items[ArmCalibrate]), old(doStepLatch), extendMin, liftMin);
        Abs() == Apply(old(Abs()), ArmCalibrate, e) && done == e.item.complete && cmds == e.cmds
    {
      var item := items[ArmCalibrate];
      cmds := [];
      if item.state == 0 {
        var pressed := GetDoStep();
        if !pressed {
          item := item.(status := ClickStartArmCalibrationText);
        } else {
          ResetTeleopWidget();
          item := item.(state := 1, status := CalibratingExtendArmText);
          if !extendMin {
            cmds := [ExtendMotor(ResetOutput)];
          }
        }
      } else if item.state == 1 {
        if extendMin {
          cmds := [ExtendMotor(Stop), ExtendEncoderZero];
          item := item.(state := 2, status := CalibratingLiftArmText);
          if !liftMin {
            cmds := cmds + [LiftMotor(ResetOutput)];
          }
        }
      } else if item.state == 2 {
        if liftMin {
          cmds := [LiftMotor(Stop), LiftEncoderZero];
          item := item.(state := 3, status := CalibratingArmCompleteText, complete := true);
        }
      }
      items[ArmCalibrate] := item;
      done := item.complete;
    }

    method CheckArmLiftMaxHeight(atMax: bool) returns (done: bool, cmds: seq<Command>)
      requires Valid()
      modifies this, items
      ensures Valid()
      ensures var e := LiftMaxHeight(old(items[ArmMaxLiftTest]), old(doStepLatch), atMax);
        Abs() == Apply(old(Abs()), ArmMaxLiftTest, e) && done == e.item.complete && cmds == e.cmds
    {
      var item := items[ArmMaxLiftTest];
      cmds := [];
      if item.state == 0 {
        var pressed := GetDoStep();
        if !pressed {
          item := item.(status := ClickRaiseArmMaxHeightText);
        } else {
          cmds := [LiftTarget(MaxPosition)];
          item := item.(state := 1, status := RaisingArmText);
        }
      } else if item.state == 1 && atMax {
        item := item.(state := 2, status := ArmRaisedMaxHeightMeasureText, complete := true);
      }
      items[ArmMaxLiftTest] := item;
      done := item.complete;
    }

    method CheckArmExtendMaxLength(atMax: bool) returns (done: bool, cmds: seq<Command>)
      requires Valid()
      modifies this, items
      ensures Valid()
      ensures var e := ExtendMaxLength(old(items[ArmMaxExtendTest]), old(doStepLatch), atMax);
        Abs() == Apply(old(Abs()), ArmMaxExtendTest, e) && done == e.item.complete && cmds == e.cmds
    {
      var item := items[ArmMaxExtendTest];
      cmds := [];
      if item.state == 0 {
        var pressed := GetDoStep();
        if !pressed {
          item := item.(status := ClickExtendArmMaxLengthText);
        } else {
          cmds := [ExtendTarget(MaxPosition)];
          item := item.(state := 1, status := ExtendingArmText);
        }
      } else if item.state == 1 && atMax {
        item := item.(state := 2, status := ArmExtendedMaxLengthMeasureText, complete := true);
      }
      items[ArmMaxExtendTest] := item;
      done := item.complete;
    }

    method CheckArmToZero(retracted: bool, lowered: bool) returns (done: bool, cmds: seq<Command>)
      requires Valid()
      modifies this, items
      ensures Valid()
      ensures var e := ToZero(old(items[ArmToZero]), old(doStepLatch), retracted, lowered);
        Abs() == Apply(old(Abs()), ArmToZero, e) && done == e.item.complete && cmds == e.cmds
    {
      var item := items[ArmToZero];
      cmds := [];
      if item.state == 0 {
        var pressed := GetDoStep();
        if !pressed {
          item := item.(status := ClickResetArmZeroText);
        } else {
          cmds := [ExtendTarget(ZeroPosition)];
          item := item.(state := 1, status := RetractingArmText);
        }
      } else if item.state == 1 && retracted {
        cmds := [LiftTarget(ZeroPosition)];
        item := item.(state := 2, status := LoweringArmText);
      } else if item.state == 2 && lowered {
        item := item.(state := 3, status := ArmSetZeroPositionText, complete := true);
      }
      items[ArmToZero] := item;
      done := item.complete;
    }

    method CheckCompressor(pressureSwitch: bool) returns (done: bool, cmds: seq<Command>)
      requires Valid()
      modifies this, items
      ensures Valid()
      ensures var e := Compressor(old(items[GripCompressor]), old(doStepLatch), pressureSwitch);
        Abs() == Apply(old(Abs()), GripCompressor, e) && done == e.item.complete && cmds == e.cmds
    {
      var item := items[GripCompressor];
      cmds := [];
      if item.state == 0 {
        var pressed := GetDoStep();
        if !pressed {
          item := item.(status := ClickStartCompressorText);
        } else {
          cmds := [EnableCompressor];
          item := item.(state := 1, status := CompressorEnabledText);
        }
      } else if item.state == 1 && !pressureSwitch {
        item := item.(state := 2, status := CompressorCheckCompleteText, complete := true);
      }
      items[GripCompressor] := item;
      done := item.complete;
    }

    method CheckLeaks() returns (done: bool, cmds: seq<Command>)
      requires Valid()
      modifies this, items
      ensures Valid()
      ensures var e := Leaks(old(items[GripLeaksCheck]), old(doStepLatch));
        Abs() == Apply(old(Abs()), GripLeaksCheck, e) && done == e.item.complete && cmds == e.cmds
    {
      var item := items[GripLeaksCheck];
      cmds := [];
      if item.state == 0 {
        var pressed := GetDoStep();
        if !pressed {
          item := item.(status := ClickAfterCheckingLeaksText);
        } else {
          item := item.(state := 1, status := ArmRaisedMaxHeightMeasureText, complete := true);
        }
      }
      items[GripLeaksCheck] := item;
      done := item.complete;
    }

    method CheckGripperOpenClose() returns (done: bool, cmds: seq<Command>)
      requires Valid()
      modifies this, items
      ensures Valid()
      ensures var e := GripperOpenClose(old(items[GripCloseOpenClose]), old(doStepLatch));
        Abs() == Apply(old(Abs()), GripCloseOpenClose, e) && done == e.item.complete && cmds == e.cmds
    {
      var item := items[GripCloseOpenClose];
      cmds := [];
      if item.state == 0 {
        var pressed := GetDoStep();
        if !pressed {
          item := item.(status := ClickCloseGripperText);
        } else {
          cmds := [GripClose];
          item := item.(state := 1, status := ClickOpenGripperText);
        }
      } else if item.state == 1 {
        var pressed := GetDoStep();
        if pressed {
          cmds := [GripOpen];
          item := item.(state := 2, status := ClickCloseGripperText);
        }
      } else if item.state == 2 {
        var pressed := GetDoStep();
        if pressed {
          cmds := [GripClose];
          item := item.(state := 3, status := ActuatorTestCompleteText, complete := true);
        }
      }
      items[GripCloseOpenClose] := item;
      done := item.complete;
    }

    method CheckDriverController(pass: bool) returns (done: bool, cmds: seq<Command>)
      requires Valid()
      modifies this, items
      ensures Valid()
      ensures var e := DriverController(old(items[DriverCtrlTests]), old(doStepLatch), pass);
        Abs() == Apply(old(Abs()), DriverCtrlTests, e) && done == e.item.complete && cmds == e.cmds
    {
      var item := items[DriverCtrlTests];
      cmds := [];
      if item.state == 0 {
        var pressed := GetDoStep();
        if !pressed {
          item := item.(status := ClickPressDriverText);
        } else {
          cmds := [TestOI(DualJoysticks.Driver)];
          item := item.(state := 1, status := PressDriverText);
        }
      } else if item.state == 1 && pass {
        item := item.(state := 2, complete := true);
      }
      items[DriverCtrlTests] := item;
      done := item.complete;
    }

    method CheckOperatorController(pass: bool) returns (done: bool, cmds: seq<Command>)
      requires Valid()
      modifies this, items
      ensures Valid()
      ensures var e := OperatorController(old(items[OperatorCtrlTests]), old(doStepLatch), pass);
        Abs() == Apply(old(Abs()), OperatorCtrlTests, e) && done == e.item.complete && cmds == e.cmds
    {
      var item := items[OperatorCtrlTests];
      cmds := [];
      if item.state == 0 {
        var pressed := GetDoStep();
        if !pressed {
          item := item.(status := ClickPressOperatorText);
        } else {
          cmds := [TestOI(DualJoysticks.Operator)];
          item := item.(state := 1, status := PressOperatorText);
        }
      } else if item.state == 1 && pass {
        item := item.(state := 2, complete := true);
      }
      items[OperatorCtrlTests] := item;
      done := item.complete;
    }
  }
}
