/** The checklist sequencer as a state machine on values: the cursor, the
    enable flag, the three read-and-clear buttons (Step, Skip, Reset), the
    TeleOp toggle and the items, and what one periodic tick, a skip and a
    reset do to them (TestChecklist.java). */
module Sequencer {
  import opened Steps

  /** Everything the checklist holds. `doStep`, `skipStep` and `resetTests`
      are the dashboard buttons, latched until the checklist reads them;
      `teleop` is the TeleOp toggle, read as a level. */
  datatype State = State(
    items: seq<Item>, cursor: int, enabled: bool,
    doStep: bool, skipStep: bool, resetTests: bool, teleop: bool)

  /** The shape every operation needs: all 26 items and the cursor on one. */
  predicate Shaped(s: State)
  {
    |s.items| == StepCount && 0 <= s.cursor <= TestsComplete
  }

  /** An item at position k keeps its title and column, its state stays in
      the range of its machine, and a machine step is only complete in its
      final state. */
  predicate ItemOk(k: int, it: Item)
    requires 0 <= k < StepCount
  {
    && it.title == Titles[k] && it.column == Columns[k]
    && 0 <= it.state <= FinalState(k)
    && (IsMachine(k) && it.complete ==> it.state == FinalState(k))
  }

  predicate WellFormed(s: State)
  {
    Shaped(s) && forall k :: 0 <= k < StepCount ==> ItemOk(k, s.items[k])
  }

  /** The state of a freshly constructed checklist. */
  function Initial(): (s: State)
    ensures WellFormed(s) && !s.enabled
  {
    State(InitialItems(), 0, false, false, false, false, false)
  }

  // ---------------------------------------------------------------------
  // Reset, enter and exit

  function ResetItems(items: seq<Item>): (r: seq<Item>)
    ensures |r| == |items| && forall i :: 0 <= i < |items| ==> r[i] == items[i].Reset()
  {
    seq(|items|, i requires 0 <= i < |items| => items[i].Reset())
  }

  /** doResetTests: every item reset, the cursor back to 0 and the three
      buttons cleared. */
  function ResetAll(s: State): (r: State)
    ensures |r.items| == |s.items|
    ensures r.cursor == 0 && !r.doStep && !r.skipStep && !r.resetTests
    ensures r.enabled == s.enabled && r.teleop == s.teleop
  {
    s.(items := ResetItems(s.items), cursor := 0, doStep := false, skipStep := false, resetTests := false)
  }

  /** testInit: enable, reset and switch the TeleOp toggle off. */
  function Enter(s: State): (r: State)
    ensures |r.items| == |s.items|
    ensures r.enabled && !r.teleop && r.cursor == 0 && !r.doStep && !r.skipStep && !r.resetTests
  {
    ResetAll(s).(enabled := true, teleop := false)
  }

  /** testExit. */
  function Exit(s: State): (r: State)
    ensures !r.enabled
    ensures r.items == s.items && r.cursor == s.cursor && r.teleop == s.teleop
    ensures r.doStep == s.doStep && r.skipStep == s.skipStep && r.resetTests == s.resetTests
  {
    s.(enabled := false)
  }

  /** After a reset every item is back at state 0 with no status and not
      complete, titles and columns are kept, the cursor is 0 and the three
      buttons are clear. */
  lemma ResetClears(s: State)
    ensures var r := ResetAll(s);
      && |r.items| == |s.items|
      && (forall i :: 0 <= i < |s.items| ==>
            r.items[i].state == 0 && r.items[i].status == "" && !r.items[i].complete &&
            r.items[i].title == s.items[i].title && r.items[i].column == s.items[i].column)
      && r.cursor == 0 && !r.doStep && !r.skipStep && !r.resetTests
      && r.enabled == s.enabled && r.teleop == s.teleop
  {
  }

  lemma EnterClears(s: State)
    requires WellFormed(s)
    ensures var r := Enter(s);
      WellFormed(r) && r.enabled && !r.teleop && r.cursor == 0 && !r.doStep && !r.skipStep && !r.resetTests &&
      forall i :: 0 <= i < StepCount ==> r.items[i] == InitialItems()[i]
  {
  }

  // ---------------------------------------------------------------------
  // Skip

  /** The first main step at or after position c. */
  function NextMain(c: int): (m: int)
    requires 0 <= c <= TestsComplete
    ensures c <= m <= TestsComplete && Columns[m] == 0
    ensures forall j :: c <= j < m ==> Columns[j] != 0
    decreases TestsComplete - c
  {
    if Columns[c] == 0 then c else NextMain(c + 1)
  }

  datatype Walk = Walk(items: seq<Item>, cursor: int)

  /** The loop of doSkipStep: mark the step at the cursor incomplete, move
      the cursor forward unless it is on the terminal step, and stop after a
      main step or on reaching the terminal step. */
  function SkipWalk(items: seq<Item>, c: int): (w: Walk)
    requires |items| == StepCount && 0 <= c <= TestsComplete
    ensures |w.items| == StepCount && 0 <= w.cursor <= TestsComplete
    decreases TestsComplete - c
  {
    var isMain := items[c].IsMainStep();
    var items' := items[c := items[c].(complete := false)];
    var c' := if c < TestsComplete then c + 1 else c;
    if isMain || c' == TestsComplete then Walk(items', c') else SkipWalk(items', c')
  }

  function Skip(s: State): (r: State)
    requires Shaped(s)
    ensures Shaped(r)
  {
    var w := SkipWalk(s.items, s.cursor);
    s.(items := w.items, cursor := w.cursor)
  }

  predicate ColumnsFixed(items: seq<Item>)
    requires |items| == StepCount
  {
    forall i :: 0 <= i < StepCount ==> items[i].column == Columns[i]
  }

  /** What a skip from position c does, in closed form: every step from c
      up to and including the next main step m is marked incomplete and
      nothing else changes; the cursor lands one past m, or stays on the
      terminal step. */
  lemma {:induction false} SkipWalkCloses(items: seq<Item>, c: int)
    requires |items| == StepCount && ColumnsFixed(items) && 0 <= c <= TestsComplete
    ensures var m, w := NextMain(c), SkipWalk(items, c);
      && w.cursor == (if m < TestsComplete then m + 1 else TestsComplete)
      && forall j :: 0 <= j < StepCount ==>
           w.items[j] == if c <= j <= m then items[j].(complete := false) else items[j]
    decreases TestsComplete - c
  {
    var items' := items[c := items[c].(complete := false)];
    var c' := if c < TestsComplete then c + 1 else c;
    if !(items[c].IsMainStep() || c' == TestsComplete) {
      assert ColumnsFixed(items');
      SkipWalkCloses(items', c');
      assert NextMain(c) == NextMain(c');
    }
  }

  /** The three cases of a skip: from a main step k below the terminal one
      the cursor becomes k + 1 and only step k turns incomplete; from a
      sub-step the cursor lands one past the next main step and every step
      up to it turns incomplete; on the terminal step the cursor stays.
      A skip never touches any state, status, title or column. */
  lemma SkipCases(s: State)
    requires Shaped(s) && ColumnsFixed(s.items)
    ensures var r, k := Skip(s), s.cursor;
      && (Columns[k] == 0 && k < TestsComplete ==>
            r.cursor == k + 1 && !r.items[k].complete &&
            forall j :: 0 <= j < StepCount && j != k ==> r.items[j] == s.items[j])
      && (Columns[k] != 0 ==>
            k < r.cursor == NextMain(k) + 1 <= TestsComplete &&
            forall j :: k <= j < r.cursor ==> !r.items[j].complete)
      && (k == TestsComplete ==> r.cursor == TestsComplete)
      && (forall j :: 0 <= j < StepCount ==>
            r.items[j] == s.items[j].(complete := r.items[j].complete))
      && r.enabled == s.enabled && r.doStep == s.doStep && r.teleop == s.teleop
  {
    SkipWalkCloses(s.items, s.cursor);
    if Columns[s.cursor] != 0 {
      assert NextMain(s.cursor) <= ControllerTests by {
        assert Columns[ControllerTests] == 0;
      }
    }
  }

  // ---------------------------------------------------------------------
  // The periodic tick

  /** Record the effect of evaluating step k. */
  function Apply(s: State, k: int, e: Eval): (r: State)
    requires 0 <= k < |s.items|
    ensures |r.items| == |s.items| && r.items[k] == e.item
    ensures forall j :: 0 <= j < |s.items| && j != k ==> r.items[j] == s.items[j]
    ensures r.cursor == s.cursor && r.enabled == s.enabled
    ensures r.skipStep == s.skipStep && r.resetTests == s.resetTests
    ensures r.doStep <==> s.doStep && !e.readDoStep
    ensures r.teleop <==> s.teleop && !e.clearTeleop
  {
    s.(items := s.items[k := e.item],
       doStep := s.doStep && !e.readDoStep,
       teleop := s.teleop && !e.clearTeleop)
  }

  datatype Outcome = Outcome(state: State, cmds: seq<Command>)

  /** The first half of testPeriodic: a pressed Reset resets (and so clears
      a pending Skip); then a pressed Skip skips. */
  function Prepare(s: State): (r: State)
    requires Shaped(s)
    ensures Shaped(r) && !r.skipStep && !r.resetTests
  {
    var s1 := if s.resetTests then ResetAll(s) else s;
    if s1.skipStep then Skip(s1.(skipStep := false)) else s1
  }

  /** The second half: the TeleOp toggle runs the pass-through, and the step
      at the cursor is evaluated, the cursor moving on when it reports
      complete and is not yet on the terminal step. */
  function RunStep(s: State, hw: Probe): (r: Outcome)
    requires Shaped(s)
    ensures Shaped(r.state)
  {
    var teleopCmds := if s.teleop then [Teleop] else [];
    var e := Evaluate(s.items, s.cursor, s.doStep, hw);
    var s3 := Apply(s, s.cursor, e);
    var s4 := if e.item.complete && s3.cursor < TestsComplete then s3.(cursor := s3.cursor + 1) else s3;
    Outcome(s4, teleopCmds + e.cmds)
  }

  /** testPeriodic: nothing while disabled. */
  function Tick(s: State, hw: Probe): (r: Outcome)
    requires Shaped(s)
    ensures Shaped(r.state)
  {
    if !s.enabled then Outcome(s, []) else RunStep(Prepare(s), hw)
  }

  /** While disabled a tick changes nothing and commands nothing. */
  lemma DisabledTick(s: State, hw: Probe)
    requires Shaped(s) && !s.enabled
    ensures Tick(s, hw) == Outcome(s, [])
  {
  }

  /** Without Reset or Skip the cursor moves by at most one, and only when
      the step at the cursor reports complete; a leaf machine at the cursor
      moves one state exactly when its guard holds. */
  lemma PlainTick(s: State, hw: Probe)
    requires WellFormed(s) && s.enabled && !s.resetTests && !s.skipStep
    ensures var r, k := Tick(s, hw).state, s.cursor;
      var e := Evaluate(s.items, k, s.doStep, hw);
      && r.cursor == (if e.item.complete && k < TestsComplete then k + 1 else k)
      && (IsMachine(k) ==>
            r.items[k].state == if Advances(k, s.items[k].state, s.doStep, hw)
                                then s.items[k].state + 1 else s.items[k].state)
      && forall j :: 0 <= j < StepCount && j != k ==> r.items[j] == s.items[j]
  {
    if IsMachine(s.cursor) {
      MachineStep(s.items, s.cursor, s.doStep, hw);
    }
  }

  /** A Reset pre-empts a Skip in the same tick: the tick starts over from
      the first step, which is evaluated at once. */
  lemma ResetTick(s: State, hw: Probe)
    requires Shaped(s) && s.enabled && s.resetTests
    ensures var r := Tick(s, hw).state;
      && r.cursor == (if hw.voltageOk then 1 else 0)
      && !r.skipStep && !r.resetTests && !r.doStep
      && r.items[BatteryTest].state == 0 && r.items[BatteryTest].complete == hw.voltageOk
      && forall j :: 0 < j < StepCount ==> r.items[j] == s.items[j].Reset()
  {
  }

  /** On the terminal step, a tick without Reset keeps the cursor there,
      and the terminal step completes exactly when every step before it is
      complete. */
  lemma TerminalTick(s: State, hw: Probe)
    requires Shaped(s) && s.cursor == TestsComplete && !s.resetTests
    ensures var r := Tick(s, hw).state;
      && r.cursor == TestsComplete && !r.resetTests
      && (s.enabled ==> (r.items[TestsComplete].complete <==>
                          forall i :: 0 <= i < TestsComplete ==> s.items[i].complete))
  {
    if s.enabled {
      var s2 := if s.skipStep then Skip(s.(skipStep := false)) else s;
      assert forall i :: 0 <= i < TestsComplete ==> s2.items[i] == s.items[i];
      TerminalStep(s2.items, s2.doStep, hw);
    }
  }

  lemma EvaluateKeepsItemOk(items: seq<Item>, k: int, doStep: bool, hw: Probe)
    requires |items| == StepCount && 0 <= k < StepCount && ItemOk(k, items[k])
    ensures ItemOk(k, Evaluate(items, k, doStep, hw).item)
  {
    if IsMachine(k) {
      MachineStep(items, k, doStep, hw);
    } else if IsParent(k) {
      ParentStep(items, k, doStep, hw);
    }
  }

  lemma ResetKeepsWellFormed(s: State)
    requires WellFormed(s)
    ensures WellFormed(ResetAll(s))
  {
    var r := ResetAll(s);
    forall k | 0 <= k < StepCount ensures ItemOk(k, r.items[k]) {
      assert r.items[k] == s.items[k].Reset();
    }
  }

  lemma SkipKeepsWellFormed(s: State)
    requires WellFormed(s)
    ensures WellFormed(Skip(s))
  {
    var r := Skip(s);
    SkipWalkCloses(s.items, s.cursor);
    forall k | 0 <= k < StepCount ensures ItemOk(k, r.items[k]) {
      assert r.items[k] == s.items[k] || r.items[k] == s.items[k].(complete := false);
    }
  }

  lemma ApplyKeepsWellFormed(s: State, hw: Probe)
    requires WellFormed(s)
    ensures WellFormed(Apply(s, s.cursor, Evaluate(s.items, s.cursor, s.doStep, hw)))
  {
    EvaluateKeepsItemOk(s.items, s.cursor, s.doStep, hw);
  }

  /** Every tick keeps the checklist well formed: the cursor stays within
      0..25, titles and columns are kept and every machine state in range. */
  lemma TickKeepsWellFormed(s: State, hw: Probe)
    requires WellFormed(s)
    ensures WellFormed(Tick(s, hw).state)
  {
    if s.enabled {
      var s1 := if s.resetTests then ResetAll(s) else s;
      if s.resetTests { ResetKeepsWellFormed(s); }
      var s2 := if s1.skipStep then Skip(s1.(skipStep := false)) else s1;
      if s1.skipStep { SkipKeepsWellFormed(s1.(skipStep := false)); }
      ApplyKeepsWellFormed(s2, hw);
    }
  }

  // ---------------------------------------------------------------------
  // Runs of many ticks

  /** What the operator does on the dashboard before a tick: press any of
      the three buttons, flip the TeleOp toggle. */
  datatype Operator = Operator(pressStep: bool, pressSkip: bool, pressReset: bool, flipTeleop: bool)

  datatype TickInput = TickInput(op: Operator, hw: Probe)

  function Press(s: State, op: Operator): State
  {
    s.(doStep := s.doStep || op.pressStep,
       skipStep := s.skipStep || op.pressSkip,
       resetTests := s.resetTests || op.pressReset,
       teleop := s.teleop != op.flipTeleop)
  }

  function Run(s: State, ins: seq<TickInput>): (r: State)
    requires Shaped(s)
    ensures Shaped(r)
    decreases |ins|
  {
    if ins == [] then s
    else Run(Tick(Press(s, ins[0].op), ins[0].hw).state, ins[1..])
  }

  /** Once on the terminal step the cursor stays there for any number of
      ticks, presses and completions, as long as Reset is not pressed. */
  lemma {:induction false} TerminalIsFinal(s: State, ins: seq<TickInput>)
    requires Shaped(s) && s.cursor == TestsComplete && !s.resetTests
    requires forall i :: 0 <= i < |ins| ==> !ins[i].op.pressReset
    ensures Run(s, ins).cursor == TestsComplete
    decreases |ins|
  {
    if ins != [] {
      var p := Press(s, ins[0].op);
      TerminalTick(p, ins[0].hw);
      TerminalIsFinal(Tick(p, ins[0].hw).state, ins[1..]);
    }
  }

  /** A leaf at the cursor waiting for Step stays where it is, incomplete,
      for as many ticks as nobody presses a button; the cursor does not
      move either. */
  lemma {:induction false} StallsWithoutPress(s: State, ins: seq<TickInput>)
    requires WellFormed(s) && IsMachine(s.cursor) && DoGated(s.cursor, s.items[s.cursor].state)
    requires !s.doStep && !s.skipStep && !s.resetTests
    requires forall i :: 0 <= i < |ins| ==>
      !ins[i].op.pressStep && !ins[i].op.pressSkip && !ins[i].op.pressReset
    ensures var r := Run(s, ins);
      r.cursor == s.cursor && r.items[s.cursor].state == s.items[s.cursor].state &&
      !r.items[s.cursor].complete
    decreases |ins|
  {
    if ins != [] {
      var k, hw := s.cursor, ins[0].hw;
      var p := Press(s, ins[0].op);
      assert WellFormed(p) && !p.doStep && !p.skipStep && !p.resetTests;
      TickKeepsWellFormed(p, hw);
      var r := Tick(p, hw).state;
      NoPressNoMove(p.items, k, hw);
      if p.enabled {
        PlainTick(p, hw);
      }
      assert r.items[k].state == s.items[k].state && !r.items[k].complete && r.cursor == k;
      assert !r.doStep && !r.skipStep && !r.resetTests;
      StallsWithoutPress(r, ins[1..]);
    }
  }
}
