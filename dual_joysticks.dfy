/** The controller self-test of the two-joystick operator interface
    (DualJoysticksOI.java): a 3 x 20 table of flags, one row per joystick of
    the driver (rows 0 and 1) and one for the operator (row 2). A flag
    latches true once its axis or button has been seen. */
module DualJoysticks {

  /** Mode numbers of the operator interface. */
  const Driver := 0
  const Operator := 1

  const RowCount := 3
  const FlagCount := 20

  /** One reading of a joystick: whether each axis is deflected past the
      deadband in the positive direction, and buttons 0 to 5. */
  datatype Sample = Sample(
    yDeflected: bool, xDeflected: bool, twistDeflected: bool,
    button0: bool, button1: bool, button2: bool, button3: bool, button4: bool, button5: bool)

  /** The value flag n takes when it is re-evaluated: flags 0-2 are the
      axes, 3-8 the buttons 0-5, and every other flag passes outright. */
  function Reading(s: Sample, n: int): (r: bool)
    ensures !(0 <= n < 9) ==> r
  {
    if n == 0 then s.yDeflected
    else if n == 1 then s.xDeflected
    else if n == 2 then s.twistDeflected
    else if n == 3 then s.button0
    else if n == 4 then s.button1
    else if n == 5 then s.button2
    else if n == 6 then s.button3
    else if n == 7 then s.button4
    else if n == 8 then s.button5
    else true
  }

  /** One pass of testController over a row: a flag already true is left
      alone, a false one takes the current reading. */
  function LatchRow(row: seq<bool>, s: Sample): (r: seq<bool>)
    ensures |r| == |row|
    ensures forall i :: 0 <= i < |row| && row[i] ==> r[i]
    ensures forall i :: 0 <= i < |row| && !row[i] ==> r[i] == Reading(s, i)
    ensures forall i :: 9 <= i < |row| ==> r[i]
  {
    if row == [] then []
    else LatchRow(row[..|row| - 1], s) + [row[|row| - 1] || Reading(s, |row| - 1)]
  }

  /** The `result = result && test` fold over a row. */
  function AllTrue(row: seq<bool>): (r: bool)
    ensures r <==> forall i :: 0 <= i < |row| ==> row[i]
  {
    if row == [] then true else AllTrue(row[..|row| - 1]) && row[|row| - 1]
  }

  function Falses(): (r: seq<bool>)
    ensures |r| == FlagCount && forall i :: 0 <= i < FlagCount ==> !r[i]
  {
    seq(FlagCount, i => false)
  }

  predicate Shaped(t: seq<seq<bool>>)
  {
    |t| == RowCount && forall r :: 0 <= r < RowCount ==> |t[r]| == FlagCount
  }

  /** testOI: the driver mode clears rows 0 and 1, the operator mode row 2,
      any other mode nothing. */
  function ClearRows(t: seq<seq<bool>>, mode: int): (t': seq<seq<bool>>)
    requires Shaped(t)
    ensures Shaped(t')
    ensures mode == Driver ==> !AllTrue(t'[0]) && !AllTrue(t'[1]) && t'[2] == t[2]
    ensures mode == Driver ==> forall c :: 0 <= c < FlagCount ==> !t'[0][c] && !t'[1][c]
    ensures mode == Operator ==> (forall c :: 0 <= c < FlagCount ==> !t'[2][c]) && t'[0] == t[0] && t'[1] == t[1]
    ensures mode != Driver && mode != Operator ==> t' == t
  {
    if mode == Driver then t[0 := Falses()][1 := Falses()]
    else if mode == Operator then t[2 := Falses()]
    else t
  }

  datatype Results = Results(table: seq<seq<bool>>, pass: bool)

  /** testResults: in driver mode both driver rows are latched from the two
      joysticks and the result is the AND of both rows; in any other mode
      nothing changes and the result is true. */
  function ResultsOf(t: seq<seq<bool>>, mode: int, translate: Sample, rotate: Sample): (r: Results)
    requires Shaped(t)
    ensures Shaped(r.table) && r.table[2] == t[2]
  {
    if mode == Driver then
      var t' := t[0 := LatchRow(t[0], translate)][1 := LatchRow(t[1], rotate)];
      Results(t', AllTrue(t'[0]) && AllTrue(t'[1]))
    else Results(t, true)
  }

  predicate DriverPassed(t: seq<seq<bool>>)
    requires Shaped(t)
  {
    forall r, c :: 0 <= r < 2 && 0 <= c < FlagCount ==> t[r][c]
  }

  /** The driver result is true exactly when every flag of both driver rows
      is true afterwards; the operator row is never touched. */
  lemma DriverResultMeaning(t: seq<seq<bool>>, translate: Sample, rotate: Sample)
    requires Shaped(t)
    ensures var r := ResultsOf(t, Driver, translate, rotate);
      (r.pass <==> DriverPassed(r.table)) && r.table[2] == t[2]
  {
  }

  lemma OtherModeResult(t: seq<seq<bool>>, mode: int, translate: Sample, rotate: Sample)
    requires Shaped(t) && mode != Driver
    ensures ResultsOf(t, mode, translate, rotate) == Results(t, true)
  {
  }

  /** Once both driver rows are all true, a driver test passes whatever the
      joysticks read. */
  lemma PassedStaysPassed(t: seq<seq<bool>>, translate: Sample, rotate: Sample)
    requires Shaped(t) && DriverPassed(t)
    ensures ResultsOf(t, Driver, translate, rotate).pass
    ensures ResultsOf(t, Driver, translate, rotate).table == t
  {
    var r := ResultsOf(t, Driver, translate, rotate);
    assert r.table[0] == t[0];
    assert r.table[1] == t[1];
  }

  /** A call into the self-test: testResults or testOI. A testOI with a
      mode outside 0 to 2 throws before it writes a flag, so the table it
      leaves is the one it found, which is what ClearRows gives. */
  datatype Op = RunResults(mode: int, translate: Sample, rotate: Sample) | RunClear(mode: int)

  function Replay(t: seq<seq<bool>>, ops: seq<Op>): (t': seq<seq<bool>>)
    requires Shaped(t)
    ensures Shaped(t')
    decreases |ops|
  {
    if ops == [] then t
    else
      var op := ops[0];
      var t1 := if op.RunResults? then ResultsOf(t, op.mode, op.translate, op.rotate).table
                else ClearRows(t, op.mode);
      Replay(t1, ops[1..])
  }

  /** Once testResults(Driver) has returned true it keeps returning true,
      whatever is read and whatever else is called, until testOI(Driver). */
  lemma {:induction false} DriverPassIsSticky(t: seq<seq<bool>>, translate: Sample, rotate: Sample,
                                              ops: seq<Op>, translate': Sample, rotate': Sample)
    requires Shaped(t)
    requires ResultsOf(t, Driver, translate, rotate).pass
    requires forall i :: 0 <= i < |ops| ==> ops[i] != RunClear(Driver)
    ensures ResultsOf(Replay(ResultsOf(t, Driver, translate, rotate).table, ops), Driver, translate', rotate').pass
  {
    var t1 := ResultsOf(t, Driver, translate, rotate).table;
    DriverResultMeaning(t, translate, rotate);
    ReplayKeepsPassed(t1, ops);
    PassedStaysPassed(Replay(t1, ops), translate', rotate');
  }

  lemma {:induction false} ReplayKeepsPassed(t: seq<seq<bool>>, ops: seq<Op>)
    requires Shaped(t)
    requires DriverPassed(t)
    requires forall i :: 0 <= i < |ops| ==> ops[i] != RunClear(Driver)
    ensures DriverPassed(Replay(t, ops))
    decreases |ops|
  {
    if ops != [] {
      var op := ops[0];
      var t1 := if op.RunResults? then ResultsOf(t, op.mode, op.translate, op.rotate).table
                else ClearRows(t, op.mode);
      if op.RunResults? {
        if op.mode == Driver { PassedStaysPassed(t, op.translate, op.rotate); }
      } else {
        assert op.mode != Driver;
      }
      assert DriverPassed(t1);
      ReplayKeepsPassed(t1, ops[1..]);
    }
  }

  /** The flag table of DualJoysticksOI, updated in place. */
  class DualJoysticksOI {
    const tests: array2<bool>

    ghost predicate Valid()
    {
      tests.Length0 == RowCount && tests.Length1 == FlagCount
    }

    function Table(): (t: seq<seq<bool>>)
      reads tests
    {
      seq(tests.Length0, r requires 0 <= r < tests.Length0 reads tests =>
        seq(tests.Length1, c requires 0 <= c < tests.Length1 reads tests => tests[r, c]))
    }

    constructor ()
      ensures Valid() && fresh(tests)
      ensures Table() == [Falses(), Falses(), Falses()]
    {
      tests := new bool[RowCount, FlagCount]((r, c) => false);
      new;
      forall r | 0 <= r < RowCount
        ensures Table()[r] == Falses()
      {
      }
    }

    /** testController on one row of the table. */
    method TestController(s: Sample, row: int)
      requires Valid() && 0 <= row < RowCount
      modifies tests
      ensures Table() == old(Table())[row := LatchRow(old(Table())[row], s)]
    {
      for testNum := 0 to tests.Length1
        invariant forall c :: 0 <= c < testNum ==> tests[row, c] == (old(tests[row, c]) || Reading(s, c))
        invariant forall r, c :: 0 <= r < RowCount && 0 <= c < FlagCount && (r != row || c >= testNum) ==>
                    tests[r, c] == old(tests[r, c])
      {
        if !tests[row, testNum] {
          tests[row, testNum] := Reading(s, testNum);
        }
      }
      ghost var before := old(Table());
      ghost var after := Table();
      ghost var latched := LatchRow(before[row], s);
      forall r | 0 <= r < RowCount
        ensures after[r] == before[row := latched][r]
      {
      }
    }

    /** testOI: clear the rows the mode owns. A mode that is not a row of
        the table makes the source throw ArrayIndexOutOfBoundsException on
        its first `tests[mode].length`, before any flag is written; that is
        `outOfRange` here. */
    method TestOI(mode: int) returns (outOfRange: bool)
      requires Valid()
      modifies tests
      ensures outOfRange <==> !(0 <= mode < RowCount)
      ensures outOfRange ==> Table() == old(Table())
      ensures Table() == ClearRows(old(Table()), mode)
    {
      if !(0 <= mode < tests.Length0) {
        return true;
      }
      outOfRange := false;
      for testNum := 0 to tests.Length1
        invariant forall r, c :: 0 <= r < RowCount && 0 <= c < FlagCount ==>
          tests[r, c] == if c < testNum && ((mode == Driver && r < 2) || (mode == Operator && r == 2))
                         then false else old(tests[r, c])
      {
        if mode == Driver {
          tests[0, testNum] := false;
          tests[1, testNum] := false;
        } else if mode == Operator {
          tests[2, testNum] := false;
        }
      }
      ghost var before := old(Table());
      ghost var after := Table();
      ghost var cleared := ClearRows(before, mode);
      forall r | 0 <= r < RowCount
        ensures after[r] == cleared[r]
      {
      }
    }

    /** testResults for one mode, with the two driver joysticks sampled. */
    method TestResults(mode: int, translate: Sample, rotate: Sample) returns (result: bool)
      requires Valid()
      modifies tests
      ensures Table() == ResultsOf(old(Table()), mode, translate, rotate).table
      ensures result == ResultsOf(old(Table()), mode, translate, rotate).pass
    {
      result := true;
      if mode == Driver {
        TestController(translate, 0);
        TestController(rotate, 1);
        for c := 0 to tests.Length1
          modifies {}
          invariant result == forall j :: 0 <= j < c ==> tests[0, j]
        {
          result := result && tests[0, c];
        }
        for c := 0 to tests.Length1
          modifies {}
          invariant result == ((forall j :: 0 <= j < FlagCount ==> tests[0, j]) && forall j :: 0 <= j < c ==> tests[1, j])
        {
          result := result && tests[1, c];
        }
        ghost var t := Table();
        assert forall r, j :: 0 <= r < RowCount && 0 <= j < FlagCount ==> t[r][j] == tests[r, j];
        assert AllTrue(t[0]) <==> forall j :: 0 <= j < FlagCount ==> tests[0, j];
        assert AllTrue(t[1]) <==> forall j :: 0 <= j < FlagCount ==> tests[1, j];
      }
    }
  }
}
