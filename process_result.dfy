/**
 * StgProcessResult: the record one signal-processing pass of a strategy fills
 * in. It holds the 16-bit signal set, a few `unsigned short` counters, the lot
 * size and boost factor used, and `last_error`, a high-water mark of the
 * terminal's error codes since the last reset.
 *
 * `State` is the record as a value and `Apply` the effect of each of its
 * operations; the class `StgProcessResult` updates its fields in place and each
 * of its methods is specified by `Apply`. `Run` applies a sequence of
 * operations, which is where "last_error never decreases between resets" is
 * stated and proved.
 */
module ProcessResult {
  import opened MqlTypes
  import opened SignalFlags

  /** ERR_NO_ERROR */
  const ERR_NO_ERROR: uint32 := 0

  /** The fields of the record, as a value. */
  datatype State = State(
    boostFactor: real,
    lotSize: real,
    lastError: uint32,
    posUpdated: uint16,
    signals: Flags,
    stopsInvalidSl: uint16,
    stopsInvalidTp: uint16,
    tasksProcessed: uint16,
    tasksProcessedNot: uint16)

  /** The operations that change the record. */
  datatype Op =
    | Reset
    | ProcessLastError(error: int32)   // `error` is what Terminal::GetLastError() returns
    | SetBoostFactor(factor: real)
    | SetLotSize(size: real)
    | AddSignals(flags: Flags)
    | RemoveSignals(flags: Flags)
    | SetSignal(flag: Flags, value: bool)
    | SetSignals(flags: Flags)

  /**
   * `fmax(last_error, error)` stored back into the unsigned field: the larger
   * of the two, so never below the stored value and never below the new error.
   */
  function HighWater(last: uint32, error: int32): (r: uint32)
    ensures r >= last && r >= error
    ensures r == last || r == error
  {
    if error > last then error else last
  }

  /** The state Reset produces: no signals, zero counters, no error. */
  predicate IsZeroed(s: State) {
    && s.posUpdated == 0
    && s.stopsInvalidSl == 0
    && s.stopsInvalidTp == 0
    && s.signals == NONE
    && s.lastError == ERR_NO_ERROR
  }

  /** The effect of one operation on the record. */
  function Apply(s: State, op: Op): State {
    match op
    case Reset =>
      s.(posUpdated := 0, stopsInvalidSl := 0, stopsInvalidTp := 0, signals := NONE, lastError := ERR_NO_ERROR)
    case ProcessLastError(e) => s.(lastError := HighWater(s.lastError, e))
    case SetBoostFactor(v) => s.(boostFactor := v)
    case SetLotSize(v) => s.(lotSize := v)
    case AddSignals(f) => s.(signals := Add(s.signals, f))
    case RemoveSignals(f) => s.(signals := Remove(s.signals, f))
    case SetSignal(f, v) => s.(signals := Assign(s.signals, f, v))
    case SetSignals(f) => s.(signals := f)
  }

  /** The record after the operations `ops`, applied in order. */
  function Run(s: State, ops: seq<Op>): State
    decreases |ops|
  {
    if ops == [] then s else Run(Apply(s, ops[0]), ops[1..])
  }

  /** None of `ops` is a Reset. */
  predicate NoReset(ops: seq<Op>) {
    forall k :: 0 <= k < |ops| ==> !ops[k].Reset?
  }

  /** `e` is reported by one of the ProcessLastError operations in `ops`. */
  predicate Reported(ops: seq<Op>, e: int) {
    exists k :: 0 <= k < |ops| && ops[k].ProcessLastError? && ops[k].error == e
  }

  /**
   * Reset reaches the zeroed state from any state, keeps the boost factor,
   * lot size and task counters, and a second Reset changes nothing.
   */
  lemma ResetProperties(s: State)
    ensures IsZeroed(Apply(s, Reset))
    ensures Apply(s, Reset).boostFactor == s.boostFactor && Apply(s, Reset).lotSize == s.lotSize
    ensures Apply(s, Reset).tasksProcessed == s.tasksProcessed
    ensures Apply(s, Reset).tasksProcessedNot == s.tasksProcessedNot
    ensures Apply(Apply(s, Reset), Reset) == Apply(s, Reset)
  {}

  /** SetSignal(flag, true) acts as AddSignals(flag), SetSignal(flag, false) as RemoveSignals(flag). */
  lemma SetSignalIsAddOrRemove(s: State, flag: Flags)
    ensures Apply(s, SetSignal(flag, true)) == Apply(s, AddSignals(flag))
    ensures Apply(s, SetSignal(flag, false)) == Apply(s, RemoveSignals(flag))
  {
    AssignIsAddOrRemove(s.signals, flag);
  }

  /**
   * Between resets `last_error` is a high-water mark: after any run of
   * operations without a Reset it is at least its starting value and at least
   * every reported error, and it is one of those values.
   */
  lemma {:induction false} LastErrorHighWater(s: State, ops: seq<Op>)
    requires NoReset(ops)
    ensures Run(s, ops).lastError >= s.lastError
    ensures forall k :: 0 <= k < |ops| && ops[k].ProcessLastError? ==> Run(s, ops).lastError >= ops[k].error
    ensures Run(s, ops).lastError == s.lastError || Reported(ops, Run(s, ops).lastError)
    decreases |ops|
  {
    if ops != [] {
      var next := Apply(s, ops[0]);
      var rest := ops[1..];
      assert NoReset(rest) by {
        forall k | 0 <= k < |rest| ensures !rest[k].Reset? {
          assert rest[k] == ops[k + 1];
        }
      }
      LastErrorHighWater(next, rest);
      var last := Run(s, ops).lastError;
      assert Run(s, ops) == Run(next, rest);
      assert next.lastError >= s.lastError;
      assert next.lastError == s.lastError || (ops[0].ProcessLastError? && next.lastError == ops[0].error);
      forall k | 0 <= k < |ops| && ops[k].ProcessLastError? ensures last >= ops[k].error {
        if k > 0 {
          assert rest[k - 1] == ops[k];
        }
      }
      if last != s.lastError {
        if last == next.lastError {
          assert ops[0].ProcessLastError? && ops[0].error == last;
        } else {
          var j :| 0 <= j < |rest| && rest[j].ProcessLastError? && rest[j].error == last;
          assert ops[j + 1] == rest[j];
        }
      }
    }
  }

  /**
   * A Reset starts a fresh high-water mark: after Reset and a run without a
   * further Reset, `last_error` is the largest reported error, or no error
   * when none was larger.
   */
  lemma LastErrorAfterReset(s: State, ops: seq<Op>)
    requires NoReset(ops)
    ensures forall k :: 0 <= k < |ops| && ops[k].ProcessLastError? ==> Run(s, [Reset] + ops).lastError >= ops[k].error
    ensures Run(s, [Reset] + ops).lastError == ERR_NO_ERROR || Reported(ops, Run(s, [Reset] + ops).lastError)
  {
    assert ([Reset] + ops)[1..] == ops;
    LastErrorHighWater(Apply(s, Reset), ops);
  }

  /** The record of one processing pass, updated in place. */
  class StgProcessResult {
    var boostFactor: real
    var lotSize: real
    var lastError: uint32
    var posUpdated: uint16
    var signals: Flags
    var stopsInvalidSl: uint16
    var stopsInvalidTp: uint16
    var tasksProcessed: uint16
    var tasksProcessedNot: uint16

    /** The fields as a value. */
    function Value(): State
      reads this
    {
      State(boostFactor, lotSize, lastError, posUpdated, signals,
            stopsInvalidSl, stopsInvalidTp, tasksProcessed, tasksProcessedNot)
    }

    /**
     * The constructor only calls Reset: the boost factor, lot size and task
     * counters start with whatever value they have.
     */
    constructor ()
      ensures IsZeroed(Value())
    {
      new;
      Reset();
    }

    function GetBoostFactor(): real
      reads this
    {
      boostFactor
    }

    function GetLotSize(): real
      reads this
    {
      lotSize
    }

    function GetSignals(): Flags
      reads this
    {
      signals
    }

    /** Raises `last_error` to the terminal's last error when that is larger. */
    method ProcessLastError(terminalError: int32)
      modifies this
      ensures Value() == Apply(old(Value()), Op.ProcessLastError(terminalError))
      ensures lastError >= old(lastError) && lastError >= terminalError
    {
      lastError := HighWater(lastError, terminalError);
    }

    method Reset()
      modifies this
      ensures Value() == Apply(old(Value()), Op.Reset)
      ensures IsZeroed(Value())
    {
      posUpdated, stopsInvalidSl, stopsInvalidTp := 0, 0, 0;
      signals := NONE;
      lastError := ERR_NO_ERROR;
    }

    method SetBoostFactor(factor: real)
      modifies this
      ensures Value() == Apply(old(Value()), Op.SetBoostFactor(factor))
      ensures GetBoostFactor() == factor
    {
      boostFactor := factor;
    }

    method SetLotSize(size: real)
      modifies this
      ensures Value() == Apply(old(Value()), Op.SetLotSize(size))
      ensures GetLotSize() == size
    {
      lotSize := size;
    }

    /** True when every flag of `flags` is raised (not when any one is). */
    function CheckSignals(flags: Flags): (b: bool)
      reads this
      ensures b <==> forall i: Position :: Has(flags, i) ==> Has(signals, i)
    {
      Check(signals, flags)
    }

    method AddSignals(flags: Flags)
      modifies this
      ensures Value() == Apply(old(Value()), Op.AddSignals(flags))
      ensures CheckSignals(flags)
      ensures forall i: Position :: Has(old(signals), i) ==> Has(signals, i)
    {
      signals := signals | flags;
    }

    method RemoveSignals(flags: Flags)
      modifies this
      ensures Value() == Apply(old(Value()), Op.RemoveSignals(flags))
      ensures signals & flags == NONE
      ensures forall i: Position :: !Has(flags, i) ==> (Has(signals, i) <==> Has(old(signals), i))
    {
      signals := signals & !flags;
    }

    /** Raises `flag` (the default) or clears it. */
    method SetSignal(flag: Flags, value: bool := true)
      modifies this
      ensures Value() == Apply(old(Value()), Op.SetSignal(flag, value))
      ensures value ==> CheckSignals(flag)
      ensures !value ==> signals & flag == NONE
    {
      if value {
        AddSignals(flag);
      } else {
        RemoveSignals(flag);
      }
    }

    method SetSignals(flags: Flags)
      modifies this
      ensures Value() == Apply(old(Value()), Op.SetSignals(flags))
      ensures GetSignals() == flags
    {
      signals := flags;
    }
  }

  /** A caller's view: the error high-water mark across a reset. */
  method ErrorHighWaterScenario() {
    var r := new StgProcessResult();
    r.ProcessLastError(3);
    r.ProcessLastError(1);
    assert r.lastError == 3;
    r.Reset();
    r.ProcessLastError(1);
    assert r.lastError == 1;
  }

  /** A caller's view: a subset query over three distinct flags. */
  method SignalScenario() {
    var openLong, filterPassed, closeShort: Flags := 0x0001, 0x0004, 0x0010;
    var r := new StgProcessResult();
    r.SetSignal(openLong);
    r.AddSignals(filterPassed);
    assert r.CheckSignals(openLong | filterPassed);
    assert !r.CheckSignals(openLong | closeShort);
  }
}
