# Strategy records: a Dafny model

This project models the strategy records in `Strategy.struct.h`. Each record has its own module:

- `StgProcessResult` (module `ProcessResult`) holds what one pass of signal processing produces:
  - a 16-bit set of signal flags, changed by bitwise operations;
  - a few `unsigned short` counters;
  - the lot size and boost factor that were used;
  - `last_error`, the highest terminal error code seen since the last reset.
- `StgParams` (module `StrategyParams`) is a strategy's configuration. Two constructors give it fixed defaults. After that, setters change it one field, or one group of fields, at a time.
- `StgEntry` (module `StrategyEntry`) holds one statistics record per period (daily, weekly, monthly, total) in a fixed-size array. `SetStats` writes to it.

Module `SignalFlags` specifies the flag set one bit position at a time, through `Has`. That definition does not depend on the bitwise code, and `Extensionality` proves that the positions determine the set.

`StgProcessResult` and `StgParams` are classes whose methods update fields in place. Each has a value-level partner:

- `State` and `Apply` specify every `StgProcessResult` method. `Run` chains operations. The high-water property of `last_error` is proved over `Run`.
- Every `StgParams` setter states its new state as a record update of `Fields()`. So each setter states that it writes its own fields and leaves all the others unchanged.
- `StgEntry` keeps its array, and `SetStats` is stated against the array's previous contents.

Floating-point fields are modelled as `real`. Fixed-width integers are subset types of `int` (module `MqlTypes`).

Some values come from the environment, so they are passed in as parameters:

- `Terminal::GetLastError()` becomes `terminalError`.
- `rand()` becomes `randomValue`, bounded by `RAND_MAX`.
- The new `Log` object becomes `log`.
- The chart's minimum volume becomes `volumeMin`.
- The `Trade`, `Indicator` and `Strategy` objects become opaque references (`Ref`). A `Ref` records whether its object was created with `new` (dynamic) or is an automatic object. `Object::IsValid` is modelled as "not NULL and not deleted". `Object::Delete` deletes only dynamic objects and leaves automatic ones valid. Each `StgParams` record remembers which objects it has deleted, through `DeleteObjects` or `SetTrade`.

The source's default arguments are kept as Dafny parameter defaults. These are the NULL pointers of the first `StgParams` constructor, the zero shift and close time of the second, the NULL references of `SetStops`, and `true` for `SetSignal`.

## Model

| member | source | states |
|---|---|---|
| SignalFlags.Extensionality | Strategy.struct.h:215 | two 16-bit flag sets that raise the same positions are equal, so the position-wise contracts below fix each result completely |
| SignalFlags.AgreeBelow | Strategy.struct.h:215 | sets that agree on every position also agree on their lowest k positions (the induction behind Extensionality) |
| SignalFlags.MaskTestIsSubset | Strategy.struct.h:239 | the test `(signals & flags) == flags` holds exactly when every position of `flags` is raised in `signals` (both directions) |
| SignalFlags.Check | Strategy.struct.h:239 | CheckSignals is a subset test: true if and only if ALL the given flags are raised |
| SignalFlags.Add | Strategy.struct.h:240 | after AddSignals, a position is raised if and only if it was raised before or is in `flags` |
| SignalFlags.Remove | Strategy.struct.h:241 | after RemoveSignals, a position is raised if and only if it was raised before and is not in `flags` |
| SignalFlags.Assign | Strategy.struct.h:242-248 | SetSignal gives the positions of `flag` the value `value` and leaves every other position as it was |
| SignalFlags.CheckEdgeCases | Strategy.struct.h:239 | checking the empty set always succeeds; a partial overlap is not enough (0x0001 does not pass the 0x0003 check, although the two overlap) |
| SignalFlags.AddProperties | Strategy.struct.h:240 | after adding `flags` they all pass the check, every set that passed before still passes, and adding the same flags again changes nothing |
| SignalFlags.RemoveProperties | Strategy.struct.h:241 | after removing `flags` none of them is raised, every other position is kept, and a non-empty `flags` no longer passes the check |
| SignalFlags.AssignIsAddOrRemove | Strategy.struct.h:242-248 | SetSignal with true is AddSignals, and with false it is RemoveSignals |
| ProcessResult.HighWater | Strategy.struct.h:230 | `fmax` stored into the unsigned `last_error`: the result is at least the old value and at least the new error, and it is one of the two |
| ProcessResult.ResetProperties | Strategy.struct.h:231-235 | Reset zeroes the counters, signals and error from any state, keeps the boost factor, lot size and task counters, and is idempotent |
| ProcessResult.SetSignalIsAddOrRemove | Strategy.struct.h:242-248 | on the whole record, SetSignal(flag, true) has the effect of AddSignals(flag), and SetSignal(flag, false) that of RemoveSignals(flag) |
| ProcessResult.LastErrorHighWater | Strategy.struct.h:230 | over any run of operations without a Reset, `last_error` never drops below its start or below any reported error, and it always equals the start or one of the reported errors |
| ProcessResult.LastErrorAfterReset | Strategy.struct.h:230-235 | after a Reset and a run without another Reset, `last_error` is at least every reported error, and it is either ERR_NO_ERROR or one of those errors |
| ProcessResult.StgProcessResult.constructor | Strategy.struct.h:221 | a new record starts with no signals, no error and zero position and invalid-stop counters; Reset does not touch the task counters, boost factor or lot size, so they are left uninitialised and nothing is promised about them |
| ProcessResult.StgProcessResult.ProcessLastError | Strategy.struct.h:230 | the new `last_error` is at least the old one and at least the terminal's error, and nothing else changes |
| ProcessResult.StgProcessResult.Reset | Strategy.struct.h:231-235 | the record is zeroed, and the boost factor, lot size and task counters keep their values |
| ProcessResult.StgProcessResult.SetBoostFactor | Strategy.struct.h:236 | the boost factor getter returns the new value; no other field changes |
| ProcessResult.StgProcessResult.SetLotSize | Strategy.struct.h:237 | the lot size getter returns the new value; no other field changes |
| ProcessResult.StgProcessResult.CheckSignals | Strategy.struct.h:239 | true if and only if every flag of `flags` is raised in the record's signals |
| ProcessResult.StgProcessResult.AddSignals | Strategy.struct.h:240 | the added flags pass CheckSignals, every flag raised before stays raised, and only the signals change |
| ProcessResult.StgProcessResult.RemoveSignals | Strategy.struct.h:241 | no removed flag is raised, every other position keeps its value, and only the signals change |
| ProcessResult.StgProcessResult.SetSignal | Strategy.struct.h:242-248 | `value` defaults to true; with true the flag passes CheckSignals, with false none of its bits is raised, and only the signals change |
| ProcessResult.StgProcessResult.SetSignals | Strategy.struct.h:249 | the signals getter returns the new set; no other field changes |
| StrategyParams.DeleteInvalidates | Strategy.struct.h:177 | after `Object::Delete` of a pointer, that pointer is invalid when its object was created with `new`, an automatic or NULL pointer keeps its validity, and every other pointer is exactly as valid as before |
| StrategyParams.InitialLotSizeSettles | Strategy.struct.h:130-134 | InitLotSize takes the minimum volume exactly when a valid (non-NULL, not deleted) trade is attached and otherwise keeps the size; running it again changes nothing |
| StrategyParams.DeletedTradeKeepsLotSize | Strategy.struct.h:130-134 | once the record has deleted a dynamic trade, InitLotSize leaves the lot size unchanged whatever the minimum volume; for an automatic trade the deletion changes nothing and InitLotSize acts as before |
| StrategyParams.DefaultFactorKeepsLotSize | Strategy.struct.h:144 | with the constructors' default factor of 1.0, the lot size with factor equals the lot size |
| StrategyParams.StgParams.constructor | Strategy.struct.h:68-97 | stores the given pointers (NULL by default) and the new Log, with nothing deleted yet, takes `rand()` as the magic number, sets the defaults (enabled, not suspended, boosted, weight 0, lot factor 1.0, max risk 1.0, zeroed signals, price limits, spread and hard limits), then InitLotSize sets the lot size, so the lot size with factor is the minimum volume when a valid trade was given and 0 otherwise |
| StrategyParams.StgParams.WithSignals | Strategy.struct.h:98-125 | stores the given signal, price-limit, tick-filter, shift and close-time settings (shift and close time 0 by default) with the same defaults; the max-spread argument is not stored (max spread is 0) |
| StrategyParams.StgParams.InitLotSize | Strategy.struct.h:130-134 | the lot size becomes the minimum volume when the trade is valid (non-NULL and not deleted) and stays as it was otherwise; no other field changes |
| StrategyParams.StgParams.SetId | Strategy.struct.h:150 | only the id changes |
| StrategyParams.StgParams.SetIndicator | Strategy.struct.h:151 | only the indicator changes, and GetIndicator returns it |
| StrategyParams.StgParams.SetLotSize | Strategy.struct.h:152 | only the lot size changes, and GetLotSize returns it |
| StrategyParams.StgParams.SetLotSizeFactor | Strategy.struct.h:153 | only the lot size factor changes, and GetLotSizeFactor returns it |
| StrategyParams.StgParams.SetMagicNo | Strategy.struct.h:154 | only the magic number changes |
| StrategyParams.StgParams.SetOrderCloseTime | Strategy.struct.h:155 | only the order close time changes, and GetOrderCloseTime returns it |
| StrategyParams.StgParams.SetStops | Strategy.struct.h:156-159 | both SL and TP strategy references are replaced as given, NULL by default; nothing else changes |
| StrategyParams.StgParams.SetTf | Strategy.struct.h:160 | the record points to a newly created (dynamic) Trade, which is valid and distinct from every object the record already refers to; nothing else changes |
| StrategyParams.StgParams.SetShift | Strategy.struct.h:161 | only the shift changes, and GetShift returns it |
| StrategyParams.StgParams.SetSignals | Strategy.struct.h:162-170 | the six signal settings take the given values; nothing else changes |
| StrategyParams.StgParams.SetPriceLimits | Strategy.struct.h:171-174 | the price-limit method and level take the given values; nothing else changes |
| StrategyParams.StgParams.SetTickFilter | Strategy.struct.h:175 | only the tick filter method changes |
| StrategyParams.StgParams.SetTrade | Strategy.struct.h:176-179 | the old trade object is deleted when it was created with `new`, and the new pointer is stored; passing the dynamic pointer already held leaves an invalid trade; an automatic old trade deletes nothing; no other field changes |
| StrategyParams.StgParams.SetMaxSpread | Strategy.struct.h:180 | only the max spread changes, and GetMaxSpread returns it |
| StrategyParams.StgParams.SetMaxRisk | Strategy.struct.h:181 | only the max risk changes, and GetMaxRisk returns it |
| StrategyParams.StgParams.Enabled | Strategy.struct.h:182 | only the enabled flag changes, and IsEnabled returns it |
| StrategyParams.StgParams.Suspended | Strategy.struct.h:183 | only the suspended flag changes, and IsSuspended returns it |
| StrategyParams.StgParams.Boost | Strategy.struct.h:184 | only the boosted flag changes, and IsBoosted returns it |
| StrategyParams.StgParams.DeleteObjects | Strategy.struct.h:185-188 | the indicator and trade objects created with `new` are deleted and invalid afterwards; automatic ones keep their validity; the pointers are not cleared and no other field changes |
| StrategyEntry.Index | Strategy.struct.h:278 | every period has a slot within the array of FINAL_ENUM_STRATEGY_STATS_PERIOD (4) records |
| StrategyEntry.PeriodAt | Strategy.struct.h:278 | every slot 0..3 belongs to a period: the inverse of Index |
| StrategyEntry.IndexIsOneToOne | Strategy.struct.h:278 | different periods have different slots |
| StrategyEntry.StgEntry.SetStats | Strategy.struct.h:284 | the period's slot now holds a copy of `stats`, and every other period keeps its record |

## Left out

- ToString and ToCSV (`Strategy.struct.h:190-199`, `226-228`, `270-273`, `279-282`): string formatting only, with no state or logic to prove.
- GetChart (`Strategy.struct.h:136`): it returns the trade's foreign Chart object. The one value the model needs from it, the minimum volume, is the `volumeMin` parameter.
- Stg_Params and StgStats (`Strategy.struct.h:203-207`, `253-256`): plain data with no operations; Stg_Params only reads the terminal's current symbol and period.
- The StgParams copy constructor and empty destructor (`Strategy.struct.h:126-128`): a whole-struct copy is the value `Fields()`.
- The getters of StgParams and StgProcessResult are not separate rows, because each returns a field. The setters' contracts state them through `Params` and `StgProcessResult`.
- StrategyParams.Params.GetLotSizeWithFactor: this getter is the exception, since it returns the product `lot_size * lot_size_factor` (line 144), computed as an exact real product without rounding. It has no contract of its own. What the model states about it is in `DefaultFactorKeepsLotSize` and in the first constructor's ensures: the result is the minimum volume when a valid trade is given, and 0 otherwise.
- StrategyParams.IsValid: only deletions made by the record itself (`DeleteObjects`, `SetTrade`) are tracked. An object deleted elsewhere, or one a constructor receives already deleted, still counts as valid in the model, whereas `Object::IsValid` reports it invalid.
- StrategyParams.StgParams.SetTf: the construction of the new Trade for a timeframe and symbol is foreign. The new object is a valid reference passed in.
- StrategyParams.StgParams.constructor and StrategyParams.StgParams.WithSignals: the code leaves some fields uninitialised, and the model promises nothing about them. These are `id` and `shift` in the first constructor, and `id` plus the trade, indicator and SL/TP pointers in the second.
- StrategyParams.StgParams.InitLotSize: the `(float)` cast of the minimum volume is not modelled.
- Floating point: `float` and `double` fields are `real`, so rounding in `lot_size * lot_size_factor` and in `fmax` is not modelled.
- StrategyEntry.StgEntry.SetStats: `Period` holds only the four real periods. In the source the period is an ENUM_STRATEGY_STATS_PERIOD value, so the count value FINAL_ENUM_STRATEGY_STATS_PERIOD or any out-of-range cast can be passed. Line 284 then writes past the array, which is an "array out of range" runtime error in MQL. The model cannot express that input or that failure.
- Strategy.enum.h is not part of this model. The flag values of ENUM_STRATEGY_SIGNAL_FLAGS are any bit positions, and STRAT_SIGNAL_NONE is 0. The period slots follow the order the record writes them (daily 0, weekly 1, monthly 2, total 3).
- ProcessResult.StgProcessResult.SetSignal: the conversion of an ENUM_STRATEGY_SIGNAL_FLAGS value to `unsigned short` is taken to be lossless.
- StrategyParams.StgParams.SetSignals: the six signal settings are one record-valued field (`SignalSettings`), not six separate fields. The record's contents are the same.
- Concurrency: none is involved, since every record is owned by one strategy.

Some behaviour one might expect of these records is not in the code of `Strategy.struct.h`. The model follows the code:

- SL/TP strategies are not checked for cycles.
- There is no outcome recording or profit-factor computation.
- There is no error for an unknown statistics period.
- `lot_size_factor` and `max_risk` are not kept non-negative: `SetLotSizeFactor` (line 153) and `SetMaxRisk` (line 181) store any value.
- Reset does not zero all counters: `tasks_processed` and `tasks_processed_not` keep their values (lines 231-235).
- The max-spread argument of the second constructor is ignored, and max spread is set to 0.
