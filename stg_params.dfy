/**
 * StgParams: the configuration record of one strategy. Its fields are set by
 * two constructors with fixed defaults and changed afterwards by setters, each
 * of which writes its own field or fields and nothing else.
 *
 * `Params` is the record as a value; every setter is specified by the record
 * update it performs on `Fields()`. Floating-point fields are `real`: the
 * modelled code only stores and returns them, except for the product in
 * GetLotSizeWithFactor. The Trade, Indicator, Strategy and Log objects the
 * record points to are foreign; they appear as opaque references, and what
 * the record learns from them (the minimum volume, `rand()`, the new Log) is
 * passed in as a parameter. The record remembers which of them it has
 * deleted, since a deleted object is no longer valid.
 */
module StrategyParams {
  import opened MqlTypes

  /**
   * A pointer to a foreign object (Trade, Indicator, Strategy or Log), or
   * NULL. `dynamic` tells an object created with `new` (POINTER_DYNAMIC) from
   * an automatic one reached through GetPointer (POINTER_AUTOMATIC).
   */
  datatype Ref = Null | Object(id: nat, dynamic: bool)

  /** The pointer refers to an object created with `new`: the only kind that can be deleted. */
  predicate IsDynamic(r: Ref) {
    r.Object? && r.dynamic
  }

  /**
   * Object::IsValid: the pointer is not NULL and its object has not been
   * deleted. `deleted` holds the objects this record has deleted.
   */
  predicate IsValid(r: Ref, deleted: set<Ref>) {
    r.Object? && r !in deleted
  }

  /**
   * Object::Delete: deletes the object `r` points to when it was created
   * with `new`; a NULL pointer and an automatic object are left alone.
   */
  function AfterDelete(deleted: set<Ref>, r: Ref): set<Ref> {
    if IsDynamic(r) then deleted + {r} else deleted
  }

  /**
   * After Object::Delete(r) a dynamic `r` is invalid, an automatic or NULL
   * `r` keeps its validity, and every other pointer keeps its validity.
   */
  lemma DeleteInvalidates(deleted: set<Ref>, r: Ref)
    ensures IsDynamic(r) ==> !IsValid(r, AfterDelete(deleted, r))
    ensures !IsDynamic(r) ==> (IsValid(r, AfterDelete(deleted, r)) <==> IsValid(r, deleted))
    ensures forall q :: q != r ==> (IsValid(q, AfterDelete(deleted, r)) <==> IsValid(q, deleted))
  {}

  /**
   * The six signal settings (signal_open_method, signal_open_level,
   * signal_open_filter, signal_open_boost, signal_close_method,
   * signal_close_level), which SetSignals writes together; the model keeps
   * them as one record-valued field.
   */
  datatype SignalSettings = SignalSettings(
    openMethod: int32,
    openLevel: real,
    openFilter: int32,
    openBoost: int32,
    closeMethod: int32,
    closeLevel: real)

  /** The fields of StgParams, as a value. */
  datatype Params = Params(
    isEnabled: bool,
    isSuspended: bool,
    isBoosted: bool,
    id: int64,
    magicNo: uint64,
    weight: real,
    orderCloseTime: int32,      // minutes when positive, bars when negative
    shift: int32,
    signal: SignalSettings,
    priceLimitMethod: int32,
    priceLimitLevel: real,
    tickFilterMethod: int32,
    lotSize: real,
    lotSizeFactor: real,
    maxRisk: real,
    maxSpread: real,
    tpMax: int32,
    slMax: int32,
    refreshTime: int64,
    logger: Ref,
    trade: Ref,
    data: Ref,
    sl: Ref,
    tp: Ref,
    deleted: set<Ref>)
  {
    // The getters of StgParams read the record and nothing else.

    function GetIndicator(): Ref { data }

    function GetLog(): Ref { logger }

    function IsBoosted(): bool { isBoosted }

    function IsEnabled(): bool { isEnabled }

    function IsSuspended(): bool { isSuspended }

    function GetLotSize(): real { lotSize }

    function GetLotSizeFactor(): real { lotSizeFactor }

    /** The lot size scaled by its factor. */
    function GetLotSizeWithFactor(): real { WithFactor(lotSize, lotSizeFactor) }

    function GetMaxRisk(): real { maxRisk }

    function GetMaxSpread(): real { maxSpread }

    function GetOrderCloseTime(): int32 { orderCloseTime }

    function GetShift(): int32 { shift }
  }

  /** The values both constructors give the flags, the risk settings and the hard limits. */
  predicate HasConstructorDefaults(p: Params) {
    && p.isEnabled && !p.isSuspended && p.isBoosted
    && p.weight == 0.0
    && p.lotSizeFactor == 1.0 && p.maxRisk == 1.0 && p.maxSpread == 0.0
    && p.tpMax == 0 && p.slMax == 0 && p.refreshTime == 0
  }

  /** The lot size InitLotSize leaves: the minimum volume when a trade is present, otherwise the old size. */
  function InitialLotSize(trade: Ref, deleted: set<Ref>, volumeMin: real, lotSize: real): real {
    if IsValid(trade, deleted) then volumeMin else lotSize
  }

  /** The lot size scaled by its factor, as an exact product (float rounding is not modelled). */
  function WithFactor(size: real, factor: real): real {
    size * factor
  }


  /**
   * InitLotSize settles the lot size: running it a second time with the same
   * trade and minimum volume changes nothing, and without a trade it keeps
   * the size it was given.
   */
  lemma InitialLotSizeSettles(trade: Ref, deleted: set<Ref>, volumeMin: real, lotSize: real)
    ensures InitialLotSize(trade, deleted, volumeMin, InitialLotSize(trade, deleted, volumeMin, lotSize))
         == InitialLotSize(trade, deleted, volumeMin, lotSize)
    ensures !IsValid(trade, deleted) ==> InitialLotSize(trade, deleted, volumeMin, lotSize) == lotSize
    ensures IsValid(trade, deleted) ==> InitialLotSize(trade, deleted, volumeMin, lotSize) == volumeMin
  {}

  /**
   * Once the record has deleted its trade (DeleteObjects, or SetTrade with
   * the pointer it already holds), InitLotSize no longer changes the lot size
   * when that trade was created with `new`; an automatic trade survives the
   * deletion and InitLotSize acts as before.
   */
  lemma DeletedTradeKeepsLotSize(trade: Ref, deleted: set<Ref>, volumeMin: real, lotSize: real)
    ensures IsDynamic(trade) ==> InitialLotSize(trade, AfterDelete(deleted, trade), volumeMin, lotSize) == lotSize
    ensures !IsDynamic(trade) ==>
      InitialLotSize(trade, AfterDelete(deleted, trade), volumeMin, lotSize) == InitialLotSize(trade, deleted, volumeMin, lotSize)
  {
    DeleteInvalidates(deleted, trade);
  }

  /** With the constructors' factor of 1.0 the lot size with factor is the lot size itself. */
  lemma DefaultFactorKeepsLotSize(p: Params)
    requires HasConstructorDefaults(p)
    ensures p.GetLotSizeWithFactor() == p.GetLotSize()
  {}

  class StgParams {
    var isEnabled: bool
    var isSuspended: bool
    var isBoosted: bool
    var id: int64
    var magicNo: uint64
    var weight: real
    var orderCloseTime: int32
    var shift: int32
    var signal: SignalSettings    // signal_open_method .. signal_close_level
    var priceLimitMethod: int32
    var priceLimitLevel: real
    var tickFilterMethod: int32
    var lotSize: real
    var lotSizeFactor: real
    var maxRisk: real
    var maxSpread: real
    var tpMax: int32
    var slMax: int32
    var refreshTime: int64
    var logger: Ref
    var trade: Ref
    var data: Ref
    var sl: Ref
    var tp: Ref
    var deleted: set<Ref>         // the objects this record has deleted

    /** The fields as a value. */
    function Fields(): Params
      reads this
    {
      Params(isEnabled, isSuspended, isBoosted, id, magicNo, weight, orderCloseTime, shift,
             signal, priceLimitMethod, priceLimitLevel, tickFilterMethod,
             lotSize, lotSizeFactor, maxRisk, maxSpread, tpMax, slMax, refreshTime,
             logger, trade, data, sl, tp, deleted)
    }

    /**
     * The constructor with collaborator pointers. `randomValue` is what
     * `rand()` returned, `log` the Log object it creates, and `volumeMin` the
     * minimum volume of the trade's chart, read only when the trade is valid.
     * The four pointers default to NULL. `id` and `shift` are not initialised
     * and keep whatever value they have.
     */
    constructor (trade: Ref := Null, data: Ref := Null, sl: Ref := Null, tp: Ref := Null,
                 randomValue: int, log: Ref, volumeMin: real)
      requires 0 <= randomValue <= RAND_MAX
      requires IsValid(log, {})
      ensures HasConstructorDefaults(Fields()) && deleted == {}
      ensures this.trade == trade && this.data == data && this.sl == sl && this.tp == tp
      ensures logger == log && magicNo == randomValue && orderCloseTime == 0
      ensures signal == SignalSettings(0, 0.0, 0, 0, 0, 0.0)
      ensures priceLimitMethod == 0 && priceLimitLevel == 0.0 && tickFilterMethod == 0
      ensures lotSize == InitialLotSize(trade, {}, volumeMin, 0.0)
      ensures IsValid(trade, {}) ==> Fields().GetLotSizeWithFactor() == volumeMin
      ensures !IsValid(trade, {}) ==> Fields().GetLotSizeWithFactor() == 0.0
    {
      this.trade, this.data, this.sl, this.tp := trade, data, sl, tp;
      isEnabled, isSuspended, isBoosted := true, false, true;
      orderCloseTime := 0;
      magicNo := randomValue;
      weight := 0.0;
      signal := SignalSettings(0, 0.0, 0, 0, 0, 0.0);
      priceLimitMethod, priceLimitLevel := 0, 0.0;
      tickFilterMethod := 0;
      lotSize, lotSizeFactor, maxRisk, maxSpread := 0.0, 1.0, 1.0, 0.0;
      tpMax, slMax, refreshTime := 0, 0, 0;
      logger := log;
      deleted := {};
      new;
      InitLotSize(volumeMin);
    }

    /**
     * The constructor with signal settings. The max-spread argument `ms` is
     * accepted but not stored: max spread is set to 0. `id` and the trade,
     * indicator and SL/TP strategy pointers are not initialised, so whether
     * InitLotSize takes the minimum volume depends on the pointer the record
     * happens to hold. The shift and the order close time default to 0.
     */
    constructor WithSignals(som: int32, sof: int32, sol: real, sob: int32, scm: int32, scl: real,
                            plm: int32, pll: real, tfm: int32, ms: real, s: int32 := 0, oct: int32 := 0,
                            randomValue: int, log: Ref, volumeMin: real)
      requires 0 <= randomValue <= RAND_MAX
      requires IsValid(log, {})
      ensures HasConstructorDefaults(Fields()) && deleted == {}
      ensures signal == SignalSettings(som, sol, sof, sob, scm, scl)
      ensures priceLimitMethod == plm && priceLimitLevel == pll && tickFilterMethod == tfm
      ensures shift == s && orderCloseTime == oct
      ensures logger == log && magicNo == randomValue
      ensures lotSize == InitialLotSize(trade, {}, volumeMin, 0.0)
    {
      signal := SignalSettings(som, sol, sof, sob, scm, scl);
      priceLimitMethod, priceLimitLevel := plm, pll;
      tickFilterMethod := tfm;
      shift, orderCloseTime := s, oct;
      isEnabled, isSuspended, isBoosted := true, false, true;
      magicNo := randomValue;
      weight := 0.0;
      lotSize, lotSizeFactor, maxRisk, maxSpread := 0.0, 1.0, 1.0, 0.0;
      tpMax, slMax, refreshTime := 0, 0, 0;
      logger := log;
      deleted := {};
      new;
      InitLotSize(volumeMin);
    }

    /** Takes the chart's minimum volume as the lot size, only when a valid trade is attached. */
    method InitLotSize(volumeMin: real)
      modifies this
      ensures Fields() == old(Fields()).(lotSize := InitialLotSize(trade, deleted, volumeMin, old(lotSize)))
      ensures !IsValid(trade, deleted) ==> lotSize == old(lotSize)
    {
      if IsValid(trade, deleted) {
        lotSize := volumeMin;
      }
    }

    // Setters: each writes its own fields and leaves every other one unchanged.

    method SetId(newId: int64)
      modifies this
      ensures Fields() == old(Fields()).(id := newId)
    {
      id := newId;
    }

    method SetIndicator(indi: Ref)
      modifies this
      ensures Fields() == old(Fields()).(data := indi)
      ensures Fields().GetIndicator() == indi
    {
      data := indi;
    }

    method SetLotSize(size: real)
      modifies this
      ensures Fields() == old(Fields()).(lotSize := size)
      ensures Fields().GetLotSize() == size
    {
      lotSize := size;
    }

    method SetLotSizeFactor(factor: real)
      modifies this
      ensures Fields() == old(Fields()).(lotSizeFactor := factor)
      ensures Fields().GetLotSizeFactor() == factor
    {
      lotSizeFactor := factor;
    }

    method SetMagicNo(mn: uint64)
      modifies this
      ensures Fields() == old(Fields()).(magicNo := mn)
    {
      magicNo := mn;
    }

    method SetOrderCloseTime(value: int32)
      modifies this
      ensures Fields() == old(Fields()).(orderCloseTime := value)
      ensures Fields().GetOrderCloseTime() == value
    {
      orderCloseTime := value;
    }

    /** Replaces both SL/TP strategy references as given (NULL by default); nothing is checked. */
    method SetStops(newSl: Ref := Null, newTp: Ref := Null)
      modifies this
      ensures Fields() == old(Fields()).(sl := newSl, tp := newTp)
    {
      sl := newSl;
      tp := newTp;
    }

    /**
     * Points the record at a newly created Trade for a timeframe and symbol:
     * a valid object distinct from every one the record refers to.
     */
    method SetTf(newTrade: Ref)
      requires IsDynamic(newTrade) && IsValid(newTrade, deleted)
      requires newTrade !in {trade, data, sl, tp, logger}
      modifies this
      ensures Fields() == old(Fields()).(trade := newTrade)
    {
      trade := newTrade;
    }

    method SetShift(newShift: int32)
      modifies this
      ensures Fields() == old(Fields()).(shift := newShift)
      ensures Fields().GetShift() == newShift
    {
      shift := newShift;
    }

    /** Writes the six signal settings, and only those. */
    method SetSignals(openMethod: int32, openLevel: real, openFilter: int32, openBoost: int32,
                      closeMethod: int32, closeLevel: real)
      modifies this
      ensures Fields() == old(Fields()).(signal := SignalSettings(openMethod, openLevel, openFilter, openBoost,
                                                                  closeMethod, closeLevel))
    {
      signal := SignalSettings(openMethod, openLevel, openFilter, openBoost, closeMethod, closeLevel);
    }

    method SetPriceLimits(limitMethod: int32, level: real)
      modifies this
      ensures Fields() == old(Fields()).(priceLimitMethod := limitMethod, priceLimitLevel := level)
    {
      priceLimitMethod := limitMethod;
      priceLimitLevel := level;
    }

    method SetTickFilter(filterMethod: int32)
      modifies this
      ensures Fields() == old(Fields()).(tickFilterMethod := filterMethod)
    {
      tickFilterMethod := filterMethod;
    }

    /**
     * Deletes the current Trade object (when it was created with `new`) and
     * installs `newTrade`. Passing the dynamic pointer the record already
     * holds leaves it holding a deleted, invalid trade.
     */
    method SetTrade(newTrade: Ref)
      modifies this
      ensures Fields() == old(Fields()).(deleted := AfterDelete(old(deleted), old(trade)), trade := newTrade)
      ensures newTrade == old(trade) && IsDynamic(newTrade) ==> !IsValid(trade, deleted)
      ensures !IsDynamic(old(trade)) ==> deleted == old(deleted)
    {
      DeleteInvalidates(deleted, trade);
      deleted := AfterDelete(deleted, trade);
      trade := newTrade;
    }

    method SetMaxSpread(spread: real)
      modifies this
      ensures Fields() == old(Fields()).(maxSpread := spread)
      ensures Fields().GetMaxSpread() == spread
    {
      maxSpread := spread;
    }

    method SetMaxRisk(risk: real)
      modifies this
      ensures Fields() == old(Fields()).(maxRisk := risk)
      ensures Fields().GetMaxRisk() == risk
    {
      maxRisk := risk;
    }

    method Enabled(enabled: bool)
      modifies this
      ensures Fields() == old(Fields()).(isEnabled := enabled)
      ensures Fields().IsEnabled() == enabled
    {
      isEnabled := enabled;
    }

    method Suspended(suspended: bool)
      modifies this
      ensures Fields() == old(Fields()).(isSuspended := suspended)
      ensures Fields().IsSuspended() == suspended
    {
      isSuspended := suspended;
    }

    method Boost(boosted: bool)
      modifies this
      ensures Fields() == old(Fields()).(isBoosted := boosted)
      ensures Fields().IsBoosted() == boosted
    {
      isBoosted := boosted;
    }

    /**
     * Deletes the indicator and trade objects. The pointers themselves are not
     * cleared: the record keeps holding them, and those created with `new` are
     * now invalid.
     */
    method DeleteObjects()
      modifies this
      ensures Fields() == old(Fields()).(deleted := AfterDelete(AfterDelete(old(deleted), old(data)), old(trade)))
      ensures IsDynamic(data) ==> !IsValid(data, deleted)
      ensures IsDynamic(trade) ==> !IsValid(trade, deleted)
      ensures !IsDynamic(data) ==> (IsValid(data, deleted) <==> old(IsValid(data, deleted)))
      ensures !IsDynamic(trade) ==> (IsValid(trade, deleted) <==> old(IsValid(trade, deleted)))
    {
      DeleteInvalidates(AfterDelete(deleted, data), trade);
      DeleteInvalidates(deleted, data);
      deleted := AfterDelete(AfterDelete(deleted, data), trade);
    }
  }

  /** A caller's view: defaults, a trade with minimum volume 0.01, and a setter's frame. */
  method DefaultsScenario() {
    var p := new StgParams(trade := Object(1, true), randomValue := 7, log := Object(2, true), volumeMin := 0.01);
    assert p.Fields().GetLotSize() == 0.01 && p.Fields().GetLotSizeFactor() == 1.0;
    assert p.Fields().GetLotSizeWithFactor() == 0.01;
    var before := p.Fields();
    p.SetStops(Object(3, true), Object(3, true));
    assert p.Fields().lotSize == before.lotSize && p.sl == p.tp;
    p.SetStops();
    assert p.sl == Null && p.tp == Null;
    var q := new StgParams(randomValue := 0, log := Object(4, true), volumeMin := 0.01);
    assert q.Fields().GetLotSize() == 0.0;
  }

  /** A caller's view: once the record has deleted its trade, InitLotSize keeps the lot size. */
  method DeletionScenario() {
    var p := new StgParams(trade := Object(1, true), data := Object(5, true), randomValue := 7, log := Object(2, true), volumeMin := 0.01);
    p.SetLotSize(5.0);
    p.DeleteObjects();
    p.InitLotSize(0.01);
    assert p.Fields().GetLotSize() == 5.0;
    p.SetTrade(Object(6, true));
    p.InitLotSize(0.02);
    assert p.Fields().GetLotSize() == 0.02;
    p.SetTrade(p.trade);
    p.InitLotSize(0.03);
    assert p.Fields().GetLotSize() == 0.02;
  }

  /** A caller's view: an automatic trade survives DeleteObjects, so InitLotSize still takes the minimum volume. */
  method AutomaticTradeScenario() {
    var p := new StgParams(trade := Object(1, false), randomValue := 7, log := Object(2, true), volumeMin := 0.01);
    p.SetLotSize(5.0);
    p.DeleteObjects();
    p.InitLotSize(0.02);
    assert p.Fields().GetLotSize() == 0.02;
    p.SetTrade(p.trade);
    p.InitLotSize(0.03);
    assert p.Fields().GetLotSize() == 0.03;
  }
}
