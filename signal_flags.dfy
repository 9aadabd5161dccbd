/**
 * The 16-bit signal set of a strategy's processing result (`unsigned short
 * signals` in StgProcessResult). Each of the sixteen bit positions stands for
 * one named signal flag (an ENUM_STRATEGY_SIGNAL_FLAGS value); the operations
 * below are the bitwise ones the result record applies to the set.
 *
 * Every operation is specified position by position through `Has`, a
 * definition independent of the bitwise body, and `Extensionality` shows that
 * the positions determine the set.
 */
module SignalFlags {

  /** `unsigned short`: a whole set of signal flags. */
  type Flags = bv16

  /** A bit position, 0 to 15: one signal flag. */
  type Position = i: bv16 | i < 16

  /** STRAT_SIGNAL_NONE: no flag raised. */
  const NONE: Flags := 0

  /** Flag position `i` is raised in `x`. */
  predicate Has(x: Flags, i: Position) {
    (x >> i) & 1 == 1
  }

  /** The lowest `k` positions of `x` and `y` agree (shifting the others out). */
  lemma {:induction false} AgreeBelow(x: Flags, y: Flags, k: bv16)
    requires k <= 16
    requires forall i: Position :: Has(x, i) == Has(y, i)
    ensures x << (16 - k) == y << (16 - k)
    decreases k
  {
    if k > 0 {
      AgreeBelow(x, y, k - 1);
      assert Has(x, k - 1) == Has(y, k - 1);
    }
  }

  /** Two flag sets that raise the same positions are the same set. */
  lemma Extensionality(x: Flags, y: Flags)
    requires forall i: Position :: Has(x, i) == Has(y, i)
    ensures x == y
  {
    AgreeBelow(x, y, 16);
  }

  lemma AndAt(x: Flags, y: Flags, i: Position)
    ensures Has(x & y, i) <==> Has(x, i) && Has(y, i)
  {}

  lemma OrAt(x: Flags, y: Flags, i: Position)
    ensures Has(x | y, i) <==> Has(x, i) || Has(y, i)
  {}

  lemma OrEverywhere(x: Flags, y: Flags)
    ensures forall i: Position :: Has(x | y, i) <==> Has(x, i) || Has(y, i)
  {
    forall i: Position ensures Has(x | y, i) <==> Has(x, i) || Has(y, i) {
      OrAt(x, y, i);
    }
  }

  lemma AndNotAt(x: Flags, y: Flags, i: Position)
    ensures Has(x & !y, i) <==> Has(x, i) && !Has(y, i)
  {}

  lemma AndNotEverywhere(x: Flags, y: Flags)
    ensures forall i: Position :: Has(x & !y, i) <==> Has(x, i) && !Has(y, i)
  {
    forall i: Position ensures Has(x & !y, i) <==> Has(x, i) && !Has(y, i) {
      AndNotAt(x, y, i);
    }
  }

  /**
   * The bitwise test `(signals & flags) == flags` is exactly "every flag of
   * `flags` is raised in `signals`".
   */
  lemma MaskTestIsSubset(signals: Flags, flags: Flags)
    ensures (signals & flags == flags) <==> forall i: Position :: Has(flags, i) ==> Has(signals, i)
  {
    forall i: Position ensures Has(signals & flags, i) <==> Has(signals, i) && Has(flags, i) {
      AndAt(signals, flags, i);
    }
    if forall i: Position :: Has(flags, i) ==> Has(signals, i) {
      Extensionality(signals & flags, flags);
    }
  }

  /** CheckSignals: a subset test, true when ALL of `flags` are raised. */
  function Check(signals: Flags, flags: Flags): (b: bool)
    ensures b <==> forall i: Position :: Has(flags, i) ==> Has(signals, i)
  {
    MaskTestIsSubset(signals, flags);
    signals & flags == flags
  }

  /** AddSignals: `signals | flags`. */
  function Add(signals: Flags, flags: Flags): (r: Flags)
    ensures forall i: Position :: Has(r, i) <==> Has(signals, i) || Has(flags, i)
  {
    OrEverywhere(signals, flags);
    signals | flags
  }

  /** RemoveSignals: `signals & ~flags`. */
  function Remove(signals: Flags, flags: Flags): (r: Flags)
    ensures forall i: Position :: Has(r, i) <==> Has(signals, i) && !Has(flags, i)
  {
    AndNotEverywhere(signals, flags);
    signals & !flags
  }

  /** SetSignal: the positions of `flag` take `value`, the others keep theirs. */
  function Assign(signals: Flags, flag: Flags, value: bool): (r: Flags)
    ensures forall i: Position :: Has(r, i) <==> if Has(flag, i) then value else Has(signals, i)
  {
    if value then Add(signals, flag) else Remove(signals, flag)
  }

  /** The empty flag set is contained in every set; a mask test is not an overlap test. */
  lemma CheckEdgeCases(signals: Flags)
    ensures Check(signals, NONE)
    ensures !Check(0x0001, 0x0003) && (0x0001 as Flags) & 0x0003 != NONE
  {}

  /** After AddSignals(f): f is all raised, earlier flags stay raised, and adding again changes nothing. */
  lemma AddProperties(signals: Flags, flags: Flags)
    ensures Check(Add(signals, flags), flags)
    ensures forall g: Flags :: Check(signals, g) ==> Check(Add(signals, flags), g)
    ensures Add(Add(signals, flags), flags) == Add(signals, flags)
  {}

  /** After RemoveSignals(f): no flag of f is raised, every other position is kept, and a non-empty f is no longer all set. */
  lemma RemoveProperties(signals: Flags, flags: Flags)
    ensures Remove(signals, flags) & flags == NONE
    ensures Remove(signals, flags) & !flags == signals & !flags
    ensures flags != NONE ==> !Check(Remove(signals, flags), flags)
  {}

  /** SetSignal(flag, true) is AddSignals(flag); SetSignal(flag, false) is RemoveSignals(flag). */
  lemma AssignIsAddOrRemove(signals: Flags, flag: Flags)
    ensures Assign(signals, flag, true) == Add(signals, flag)
    ensures Assign(signals, flag, false) == Remove(signals, flag)
  {}
}
