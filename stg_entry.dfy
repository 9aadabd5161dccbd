/**
 * StgEntry: a strategy's statistics, one StgStatsPeriod record per period
 * (daily, weekly, monthly and total) in a fixed-size array. SetStats copies a
 * record into the slot of one period.
 */
module StrategyEntry {
  import opened MqlTypes

  /** StgStatsPeriod: the statistics of one period, copied by value. */
  datatype StatsPeriod = StatsPeriod(
    ordersTotal: uint32,
    ordersWon: uint32,
    ordersLost: uint32,
    avgSpread: real,
    netProfit: real,
    grossProfit: real,
    grossLoss: real,
    profitFactor: real)

  /** ENUM_STRATEGY_STATS_PERIOD */
  datatype Period = Daily | Weekly | Monthly | Total

  /** FINAL_ENUM_STRATEGY_STATS_PERIOD: the number of periods. */
  const PERIOD_COUNT: nat := 4

  /** The array slot of a period (EA_STATS_DAILY = 0 .. EA_STATS_TOTAL = 3). */
  function Index(p: Period): (i: nat)
    ensures i < PERIOD_COUNT
  {
    match p
    case Daily => 0
    case Weekly => 1
    case Monthly => 2
    case Total => 3
  }

  /** The period of an array slot: the inverse of Index. */
  function PeriodAt(i: nat): (p: Period)
    requires i < PERIOD_COUNT
    ensures Index(p) == i
  {
    if i == 0 then Daily else if i == 1 then Weekly else if i == 2 then Monthly else Total
  }

  /** Index is one-to-one: each period has its own slot. */
  lemma IndexIsOneToOne(p: Period, q: Period)
    ensures Index(p) == Index(q) ==> p == q
    ensures PeriodAt(Index(p)) == p
  {}

  class StgEntry {
    const statsPeriod: array<StatsPeriod>

    ghost predicate Valid()
      reads this
    {
      statsPeriod.Length == PERIOD_COUNT
    }

    /** StgEntry declares no constructor: nothing is promised about the records it starts with. */
    constructor ()
      ensures Valid() && fresh(statsPeriod)
    {
      statsPeriod := new StatsPeriod[PERIOD_COUNT];
    }

    /** `stats_period[period]` */
    function Stats(period: Period): StatsPeriod
      requires Valid()
      reads this, statsPeriod
    {
      statsPeriod[Index(period)]
    }

    /** Copies `stats` into the slot of `period`; the other slots keep their records. */
    method SetStats(stats: StatsPeriod, period: Period)
      requires Valid()
      modifies statsPeriod
      ensures statsPeriod[..] == old(statsPeriod[..])[Index(period) := stats]
      ensures Stats(period) == stats
      ensures forall q: Period :: q != period ==> Stats(q) == old(Stats(q))
    {
      statsPeriod[Index(period)] := stats;
      forall q: Period | q != period ensures Stats(q) == old(Stats(q)) {
        IndexIsOneToOne(q, period);
      }
    }
  }
}
