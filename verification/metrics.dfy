/**
 Per-row metrics derived before any selection: the half-tier bucket of each
 stat, the inclusive "high" flag, the tier and high-stat totals, and the
 "Not Trash" gate. Tiers are counted in half-tiers, so every metric is an
 integer: a row with t half-tiers in a stat has t/2 tiers in that stat.
 */
module Metrics {
  import opened ArmorData

  /**
   Half-tier bucket of a base value. The ranker computes
   floor(base * 2 / 10) / 2 tiers, which is floor(base / 5) half-tiers:
   every 5 base points add one half-tier.
   */
  function HalfTiers(base: int): (r: int)
    ensures 5 * r <= base < 5 * r + 5
  {
    base / 5
  }

  /** The ranker's own bucket formula, read in half-tiers, is the same bucket. */
  lemma BucketFormula(base: int)
    ensures HalfTiers(base) == (base * 2) / 10
  {
  }

  /** Buckets never decrease as the base value grows. */
  lemma HalfTiersMonotone(x: int, y: int)
    requires x <= y
    ensures HalfTiers(x) <= HalfTiers(y)
  {
  }

  /** Five more base points is exactly one more half-tier. */
  lemma HalfTiersStep(base: int)
    ensures HalfTiers(base + 5) == HalfTiers(base) + 1
  {
  }

  /** A base of 17 is 3 half-tiers, i.e. 1.5 tiers. */
  lemma SeventeenIsOneAndAHalfTiers()
    ensures HalfTiers(17) == 3
  {
  }

  /**
   The configuration the command line builds: --min_stat is rounded down to
   a half-tier count, --min_stat_total is passed on unchanged.
   */
  function CliConfig(minStat: int, minStatTotal: int): (cfg: Config)
    ensures 5 * cfg.minHalfTiers <= minStat < 5 * cfg.minHalfTiers + 5
    ensures cfg.minStatTotal == minStatTotal
  {
    Config(HalfTiers(minStat), minStatTotal)
  }

  /** The defaults, --min_stat 15 and --min_stat_total 60: 1.5 tiers and 60. */
  lemma DefaultConfig()
    ensures CliConfig(15, 60) == Config(3, 60)
  {
  }

  /** The "High <Stat>" column: the stat's bucket reaches min_tiers (inclusive). */
  predicate IsHigh(cfg: Config, s: StatLine, st: Stat): (high: bool)
    ensures high <==> Base(s, st) >= 5 * cfg.minHalfTiers
  {
    HalfTiers(Base(s, st)) >= cfg.minHalfTiers
  }

  /**
   Under the command-line configuration a stat is high exactly when its base
   value reaches --min_stat rounded down to a multiple of 5; in particular a
   base exactly at that rounded threshold is high.
   */
  lemma HighIffBaseAtLeast(minStat: int, minStatTotal: int, s: StatLine, st: Stat)
    ensures IsHigh(CliConfig(minStat, minStatTotal), s, st) <==> Base(s, st) >= 5 * (minStat / 5)
  {
  }

  /** Sum of the base values of `stats` (a reference quantity; the table's total is read, not summed). */
  function SumBase(s: StatLine, stats: seq<Stat>): int
    decreases |stats|
  {
    if |stats| == 0 then 0 else Base(s, stats[0]) + SumBase(s, stats[1..])
  }

  /** Sum of the half-tier buckets of `stats`; it brackets their base sum within 5 per stat. */
  function SumHalfTiers(s: StatLine, stats: seq<Stat>): (r: int)
    ensures 5 * r <= SumBase(s, stats) <= 5 * r + 4 * |stats|
    decreases |stats|
  {
    if |stats| == 0 then 0 else HalfTiers(Base(s, stats[0])) + SumHalfTiers(s, stats[1..])
  }

  /** Number of high flags among `stats`. */
  function CountHigh(cfg: Config, s: StatLine, stats: seq<Stat>): (r: int)
    ensures 0 <= r <= |stats|
    decreases |stats|
  {
    if |stats| == 0 then 0
    else (if IsHigh(cfg, s, stats[0]) then 1 else 0) + CountHigh(cfg, s, stats[1..])
  }

  /** The "Total Tiers" column, in half-tiers. */
  function TotalTiers(item: Item): (r: int)
    ensures 5 * r <= SumBase(item.stats, AllStats) <= 5 * r + 24
  {
    SumHalfTiers(item.stats, AllStats)
  }

  /** The "Total High Stats" column: how many of the six stats are high. */
  function TotalHigh(cfg: Config, item: Item): (r: int)
    ensures 0 <= r <= 6
  {
    CountHigh(cfg, item.stats, AllStats)
  }

  /** The "Not Trash" column: enough total base and at least two high stats. */
  predicate NotTrash(cfg: Config, item: Item) {
    item.totalBase >= cfg.minStatTotal && TotalHigh(cfg, item) >= 2
  }

  /** Some high flag among `stats` means some position is high, and back. */
  lemma {:induction false} CountHighPositive(cfg: Config, s: StatLine, stats: seq<Stat>)
    ensures CountHigh(cfg, s, stats) >= 1 <==> exists i :: 0 <= i < |stats| && IsHigh(cfg, s, stats[i])
    decreases |stats|
  {
    if |stats| > 0 {
      var rest := stats[1..];
      CountHighPositive(cfg, s, rest);
      if !IsHigh(cfg, s, stats[0]) && CountHigh(cfg, s, rest) >= 1 {
        var k :| 0 <= k < |rest| && IsHigh(cfg, s, rest[k]);
        assert IsHigh(cfg, s, stats[k + 1]);
      }
      if exists i :: 0 <= i < |stats| && IsHigh(cfg, s, stats[i]) {
        var i :| 0 <= i < |stats| && IsHigh(cfg, s, stats[i]);
        if i > 0 {
          assert IsHigh(cfg, s, rest[i - 1]);
        }
      }
    }
  }

  /** At least two high flags among `stats` means two distinct positions are high, and back. */
  lemma {:induction false} CountHighAtLeastTwo(cfg: Config, s: StatLine, stats: seq<Stat>)
    ensures CountHigh(cfg, s, stats) >= 2
        <==> exists i, j :: 0 <= i < j < |stats| && IsHigh(cfg, s, stats[i]) && IsHigh(cfg, s, stats[j])
    decreases |stats|
  {
    if |stats| == 0 {
    } else {
      var rest := stats[1..];
      CountHighAtLeastTwo(cfg, s, rest);
      CountHighPositive(cfg, s, rest);
      if CountHigh(cfg, s, stats) >= 2 {
        if IsHigh(cfg, s, stats[0]) {
          var k :| 0 <= k < |rest| && IsHigh(cfg, s, rest[k]);
          assert IsHigh(cfg, s, stats[k + 1]);
        } else {
          var i, j :| 0 <= i < j < |rest| && IsHigh(cfg, s, rest[i]) && IsHigh(cfg, s, rest[j]);
          assert IsHigh(cfg, s, stats[i + 1]) && IsHigh(cfg, s, stats[j + 1]);
        }
      }
    }
  }

  /**
   "Not Trash" holds exactly when the row's total reaches min_stat_total and
   two different stats are high.
   */
  lemma NotTrashIff(cfg: Config, item: Item)
    ensures NotTrash(cfg, item)
        <==> item.totalBase >= cfg.minStatTotal
             && exists a, b :: a != b && IsHigh(cfg, item.stats, a) && IsHigh(cfg, item.stats, b)
  {
    var s := item.stats;
    CountHighAtLeastTwo(cfg, s, AllStats);
    if TotalHigh(cfg, item) >= 2 {
      var i, j :| 0 <= i < j < |AllStats| && IsHigh(cfg, s, AllStats[i]) && IsHigh(cfg, s, AllStats[j]);
      AllStatsEnumerates(AllStats[i]);
    }
    if exists a, b :: a != b && IsHigh(cfg, s, a) && IsHigh(cfg, s, b) {
      var a, b :| a != b && IsHigh(cfg, s, a) && IsHigh(cfg, s, b);
      var i := IndexOf(a);
      var j := IndexOf(b);
      if i < j {
        assert IsHigh(cfg, s, AllStats[i]) && IsHigh(cfg, s, AllStats[j]);
      } else {
        assert IsHigh(cfg, s, AllStats[j]) && IsHigh(cfg, s, AllStats[i]);
      }
    }
  }

  /**
   One row of the working table: the columns of the export the ranking
   reads (everything but Tag) and the columns derived from them.
   */
  datatype Row = Row(
    equippable: string,
    slot: string,
    tier: string,
    stats: StatLine,
    totalBase: int,
    tiers: PerStat<int>,
    high: PerStat<bool>,
    totalTiers: int,
    totalHigh: int,
    notTrash: bool)

  /** 1 for a set flag, 0 otherwise: one term of a count of flags. */
  function Count(b: bool): int {
    if b then 1 else 0
  }

  /** The derived columns of one row, in half-tiers. */
  function Derive(cfg: Config, item: Item): (row: Row)
    ensures row.equippable == item.equippable && row.slot == item.slot && row.tier == item.tier
    ensures row.stats == item.stats && row.totalBase == item.totalBase
    ensures forall st :: 5 * row.tiers.Of(st) <= Base(item.stats, st) < 5 * row.tiers.Of(st) + 5
    ensures forall st :: row.high.Of(st) <==> row.tiers.Of(st) >= cfg.minHalfTiers
    ensures 5 * row.totalTiers <= SumBase(item.stats, AllStats) <= 5 * row.totalTiers + 24
    ensures row.totalTiers == row.tiers.mobility + row.tiers.resilience + row.tiers.recovery
                            + row.tiers.discipline + row.tiers.intellect + row.tiers.strength
    ensures 0 <= row.totalHigh <= 6
    ensures row.totalHigh == Count(row.high.mobility) + Count(row.high.resilience) + Count(row.high.recovery)
                           + Count(row.high.discipline) + Count(row.high.intellect) + Count(row.high.strength)
    ensures row.notTrash <==>
      item.totalBase >= cfg.minStatTotal && exists a, b :: a != b && row.high.Of(a) && row.high.Of(b)
  {
    var tiers := item.stats.Map(HalfTiers);
    var high := tiers.Map(t => t >= cfg.minHalfTiers);
    NotTrashIff(cfg, item);
    assert forall st :: high.Of(st) == IsHigh(cfg, item.stats, st);
    Row(item.equippable, item.slot, item.tier, item.stats, item.totalBase,
        tiers, high, TotalTiers(item), TotalHigh(cfg, item), NotTrash(cfg, item))
  }

  /** The working table: every row with its derived columns. */
  function DeriveAll(cfg: Config, items: seq<Item>): (rows: seq<Row>)
    ensures |rows| == |items|
    ensures forall i :: 0 <= i < |items| ==> rows[i] == Derive(cfg, items[i])
  {
    seq(|items|, i requires 0 <= i < |items| => Derive(cfg, items[i]))
  }

  /** The "Selected" column before any ranking: exactly the exotic rows. */
  function InitialSelected(items: seq<Item>): (sel: seq<bool>)
    ensures |sel| == |items|
    ensures forall i :: 0 <= i < |items| ==> (sel[i] <==> items[i].tier == Exotic)
  {
    seq(|items|, i requires 0 <= i < |items| => items[i].tier == Exotic)
  }
}
