/**
 The rows of a DIM armor export, as the ranker sees them: one record per
 armor piece, with the columns the ranker reads or writes, and the fixed
 enumerations (classes, slots, stats) it iterates over.
 */
module ArmorData {

  /** The six armor stats, in the order the ranker iterates them. */
  datatype Stat = Mobility | Resilience | Recovery | Discipline | Intellect | Strength

  const AllStats: seq<Stat> := [Mobility, Resilience, Recovery, Discipline, Intellect, Strength]

  /** One value per stat: a row's six "<Stat> (Base)" columns, or any column derived per stat. */
  datatype PerStat<T> = PerStat(
    mobility: T,
    resilience: T,
    recovery: T,
    discipline: T,
    intellect: T,
    strength: T)
  {
    /** The value for stat `st`. */
    function Of(st: Stat): T {
      match st
      case Mobility => mobility
      case Resilience => resilience
      case Recovery => recovery
      case Discipline => discipline
      case Intellect => intellect
      case Strength => strength
    }

    /** Applies `f` to every stat's value: a column computed stat by stat. */
    function Map<U>(f: T -> U): (r: PerStat<U>)
      ensures forall st :: r.Of(st) == f(Of(st))
    {
      PerStat(f(mobility), f(resilience), f(recovery), f(discipline), f(intellect), f(strength))
    }
  }

  /** The six "<Stat> (Base)" columns of one row. */
  type StatLine = PerStat<int>

  /** The "<Stat> (Base)" column for stat `st`. */
  function Base(s: StatLine, st: Stat): int {
    s.Of(st)
  }

  /**
   One row of the table. `equippable` is the Equippable column (the class),
   `slot` the Type column, `tier` the Tier column (rarity), `tag` the Tag
   column, and `totalBase` the "Total (Base)" column. The total is read from
   the export, not recomputed from the six stats, so it is a field of its own.
   The row's identity is its position in the table.
   */
  datatype Item = Item(
    equippable: string,
    slot: string,
    tier: string,
    tag: string,
    stats: StatLine,
    totalBase: int)

  /** The classes and the (non-class-item) slots the ranker enumerates. */
  const Classes: seq<string> := ["Hunter", "Titan", "Warlock"]
  const Types: seq<string> := ["Helmet", "Gauntlets", "Chest Armor", "Leg Armor"]

  /** Class items are never tagged as junk. */
  const ExemptSlots: set<string> := {"Hunter Cloak", "Titan Mark", "Warlock Bond"}

  const Legendary: string := "Legendary"
  const Exotic: string := "Exotic"
  const JunkTag: string := "junk"

  /**
   The two thresholds of one run. `minHalfTiers` is the min_tiers argument
   counted in half-tiers (min_tiers * 2); `minStatTotal` is compared with
   the "Total (Base)" column.
   */
  datatype Config = Config(minHalfTiers: int, minStatTotal: int)

  /** Every stat occurs in AllStats, and at exactly one position. */
  lemma AllStatsEnumerates(st: Stat)
    ensures st in AllStats
    ensures forall i, j :: 0 <= i < j < |AllStats| ==> AllStats[i] != AllStats[j]
  {
  }

  /** The position of a stat in AllStats. */
  lemma IndexOf(st: Stat) returns (i: nat)
    ensures i < |AllStats| && AllStats[i] == st
  {
    i := match st
      case Mobility => 0
      case Resilience => 1
      case Recovery => 2
      case Discipline => 3
      case Intellect => 4
      case Strength => 5;
  }
}
