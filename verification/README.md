# Destiny armor ranker, modelled in Dafny

The ranker reads a DIM `destinyArmor.csv` export. It keeps exotic
pieces and the best legendary pieces, and tags every other piece outside
the class-item slots as `junk`.
It works in three steps:

1. **Metric derivation.** Each of the six stats (Mobility, Resilience,
   Recovery, Discipline, Intellect, Strength) gets a half-tier bucket,
   `floor(base*2/10)/2` tiers. It also gets an inclusive "high" flag,
   `tiers >= min_tiers`. Each row then gets its Total Tiers, its Total High
   Stats, and a "Not Trash" gate: Total (Base) ≥ `min_stat_total` and at
   least two high stats. Exotic rows start out selected.
2. **Greedy selection.** `select_armor` runs for every class (Hunter,
   Titan, Warlock), every slot (Helmet, Gauntlets, Chest Armor, Leg Armor)
   and every ordered pair of distinct stats (a, b). In each round it keeps
   the legendary, not-trash rows of that class and slot that are high in
   both stats and have base(a) ≥ base(b). It then marks one row selected:
   a maximum under the descending key (tiers(a)+tiers(b), Total Tiers,
   Total High Stats, Total (Base)).
3. **Junk tagging.** Every row that is not selected and is not a class
   item (Hunter Cloak, Titan Mark, Warlock Bond) gets the tag `junk`. No
   other column and no other row changes.

The model is pure functions over a `seq<Item>`. The derived columns of
step 1 are kept in a `Row` per item, and the rounds of step 2 read only
those rows, as the ranker's working copy `data` does:

- `armor.dfy` (module `ArmorData`) holds the records, the enumerations and
  the configuration.
- `metrics.dfy` (`Metrics`) holds step 1.
- `selection.dfy` (`Selection`) holds one `select_armor` round.
- `rounds.dfy` (`Rounds`) holds the class × slot × stat-pair driver.
- `pipeline.dfy` (`Pipeline`) holds the final selected column, junk tagging
  and the whole transform.

Tiers are counted in **half-tiers**, so every metric is an integer:
`floor(base*2/10)/2` tiers is `floor(base/5)` half-tiers. Score and Total
Tiers are therefore twice the ranker's values, which orders the rows the
same way. `Config.minHalfTiers` is `min_tiers` in half-tiers. The command
line always builds `min_tiers` as a half-integer, so this is exact. Total
(Base) is a column of the export, not a sum the code computes, so it is a
field of `Item`. A row's identity is its position in the sequence.

Details of the code the model follows:

- The filter is `base(a) >= base(b)`, inclusive, as the `select_armor`
  docstring says (stat_a >= stat_b).
- `--min_stat` is rounded down to a multiple of 5 base points (one
  half-tier), as its help text says.
- Among rows whose four keys are all equal, the model keeps the earliest
  row. The ranker's sort does not fix which row wins, so the contracts
  state only that the winner is a maximum.

## Model

| member | source | states |
|---|---|---|
| ArmorData.AllStatsEnumerates | destiny_armor_ranker.py:82-89 | every stat occurs in the iterated stat list, each at exactly one position |
| Metrics.HalfTiers | destiny_armor_ranker.py:97 | the half-tier bucket r is the floor of base/5: 5r ≤ base < 5r+5 |
| Metrics.BucketFormula | destiny_armor_ranker.py:97 | the ranker's formula floor(base*2/10), read in half-tiers, is the same bucket |
| Metrics.HalfTiersMonotone | destiny_armor_ranker.py:97 | buckets never decrease as the base value grows |
| Metrics.HalfTiersStep | destiny_armor_ranker.py:97 | five more base points is exactly one more half-tier |
| Metrics.SeventeenIsOneAndAHalfTiers | destiny_armor_ranker.py:97 | a base of 17 is 3 half-tiers, i.e. 1.5 tiers |
| Metrics.CliConfig | destiny_armor_ranker.py:140-143 | --min_stat is rounded down to a half-tier count m with 5m ≤ min_stat < 5m+5; --min_stat_total passes through unchanged |
| Metrics.DefaultConfig | destiny_armor_ranker.py:128-136 | the defaults 15 and 60 give 3 half-tiers (1.5 tiers) and a minimum total of 60 |
| Metrics.IsHigh | destiny_armor_ranker.py:98 | a stat is high iff its base reaches 5 base points per half-tier of min_tiers (inclusive) |
| Metrics.HighIffBaseAtLeast | destiny_armor_ranker.py:98 | under the command-line configuration a stat is high iff its base reaches min_stat rounded down to a multiple of 5 (inclusive) |
| Metrics.SumHalfTiers | destiny_armor_ranker.py:100 | a sum of buckets r brackets the sum of the base values: 5r ≤ sum ≤ 5r + 4 per stat |
| Metrics.TotalTiers | destiny_armor_ranker.py:100 | Total Tiers r brackets the six base values' sum: 5r ≤ sum ≤ 5r+24 |
| Metrics.CountHigh | destiny_armor_ranker.py:101 | the count of high flags lies between 0 and the number of stats |
| Metrics.TotalHigh | destiny_armor_ranker.py:101 | Total High Stats lies in [0, 6] |
| Metrics.CountHighPositive | destiny_armor_ranker.py:101 | at least one high flag iff some position is high |
| Metrics.CountHighAtLeastTwo | destiny_armor_ranker.py:101-102 | at least two high flags iff two distinct positions are high |
| Metrics.NotTrash | destiny_armor_ranker.py:102 | the Not Trash gate, Total (Base) ≥ min_stat_total and Total High Stats ≥ 2; its meaning is stated by Metrics.NotTrashIff |
| Metrics.NotTrashIff | destiny_armor_ranker.py:102 | Not Trash iff Total (Base) ≥ min_stat_total and two different stats are high |
| Metrics.Derive | destiny_armor_ranker.py:96-102 | a derived row keeps the item's columns; each stat's bucket r satisfies 5r ≤ base < 5r+5; a stat is high iff its bucket reaches min_tiers; Total Tiers is the sum of the row's six buckets and brackets the base sum; Total High Stats is the number of the row's six high flags, in [0, 6]; Not Trash iff the total reaches the minimum and two different stats are high |
| Metrics.DeriveAll | destiny_armor_ranker.py:96-102 | the derived table has one row per item, each derived from the item at the same position |
| Metrics.InitialSelected | destiny_armor_ranker.py:103 | before ranking a row is selected iff its Tier is Exotic |
| Selection.KeyOf | destiny_armor_ranker.py:39-42 | Score and Total Tiers in half-tiers (twice the ranker's values), then Total High Stats and Total (Base); its order is stated by Selection.LessIsStrictTotalOrder and Selection.Winner |
| Selection.Less | destiny_armor_ranker.py:41-45 | strict lexicographic order on the four keys; its meaning is stated by Selection.LessIsStrictTotalOrder |
| Selection.LessIsStrictTotalOrder | destiny_armor_ranker.py:41-45 | the four-key descending sort order is a strict total order, so its first row is a maximum |
| Selection.Eligible | destiny_armor_ranker.py:29-36 | the two chained queries: class, slot, Legendary, Not Trash, high in both stats and base(a) ≥ base(b); its meaning is stated by Selection.Winner |
| Selection.ArgMax | destiny_armor_ranker.py:41-47 | returns None iff no flagged position exists, else a flagged position that no flagged position strictly exceeds |
| Selection.Winner | destiny_armor_ranker.py:29-47 | the round has no winner iff its filtered subset is empty; a winner passes every filter condition and no filtered row has a strictly greater key |
| Selection.SelectArmor | destiny_armor_ranker.py:10-47 | an empty filtered subset leaves Selected unchanged; otherwise exactly one maximal filtered row is set and every other flag is kept |
| Selection.SelectArmorAt | destiny_armor_ranker.py:38-47 | after a round a row is selected iff it was before or it is the round's winner |
| Selection.SelectArmorOnlySets | destiny_armor_ranker.py:47 | a set flag stays set, and a newly set flag belongs to a maximal filtered row |
| Selection.SelectArmorIdempotent | destiny_armor_ranker.py:47 | repeating a round changes nothing |
| Rounds.PairAt | destiny_armor_ranker.py:106 | the k-th permutation pairs two different stats |
| Rounds.PairIndex | destiny_armor_ranker.py:106 | every ordered pair of distinct stats is the k-th permutation for some k < 30 |
| Rounds.StatPairs | destiny_armor_ranker.py:106 | the stat permutations of length 2 are exactly the pairs of distinct stats |
| Rounds.RoundAt | destiny_armor_ranker.py:105-107 | the k-th call is for a listed class, a listed slot and two different stats |
| Rounds.RoundIndex | destiny_armor_ranker.py:105-107 | every listed class, listed slot and pair of distinct stats is the k-th call for some k < 360 |
| Rounds.RoundDigits | destiny_armor_ranker.py:105-106 | a call number 120c + 30t + p reads back as class c, slot t and pair p, the nesting order of the two loops |
| Rounds.AllRounds | destiny_armor_ranker.py:105-107 | the driver makes 360 calls, and a round is among them iff its class is Hunter/Titan/Warlock, its slot is one of the four armor slots and its two stats differ |
| Rounds.WinnersOfAt | destiny_armor_ranker.py:105-107 | the k-th recorded winner is the winner of the k-th round |
| Rounds.ApplyRounds | destiny_armor_ranker.py:105-107 | the driver loop, each round on the column the previous one left; keeps one flag per row, and its meaning is stated by Rounds.ApplyRoundsCharacterization |
| Rounds.ApplyRoundsOnlySets | destiny_armor_ranker.py:105-107 | running the rounds never clears a Selected flag |
| Rounds.PickedRound | destiny_armor_ranker.py:29-47 | a row that wins some round is a maximal filtered row of a round r in the list, and returns that r |
| Rounds.ApplyRoundsCharacterization | destiny_armor_ranker.py:103-107 | after all rounds a row is selected iff it started selected or won some round, whatever the order of the rounds |
| Rounds.SelectedRowsAreJustified | destiny_armor_ranker.py:103-107 | every finally selected row started selected, or is a maximal filtered row of a round r in the list, returned as the witness |
| Rounds.EveryRoundKeepsABestRow | destiny_armor_ranker.py:38-47 | every round in the list with a non-empty filtered subset leaves one of its maximal rows w selected after all rounds, returned as the witness |
| Pipeline.Selections | destiny_armor_ranker.py:103-107 | the final Selected column has one flag per row and every exotic row is selected |
| Pipeline.SelectionsIff | destiny_armor_ranker.py:103-107 | a row is finally selected iff it is exotic or wins some round |
| Pipeline.IsJunk | destiny_armor_ranker.py:109-111 | the junk query: not selected and not a Hunter Cloak, Titan Mark or Warlock Bond; its meaning is stated by Pipeline.MarkJunk and Pipeline.JunkIff |
| Pipeline.MarkJunk | destiny_armor_ranker.py:109-112 | junk rows get the tag "junk", every other row is returned unchanged, and no column except Tag changes |
| Pipeline.Process | destiny_armor_ranker.py:94-112 | the transform keeps the table's length and changes only the Tag column |
| Pipeline.PickedRowsAreEligible | destiny_armor_ranker.py:29-36 | a row some round picks is legendary, not trash, of a listed class and a listed slot |
| Pipeline.JunkIff | destiny_armor_ranker.py:103-112 | after the run a row is tagged junk iff it was already tagged junk, or it is non-exotic, outside the class-item slots and won no round; any other row is unchanged |
| Pipeline.ExoticNeverJunked | destiny_armor_ranker.py:103 | exotic rows come back unchanged |
| Pipeline.ClassItemsNeverJunked | destiny_armor_ranker.py:110 | Hunter Cloak, Titan Mark and Warlock Bond rows come back unchanged |
| Pipeline.CommonArmorAlwaysJunked | destiny_armor_ranker.py:30 | a non-exotic, non-legendary row outside the class-item slots is always tagged junk |
| Pipeline.TrashAlwaysJunked | destiny_armor_ranker.py:102 | a non-exotic row outside the class-item slots that fails Not Trash (e.g. total 59 against 60) is always tagged junk |
| Pipeline.DeriveIgnoresTag | destiny_armor_ranker.py:96-102 | the derived metrics of a row do not depend on its Tag |
| Pipeline.SelectionsIgnoreTags | destiny_armor_ranker.py:103-107 | the final Selected column does not depend on the Tag column |
| Pipeline.MarkJunkIdempotent | destiny_armor_ranker.py:109-112 | tagging an already tagged table with the same Selected column changes nothing |
| Pipeline.ProcessIdempotent | destiny_armor_ranker.py:94-112 | running the transform on its own output returns that output unchanged |

## Left out

- Reading and writing the CSV file (`read_csv`, `to_csv` and the `_mod`
  output path): file I/O. The model's input is the table as a sequence of
  rows, and its output is that table with the Tag column updated.
- Building and parsing the argparse command line: plumbing. Only the
  rounding of `--min_stat` into `min_tiers` is modelled, as
  `Metrics.CliConfig`.
- Floating-point tiers. `np.floor(base*2/10)/2` on an integer base is exact
  in double precision for any realistic stat value, so integer half-tiers
  give the same buckets and the same order. A `min_tiers` that is not a
  half-integer cannot come from the command line and is not modelled.
- Missing or non-numeric cells (NaN) in the export. Every cell is assumed
  present and every stat an integer.
- Selection.Winner: fixes one maximal row, the earliest. The ranker's sort
  leaves the winner among rows with equal keys to the sort implementation,
  so every contract states only maximality, not which tied row wins.

