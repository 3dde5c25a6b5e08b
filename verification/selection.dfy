/**
 One round of the greedy ranker (select_armor): for a class, a slot and an
 ordered pair of stats (a, b), filter the legendary, not-trash rows of that
 class and slot that are high in both stats with base(a) >= base(b), and mark
 a row with the greatest sort key as selected. A round reads the derived
 columns of the working table (a `Row` per item), never its Tag column.
 */
module Selection {
  import opened ArmorData
  import opened Metrics

  datatype Option<T> = None | Some(value: T)

  /** The arguments of one select_armor call besides the table. */
  datatype Round = Round(equippable: string, slot: string, a: Stat, b: Stat)

  /**
   The sort key of a row in a round, descending: Score, Total Tiers, Total
   High Stats, Total (Base). Score and Total Tiers are in half-tiers, twice
   the ranker's tier values, which orders rows the same way.
   */
  datatype Key = Key(score: int, totalTiers: int, totalHigh: int, totalBase: int)

  function KeyOf(row: Row, r: Round): Key {
    Key(row.tiers.Of(r.a) + row.tiers.Of(r.b), row.totalTiers, row.totalHigh, row.totalBase)
  }

  /** Strict lexicographic order on keys: each component breaks ties of the previous ones. */
  predicate Less(k: Key, l: Key) {
    || k.score < l.score
    || (k.score == l.score && k.totalTiers < l.totalTiers)
    || (k.score == l.score && k.totalTiers == l.totalTiers && k.totalHigh < l.totalHigh)
    || (k.score == l.score && k.totalTiers == l.totalTiers && k.totalHigh == l.totalHigh
        && k.totalBase < l.totalBase)
  }

  /** Less is a strict total order, so "sort descending, take the first" picks a maximum. */
  lemma LessIsStrictTotalOrder(k: Key, l: Key, m: Key)
    ensures !Less(k, k)
    ensures Less(k, l) && Less(l, m) ==> Less(k, m)
    ensures k != l ==> Less(k, l) || Less(l, k)
    ensures !(Less(k, l) && Less(l, k))
  {
  }

  /** The two chained queries of select_armor: the rows the round ranks. */
  predicate Eligible(row: Row, r: Round) {
    && row.equippable == r.equippable
    && row.slot == r.slot
    && row.tier == Legendary
    && row.notTrash
    && row.high.Of(r.a)
    && row.high.Of(r.b)
    && Base(row.stats, r.a) >= Base(row.stats, r.b)
  }

  /** Row `w` is eligible and no eligible row has a strictly greater key. */
  predicate IsBest(rows: seq<Row>, r: Round, w: int) {
    && 0 <= w < |rows|
    && Eligible(rows[w], r)
    && forall j :: 0 <= j < |rows| && Eligible(rows[j], r) ==> !Less(KeyOf(rows[w], r), KeyOf(rows[j], r))
  }

  /**
   A position of a greatest key among the flagged positions below `n`, or
   None when no position below `n` is flagged. Of equal keys the earliest
   position is kept.
   */
  function ArgMax(keys: seq<Key>, ok: seq<bool>, n: nat): (w: Option<nat>)
    requires |ok| == |keys|
    requires n <= |keys|
    ensures w.None? <==> forall j :: 0 <= j < n ==> !ok[j]
    ensures w.Some? ==>
      && w.value < n
      && ok[w.value]
      && forall j :: 0 <= j < n && ok[j] ==> !Less(keys[w.value], keys[j])
    decreases n
  {
    if n == 0 then None
    else
      var prev := ArgMax(keys, ok, n - 1);
      if !ok[n - 1] then prev
      else if prev.None? || Less(keys[prev.value], keys[n - 1]) then Some(n - 1)
      else prev
  }

  /** The sort keys of every row in round `r`. */
  function Keys(rows: seq<Row>, r: Round): (keys: seq<Key>)
    ensures |keys| == |rows|
    ensures forall i :: 0 <= i < |rows| ==> keys[i] == KeyOf(rows[i], r)
  {
    seq(|rows|, i requires 0 <= i < |rows| => KeyOf(rows[i], r))
  }

  /** The filter of round `r`, row by row. */
  function Filter(rows: seq<Row>, r: Round): (ok: seq<bool>)
    ensures |ok| == |rows|
    ensures forall i :: 0 <= i < |rows| ==> ok[i] == Eligible(rows[i], r)
  {
    seq(|rows|, i requires 0 <= i < |rows| => Eligible(rows[i], r))
  }

  /** The row select_armor marks in round `r`, if the filtered subset is non-empty. */
  function Winner(rows: seq<Row>, r: Round): (w: Option<nat>)
    ensures w.None? <==> forall j :: 0 <= j < |rows| ==> !Eligible(rows[j], r)
    ensures w.Some? ==> IsBest(rows, r, w.value)
  {
    ArgMax(Keys(rows, r), Filter(rows, r), |rows|)
  }

  /**
   select_armor on the "Selected" column `sel`: with an empty filtered subset
   nothing changes; otherwise exactly one maximal eligible row is set and
   every other flag is kept.
   */
  function SelectArmor(rows: seq<Row>, sel: seq<bool>, r: Round): (sel': seq<bool>)
    requires |sel| == |rows|
    ensures |sel'| == |sel|
    ensures (forall j :: 0 <= j < |rows| ==> !Eligible(rows[j], r)) ==> sel' == sel
    ensures (exists j :: 0 <= j < |rows| && Eligible(rows[j], r)) ==>
      exists w :: IsBest(rows, r, w) && sel' == sel[w := true]
  {
    match Winner(rows, r)
    case None => sel
    case Some(w) => sel[w := true]
  }

  /** After a round, a row is selected exactly when it was before or it is the round's winner. */
  lemma SelectArmorAt(rows: seq<Row>, sel: seq<bool>, r: Round, i: int)
    requires |sel| == |rows|
    requires 0 <= i < |rows|
    ensures SelectArmor(rows, sel, r)[i] <==> sel[i] || Winner(rows, r) == Some(i)
  {
    match Winner(rows, r)
    case None =>
      assert SelectArmor(rows, sel, r) == sel;
    case Some(w) =>
      assert SelectArmor(rows, sel, r) == sel[w := true];
  }

  /** A flag once set stays set, and no flag is set outside a best row. */
  lemma SelectArmorOnlySets(rows: seq<Row>, sel: seq<bool>, r: Round, i: int)
    requires |sel| == |rows|
    requires 0 <= i < |rows|
    ensures sel[i] ==> SelectArmor(rows, sel, r)[i]
    ensures SelectArmor(rows, sel, r)[i] ==> sel[i] || IsBest(rows, r, i)
  {
    SelectArmorAt(rows, sel, r, i);
  }

  /** Running a round a second time changes nothing: marking is idempotent. */
  lemma SelectArmorIdempotent(rows: seq<Row>, sel: seq<bool>, r: Round)
    requires |sel| == |rows|
    ensures SelectArmor(rows, SelectArmor(rows, sel, r), r) == SelectArmor(rows, sel, r)
  {
    var once := SelectArmor(rows, sel, r);
    var twice := SelectArmor(rows, once, r);
    forall i | 0 <= i < |rows|
      ensures twice[i] == once[i]
    {
      SelectArmorAt(rows, sel, r, i);
      SelectArmorAt(rows, once, r, i);
    }
  }
}
