/**
 The driver of the greedy ranker: every (class, slot) category crossed with
 every ordered pair of distinct stats is one select_armor round, and the
 rounds run one after the other over the same "Selected" column.
 */
module Rounds {
  import opened ArmorData
  import opened Metrics
  import opened Selection

  /**
   The k-th pair of itertools.permutations of the six stats taken two at a
   time: the first stat is AllStats[k / 5], the second the (k % 5)-th of the
   other five, in list order.
   */
  function PairAt(k: int): (p: (Stat, Stat))
    requires 0 <= k < 30
    ensures p.0 != p.1
  {
    var i, j := k / 5, k % 5;
    (AllStats[i], AllStats[if j < i then j else j + 1])
  }

  /** Every ordered pair of distinct stats is one of the permutations. */
  lemma PairIndex(p: (Stat, Stat)) returns (k: int)
    requires p.0 != p.1
    ensures 0 <= k < 30 && PairAt(k) == p
  {
    var i := IndexOf(p.0);
    var m := IndexOf(p.1);
    var j := if m < i then m else m - 1;
    k := 5 * i + j;
    assert k / 5 == i && k % 5 == j;
  }

  /** itertools.permutations of the six stats taken two at a time. */
  function StatPairs(): (ps: seq<(Stat, Stat)>)
    ensures |ps| == 30
    ensures forall p :: p in ps <==> p.0 != p.1
  {
    var ps := seq(30, k requires 0 <= k < 30 => PairAt(k));
    forall p: (Stat, Stat) | p.0 != p.1
      ensures p in ps
    {
      var k := PairIndex(p);
      assert ps[k] == p;
    }
    ps
  }

  /**
   The k-th select_armor call of the driver: itertools.product of the
   classes and the slots, class-major, and inside each category the stat
   permutations in order. So the class is Classes[k / 120], the slot
   Types[k / 30 % 4] and the stat pair StatPairs()[k % 30].
   */
  function RoundAt(k: int): (x: Round)
    requires 0 <= k < 360
    ensures x.equippable in Classes && x.slot in Types && x.a != x.b
  {
    var p := PairAt(k % 30);
    Round(Classes[k / 120], Types[k / 30 % 4], p.0, p.1)
  }

  /** Every listed class, listed slot and pair of distinct stats is some call of the driver. */
  lemma RoundIndex(x: Round) returns (k: int)
    requires x.equippable in Classes && x.slot in Types && x.a != x.b
    ensures 0 <= k < 360 && RoundAt(k) == x
  {
    var c :| 0 <= c < |Classes| && Classes[c] == x.equippable;
    var t :| 0 <= t < |Types| && Types[t] == x.slot;
    var p := PairIndex((x.a, x.b));
    k := 120 * c + 30 * t + p;
    RoundDigits(c, t, p);
  }

  /** Reading a round number back as class, slot and pair positions. */
  lemma RoundDigits(c: int, t: int, p: int)
    requires 0 <= c < 3 && 0 <= t < 4 && 0 <= p < 30
    ensures (120 * c + 30 * t + p) / 120 == c
    ensures (120 * c + 30 * t + p) / 30 % 4 == t
    ensures (120 * c + 30 * t + p) % 30 == p
  {
  }

  /**
   Every select_armor call the driver makes: a round is run exactly for each
   of the three classes, each of the four non-class-item slots and each
   ordered pair of distinct stats.
   */
  function AllRounds(): (rs: seq<Round>)
    ensures |rs| == 360
    ensures forall x :: x in rs <==> x.equippable in Classes && x.slot in Types && x.a != x.b
  {
    var rs := seq(360, k requires 0 <= k < 360 => RoundAt(k));
    forall x: Round | x.equippable in Classes && x.slot in Types && x.a != x.b
      ensures x in rs
    {
      var k := RoundIndex(x);
      assert rs[k] == x;
    }
    rs
  }

  /** The rounds run in order, each on the column the previous one produced. */
  function ApplyRounds(rows: seq<Row>, sel: seq<bool>, rounds: seq<Round>): (out: seq<bool>)
    requires |sel| == |rows|
    ensures |out| == |rows|
    decreases |rounds|
  {
    if |rounds| == 0 then sel
    else ApplyRounds(rows, SelectArmor(rows, sel, rounds[0]), rounds[1..])
  }

  /** The winner of each round, in order (None for a round with an empty filtered subset). */
  function WinnersOf(rows: seq<Row>, rounds: seq<Round>): (ws: seq<Option<nat>>)
    ensures |ws| == |rounds|
    decreases |rounds|
  {
    if |rounds| == 0 then [] else [Winner(rows, rounds[0])] + WinnersOf(rows, rounds[1..])
  }

  /** Entry k of the winners is the winner of round k. */
  lemma {:induction false} WinnersOfAt(rows: seq<Row>, rounds: seq<Round>, k: int)
    requires 0 <= k < |rounds|
    ensures WinnersOf(rows, rounds)[k] == Winner(rows, rounds[k])
    decreases |rounds|
  {
    if k > 0 {
      WinnersOfAt(rows, rounds[1..], k - 1);
      assert WinnersOf(rows, rounds)[k] == WinnersOf(rows, rounds[1..])[k - 1];
      assert rounds[1..][k - 1] == rounds[k];
    }
  }

  /** Row i is the winner of some round in `rounds`. */
  predicate PickedBy(rows: seq<Row>, rounds: seq<Round>, i: int) {
    Some(i) in WinnersOf(rows, rounds)
  }

  /**
   The filter of a round never reads "Selected", so the order of the rounds
   does not matter: after the rounds a row is selected exactly when it was
   selected before them or won one of them.
   */
  lemma {:induction false} ApplyRoundsCharacterization(rows: seq<Row>, sel: seq<bool>, rounds: seq<Round>, i: int)
    requires |sel| == |rows|
    requires 0 <= i < |rows|
    ensures ApplyRounds(rows, sel, rounds)[i] <==> sel[i] || PickedBy(rows, rounds, i)
    decreases |rounds|
  {
    if |rounds| > 0 {
      var sel' := SelectArmor(rows, sel, rounds[0]);
      ApplyRoundsCharacterization(rows, sel', rounds[1..], i);
      SelectArmorAt(rows, sel, rounds[0], i);
    }
  }

  /** Running the rounds never clears a Selected flag. */
  lemma ApplyRoundsOnlySets(rows: seq<Row>, sel: seq<bool>, rounds: seq<Round>, i: int)
    requires |sel| == |rows|
    requires 0 <= i < |rows|
    requires sel[i]
    ensures ApplyRounds(rows, sel, rounds)[i]
  {
    ApplyRoundsCharacterization(rows, sel, rounds, i);
  }

  /** A row some round picks is a best row of that round. */
  lemma PickedRound(rows: seq<Row>, rounds: seq<Round>, i: int) returns (r: Round)
    requires PickedBy(rows, rounds, i)
    ensures r in rounds && IsBest(rows, r, i)
  {
    var ws := WinnersOf(rows, rounds);
    var k :| 0 <= k < |ws| && ws[k] == Some(i);
    WinnersOfAt(rows, rounds, k);
    r := rounds[k];
  }

  /** Every row the rounds select was selected already or is a best row of one of them, `r`. */
  lemma SelectedRowsAreJustified(rows: seq<Row>, sel: seq<bool>, rounds: seq<Round>, i: int) returns (r: Option<Round>)
    requires |sel| == |rows|
    requires 0 <= i < |rows|
    requires ApplyRounds(rows, sel, rounds)[i]
    ensures r.None? ==> sel[i]
    ensures r.Some? ==> r.value in rounds && IsBest(rows, r.value, i)
  {
    ApplyRoundsCharacterization(rows, sel, rounds, i);
    if sel[i] {
      r := None;
    } else {
      var picked := PickedRound(rows, rounds, i);
      r := Some(picked);
    }
  }

  /**
   Every round whose filtered subset is non-empty leaves one of its best
   rows, `w`, selected.
   */
  lemma EveryRoundKeepsABestRow(rows: seq<Row>, sel: seq<bool>, rounds: seq<Round>, r: Round) returns (w: nat)
    requires |sel| == |rows|
    requires r in rounds
    requires exists j :: 0 <= j < |rows| && Eligible(rows[j], r)
    ensures IsBest(rows, r, w) && ApplyRounds(rows, sel, rounds)[w]
  {
    w := Winner(rows, r).value;
    var k :| 0 <= k < |rounds| && rounds[k] == r;
    WinnersOfAt(rows, rounds, k);
    ApplyRoundsCharacterization(rows, sel, rounds, w);
    assert WinnersOf(rows, rounds)[k] == Some(w);
  }
}
