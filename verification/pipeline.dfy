/**
 The whole transform of process_armor_csv between reading and writing the
 table: derive the metrics, start with the exotic rows selected, run every
 round, and tag every unselected row outside the class-item slots as junk.
 The result is the input table with only the Tag column changed.
 */
module Pipeline {
  import opened ArmorData
  import opened Metrics
  import opened Selection
  import opened Rounds

  /** The final "Selected" column. */
  function Selections(cfg: Config, items: seq<Item>): (sel: seq<bool>)
    ensures |sel| == |items|
    ensures forall i :: 0 <= i < |items| && items[i].tier == Exotic ==> sel[i]
  {
    var rows := DeriveAll(cfg, items);
    var sel := ApplyRounds(rows, InitialSelected(items), AllRounds());
    forall i | 0 <= i < |items| && items[i].tier == Exotic
      ensures sel[i]
    {
      ApplyRoundsOnlySets(rows, InitialSelected(items), AllRounds(), i);
    }
    sel
  }

  /** The junk query: not selected, and not a class item. */
  predicate IsJunk(item: Item, selected: bool) {
    !selected && item.slot !in ExemptSlots
  }

  /**
   Writing the junk tag back into the original table: junk rows get the tag
   "junk", every other row is kept as it was, and no other column changes.
   */
  function MarkJunk(items: seq<Item>, sel: seq<bool>): (out: seq<Item>)
    requires |sel| == |items|
    ensures |out| == |items|
    ensures forall i :: 0 <= i < |items| ==> out[i] == items[i].(tag := out[i].tag)
    ensures forall i :: 0 <= i < |items| && IsJunk(items[i], sel[i]) ==> out[i].tag == JunkTag
    ensures forall i :: 0 <= i < |items| && !IsJunk(items[i], sel[i]) ==> out[i] == items[i]
  {
    seq(|items|, i requires 0 <= i < |items| =>
      if IsJunk(items[i], sel[i]) then items[i].(tag := JunkTag) else items[i])
  }

  /** process_armor_csv on an already-read table. */
  function Process(cfg: Config, items: seq<Item>): (out: seq<Item>)
    ensures |out| == |items|
    ensures forall i :: 0 <= i < |items| ==> out[i] == items[i].(tag := out[i].tag)
  {
    MarkJunk(items, Selections(cfg, items))
  }

  /** A row ends up selected exactly when it is exotic or wins some round. */
  lemma SelectionsIff(cfg: Config, items: seq<Item>, i: int)
    requires 0 <= i < |items|
    ensures Selections(cfg, items)[i] <==> items[i].tier == Exotic || PickedBy(DeriveAll(cfg, items), AllRounds(), i)
  {
    ApplyRoundsCharacterization(DeriveAll(cfg, items), InitialSelected(items), AllRounds(), i);
  }

  /** A row some round picks is a legendary, not-trash row of a listed class and slot. */
  lemma PickedRowsAreEligible(cfg: Config, items: seq<Item>, i: int)
    requires 0 <= i < |items|
    requires PickedBy(DeriveAll(cfg, items), AllRounds(), i)
    ensures items[i].tier == Legendary
    ensures NotTrash(cfg, items[i])
    ensures items[i].equippable in Classes && items[i].slot in Types
  {
    var rows := DeriveAll(cfg, items);
    var r := PickedRound(rows, AllRounds(), i);
    assert Eligible(rows[i], r);
  }

  /**
   After the run a row carries the junk tag exactly when it carried it
   before, or it is not exotic, not a class item and won no round; a row
   that is not junked this way is returned unchanged.
   */
  lemma JunkIff(cfg: Config, items: seq<Item>, i: int)
    requires 0 <= i < |items|
    ensures Process(cfg, items)[i].tag == JunkTag
        <==> items[i].tag == JunkTag
             || (items[i].tier != Exotic && items[i].slot !in ExemptSlots && !PickedBy(DeriveAll(cfg, items), AllRounds(), i))
    ensures !(items[i].tier != Exotic && items[i].slot !in ExemptSlots && !PickedBy(DeriveAll(cfg, items), AllRounds(), i))
        ==> Process(cfg, items)[i] == items[i]
  {
    SelectionsIff(cfg, items, i);
  }

  /** Exotic rows are never junked: they come back unchanged. */
  lemma ExoticNeverJunked(cfg: Config, items: seq<Item>, i: int)
    requires 0 <= i < |items|
    requires items[i].tier == Exotic
    ensures Process(cfg, items)[i] == items[i]
  {
  }

  /** Class items (cloaks, marks, bonds) are never junked. */
  lemma ClassItemsNeverJunked(cfg: Config, items: seq<Item>, i: int)
    requires 0 <= i < |items|
    requires items[i].slot in ExemptSlots
    ensures Process(cfg, items)[i] == items[i]
  {
  }

  /** A row that is neither exotic nor legendary, outside the class-item slots, is always junked. */
  lemma CommonArmorAlwaysJunked(cfg: Config, items: seq<Item>, i: int)
    requires 0 <= i < |items|
    requires items[i].tier != Exotic && items[i].tier != Legendary
    requires items[i].slot !in ExemptSlots
    ensures Process(cfg, items)[i].tag == JunkTag
  {
    JunkIff(cfg, items, i);
    if PickedBy(DeriveAll(cfg, items), AllRounds(), i) {
      PickedRowsAreEligible(cfg, items, i);
    }
  }

  /**
   A non-exotic row outside the class-item slots that fails the "Not Trash"
   gate (say a stat total of 59 against a minimum of 60) is always junked.
   */
  lemma TrashAlwaysJunked(cfg: Config, items: seq<Item>, i: int)
    requires 0 <= i < |items|
    requires !NotTrash(cfg, items[i])
    requires items[i].tier != Exotic && items[i].slot !in ExemptSlots
    ensures Process(cfg, items)[i].tag == JunkTag
  {
    JunkIff(cfg, items, i);
    if PickedBy(DeriveAll(cfg, items), AllRounds(), i) {
      PickedRowsAreEligible(cfg, items, i);
    }
  }

  /** The Tag column plays no part in the derived metrics. */
  lemma DeriveIgnoresTag(cfg: Config, item: Item, t: string)
    ensures Derive(cfg, item.(tag := t)) == Derive(cfg, item)
  {
  }

  /** The Tag column plays no part in selection. */
  lemma SelectionsIgnoreTags(cfg: Config, items: seq<Item>, other: seq<Item>)
    requires |other| == |items|
    requires forall i :: 0 <= i < |items| ==> other[i] == items[i].(tag := other[i].tag)
    ensures Selections(cfg, other) == Selections(cfg, items)
  {
    forall i | 0 <= i < |items|
      ensures DeriveAll(cfg, other)[i] == DeriveAll(cfg, items)[i]
    {
      DeriveIgnoresTag(cfg, items[i], other[i].tag);
    }
    assert DeriveAll(cfg, other) == DeriveAll(cfg, items);
    assert InitialSelected(other) == InitialSelected(items);
  }

  /** Marking a table that is already marked with the same column changes nothing. */
  lemma MarkJunkIdempotent(items: seq<Item>, sel: seq<bool>)
    requires |sel| == |items|
    ensures MarkJunk(MarkJunk(items, sel), sel) == MarkJunk(items, sel)
  {
    var out := MarkJunk(items, sel);
    var again := MarkJunk(out, sel);
    forall i | 0 <= i < |items|
      ensures again[i] == out[i]
    {
      if IsJunk(out[i], sel[i]) {
        assert IsJunk(items[i], sel[i]);
      }
    }
  }

  /** Running the transform on its own output changes nothing more. */
  lemma ProcessIdempotent(cfg: Config, items: seq<Item>)
    ensures Process(cfg, Process(cfg, items)) == Process(cfg, items)
  {
    var out := Process(cfg, items);
    SelectionsIgnoreTags(cfg, items, out);
    MarkJunkIdempotent(items, Selections(cfg, items));
  }
}
