/** The spell-slot ledger of `#buildSpells` (scripts/action-handler.js): the
    entries of `actor.system.spells` are walked in reverse with two sticky
    flags, one for the levelled slots and one for the pact slot, each slot
    record is marked with the flag's value, and a pact slot that is
    available is meant to open the levelled slot of the same level. The
    spell groups that need a slot are then gated on their record. */
module SlotLedger {
  import opened Strings
  import opened Constants
  import opened Entities

  /** A slot record as the gate reads it: the entry's value, max and level,
      `slotAvailable` (false where the walk never sets it) and
      `slotsAvailable`, the field the other branch and the pact
      propagation write. */
  datatype SlotRecord = SlotRecord(value: int, max: int, level: int, slotAvailable: bool, slotsAvailable: bool)

  /** The state of the walk: the two sticky flags, the `spellSlotsMap`
      built so far and the pact record (`pactSlot`). */
  datatype Ledger = Ledger(spellFlag: bool, pactFlag: bool, slots: map<string, SlotRecord>, pact: Option<SlotRecord>)

  /** A key of a levelled slot: it starts with "spell" and is not "spell0". */
  predicate IsSpellLevelKey(key: string) {
    StartsWith(key, "spell") && key != "spell0"
  }

  /** A levelled slot entry with slots left. */
  predicate Charged(e: SlotEntry) {
    IsSpellLevelKey(e.key) && e.value > 0 && e.max > 0
  }

  /** Some levelled entry of es has slots left. */
  predicate AnyCharged(es: seq<SlotEntry>) {
    exists j :: 0 <= j < |es| && Charged(es[j])
  }

  /** The keys of an object's entries are distinct. */
  predicate DistinctKeys(es: seq<SlotEntry>) {
    forall i, j :: 0 <= i < j < |es| ==> es[i].key != es[j].key
  }

  /** Both flags start at `showUnchargedItems`. */
  function Start(showUncharged: bool): Ledger {
    Ledger(showUncharged, showUncharged, map[], None)
  }

  /** One turn of the walk over the entry e. */
  function Step(l: Ledger, e: SlotEntry): Ledger {
    var hasValue := e.value > 0;
    var hasMax := e.max > 0;
    var hasLevel := e.level > 0;
    if e.key == "pact" then
      var flag := l.pactFlag || (hasValue && hasMax && hasLevel);
      l.(pactFlag := flag, pact := Some(SlotRecord(e.value, e.max, e.level, flag && hasLevel, false)))
    else if IsSpellLevelKey(e.key) then
      var flag := l.spellFlag || (hasValue && hasMax);
      l.(spellFlag := flag, slots := l.slots[e.key := SlotRecord(e.value, e.max, e.level, flag, false)])
    else if hasValue then
      l.(slots := l.slots[e.key := SlotRecord(e.value, e.max, e.level, false, true)])
    else l
  }

  /** The walk over the entries in reverse: the last entry first, es[0] last. */
  function Walk(es: seq<SlotEntry>, showUncharged: bool): Ledger {
    if es == [] then Start(showUncharged) else Step(Walk(es[1..], showUncharged), es[0])
  }

  /** The loop over the reversed entries, with the sticky flags, the slot map
      and the pact slot as its variables. */
  method WalkSlots(entries: seq<SlotEntry>, showUncharged: bool) returns (l: Ledger)
    ensures l == Walk(entries, showUncharged)
  {
    var spellSlotAvailable := showUncharged;
    var pactSlotAvailable := showUncharged;
    var spellSlots: map<string, SlotRecord> := map[];
    var pactSlot: Option<SlotRecord> := None;
    var i := |entries|;
    while i > 0
      invariant 0 <= i <= |entries|
      invariant Ledger(spellSlotAvailable, pactSlotAvailable, spellSlots, pactSlot) == Walk(entries[i..], showUncharged)
    {
      i := i - 1;
      var e := entries[i];
      assert entries[i..][1..] == entries[i + 1..];
      var hasValue := e.value > 0;
      var hasMax := e.max > 0;
      var hasLevel := e.level > 0;
      if e.key == "pact" {
        pactSlotAvailable := pactSlotAvailable || (hasValue && hasMax && hasLevel);
        pactSlot := Some(SlotRecord(e.value, e.max, e.level, pactSlotAvailable && hasLevel, false));
      } else if StartsWith(e.key, "spell") && e.key != "spell0" {
        spellSlotAvailable := spellSlotAvailable || (hasValue && hasMax);
        spellSlots := spellSlots[e.key := SlotRecord(e.value, e.max, e.level, spellSlotAvailable, false)];
      } else if hasValue {
        spellSlots := spellSlots[e.key := SlotRecord(e.value, e.max, e.level, false, true)];
      }
    }
    l := Ledger(spellSlotAvailable, pactSlotAvailable, spellSlots, pactSlot);
  }

  /** The levelled flag after the walk is set exactly when uncharged items
      are shown or some levelled entry has slots left. */
  lemma {:induction false} SpellFlagAfterWalk(es: seq<SlotEntry>, show: bool)
    ensures Walk(es, show).spellFlag <==> show || AnyCharged(es)
  {
    if es != [] {
      SpellFlagAfterWalk(es[1..], show);
      AnyChargedCons(es);
    }
  }

  /** Some entry has slots left exactly when the first one has or one of
      the others has. */
  lemma AnyChargedCons(es: seq<SlotEntry>)
    requires es != []
    ensures AnyCharged(es) <==> Charged(es[0]) || AnyCharged(es[1..])
  {
    if AnyCharged(es[1..]) {
      var j :| 0 <= j < |es[1..]| && Charged(es[1..][j]);
      assert Charged(es[j + 1]);
    }
    if AnyCharged(es) && !Charged(es[0]) {
      var j :| 0 <= j < |es| && Charged(es[j]);
      assert j != 0;
      assert Charged(es[1..][j - 1]);
    }
  }

  /** The walk leaves the pact flag and record alone when no entry is "pact". */
  lemma {:induction false} NoPactEntry(es: seq<SlotEntry>, show: bool)
    requires forall i :: 0 <= i < |es| ==> es[i].key != "pact"
    ensures Walk(es, show).pactFlag == show && Walk(es, show).pact == None
  {
    if es != [] {
      NoPactEntry(es[1..], show);
    }
  }

  /** The record of the levelled entry at position i holds the entry's
      numbers, and it is available exactly when uncharged items are shown or
      some levelled entry at position i or later, all of which the walk
      visits first, has slots left. */
  lemma {:induction false} LevelledRecord(es: seq<SlotEntry>, show: bool, i: nat)
    requires DistinctKeys(es)
    requires i < |es| && IsSpellLevelKey(es[i].key)
    ensures es[i].key in Walk(es, show).slots
    ensures Walk(es, show).slots[es[i].key]
         == SlotRecord(es[i].value, es[i].max, es[i].level, show || AnyCharged(es[i..]), false)
  {
    assert es[i].key != "pact";
    if i == 0 {
      SpellFlagAfterWalk(es[1..], show);
      AnyChargedCons(es);
      assert es[0..] == es;
    } else {
      assert es[1..][i - 1] == es[i];
      assert es[1..][i - 1..] == es[i..];
      LevelledRecord(es[1..], show, i - 1);
      assert es[0].key != es[i].key;
    }
  }

  /** Sticky availability: once a levelled entry has slots left, every
      levelled entry walked after it (at an earlier position) is available. */
  lemma Sticky(es: seq<SlotEntry>, show: bool, i: nat, j: nat)
    requires DistinctKeys(es)
    requires i <= j < |es| && IsSpellLevelKey(es[i].key) && Charged(es[j])
    ensures es[i].key in Walk(es, show).slots && Walk(es, show).slots[es[i].key].slotAvailable
  {
    LevelledRecord(es, show, i);
    assert Charged(es[i..][j - i]);
  }

  /** The record of an entry that is neither levelled nor "pact" is kept, and
      then never available, exactly when its value is positive. */
  lemma {:induction false} OtherRecord(es: seq<SlotEntry>, show: bool, i: nat)
    requires DistinctKeys(es)
    requires i < |es| && !IsSpellLevelKey(es[i].key) && es[i].key != "pact"
    ensures es[i].key in Walk(es, show).slots <==> es[i].value > 0
    ensures es[i].value > 0 ==>
      Walk(es, show).slots[es[i].key] == SlotRecord(es[i].value, es[i].max, es[i].level, false, true)
  {
    if i == 0 {
      AbsentKey(es[1..], show, es[0].key);
    } else {
      assert es[1..][i - 1] == es[i];
      OtherRecord(es[1..], show, i - 1);
    }
  }

  /** A key no entry has gets no record. */
  lemma {:induction false} AbsentKey(es: seq<SlotEntry>, show: bool, key: string)
    requires forall i :: 0 <= i < |es| ==> es[i].key != key
    ensures key !in Walk(es, show).slots
  {
    if es != [] {
      AbsentKey(es[1..], show, key);
    }
  }

  /** The pact record: available exactly when its level is positive and
      either uncharged items are shown or it has slots left. */
  lemma {:induction false} PactRecord(es: seq<SlotEntry>, show: bool, i: nat)
    requires DistinctKeys(es)
    requires i < |es| && es[i].key == "pact"
    ensures var e := es[i];
      Walk(es, show).pact
        == Some(SlotRecord(e.value, e.max, e.level, (show || (e.value > 0 && e.max > 0 && e.level > 0)) && e.level > 0, false))
  {
    if i == 0 {
      NoPactEntry(es[1..], show);
    } else {
      assert es[1..][i - 1] == es[i];
      PactRecord(es[1..], show, i - 1);
    }
  }

  /** The pact propagation as written: without a pact entry it fails (the
      code reads a field of null); when the pact slot is available it sets
      `slotsAvailable` on the levelled record of the pact level, and fails
      when there is no such record. */
  function Propagate(l: Ledger): (r: Option<Ledger>)
    ensures r.None? <==> l.pact.None? || (l.pact.value.slotAvailable && "spell" + IntToString(l.pact.value.level) !in l.slots)
  {
    match l.pact
    case None => None
    case Some(p) =>
      if !p.slotAvailable then Some(l)
      else
        var key := "spell" + IntToString(p.level);
        if key in l.slots then Some(l.(slots := l.slots[key := l.slots[key].(slotsAvailable := true)]))
        else None
  }

  /** `spellSlotModes`: the spell modes whose groups need a slot. */
  predicate SlotGated(mode: SpellMode) {
    (mode.LevelMode? && 1 <= mode.level <= 9) || mode == PactMode
  }

  /** `levelInfo`: the pact record for the pact mode, otherwise the record
      under "spell" followed by the text of the mode. */
  function LevelInfo(l: Ledger, mode: SpellMode): Option<SlotRecord> {
    if mode == PactMode then l.pact
    else
      var key := "spell" + SpellModeText(mode);
      if key in l.slots then Some(l.slots[key]) else None
  }

  /** A spell group of this mode is shown: it needs no slot, or its record
      is marked `slotAvailable`. */
  predicate GroupShown(l: Ledger, mode: SpellMode) {
    !SlotGated(mode) || (LevelInfo(l, mode).Some? && LevelInfo(l, mode).value.slotAvailable)
  }

  /** The info text of a spell group: "value/max" when the record has a
      positive max, otherwise empty. */
  function InfoText(info: Option<SlotRecord>): (r: string)
    ensures r != "" <==> info.Some? && info.value.max > 0
  {
    match info
    case Some(rec) => if rec.max > 0 then IntToString(rec.value) + "/" + IntToString(rec.max) else ""
    case None => ""
  }

  /** The info text splits at its one '/' into the slots left and the maximum. */
  lemma InfoTextReadsBack(rec: SlotRecord)
    requires rec.max > 0
    ensures var pieces := Split(InfoText(Some(rec)), '/');
      |pieces| == 2 && ParseInt(pieces[0]) == Some(rec.value) && ParseInt(pieces[1]) == Some(rec.max)
  {
    var a := IntToString(rec.value);
    var b := IntToString(rec.max);
    assert '/' !in a && '/' !in b;
    assert InfoText(Some(rec)) == a + ['/'] + b;
    SplitAround(a, b, '/');
    SplitNoSeparator(b, '/');
    IntToStringRoundTrip(rec.value);
    IntToStringRoundTrip(rec.max);
  }

  /** The propagation changes no record that the gate or the info text
      reads: the pact record, the keys of the slot map and every record's
      value, max and `slotAvailable` stay as they were. So a successful
      propagation shows exactly the groups the walk alone shows. */
  lemma PropagateKeepsGates(l: Ledger, mode: SpellMode)
    requires Propagate(l).Some?
    ensures var l' := Propagate(l).value;
      l'.pact == l.pact && l'.slots.Keys == l.slots.Keys
      && (GroupShown(l', mode) <==> GroupShown(l, mode))
      && InfoText(LevelInfo(l', mode)) == InfoText(LevelInfo(l, mode))
  {
  }

  /** An instance of the above: a character whose third-level slots are used
      up but whose third-level pact slot is available. The pact slot is
      available and propagated, yet the third-level group stays hidden. */
  lemma PactSlotDoesNotOpenLevelGroup()
    ensures var es := [SlotEntry("spell3", 0, 0, 3), SlotEntry("pact", 1, 1, 3)];
      var l := Walk(es, false);
      l.pact.Some? && l.pact.value.slotAvailable && l.pact.value.level == 3
      && Propagate(l).Some? && !GroupShown(Propagate(l).value, LevelMode(3))
  {
    var es := [SlotEntry("spell3", 0, 0, 3), SlotEntry("pact", 1, 1, 3)];
    var pact := SlotEntry("pact", 1, 1, 3);
    var tail := [pact];
    assert es[1..] == tail;
    assert tail[1..] == [];
    assert Walk(tail[1..], false) == Start(false);
    var l1 := Walk(tail, false);
    assert l1 == Step(Start(false), pact);
    assert l1.pact == Some(SlotRecord(1, 1, 3, true, false));
    assert IsSpellLevelKey("spell3") by {
      assert "spell3"[..5] == "spell";
    }
    var l := Walk(es, false);
    assert l == Step(l1, es[0]);
    assert l.slots["spell3"] == SlotRecord(0, 0, 3, false, false);
    assert l.pact == l1.pact;
    assert IntToString(3) == "3";
    assert "spell" + IntToString(3) == "spell3";
    var l' := Propagate(l).value;
    assert l'.slots["spell3"].slotAvailable == false;
    assert LevelInfo(l', LevelMode(3)) == Some(l'.slots["spell3"]);
  }
}
