/** The emission loop of `#buildSpells` (scripts/action-handler.js): every
    group of `SPELL_GROUP_IDS` is visited in order (the bucket map holds
    every spell group from the start), a group that needs a slot is skipped
    unless its ledger record is available, and a shown group gets its info
    text, then its actions and its activation sub-groups. */
module SpellGroups {
  import opened Strings
  import opened Constants
  import opened Entities
  import opened ItemRules
  import opened Buckets
  import opened Spells
  import opened SlotLedger
  import opened Emission

  /** The calls for the spell group k. */
  function SpellGroupCalls(ctx: Ctx, l: Ledger, k: GroupKey, spells: seq<Item>): seq<HudCall> {
    var mode := GroupSpellMode(k);
    if !GroupShown(l, mode) then []
    else
      var text := InfoText(LevelInfo(l, mode));
      [AddGroupInfo(GroupId(k), text)]
      + BucketCalls(ctx, GroupId(k), Members(spells, SpellKeysOf(ctx), k), "spell", text)
  }

  /** All calls of `#buildSpells` for the actor's items and slot entries:
      nothing without spells, a failure when the pact propagation fails, and
      otherwise the calls of every spell group in order. */
  function SpellCalls(ctx: Ctx, items: seq<Item>, slots: seq<SlotEntry>): Option<seq<HudCall>> {
    var spells := OfType(items, "spell");
    if spells == [] then Some([])
    else
      match Propagate(Walk(slots, ctx.settings.showUnchargedItems))
      case None => None
      case Some(l) => Some(ConcatMap(SpellGroupIds(), k => SpellGroupCalls(ctx, l, k, spells)))
  }

  /** A spell group makes calls exactly when it is shown, and its first call
      is then the group's info text. */
  lemma SpellGroupGate(ctx: Ctx, l: Ledger, k: GroupKey, spells: seq<Item>)
    ensures SpellGroupCalls(ctx, l, k, spells) != [] <==> GroupShown(l, GroupSpellMode(k))
    ensures GroupShown(l, GroupSpellMode(k)) ==>
      SpellGroupCalls(ctx, l, k, spells)[0] == AddGroupInfo(GroupId(k), InfoText(LevelInfo(l, GroupSpellMode(k))))
  {
  }

  /** The cantrips, at-will, innate and additional spells are never gated on
      a slot; the nine levelled groups and the pact spells always are. */
  lemma WhichGroupsAreGated(l: Ledger)
    ensures forall k :: k in [Cantrips, AtWillSpells, InnateSpells, AdditionalSpells] ==> GroupShown(l, GroupSpellMode(k))
    ensures forall n :: 1 <= n <= 9 ==> SlotGated(GroupSpellMode(SpellGroupIds()[n]))
    ensures SlotGated(GroupSpellMode(PactSpells))
  {
    OtherSpellGroupModes();
    LevelledSpellGroupModes();
  }

  /** The key of the levelled slot for level n. */
  lemma LevelKey(n: int)
    requires 1 <= n <= 9
    ensures IsSpellLevelKey("spell" + IntToString(n))
    ensures "spell" + SpellModeText(LevelMode(n)) == "spell" + IntToString(n)
  {
    var key := "spell" + IntToString(n);
    assert key[..5] == "spell";
  }

  /** A levelled group is shown exactly when the walk marks the entry of its
      level available: when uncharged items are shown or some levelled entry
      at or after that entry has slots left. */
  lemma LevelGroupShown(es: seq<SlotEntry>, show: bool, n: int, i: nat)
    requires DistinctKeys(es)
    requires 1 <= n <= 9 && i < |es| && es[i].key == "spell" + IntToString(n)
    requires Propagate(Walk(es, show)).Some?
    ensures GroupShown(Propagate(Walk(es, show)).value, LevelMode(n)) <==> show || AnyCharged(es[i..])
  {
    LevelKey(n);
    LevelledRecord(es, show, i);
    PropagateKeepsGates(Walk(es, show), LevelMode(n));
  }

  /** A levelled group whose level has no slot entry is never shown. */
  lemma LevelGroupWithoutEntry(es: seq<SlotEntry>, show: bool, n: int)
    requires 1 <= n <= 9
    requires forall i :: 0 <= i < |es| ==> es[i].key != "spell" + IntToString(n)
    requires Propagate(Walk(es, show)).Some?
    ensures !GroupShown(Propagate(Walk(es, show)).value, LevelMode(n))
  {
    LevelKey(n);
    AbsentKey(es, show, "spell" + IntToString(n));
    PropagateKeepsGates(Walk(es, show), LevelMode(n));
  }

  /** The pact group is shown exactly when the pact slot has a positive level
      and either uncharged items are shown or it has slots left. */
  lemma PactGroupShown(es: seq<SlotEntry>, show: bool, i: nat)
    requires DistinctKeys(es)
    requires i < |es| && es[i].key == "pact"
    requires Propagate(Walk(es, show)).Some?
    ensures GroupShown(Propagate(Walk(es, show)).value, PactMode)
      <==> (show || (es[i].value > 0 && es[i].max > 0 && es[i].level > 0)) && es[i].level > 0
  {
    PactRecord(es, show, i);
    PropagateKeepsGates(Walk(es, show), PactMode);
  }

  /** An actor with spells but no pact entry makes `#buildSpells` fail. */
  lemma MissingPactFails(ctx: Ctx, items: seq<Item>, slots: seq<SlotEntry>)
    requires OfType(items, "spell") != []
    requires forall i :: 0 <= i < |slots| ==> slots[i].key != "pact"
    ensures SpellCalls(ctx, items, slots).None?
  {
    NoPactEntry(slots, ctx.settings.showUnchargedItems);
  }

  /** The spell groups are emitted in the order of `SPELL_GROUP_IDS`. */
  lemma SpellGroupOrder(ctx: Ctx, items: seq<Item>, slots: seq<SlotEntry>, i: nat)
    requires i < |SpellGroupIds()|
    requires OfType(items, "spell") != [] && Propagate(Walk(slots, ctx.settings.showUnchargedItems)).Some?
    ensures var l := Propagate(Walk(slots, ctx.settings.showUnchargedItems)).value;
      var f := k => SpellGroupCalls(ctx, l, k, OfType(items, "spell"));
      var ids := SpellGroupIds();
      SpellCalls(ctx, items, slots)
        == Some(ConcatMap(ids[..i], f) + SpellGroupCalls(ctx, l, ids[i], OfType(items, "spell")) + ConcatMap(ids[i + 1..], f))
  {
    var l := Propagate(Walk(slots, ctx.settings.showUnchargedItems)).value;
    ConcatMapPosition(SpellGroupIds(), i, k => SpellGroupCalls(ctx, l, k, OfType(items, "spell")));
  }
}
