/** The ActionHandler of scripts/action-handler.js as an object: the selection
    and settings `buildSystemActions` stores in its fields, and the builders
    that append their calls to the HUD, each proved to make exactly the calls
    of the specification function of its stage. */
module Handler {
  import opened Strings
  import opened Constants
  import opened Entities
  import opened ItemRules
  import opened Buckets
  import opened Activations
  import opened Features
  import opened Inventory
  import opened Spells
  import opened Emission
  import opened SlotLedger
  import opened SpellGroups
  import opened Status

  /** The calls of `#buildFeatures`: the feats bucketed by type and subtype,
      emitted in the order of `FEATURE_GROUP_IDS`. */
  function FeatureCalls(ctx: Ctx, items: seq<Item>): seq<HudCall> {
    OrderedCalls(ctx, FeatureGroupIds(), OfType(items, "feat"), FeatureKeysOf(), "feature")
  }

  /** The calls of `#buildInventory`: the items bucketed by equipped state,
      consumables and type, emitted in the order chosen for the actor type. */
  function InventoryCalls(ctx: Ctx, items: seq<Item>): seq<HudCall> {
    OrderedCalls(ctx, InventoryGroupIds(ctx.actorType), items, InventoryKeysOf(ctx), "item")
  }

  /** The calls of one `buildSystemActions`, and whether it ran to the end
      (false when `#buildSpells` failed and the builders after it never ran). */
  datatype Outcome = Outcome(calls: seq<HudCall>, complete: bool)

  /** The groups a character and a vehicle both start with: the conditions,
      effects, features and inventory. */
  function SheetCalls(ctx: Ctx, a: ActorData, actors: seq<ActorData>, tokenCount: nat,
                      items: seq<Item>, isGM: bool, statusEffects: seq<StatusEffect>): seq<HudCall>
  {
    ConditionCalls(tokenCount, actors, statusEffects) + EffectCalls(a.applicableEffects, isGM, statusEffects)
    + FeatureCalls(ctx, items) + InventoryCalls(ctx, items)
  }

  /** The groups a character gets after its spells: exhaustion, rests and utility. */
  function CharacterTailCalls(a: ActorData, actors: seq<ActorData>): seq<HudCall> {
    ExhaustionCalls(a, actors) + RestCalls(actors) + UtilityCalls(Some(a), actors)
  }

  /** `#buildCharacterActions`: the conditions, effects, features, inventory
      and spells, then (unless the spells failed) exhaustion, rests and utility. */
  function CharacterCalls(ctx: Ctx, a: ActorData, actors: seq<ActorData>, tokenCount: nat,
                          items: seq<Item>, isGM: bool, statusEffects: seq<StatusEffect>): Outcome
  {
    var first := SheetCalls(ctx, a, actors, tokenCount, items, isGM, statusEffects);
    match SpellCalls(ctx, items, a.spellSlots)
    case None => Outcome(first, false)
    case Some(spells) => Outcome(first + spells + CharacterTailCalls(a, actors), true)
  }

  /** `#buildVehicleActions`: the conditions, effects, features, inventory and utility. */
  function VehicleCalls(ctx: Ctx, a: ActorData, actors: seq<ActorData>, tokenCount: nat,
                        items: seq<Item>, isGM: bool, statusEffects: seq<StatusEffect>): seq<HudCall>
  {
    SheetCalls(ctx, a, actors, tokenCount, items, isGM, statusEffects) + UtilityCalls(Some(a), actors)
  }

  /** `#buildMultipleTokenActions`: the conditions, rests and utility. */
  function MultipleTokenCalls(actors: seq<ActorData>, tokenCount: nat, statusEffects: seq<StatusEffect>): seq<HudCall> {
    ConditionCalls(tokenCount, actors, statusEffects) + RestCalls(actors) + UtilityCalls(None, actors)
  }

  /** `buildSystemActions` after the selection is stored: the builders of the
      character (or npc), the vehicle or the multiple-token selection; an
      actor of any other type gets nothing. */
  function SystemCalls(ctx: Ctx, actor: Option<ActorData>, actors: seq<ActorData>, tokenCount: nat,
                       items: seq<Item>, isGM: bool, statusEffects: seq<StatusEffect>): Outcome
  {
    match actor
    case None => Outcome(MultipleTokenCalls(actors, tokenCount, statusEffects), true)
    case Some(a) =>
      if a.actorType == "character" || a.actorType == "npc" then
        CharacterCalls(ctx, a, actors, tokenCount, items, isGM, statusEffects)
      else if a.actorType == "vehicle" then Outcome(VehicleCalls(ctx, a, actors, tokenCount, items, isGM, statusEffects), true)
      else Outcome([], true)
  }

  /** With no actor selected, only the conditions, rests and utility groups
      receive actions, and nothing else is called on the HUD. */
  lemma MultipleTokensOnlyShared(ctx: Ctx, actors: seq<ActorData>, tokenCount: nat, items: seq<Item>,
                                 isGM: bool, statusEffects: seq<StatusEffect>)
    ensures var o := SystemCalls(ctx, None, actors, tokenCount, items, isGM, statusEffects);
      o.complete && forall c :: c in o.calls ==> c.AddActions? && c.targetId in ["conditions", "rests", "utility"]
  {
  }

  /** A run stops early exactly when a character or npc with spells fails the
      pact propagation; the calls made until then are those of the conditions,
      effects, features and inventory. */
  lemma IncompleteOnlyOnSpellFailure(ctx: Ctx, a: ActorData, actors: seq<ActorData>, tokenCount: nat,
                                     items: seq<Item>, isGM: bool, statusEffects: seq<StatusEffect>)
    ensures var o := SystemCalls(ctx, Some(a), actors, tokenCount, items, isGM, statusEffects);
      !o.complete <==> a.actorType in ["character", "npc"] && OfType(items, "spell") != []
                       && Propagate(Walk(a.spellSlots, ctx.settings.showUnchargedItems)).None?
  {
  }

  class ActionHandler {
    /** The calls made on the HUD so far. */
    var output: seq<HudCall>
    /** `this.actor`, the single selected actor. */
    var actor: Option<ActorData>
    /** `this.actors`. */
    var actors: seq<ActorData>
    /** The length of `this.tokens`. */
    var tokenCount: nat
    /** `this.items`, the selected actor's items without the slow ones. */
    var items: seq<Item>
    /** The actor type and settings the item rules read. */
    var ctx: Ctx
    /** `game.user.isGM`. */
    var isGM: bool
    /** `CONFIG.statusEffects`. */
    var statusEffects: seq<StatusEffect>
    /** The keys of `CONFIG.DND5E.activityActivationTypes` and the value of
        `CONFIG.DND5E.spellPreparationStates.always`. */
    var activationTypes: set<string>
    var alwaysPrepared: int

    constructor(isGM: bool, statusEffects: seq<StatusEffect>, activationTypes: set<string>, alwaysPrepared: int,
                settings: Settings)
      ensures this.output == [] && this.actor == None && this.actors == [] && this.tokenCount == 0 && this.items == []
      ensures this.isGM == isGM && this.statusEffects == statusEffects
      ensures this.activationTypes == activationTypes && this.alwaysPrepared == alwaysPrepared
      ensures this.ctx == Ctx("", settings, activationTypes, alwaysPrepared)
    {
      this.output := [];
      this.actor := None;
      this.actors := [];
      this.tokenCount := 0;
      this.items := [];
      this.isGM := isGM;
      this.statusEffects := statusEffects;
      this.activationTypes := activationTypes;
      this.alwaysPrepared := alwaysPrepared;
      this.ctx := Ctx("", settings, activationTypes, alwaysPrepared);
    }

    /** `buildActions` for items: one `addActions` call with an action per
        item, or nothing for an empty group. */
    method BuildItemActions(groupId: string, members: seq<Item>, actionType: string)
      modifies this`output
      ensures output == old(output) + (if members == [] then [] else [AddActions(groupId, ItemActions(ctx, members, actionType))])
    {
      if members == [] {
        return;
      }
      output := output + [AddActions(groupId, ItemActions(ctx, members, actionType))];
    }

    /** `buildActions` for effects. */
    method BuildEffectActions(groupId: string, effects: seq<Effect>)
      modifies this`output
      ensures output == old(output) + ActionsCall(groupId, EffectActions(effects))
    {
      if effects == [] {
        return;
      }
      output := output + [AddActions(groupId, EffectActions(effects))];
    }

    /** `buildActivations`: the members are split by activation bucket, and
        the table is walked in order. */
    method BuildActivations(parentId: string, members: seq<Item>, actionType: string, info: string)
      modifies this`output
      ensures output == old(output) + ActivationCalls(ctx, parentId, members, actionType, info)
    {
      var buckets := FillBuckets(members, ActivationKeysOf());
      BuildDerivedGroups(ActivationGroups(), buckets, parentId, members, actionType, info);
    }

    /** The loop of `buildActivations` over the table entries `groups`, given
        the activation buckets of the members. */
    method BuildDerivedGroups(groups: seq<Option<string>>, buckets: map<string, seq<Item>>, parentId: string,
                              members: seq<Item>, actionType: string, info: string)
      requires forall k :: k in buckets ==> buckets[k] == Members(members, ActivationKeysOf(), k) && buckets[k] != []
      requires forall k :: k !in buckets ==> Members(members, ActivationKeysOf(), k) == []
      modifies this`output
      ensures output == old(output) + CallsOver(ctx, groups, parentId, members, actionType, info)
    {
      for j := 0 to |groups|
        invariant output == old(output) + CallsOver(ctx, groups[..j], parentId, members, actionType, info)
      {
        CallsOverStep(ctx, groups, j, parentId, members, actionType, info);
        BuildDerivedGroup(groups[j], buckets, parentId, members, actionType, info);
        AppendAssoc(old(output), CallsOver(ctx, groups[..j], parentId, members, actionType, info),
                    DerivedCalls(ctx, groups[j], parentId, members, actionType, info));
      }
      assert groups[..|groups|] == groups;
    }

    /** One turn of the loop of `buildActivations`: the sub-group of one
        table entry, when its bucket is populated. */
    method BuildDerivedGroup(group: Option<string>, buckets: map<string, seq<Item>>, parentId: string,
                             members: seq<Item>, actionType: string, info: string)
      requires forall k :: k in buckets ==> buckets[k] == Members(members, ActivationKeysOf(), k) && buckets[k] != []
      requires forall k :: k !in buckets ==> Members(members, ActivationKeysOf(), k) == []
      modifies this`output
      ensures output == old(output) + DerivedCalls(ctx, group, parentId, members, actionType, info)
    {
      if group.None? {
        return;
      }
      var bucket := group.value;
      if bucket !in buckets {
        return;
      }
      var id := DerivedId(bucket, parentId);
      output := output + [AddGroup(id, bucket, DefaultSelected(parentId))];
      if actionType == "spell" {
        output := output + [AddGroupInfo(id, info)];
      }
      BuildItemActions(id, buckets[bucket], actionType);
    }

    /** `buildActions` then `buildActivations` for one group. */
    method BuildBucket(groupId: string, members: seq<Item>, actionType: string, info: string)
      modifies this`output
      ensures output == old(output) + BucketCalls(ctx, groupId, members, actionType, info)
    {
      if members == [] {
        CallsOverNothing(ctx, ActivationGroups(), groupId, actionType, info);
      }
      BuildItemActions(groupId, members, actionType);
      BuildActivations(groupId, members, actionType, info);
      if members != [] {
        AppendAssoc(old(output), [AddActions(groupId, ItemActions(ctx, members, actionType))],
                    ActivationCalls(ctx, groupId, members, actionType, info));
      }
    }

    /** The emission loop shared by the features and the inventory. */
    method BuildOrdered(order: seq<GroupKey>, members: seq<Item>, keysOf: Item -> seq<GroupKey>, actionType: string)
      modifies this`output
      ensures output == old(output) + OrderedCalls(ctx, order, members, keysOf, actionType)
    {
      var buckets := FillBuckets(members, keysOf);
      BuildGroups(order, buckets, members, keysOf, actionType);
    }

    /** The loop over the group keys `order`, given the buckets of the members. */
    method BuildGroups(order: seq<GroupKey>, buckets: map<GroupKey, seq<Item>>, members: seq<Item>,
                       keysOf: Item -> seq<GroupKey>, actionType: string)
      requires forall k :: k in buckets ==> buckets[k] == Members(members, keysOf, k)
      requires forall k :: k !in buckets ==> Members(members, keysOf, k) == []
      modifies this`output
      ensures output == old(output) + OrderedCalls(ctx, order, members, keysOf, actionType)
    {
      for j := 0 to |order|
        invariant output == old(output) + OrderedCalls(ctx, order[..j], members, keysOf, actionType)
      {
        var k := order[j];
        if k !in buckets {
          OrderedCallsStep(ctx, order, j, members, keysOf, actionType, []);
          continue;
        }
        OrderedCallsStep(ctx, order, j, members, keysOf, actionType, buckets[k]);
        BuildBucket(GroupId(k), buckets[k], actionType, "");
        AppendAssoc(old(output), OrderedCalls(ctx, order[..j], members, keysOf, actionType),
                    BucketCalls(ctx, GroupId(k), buckets[k], actionType, ""));
      }
      assert order[..|order|] == order;
    }

    /** `#buildFeatures`. */
    method BuildFeatures()
      modifies this`output
      ensures output == old(output) + FeatureCalls(ctx, items)
    {
      var feats := OfType(items, "feat");
      if feats == [] {
        OrderedCallsOverNothing(ctx, FeatureGroupIds(), FeatureKeysOf(), "feature");
        return;
      }
      BuildOrdered(FeatureGroupIds(), feats, FeatureKeysOf(), "feature");
    }

    /** `#buildInventory`. */
    method BuildInventory()
      modifies this`output
      ensures output == old(output) + InventoryCalls(ctx, items)
    {
      if items == [] {
        OrderedCallsOverNothing(ctx, InventoryGroupIds(ctx.actorType), InventoryKeysOf(ctx), "item");
        return;
      }
      BuildOrdered(InventoryGroupIds(ctx.actorType), items, InventoryKeysOf(ctx), "item");
    }

    /** `#buildSpells`, which reads the selected actor's spell slots; ok is
        false when the pact propagation fails, and no call is made then. */
    method BuildSpells() returns (ok: bool)
      requires actor.Some?
      modifies this`output
      ensures ok <==> SpellCalls(ctx, items, actor.value.spellSlots).Some?
      ensures output == old(output) + (if ok then SpellCalls(ctx, items, actor.value.spellSlots).value else [])
    {
      var spells := OfType(items, "spell");
      if spells == [] {
        return true;
      }
      var buckets := FillBuckets(spells, SpellKeysOf(ctx));
      var walked := WalkSlots(actor.value.spellSlots, ctx.settings.showUnchargedItems);
      var propagated := Propagate(walked);
      if propagated.None? {
        return false;
      }
      var l := propagated.value;
      var order := SpellGroupIds();
      var c := ctx;
      ghost var f := k => SpellGroupCalls(c, l, k, spells);
      for j := 0 to |order|
        invariant output == old(output) + ConcatMap(order[..j], f)
      {
        var k := order[j];
        ConcatMapStep(order, j, f);
        BuildSpellGroup(l, k, spells, if k in buckets then buckets[k] else []);
        AppendAssoc(old(output), ConcatMap(order[..j], f), f(k));
      }
      assert order[..|order|] == order;
      return true;
    }

    /** One turn of the emission loop of `#buildSpells`: a group that needs a
        slot is skipped unless its record is available; a shown group gets its
        info text, its actions and its activation sub-groups. */
    method BuildSpellGroup(l: Ledger, k: GroupKey, spells: seq<Item>, members: seq<Item>)
      requires members == Members(spells, SpellKeysOf(ctx), k)
      modifies this`output
      ensures output == old(output) + SpellGroupCalls(ctx, l, k, spells)
    {
      var mode := GroupSpellMode(k);
      if !GroupShown(l, mode) {
        return;
      }
      var text := InfoText(LevelInfo(l, mode));
      output := output + [AddGroupInfo(GroupId(k), text)];
      BuildBucket(GroupId(k), members, "spell", text);
      AppendAssoc(old(output), [AddGroupInfo(GroupId(k), text)], BucketCalls(ctx, GroupId(k), members, "spell", text));
    }

    /** `#buildEffects`, over the selected actor's applicable effects. */
    method BuildEffects()
      requires actor.Some?
      modifies this`output
      ensures output == old(output) + EffectCalls(actor.value.applicableEffects, isGM, statusEffects)
    {
      var effects := ById(actor.value.applicableEffects);
      if effects == [] {
        assert EffectGroupCalls(effects, isGM, StatusIds(statusEffects)) == [];
        return;
      }
      BuildEffectGroups(effects, StatusIds(statusEffects));
    }

    /** The partition loop of `#buildEffects` and its two groups. */
    method BuildEffectGroups(effects: seq<Effect>, statusIds: set<string>)
      modifies this`output
      ensures output == old(output) + EffectGroupCalls(effects, isGM, statusIds)
    {
      var passive, temporary := PartitionEffects(effects, isGM, statusIds);
      BuildEffectActions("passive-effects", passive);
      BuildEffectActions("temporary-effects", temporary);
      AppendAssoc(old(output), ActionsCall("passive-effects", EffectActions(passive)),
                  ActionsCall("temporary-effects", EffectActions(temporary)));
    }

    /** `#buildConditions`. */
    method BuildConditions()
      modifies this`output
      ensures output == old(output) + ConditionCalls(tokenCount, actors, statusEffects)
    {
      if tokenCount == 0 {
        return;
      }
      var conditions := ConditionList(statusEffects);
      if conditions == [] {
        return;
      }
      output := output + [AddActions("conditions", ConditionActions(actors, conditions))];
    }

    /** `#buildExhaustion`, which reads the selected actor once its gate passes. */
    method BuildExhaustion()
      requires actor.Some?
      modifies this`output
      ensures output == old(output) + ExhaustionCalls(actor.value, actors)
    {
      if !AllCharacters(actors) {
        return;
      }
      var a := actor.value;
      output := output + [AddActions("exhaustion",
        [Action("exhaustion", "exhaustion", ToggleClass(a.exhaustion > 0), "", None, Some(IntToString(a.exhaustion)), None)])];
    }

    /** `#buildRests`. */
    method BuildRests()
      modifies this`output
      ensures output == old(output) + RestCalls(actors)
    {
      if |actors| == 0 || !AllCharacters(actors) {
        return;
      }
      output := output + [AddActions("rests", [UtilityAction("shortRest", ""), UtilityAction("longRest", "")])];
    }

    /** `#buildUtility`. */
    method BuildUtility()
      modifies this`output
      ensures output == old(output) + UtilityCalls(actor, actors)
    {
      if |actors| == 0 {
        return;
      }
      if !AllCharacters(actors) {
        return;
      }
      var deathSave := if actor.Some? && !(actor.value.hp > 0) then [UtilityAction("deathSave", "")] else [];
      var inspired := forall a :: a in actors ==> a.inspiration;
      var actions := deathSave + [UtilityAction("inspiration", ToggleClass(inspired))];
      output := output + [AddActions("utility", actions)];
    }

    /** `buildSystemActions`: the selection is stored (the selected actor, or
        the valid controlled actors; the selected token, or the controlled
        tokens), the items and the settings are read for the actor, and the
        builders run. ok is false when `#buildSpells` failed. */
    method BuildSystemActions(selected: Option<ActorData>, hasToken: bool, controlled: seq<ActorData>,
                              controlledTokens: nat, settings: Settings) returns (ok: bool)
      modifies this
      ensures actor == selected
      ensures actors == (if selected.Some? then [selected.value] else ValidActors(controlled))
      ensures tokenCount == (if hasToken then 1 else ValidTokenCount(actors, controlledTokens))
      ensures items == (if selected.Some? then DiscardSlowItems(settings.showSlowActions, selected.value.items) else old(items))
      ensures ctx == Ctx(if selected.Some? then selected.value.actorType else "", settings, activationTypes, alwaysPrepared)
      ensures isGM == old(isGM) && statusEffects == old(statusEffects)
      ensures activationTypes == old(activationTypes) && alwaysPrepared == old(alwaysPrepared)
      ensures var o := SystemCalls(ctx, actor, actors, tokenCount, items, isGM, statusEffects);
        output == old(output) + o.calls && ok == o.complete
    {
      actor := selected;
      actors := if selected.Some? then [selected.value] else ValidActors(controlled);
      tokenCount := if hasToken then 1 else ValidTokenCount(actors, controlledTokens);
      if selected.Some? {
        items := DiscardSlowItems(settings.showSlowActions, selected.value.items);
      }
      ctx := Ctx(if selected.Some? then selected.value.actorType else "", settings, activationTypes, alwaysPrepared);
      ok := BuildSelected();
    }

    /** The builders `buildSystemActions` runs for the stored selection. */
    method BuildSelected() returns (ok: bool)
      modifies this`output
      ensures var o := SystemCalls(ctx, actor, actors, tokenCount, items, isGM, statusEffects);
        output == old(output) + o.calls && ok == o.complete
    {
      ok := true;
      if actor.None? {
        BuildMultipleTokenActions();
      } else if actor.value.actorType == "character" || actor.value.actorType == "npc" {
        ok := BuildCharacterActions();
      } else if actor.value.actorType == "vehicle" {
        BuildVehicleActions();
      }
    }

    /** `#buildCharacterActions`; ok is false when `#buildSpells` failed. */
    method BuildCharacterActions() returns (ok: bool)
      requires actor.Some?
      modifies this`output
      ensures var o := CharacterCalls(ctx, actor.value, actors, tokenCount, items, isGM, statusEffects);
        output == old(output) + o.calls && ok == o.complete
    {
      var a := actor.value;
      BuildSheetGroups();
      ghost var acc := SheetCalls(ctx, a, actors, tokenCount, items, isGM, statusEffects);
      ok := BuildSpells();
      if !ok {
        return;
      }
      ghost var spells := SpellCalls(ctx, items, a.spellSlots).value;
      BuildCharacterTail();
      AppendAssoc(old(output), acc, spells);
      AppendAssoc(old(output), acc + spells, CharacterTailCalls(a, actors));
    }

    /** The builders `#buildCharacterActions` runs after the spells. */
    method BuildCharacterTail()
      requires actor.Some?
      modifies this`output
      ensures output == old(output) + CharacterTailCalls(actor.value, actors)
    {
      BuildExhaustion();
      BuildRests();
      AppendAssoc(old(output), ExhaustionCalls(actor.value, actors), RestCalls(actors));
      BuildUtility();
      AppendAssoc(old(output), ExhaustionCalls(actor.value, actors) + RestCalls(actors), UtilityCalls(actor, actors));
    }

    /** `#buildVehicleActions`. */
    method BuildVehicleActions()
      requires actor.Some?
      modifies this`output
      ensures output == old(output) + VehicleCalls(ctx, actor.value, actors, tokenCount, items, isGM, statusEffects)
    {
      BuildSheetGroups();
      BuildUtility();
      AppendAssoc(old(output), SheetCalls(ctx, actor.value, actors, tokenCount, items, isGM, statusEffects),
                  UtilityCalls(actor, actors));
    }

    /** The conditions, effects, features and inventory of a character or vehicle. */
    method BuildSheetGroups()
      requires actor.Some?
      modifies this`output
      ensures output == old(output) + SheetCalls(ctx, actor.value, actors, tokenCount, items, isGM, statusEffects)
    {
      var a := actor.value;
      BuildConditions();
      ghost var acc := ConditionCalls(tokenCount, actors, statusEffects);
      BuildEffects();
      AppendAssoc(old(output), acc, EffectCalls(a.applicableEffects, isGM, statusEffects));
      acc := acc + EffectCalls(a.applicableEffects, isGM, statusEffects);
      BuildFeatures();
      AppendAssoc(old(output), acc, FeatureCalls(ctx, items));
      acc := acc + FeatureCalls(ctx, items);
      BuildInventory();
      AppendAssoc(old(output), acc, InventoryCalls(ctx, items));
    }

    /** `#buildMultipleTokenActions`. */
    method BuildMultipleTokenActions()
      requires actor.None?
      modifies this`output
      ensures output == old(output) + MultipleTokenCalls(actors, tokenCount, statusEffects)
    {
      BuildConditions();
      BuildRests();
      AppendAssoc(old(output), ConditionCalls(tokenCount, actors, statusEffects), RestCalls(actors));
      BuildUtility();
      AppendAssoc(old(output), ConditionCalls(tokenCount, actors, statusEffects) + RestCalls(actors), UtilityCalls(actor, actors));
    }
  }
}
