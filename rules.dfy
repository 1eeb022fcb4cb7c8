/** The per-item rules of scripts/action-handler.js: the gates `#isActiveItem`,
    `#isEquippedItem`, `#isUsableItem` and `#isUsableSpell`, the texts of
    `#getQuantityData` and `#getUsesData`, the icons of `#getPreparedIcon` and
    `#getActivationTypeIcon`, `#discardSlowItems`, the type filter of
    `#buildFeatures` and `#buildSpells`, `#getValidActors`, and the
    action record `#getAction` builds from an item or an effect. */
module ItemRules {
  import opened Strings
  import opened Constants
  import opened Entities

  /** The items of the given type, in collection order: the filter that
      `#buildFeatures` and `#buildSpells` start from. */
  function OfType(items: seq<Item>, t: string): (r: seq<Item>)
    ensures forall x :: x in r <==> x in items && x.itemType == t
  {
    if items == [] then []
    else (if items[0].itemType == t then [items[0]] else []) + OfType(items[1..], t)
  }

  /** `showUnequippedItems` as `buildSystemActions` resolves it: an npc falls
      back to `showUnequippedItemsNpcs` when the general setting is off. */
  function ShowUnequipped(ctx: Ctx): (r: bool)
    ensures r <==> ctx.settings.showUnequippedItems || (ctx.actorType == "npc" && ctx.settings.showUnequippedItemsNpcs)
  {
    if ctx.actorType == "npc" && !ctx.settings.showUnequippedItems then ctx.settings.showUnequippedItemsNpcs
    else ctx.settings.showUnequippedItems
  }

  /** `#isActiveItem`: the setting shows every item; otherwise the first
      activation type must be a configured one other than "none", or the item a tool. */
  predicate IsActiveItem(ctx: Ctx, item: Item) {
    ctx.settings.showItemsWithoutActivationCosts
    || (item.activationType.Some? && item.activationType.value != "none"
        && item.activationType.value in ctx.activationTypes)
    || item.itemType == "tool"
  }

  /** `#isEquippedItem`. Whatever the settings, a consumable is never counted as equipped. */
  function IsEquippedItem(ctx: Ctx, item: Item): (r: bool)
    ensures r ==> item.itemType != "consumable"
    ensures item.equipped && item.itemType != "consumable" ==> r
  {
    (ShowUnequipped(ctx) && item.itemType !in ["consumable", "spell", "feat"])
    || (item.equipped && item.itemType != "consumable")
  }

  /** `#isUsableItem`: uncharged items are shown, or the item has uses left, or no use limit. */
  predicate IsUsableItem(ctx: Ctx, item: Item) {
    ctx.settings.showUnchargedItems || item.uses.value != 0 || item.uses.max == 0
  }

  /** `#isUsableSpell`. */
  predicate IsUsableSpell(ctx: Ctx, spell: Item) {
    (ctx.actorType != "character" && ShowUnequipped(ctx))
    || ctx.settings.showUnpreparedSpells
    || spell.castingMethod != "spell"
    || spell.prepared != 0
    || spell.linkedActivity == Some(true)
  }

  /** The text of `#getQuantityData`: the quantity when above 1, otherwise empty. */
  function QuantityText(quantity: int): string {
    if quantity > 1 then IntToString(quantity) else ""
  }

  /** The quantity text reads back as the quantity exactly when that is above 1. */
  lemma QuantityTextReadsBack(quantity: int)
    ensures ParseInt(QuantityText(quantity)) == (if quantity > 1 then Some(quantity) else None)
  {
    if quantity > 1 {
      IntToStringRoundTrip(quantity);
    }
  }

  /** The text of `#getUsesData`: "remaining/max" when the item has a use limit,
      where remaining is max less the spent uses. */
  function UsesText(uses: Uses): (r: Option<string>)
    ensures r.Some? <==> uses.max > 0
  {
    if uses.max > 0 then Some(IntToString(uses.max - uses.spent) + "/" + IntToString(uses.max)) else None
  }

  /** The uses text splits at its one '/' into the remaining uses and the maximum. */
  lemma UsesTextReadsBack(uses: Uses)
    requires uses.max > 0
    ensures var pieces := Split(UsesText(uses).value, '/');
      |pieces| == 2 && ParseInt(pieces[0]) == Some(uses.max - uses.spent) && ParseInt(pieces[1]) == Some(uses.max)
  {
    var a := IntToString(uses.max - uses.spent);
    var b := IntToString(uses.max);
    assert '/' !in a && '/' !in b;
    assert UsesText(uses).value == a + ['/'] + b;
    SplitAround(a, b, '/');
    SplitNoSeparator(b, '/');
    IntToStringRoundTrip(uses.max - uses.spent);
    IntToStringRoundTrip(uses.max);
  }

  /** `#getPreparedIcon`: the icon class marks unprepared spells as disabled,
      and the title says always prepared, prepared or unprepared. */
  function PreparedIconOf(ctx: Ctx, spell: Item): (r: Option<PreparedIcon>)
    ensures r.Some? <==>
      spell.itemType == "spell" && ctx.settings.showUnpreparedSpells
      && (spell.castingMethod == "spell" || spell.prepared == ctx.alwaysPrepared) && spell.level != 0
    ensures r.Some? ==> (r.value.cssClass == PreparedIconClass <==> spell.prepared != 0)
    ensures r.Some? ==> (r.value.titleKey == "DND5E.SpellPrepAlways" <==> spell.prepared == ctx.alwaysPrepared)
    ensures r.Some? && spell.prepared != ctx.alwaysPrepared ==>
      (r.value.titleKey == "DND5E.SpellPrepared" <==> spell.prepared != 0)
  {
    if spell.itemType != "spell" || !ctx.settings.showUnpreparedSpells then None
    else
      var cssClass := if spell.prepared != 0 then PreparedIconClass else PreparedIconClass + " tah-icon-disabled";
      var titleKey :=
        if spell.prepared == ctx.alwaysPrepared then "DND5E.SpellPrepAlways"
        else if spell.prepared != 0 then "DND5E.SpellPrepared"
        else "DND5E.SpellUnprepared";
      if (spell.castingMethod == "spell" || spell.prepared == ctx.alwaysPrepared) && spell.level != 0
      then Some(PreparedIcon(cssClass, titleKey))
      else None
  }

  /** The class of `#getActivationTypeIcon`: the table's icon, or "" when the
      activation type has none. */
  function ActivationIconOf(activationType: Option<string>): (r: string)
    ensures r != "" <==> activationType.Some? && ActivationIcon(activationType.value).Some?
  {
    match activationType
    case None => ""
    case Some(key) =>
      match ActivationIcon(key)
      case Some(icon) => icon
      case None => ""
  }

  /** An item whose legacy activation type takes minutes, hours or days. */
  predicate IsSlow(item: Item) {
    item.legacyActivationType in [Some("minute"), Some("hour"), Some("day")]
  }

  function WithoutSlow(items: seq<Item>): (r: seq<Item>)
    ensures |r| <= |items|
    ensures forall x :: x in r <==> x in items && !IsSlow(x)
  {
    if items == [] then []
    else if IsSlow(items[0]) then WithoutSlow(items[1..])
    else [items[0]] + WithoutSlow(items[1..])
  }

  /** `#discardSlowItems`: with slow actions shown the items are kept as they
      are; otherwise exactly the items that are not slow are kept. */
  function DiscardSlowItems(showSlowActions: bool, items: seq<Item>): (r: seq<Item>)
    ensures showSlowActions ==> r == items
    ensures !showSlowActions ==> forall x :: x in r <==> x in items && !IsSlow(x)
  {
    if showSlowActions then items else WithoutSlow(items)
  }

  /** Dropping slow items keeps the order of the remaining ones: the kept items
      are the items with the slow ones taken out, position by position. */
  lemma {:induction false} WithoutSlowKeepsOrder(a: seq<Item>, b: seq<Item>)
    ensures WithoutSlow(a + b) == WithoutSlow(a) + WithoutSlow(b)
  {
    if a != [] {
      assert (a + b)[0] == a[0];
      assert (a + b)[1..] == a[1..] + b;
      WithoutSlowKeepsOrder(a[1..], b);
      if !IsSlow(a[0]) {
        assert WithoutSlow(a + b) == [a[0]] + WithoutSlow(a[1..] + b);
        assert WithoutSlow(a) == [a[0]] + WithoutSlow(a[1..]);
      } else {
        assert WithoutSlow(a + b) == WithoutSlow(a[1..] + b);
      }
    } else {
      assert a + b == b;
    }
  }

  /** `#getValidActors`: the actors when every one is a character or an npc,
      otherwise none. */
  function ValidActors(actors: seq<ActorData>): (r: seq<ActorData>)
    ensures r == actors || r == []
    ensures forall i :: 0 <= i < |r| ==> r[i].actorType in ["character", "npc"]
    ensures (forall i :: 0 <= i < |actors| ==> actors[i].actorType in ["character", "npc"]) ==> r == actors
  {
    if forall i :: 0 <= i < |actors| ==> actors[i].actorType in ["character", "npc"] then actors else []
  }

  /** The action `#getAction` builds for an item. */
  function ItemAction(ctx: Ctx, item: Item, actionType: string): Action {
    Action(item.id, actionType, "", ActivationIconOf(item.activationType), PreparedIconOf(ctx, item),
           if item.itemType == "spell" then None else Some(QuantityText(item.quantity)),
           UsesText(item.uses))
  }

  function ItemActions(ctx: Ctx, items: seq<Item>, actionType: string): (r: seq<Action>)
    ensures |r| == |items|
    ensures forall i :: 0 <= i < |items| ==> r[i] == ItemAction(ctx, items[i], actionType)
  {
    if items == [] then [] else [ItemAction(ctx, items[0], actionType)] + ItemActions(ctx, items[1..], actionType)
  }

  /** The toggle class of an entity with a `disabled` field: active unless disabled. */
  function ToggleClass(active: bool): string {
    if active then "toggle active" else "toggle"
  }

  /** The action `#getAction` builds for an active effect. */
  function EffectAction(effect: Effect): Action {
    Action(effect.id, "effect", ToggleClass(!effect.disabled), "", None, Some(QuantityText(0)), None)
  }

  function EffectActions(effects: seq<Effect>): (r: seq<Action>)
    ensures |r| == |effects|
    ensures forall i :: 0 <= i < |effects| ==> r[i] == EffectAction(effects[i])
  {
    if effects == [] then [] else [EffectAction(effects[0])] + EffectActions(effects[1..])
  }
}
