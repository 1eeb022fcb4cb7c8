/** The classification of `#buildInventory` (scripts/action-handler.js): an
    item with a positive quantity that passes `#isActiveItem` goes to the
    equipped or the unequipped items, to the consumables when it is a usable
    consumable, and to the bucket of its type when it passes `#isEquippedItem`. */
module Inventory {
  import opened Strings
  import opened Constants
  import opened Entities
  import opened ItemRules

  /** The bucket of the type switch for an item counted as equipped. */
  function EquippedTypeBucket(itemType: string): (r: Option<GroupKey>)
    ensures r.Some? <==> itemType in ["container", "equipment", "loot", "tool", "weapon"]
    ensures r.Some? ==> r.value in [Containers, Equipment, Loot, Tools, Weapons]
  {
    if itemType == "container" then Some(Containers)
    else if itemType == "equipment" then Some(Equipment)
    else if itemType == "loot" then Some(Loot)
    else if itemType == "tool" then Some(Tools)
    else if itemType == "weapon" then Some(Weapons)
    else None
  }

  /** The item enters the inventory at all. */
  predicate InInventory(ctx: Ctx, item: Item) {
    item.quantity > 0 && IsActiveItem(ctx, item)
  }

  /** The buckets one item is put in by the classification loop. */
  function InventoryKeys(ctx: Ctx, item: Item): seq<GroupKey> {
    if InInventory(ctx, item) then
      [if item.equipped then Equipped else Unequipped]
      + (if IsUsableItem(ctx, item) && item.itemType == "consumable" then [Consumables] else [])
      + (if IsEquippedItem(ctx, item) then
           match EquippedTypeBucket(item.itemType) { case Some(k) => [k] case None => [] }
         else [])
    else []
  }

  function InventoryKeysOf(ctx: Ctx): Item -> seq<GroupKey> {
    item => InventoryKeys(ctx, item)
  }

  /** `inventorygroupIds`: the emission order chosen for the selected actor's type. */
  function InventoryGroupIds(actorType: string): (r: seq<GroupKey>)
    ensures actorType in ["character", "npc"] ==> |r| == 8
    ensures actorType == "vehicle" ==> r == [Consumables, Equipment, Tools, Weapons]
    ensures actorType !in ["character", "npc", "vehicle"] ==> r == []
  {
    if actorType == "character" || actorType == "npc" then
      [Equipped, Consumables, Containers, Equipment, Loot, Tools, Weapons, Unequipped]
    else if actorType == "vehicle" then [Consumables, Equipment, Tools, Weapons]
    else []
  }

  /** An item is in some inventory bucket exactly when its quantity is
      positive and it passes `#isActiveItem`; it is then in exactly one of
      the equipped and unequipped buckets, according to its equipped flag. */
  lemma InventoryEntry(ctx: Ctx, item: Item)
    ensures InventoryKeys(ctx, item) != [] <==> item.quantity > 0 && IsActiveItem(ctx, item)
    ensures Equipped in InventoryKeys(ctx, item) <==> InInventory(ctx, item) && item.equipped
    ensures Unequipped in InventoryKeys(ctx, item) <==> InInventory(ctx, item) && !item.equipped
  {
    if InInventory(ctx, item) {
      var keys := InventoryKeys(ctx, item);
      assert keys[0] == (if item.equipped then Equipped else Unequipped);
      assert forall i :: 1 <= i < |keys| ==> keys[i] !in {Equipped, Unequipped};
    }
  }

  /** The consumables bucket receives exactly the entering consumables that
      pass `#isUsableItem`. */
  lemma ConsumablesBucket(ctx: Ctx, item: Item)
    ensures Consumables in InventoryKeys(ctx, item) <==>
      InInventory(ctx, item) && IsUsableItem(ctx, item) && item.itemType == "consumable"
  {
    if InInventory(ctx, item) && Consumables in InventoryKeys(ctx, item) {
      var b := EquippedTypeBucket(item.itemType);
      assert b.Some? ==> b.value != Consumables;
    }
  }

  /** The container, equipment, loot, tool and weapon buckets receive exactly
      the entering items of that type that pass `#isEquippedItem`, so never a
      consumable. */
  lemma TypeBuckets(ctx: Ctx, item: Item, k: GroupKey)
    requires k in [Containers, Equipment, Loot, Tools, Weapons]
    ensures k in InventoryKeys(ctx, item) <==>
      InInventory(ctx, item) && IsEquippedItem(ctx, item) && EquippedTypeBucket(item.itemType) == Some(k)
    ensures k in InventoryKeys(ctx, item) ==> item.itemType != "consumable"
  {
  }

  /** An item is in at most three inventory buckets. */
  lemma InventoryFanOut(ctx: Ctx, item: Item)
    ensures |InventoryKeys(ctx, item)| <= 3
    ensures NoDuplicates(InventoryKeys(ctx, item))
  {
    if InInventory(ctx, item) {
      var keys := InventoryKeys(ctx, item);
      var b := EquippedTypeBucket(item.itemType);
      assert b.Some? ==> b.value !in {Equipped, Unequipped, Consumables};
    }
  }

  /** Every bucket an item can land in is visited by the character and npc
      order, so for those actors no populated bucket is dropped. */
  lemma InventoryBucketsAreOrdered(ctx: Ctx, item: Item)
    ensures forall k :: k in InventoryKeys(ctx, item) ==> k in InventoryGroupIds("character")
  {
  }
}
