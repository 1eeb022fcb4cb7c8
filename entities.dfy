/** The records the classifier and the dispatcher work on: items, active
    effects, status effects, spell-slot entries, the settings that steer the
    classifier, and the calls the classifier makes on the HUD. Fields a record
    may lack in the game data are given the value the code reads for them
    (0 for a number, "" for a string) unless the difference shows, in which
    case they are an Option. */
module Entities {
  import opened Strings

  /** `system.uses` of an item. */
  datatype Uses = Uses(value: int, max: int, spent: int, period: string)

  /** One item of an actor, reduced to the fields the classifier and the
      dispatcher read.
      - activityType: `system.activities.contents[0]?.type`
      - activationType: `system.activities.contents[0]?.activation?.type`
      - legacyActivationType: `system.activation?.type`
      - featType, featSubtype: `system.type.value`, `system.type.subtype`
      - castingMethod, level, prepared: the spell's `system.method`, level and
        preparation state (0 unprepared, otherwise prepared or always)
      - linkedActivity: `displayInSpellbook` of `system.linkedActivity`, None
        when the spell has no linked activity */
  datatype Item = Item(
    id: string,
    itemType: string,
    quantity: int,
    equipped: bool,
    uses: Uses,
    activityType: Option<string>,
    activationType: Option<string>,
    legacyActivationType: Option<string>,
    featType: string,
    featSubtype: string,
    castingMethod: string,
    level: int,
    prepared: int,
    linkedActivity: Option<bool>)

  /** An active effect: its id, whether it is disabled, suppressed or temporary,
      whether it sits on an item that is not identified, and its statuses. */
  datatype Effect = Effect(
    id: string,
    disabled: bool,
    suppressed: bool,
    temporary: bool,
    unidentifiedParent: bool,
    statuses: seq<string>)

  /** An entry of `CONFIG.statusEffects`: its `id` and its document id `_id`. */
  datatype StatusEffect = StatusEffect(id: string, docId: string)

  /** One entry of `actor.system.spells`, in the object's own key order. */
  datatype SlotEntry = SlotEntry(key: string, value: int, max: int, level: int)

  /** The module settings the classifier reads. */
  datatype Settings = Settings(
    showItemsWithoutActivationCosts: bool,
    showUnchargedItems: bool,
    showUnequippedItems: bool,
    showUnequippedItemsNpcs: bool,
    showUnpreparedSpells: bool,
    showSlowActions: bool)

  /** What the item rules depend on besides the item: the selected actor's type,
      the settings, the keys of `CONFIG.DND5E.activityActivationTypes` and the
      value of `CONFIG.DND5E.spellPreparationStates.always`. */
  datatype Ctx = Ctx(actorType: string, settings: Settings, activationTypes: set<string>, alwaysPrepared: int)

  /** An actor as the classifier sees it: its type, items (in the order of the
      item collection), own effects, all applicable effects, spell-slot entries,
      exhaustion level, inspiration and hit points. */
  datatype ActorData = ActorData(
    actorType: string,
    items: seq<Item>,
    effects: seq<Effect>,
    applicableEffects: seq<Effect>,
    spellSlots: seq<SlotEntry>,
    exhaustion: int,
    inspiration: bool,
    hp: int)

  /** The prepared-spell icon: its css class and the localisation key of its title. */
  datatype PreparedIcon = PreparedIcon(cssClass: string, titleKey: string)

  /** One action handed to the HUD. icon1 is the css class of the activation
      icon ("" for none), icon2 the prepared-spell icon, info1 and info2 the
      texts shown beside the action (None where the code gives no text). */
  datatype Action = Action(
    id: string,
    actionType: string,
    cssClass: string,
    icon1: string,
    icon2: Option<PreparedIcon>,
    info1: Option<string>,
    info2: Option<string>)

  /** The calls the classifier makes on the HUD, in the order it makes them:
      `addGroup` of a derived group under a parent group, `addActions` to a
      group and `addGroupInfo` with the group's info text. */
  datatype HudCall =
    | AddGroup(groupId: string, parentId: string, defaultSelected: Option<bool>)
    | AddActions(targetId: string, actions: seq<Action>)
    | AddGroupInfo(infoGroupId: string, text: string)
}
