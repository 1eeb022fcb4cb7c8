/** The lookup tables of scripts/constants.js that drive the classifier, as
    constant functions: activation types, the group table with each group's id
    and spell mode, the fixed orderings of feature and spell groups, and the
    proficiency-level icons. */
module Constants {
  import opened Strings

  /** One value of `ACTIVATION_TYPE`: the key it is stored under, the group its
      items are shown in and the icon drawn beside them (either may be absent). */
  datatype ActivationEntry = ActivationEntry(key: string, group: Option<string>, icon: Option<string>)

  /** `ACTIVATION_TYPE[key]`: None for a key the table does not have. */
  function ActivationType(key: string): Option<ActivationEntry> {
    match key
    case "action" => Some(ActivationEntry("action", Some("actions"), None))
    case "bonus" => Some(ActivationEntry("bonus", Some("bonus-actions"), Some("fas fa-plus")))
    case "crew" => Some(ActivationEntry("crew", Some("crew-actions"), Some("fas fa-users")))
    case "day" => Some(ActivationEntry("day", None, Some("fas fa-hourglass-end")))
    case "hour" => Some(ActivationEntry("hour", None, Some("fas fa-hourglass-half")))
    case "lair" => Some(ActivationEntry("lair", Some("lair-actions"), Some("fas fa-home")))
    case "minute" => Some(ActivationEntry("minute", None, Some("fas fa-hourglass-start")))
    case "legendary" => Some(ActivationEntry("legendary", Some("legendary-actions"), Some("fas fas fa-dragon")))
    case "reaction" => Some(ActivationEntry("reaction", Some("reactions"), Some("fas fa-bolt")))
    case "reactiondamage" => Some(ActivationEntry("reactiondamage", Some("reactions"), Some("fas fa-bolt")))
    case "reactionmanual" => Some(ActivationEntry("reactionmanual", Some("reactions"), Some("fas fa-bolt")))
    case "special" => Some(ActivationEntry("special", Some("special-actions"), Some("fas fa-star")))
    case "other" => Some(ActivationEntry("other", Some("other-actions"), None))
    case _ => None
  }

  /** The keys of `ACTIVATION_TYPE` in declaration order. */
  function ActivationKeys(): seq<string> {
    [ "action", "bonus", "crew", "day", "hour", "lair", "minute", "legendary",
      "reaction", "reactiondamage", "reactionmanual", "special", "other" ]
  }

  /** The groups of `Object.values(ACTIVATION_TYPE)`, in the order that loop visits them
      (None where an entry has no group). */
  function ActivationGroups(): (r: seq<Option<string>>)
    ensures |r| == |ActivationKeys()|
  {
    [ Some("actions"), Some("bonus-actions"), Some("crew-actions"), None, None, Some("lair-actions"),
      None, Some("legendary-actions"), Some("reactions"), Some("reactions"), Some("reactions"),
      Some("special-actions"), Some("other-actions") ]
  }

  /** `ACTIVATION_TYPE[key]?.group`. */
  function ActivationGroup(key: string): Option<string> {
    match ActivationType(key)
    case Some(e) => e.group
    case None => None
  }

  /** `ACTIVATION_TYPE[key]?.icon`. */
  function ActivationIcon(key: string): Option<string> {
    match ActivationType(key)
    case Some(e) => e.icon
    case None => None
  }

  /** The visiting order lists, for each key in declaration order, that key's group. */
  lemma ActivationGroupsFollowTable()
    ensures forall i :: 0 <= i < |ActivationKeys()| ==>
      ActivationType(ActivationKeys()[i]).Some? && ActivationGroups()[i] == ActivationGroup(ActivationKeys()[i])
  {
  }

  /** The three reaction kinds all lead to the one group "reactions", which the
      visiting order therefore holds three times. */
  lemma ReactionKindsShareGroup()
    ensures ActivationGroup("reaction") == Some("reactions")
    ensures ActivationGroup("reactiondamage") == Some("reactions")
    ensures ActivationGroup("reactionmanual") == Some("reactions")
    ensures forall i :: 0 <= i < |ActivationGroups()| ==> (ActivationGroups()[i] == Some("reactions") <==> 8 <= i <= 10)
  {
  }

  /** The slow activation kinds have an icon but no group; "action" and "other"
      have a group but no icon. */
  lemma IconsAndGroups()
    ensures forall k :: k in ["day", "hour", "minute"] ==> ActivationIcon(k).Some? && ActivationGroup(k).None?
    ensures forall k :: k in ["action", "other"] ==> ActivationGroup(k).Some? && ActivationIcon(k).None?
  {
  }

  /** The keys of `GROUP`, one constructor per key (`_1stLevelSpells` is Level1Spells). */
  datatype GroupKey =
    Level1Spells | Level2Spells | Level3Spells | Level4Spells | Level5Spells | Level6Spells |
    Level7Spells | Level8Spells | Level9Spells | Abilities | Actions | ActiveFeatures |
    AdditionalSpells | ArtificerInfusions | AtWillSpells | BackgroundFeatures | BonusActions |
    Cantrips | ChannelDivinity | Checks | ClassFeatures | Combat | Conditions | Consumables |
    Containers | Counters | CrewActions | DefensiveTactics | EldritchInvocations |
    ElementalDisciplines | Equipment | Equipped | Exhaustion | Feats | FightingStyles |
    HuntersPrey | InnateSpells | KiAbilities | LairActions | LegendaryActions | Loot | Maneuvers |
    MetamagicOptions | MonsterFeatures | Multiattacks | OtherActions | PactBoons | PactSpells |
    PassiveEffects | PassiveFeatures | PsionicPowers | RaceFeatures | Reactions | Rests | Runes |
    Saves | Skills | SuperiorHuntersDefense | TemporaryEffects | Token | Tools | Unequipped |
    Utility | Weapons

  /** How a spell group is tied to a casting level or mode (`spellMode`): a
      level, one of the modes "atwill", "innate" and "pact", or none. */
  datatype SpellMode = NoMode | LevelMode(level: int) | AtWillMode | InnateMode | PactMode

  /** The text `${spellMode}` gives for a spell mode. */
  function SpellModeText(mode: SpellMode): string {
    match mode
    case NoMode => "undefined"
    case LevelMode(n) => IntToString(n)
    case AtWillMode => "atwill"
    case InnateMode => "innate"
    case PactMode => "pact"
  }

  /** One value of `GROUP`: the id of its HUD group and its spell mode (its
      localised name is not part of this model). */
  datatype GroupDef = GroupDef(id: string, spellMode: SpellMode)

  /** `GROUP[key]`. */
  function Group(key: GroupKey): GroupDef {
    GroupDef(GroupId(key), GroupSpellMode(key))
  }

  /** `GROUP[key].id`. */
  function GroupId(key: GroupKey): string {
    match key
    case Level1Spells => "1st-level-spells"
    case Level2Spells => "2nd-level-spells"
    case Level3Spells => "3rd-level-spells"
    case Level4Spells => "4th-level-spells"
    case Level5Spells => "5th-level-spells"
    case Level6Spells => "6th-level-spells"
    case Level7Spells => "7th-level-spells"
    case Level8Spells => "8th-level-spells"
    case Level9Spells => "9th-level-spells"
    case Abilities => "abilities"
    case Actions => "actions"
    case ActiveFeatures => "active-features"
    case AdditionalSpells => "additional-spells"
    case ArtificerInfusions => "artificer-infusions"
    case AtWillSpells => "at-will-spells"
    case BackgroundFeatures => "background-features"
    case BonusActions => "bonus-actions"
    case Cantrips => "cantrips"
    case ChannelDivinity => "channel-divinity"
    case Checks => "checks"
    case ClassFeatures => "class-features"
    case Combat => "combat"
    case Conditions => "conditions"
    case Consumables => "consumables"
    case Containers => "containers"
    case Counters => "counters"
    case CrewActions => "crew-actions"
    case DefensiveTactics => "defensive-tactics"
    case EldritchInvocations => "eldritch-invocations"
    case ElementalDisciplines => "elemental-disciplines"
    case Equipment => "equipment"
    case Equipped => "equipped"
    case Exhaustion => "exhaustion"
    case Feats => "feats"
    case FightingStyles => "fighting-styles"
    case HuntersPrey => "hunters-prey"
    case InnateSpells => "innate-spells"
    case KiAbilities => "ki-abilities"
    case LairActions => "lair-actions"
    case LegendaryActions => "legendary-actions"
    case Loot => "loot"
    case Maneuvers => "maneuvers"
    case MetamagicOptions => "metamagic-options"
    case MonsterFeatures => "monster-features"
    case Multiattacks => "multiattacks"
    case OtherActions => "other-actions"
    case PactBoons => "pact-boons"
    case PactSpells => "pact-spells"
    case PassiveEffects => "passive-effects"
    case PassiveFeatures => "passive-features"
    case PsionicPowers => "psionic-powers"
    case RaceFeatures => "race-features"
    case Reactions => "reactions"
    case Rests => "rests"
    case Runes => "runes"
    case Saves => "saves"
    case Skills => "skills"
    case SuperiorHuntersDefense => "superior-hunters-defense"
    case TemporaryEffects => "temporary-effects"
    case Token => "token"
    case Tools => "tools"
    case Unequipped => "unequipped"
    case Utility => "utility"
    case Weapons => "weapons"
  }

  /** `GROUP[key].spellMode`: only the spell groups have one. */
  function GroupSpellMode(key: GroupKey): SpellMode {
    match key
    case Level1Spells => LevelMode(1)
    case Level2Spells => LevelMode(2)
    case Level3Spells => LevelMode(3)
    case Level4Spells => LevelMode(4)
    case Level5Spells => LevelMode(5)
    case Level6Spells => LevelMode(6)
    case Level7Spells => LevelMode(7)
    case Level8Spells => LevelMode(8)
    case Level9Spells => LevelMode(9)
    case AtWillSpells => AtWillMode
    case Cantrips => LevelMode(0)
    case InnateSpells => InnateMode
    case PactSpells => PactMode
    case _ => NoMode
  }

  /** `FEATURE_GROUP_IDS`: the order in which feature groups are emitted. */
  function FeatureGroupIds(): seq<GroupKey> {
    [ ActiveFeatures, PassiveFeatures, BackgroundFeatures, ClassFeatures, Feats,
      MonsterFeatures, RaceFeatures, ArtificerInfusions, ChannelDivinity, DefensiveTactics,
      EldritchInvocations, ElementalDisciplines, FightingStyles, HuntersPrey, KiAbilities,
      Maneuvers, MetamagicOptions, Multiattacks, PactBoons, PsionicPowers, Runes,
      SuperiorHuntersDefense ]
  }

  /** `SPELL_GROUP_IDS`: the order in which spell groups are emitted. */
  function SpellGroupIds(): seq<GroupKey> {
    [ Cantrips, Level1Spells, Level2Spells, Level3Spells, Level4Spells, Level5Spells,
      Level6Spells, Level7Spells, Level8Spells, Level9Spells, AtWillSpells, InnateSpells,
      PactSpells, AdditionalSpells ]
  }

  /** `PREPARED_ICON`. */
  const PreparedIconClass := "fas fa-sun"

  /** `PROFICIENCY_LEVEL_ICON[level]`. */
  function ProficiencyLevelIcon(level: real): Option<string> {
    if level == 0.0 then Some("fa-regular fa-circle")
    else if level == 0.5 then Some("fa-regular fa-circle-half-stroke")
    else if level == 1.0 then Some("fa-solid fa-circle")
    else if level == 2.0 then Some("fa-regular fa-circle-dot")
    else None
  }

  /** Icons exist exactly for the proficiency levels 0, 0.5, 1 and 2. */
  lemma ProficiencyIconDomain(level: real)
    ensures ProficiencyLevelIcon(level).Some? <==> level in {0.0, 0.5, 1.0, 2.0}
  {
  }

  predicate NoDuplicates<T(==)>(s: seq<T>) {
    forall i, j :: 0 <= i < j < |s| ==> s[i] != s[j]
  }

  /** Neither group list repeats a key. */
  lemma GroupListsDistinct()
    ensures NoDuplicates(FeatureGroupIds()) && NoDuplicates(SpellGroupIds())
  {
  }

  /** The nine levelled spell groups, which follow the cantrips in the spell
      group order, carry their level as spell mode. */
  lemma LevelledSpellGroupModes()
    ensures forall n :: 1 <= n <= 9 ==> Group(SpellGroupIds()[n]).spellMode == LevelMode(n)
  {
    forall n | 1 <= n <= 9
      ensures Group(SpellGroupIds()[n]).spellMode == LevelMode(n)
    {
      var ids := SpellGroupIds();
      if n == 1 { assert ids[n] == Level1Spells; }
      else if n == 2 { assert ids[n] == Level2Spells; }
      else if n == 3 { assert ids[n] == Level3Spells; }
      else if n == 4 { assert ids[n] == Level4Spells; }
      else if n == 5 { assert ids[n] == Level5Spells; }
      else if n == 6 { assert ids[n] == Level6Spells; }
      else if n == 7 { assert ids[n] == Level7Spells; }
      else if n == 8 { assert ids[n] == Level8Spells; }
      else { assert ids[n] == Level9Spells; }
    }
  }

  /** The cantrips carry level 0 as spell mode, the at-will, innate and pact
      groups their mode name, and the additional spells none. */
  lemma OtherSpellGroupModes()
    ensures Group(Cantrips).spellMode == LevelMode(0)
    ensures Group(AtWillSpells).spellMode == AtWillMode
    ensures Group(InnateSpells).spellMode == InnateMode
    ensures Group(PactSpells).spellMode == PactMode
    ensures Group(AdditionalSpells).spellMode == NoMode
  {
  }
}
