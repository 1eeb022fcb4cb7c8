/** The classification of `#buildSpells` (scripts/action-handler.js): a spell
    that passes `#isUsableItem` and `#isUsableSpell` goes to the additional
    spells when it comes from a linked activity shown in the spellbook, else
    to the group of its casting method (at will, innate, pact), else to the
    group of its level. */
module Spells {
  import opened Strings
  import opened Constants
  import opened Entities
  import opened ItemRules

  /** The level switch: cantrips for level 0, the levelled group for 1 to 9,
      and no group for any other level. */
  function LevelBucket(level: int): (r: Option<GroupKey>)
    ensures r.Some? <==> 0 <= level <= 9
  {
    if level == 0 then Some(Cantrips)
    else if level == 1 then Some(Level1Spells)
    else if level == 2 then Some(Level2Spells)
    else if level == 3 then Some(Level3Spells)
    else if level == 4 then Some(Level4Spells)
    else if level == 5 then Some(Level5Spells)
    else if level == 6 then Some(Level6Spells)
    else if level == 7 then Some(Level7Spells)
    else if level == 8 then Some(Level8Spells)
    else if level == 9 then Some(Level9Spells)
    else None
  }

  /** The method switch, falling back to the level switch. */
  function MethodBucket(castingMethod: string, level: int): Option<GroupKey> {
    if castingMethod == "atwill" then Some(AtWillSpells)
    else if castingMethod == "innate" then Some(InnateSpells)
    else if castingMethod == "pact" then Some(PactSpells)
    else LevelBucket(level)
  }

  /** Both gates of the classification loop. */
  predicate ShownSpell(ctx: Ctx, spell: Item) {
    IsUsableItem(ctx, spell) && IsUsableSpell(ctx, spell)
  }

  /** The buckets one spell is put in by the classification loop. */
  function SpellKeys(ctx: Ctx, spell: Item): seq<GroupKey> {
    if !ShownSpell(ctx, spell) then []
    else match spell.linkedActivity
      case Some(displayInSpellbook) => if displayInSpellbook then [AdditionalSpells] else []
      case None => match MethodBucket(spell.castingMethod, spell.level) { case Some(k) => [k] case None => [] }
  }

  function SpellKeysOf(ctx: Ctx): Item -> seq<GroupKey> {
    spell => SpellKeys(ctx, spell)
  }

  /** A level's group has that level as its spell mode. */
  lemma LevelBucketMode(level: int)
    requires 0 <= level <= 9
    ensures GroupSpellMode(LevelBucket(level).value) == LevelMode(level)
  {
  }

  /** Each spell lands in at most one bucket, and only when it passes both
      gates: a spell from a linked activity lands only in the additional
      spells, and only when shown in the spellbook; any other spell lands in
      the group whose spell mode is its casting method, if that is at will,
      innate or pact, and otherwise the group whose spell mode is its level,
      which exists for levels 0 to 9. */
  lemma SpellBucketRule(ctx: Ctx, spell: Item)
    ensures |SpellKeys(ctx, spell)| <= 1
    ensures SpellKeys(ctx, spell) != [] ==> ShownSpell(ctx, spell)
    ensures ShownSpell(ctx, spell) && spell.linkedActivity.Some? ==>
      SpellKeys(ctx, spell) == (if spell.linkedActivity.value then [AdditionalSpells] else [])
    ensures ShownSpell(ctx, spell) && spell.linkedActivity.None? ==>
      (SpellKeys(ctx, spell) != [] <==> spell.castingMethod in ["atwill", "innate", "pact"] || 0 <= spell.level <= 9)
    ensures spell.linkedActivity.None? && SpellKeys(ctx, spell) != [] ==>
      GroupSpellMode(SpellKeys(ctx, spell)[0]) ==
        (if spell.castingMethod == "atwill" then AtWillMode
         else if spell.castingMethod == "innate" then InnateMode
         else if spell.castingMethod == "pact" then PactMode
         else LevelMode(spell.level))
  {
    if ShownSpell(ctx, spell) && spell.linkedActivity.None? && spell.castingMethod !in ["atwill", "innate", "pact"]
      && 0 <= spell.level <= 9 {
      LevelBucketMode(spell.level);
    }
  }

  /** Every bucket a spell can land in is in `SPELL_GROUP_IDS`, so no
      populated spell bucket is dropped. */
  lemma SpellBucketsAreOrdered(ctx: Ctx, spell: Item)
    ensures forall k :: k in SpellKeys(ctx, spell) ==> k in SpellGroupIds()
  {
  }
}
