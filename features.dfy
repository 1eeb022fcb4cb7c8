/** The classification of `#buildFeatures` (scripts/action-handler.js): a
    feat goes to the active or the passive features, plus the bucket its
    feature type names and the bucket its class-feature subtype names. */
module Features {
  import opened Strings
  import opened Constants
  import opened Entities

  /** The keys of the `featureType` table, and the bucket under each key. */
  function FeatureTypeKeys(): seq<string> {
    ["background", "class", "monster", "race", "feats"]
  }

  function FeatureTypeValues(): (r: seq<GroupKey>)
    ensures |r| == |FeatureTypeKeys()|
  {
    [BackgroundFeatures, ClassFeatures, MonsterFeatures, RaceFeatures, Feats]
  }

  /** The keys of the `classFeatureType` table, and the bucket under each key. */
  function SubtypeKeys(): seq<string> {
    [ "artificerInfusion", "channelDivinity", "defensiveTactic", "eldritchInvocation",
      "elementalDiscipline", "fightingStyle", "huntersPrey", "ki", "maneuver", "metamagic",
      "multiattack", "pact", "psionicPower", "rune", "superiorHuntersDefense" ]
  }

  function SubtypeValues(): (r: seq<GroupKey>)
    ensures |r| == |SubtypeKeys()|
  {
    [ ArtificerInfusions, ChannelDivinity, DefensiveTactics, EldritchInvocations,
      ElementalDisciplines, FightingStyles, HuntersPrey, KiAbilities, Maneuvers, MetamagicOptions,
      Multiattacks, PactBoons, PsionicPowers, Runes, SuperiorHuntersDefense ]
  }

  /** Position of key among keys, |keys| when absent. */
  function IndexOf(keys: seq<string>, key: string): (i: nat)
    ensures i <= |keys|
    ensures i < |keys| ==> keys[i] == key
    ensures i == |keys| ==> key !in keys
  {
    if keys == [] then 0
    else if keys[0] == key then 0
    else 1 + IndexOf(keys[1..], key)
  }

  /** `table[key]` for a table given by its keys and values. */
  function Lookup(keys: seq<string>, values: seq<GroupKey>, key: string): (r: Option<GroupKey>)
    requires |keys| == |values|
    ensures r.Some? <==> key in keys
    ensures r.Some? ==> r.value in values
  {
    var i := IndexOf(keys, key);
    if i < |keys| then Some(values[i]) else None
  }

  /** `featureType[type]`. */
  function FeatureTypeBucket(featType: string): Option<GroupKey> {
    Lookup(FeatureTypeKeys(), FeatureTypeValues(), featType)
  }

  /** `classFeatureType[subtype]`. */
  function SubtypeBucket(subtype: string): Option<GroupKey> {
    Lookup(SubtypeKeys(), SubtypeValues(), subtype)
  }

  function OptionList<T>(o: Option<T>): seq<T> {
    match o
    case Some(x) => [x]
    case None => []
  }

  /** A feat whose first activity has a (non-empty) type counts as active. */
  predicate HasActivity(item: Item) {
    item.activityType.Some? && item.activityType.value != ""
  }

  /** The buckets one feat is put in by the classification loop. */
  function FeatureKeys(item: Item): seq<GroupKey> {
    [if HasActivity(item) then ActiveFeatures else PassiveFeatures]
    + OptionList(FeatureTypeBucket(item.featType))
    + OptionList(SubtypeBucket(item.featSubtype))
  }

  function FeatureKeysOf(): Item -> seq<GroupKey> {
    item => FeatureKeys(item)
  }

  /** The two tables never name the same bucket, and neither names the active
      or passive bucket. */
  lemma TableValuesDisjoint()
    ensures forall i, j :: 0 <= i < |FeatureTypeValues()| && 0 <= j < |SubtypeValues()| ==>
      FeatureTypeValues()[i] != SubtypeValues()[j]
    ensures forall i :: 0 <= i < |FeatureTypeValues()| ==> FeatureTypeValues()[i] !in {ActiveFeatures, PassiveFeatures}
    ensures forall j :: 0 <= j < |SubtypeValues()| ==> SubtypeValues()[j] !in {ActiveFeatures, PassiveFeatures}
  {
  }

  /** The buckets of a feat: the active or passive bucket first, then its type
      bucket and its subtype bucket, each of which it may lack. */
  lemma FeatureKeysShape(item: Item)
    ensures var t := FeatureTypeBucket(item.featType);
      var u := SubtypeBucket(item.featSubtype);
      FeatureKeys(item) == [if HasActivity(item) then ActiveFeatures else PassiveFeatures] + OptionList(t) + OptionList(u)
      && (t.Some? ==> t.value !in {ActiveFeatures, PassiveFeatures})
      && (u.Some? ==> u.value !in {ActiveFeatures, PassiveFeatures})
      && (t.Some? && u.Some? ==> t.value != u.value)
  {
    TableValuesDisjoint();
    var i := IndexOf(FeatureTypeKeys(), item.featType);
    var j := IndexOf(SubtypeKeys(), item.featSubtype);
    assert FeatureTypeBucket(item.featType).Some? ==> FeatureTypeBucket(item.featType).value == FeatureTypeValues()[i];
    assert SubtypeBucket(item.featSubtype).Some? ==> SubtypeBucket(item.featSubtype).value == SubtypeValues()[j];
  }

  /** Every feat is in exactly one of the active and passive features, active
      exactly when its first activity has a type; it is in at most one type
      bucket and at most one subtype bucket, so in one to three distinct buckets. */
  lemma FeatureFanOut(item: Item)
    ensures 1 <= |FeatureKeys(item)| <= 3
    ensures ActiveFeatures in FeatureKeys(item) <==> HasActivity(item)
    ensures PassiveFeatures in FeatureKeys(item) <==> !HasActivity(item)
    ensures NoDuplicates(FeatureKeys(item))
  {
    FeatureKeysShape(item);
    var first := if HasActivity(item) then ActiveFeatures else PassiveFeatures;
    KeyListShape(first, FeatureTypeBucket(item.featType), SubtypeBucket(item.featSubtype));
  }

  lemma KeyListShape(first: GroupKey, t: Option<GroupKey>, u: Option<GroupKey>)
    requires first in {ActiveFeatures, PassiveFeatures}
    requires t.Some? ==> t.value !in {ActiveFeatures, PassiveFeatures}
    requires u.Some? ==> u.value !in {ActiveFeatures, PassiveFeatures}
    requires t.Some? && u.Some? ==> t.value != u.value
    ensures var keys := [first] + OptionList(t) + OptionList(u);
      1 <= |keys| <= 3 && NoDuplicates(keys)
      && (ActiveFeatures in keys <==> first == ActiveFeatures)
      && (PassiveFeatures in keys <==> first == PassiveFeatures)
  {
    var keys := [first] + OptionList(t) + OptionList(u);
    if t.None? && u.None? {
      assert keys == [first];
    } else if t.None? {
      assert keys == [first, u.value];
    } else if u.None? {
      assert keys == [first, t.value];
    } else {
      assert keys == [first, t.value, u.value];
    }
  }

  /** Both tables name only buckets of `FEATURE_GROUP_IDS`. */
  lemma TableValuesListed()
    ensures forall x :: x in FeatureTypeValues() ==> x in FeatureGroupIds()
    ensures forall x :: x in SubtypeValues() ==> x in FeatureGroupIds()
  {
    var ids := FeatureGroupIds();
    assert FeatureTypeValues() == [ids[2], ids[3], ids[5], ids[6], ids[4]];
    assert SubtypeValues() == ids[7..];
  }

  /** Every bucket the tables produce is in `FEATURE_GROUP_IDS`, so no
      populated feature bucket is left out of the emission order. */
  lemma FeatureBucketsAreOrdered(item: Item)
    ensures forall k :: k in FeatureKeys(item) ==> k in FeatureGroupIds()
  {
    var ids := FeatureGroupIds();
    var first := if HasActivity(item) then ActiveFeatures else PassiveFeatures;
    assert first == ids[0] || first == ids[1];
    TableValuesListed();
    var t := OptionList(FeatureTypeBucket(item.featType));
    var u := OptionList(SubtypeBucket(item.featSubtype));
    assert forall k :: k in t ==> k in ids;
    assert forall k :: k in u ==> k in ids;
    assert FeatureKeys(item) == [first] + t + u;
  }
}
