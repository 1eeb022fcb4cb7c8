/** `buildActivations` of scripts/action-handler.js: the items of a group are
    split by the group of their first activation type, and for every value of
    `ACTIVATION_TYPE`, in table order, a non-empty split becomes a derived
    group `"<bucket>+<parent id>"` under the system group of that bucket. */
module Activations {
  import opened Strings
  import opened Constants
  import opened Entities
  import opened ItemRules
  import opened Buckets

  /** `ACTIVATION_TYPE[type]?.group ?? "other"`. */
  function ActivationBucket(item: Item): string {
    match item.activationType
    case None => "other"
    case Some(t) => match ActivationGroup(t) { case Some(g) => g case None => "other" }
  }

  /** Every item goes to exactly one activation bucket. */
  function ActivationKeysOf(): Item -> seq<string> {
    item => [ActivationBucket(item)]
  }

  /** The id of the derived group of a bucket. */
  function DerivedId(bucket: string, parentId: string): string {
    bucket + "+" + parentId
  }

  /** `defaultSelected` of a derived group: false under the equipped and
      unequipped groups, otherwise left to the HUD. */
  function DefaultSelected(parentId: string): Option<bool> {
    if parentId in ["equipped", "unequipped"] then Some(false) else None
  }

  /** The calls for one visited table entry: nothing for an entry without a
      group or a bucket without items; otherwise the derived group, the
      parent's info text for spell groups, and the bucket's actions. */
  function DerivedCalls(ctx: Ctx, group: Option<string>, parentId: string, items: seq<Item>,
                        actionType: string, info: string): seq<HudCall>
  {
    match group
    case None => []
    case Some(bucket) =>
      var members := Members(items, ActivationKeysOf(), bucket);
      if members == [] then []
      else
        var id := DerivedId(bucket, parentId);
        [AddGroup(id, bucket, DefaultSelected(parentId))]
        + (if actionType == "spell" then [AddGroupInfo(id, info)] else [])
        + [AddActions(id, ItemActions(ctx, members, actionType))]
  }

  /** The calls made while visiting the table entries `groups` in order. */
  function CallsOver(ctx: Ctx, groups: seq<Option<string>>, parentId: string, items: seq<Item>,
                     actionType: string, info: string): seq<HudCall>
  {
    if groups == [] then []
    else CallsOver(ctx, groups[..|groups| - 1], parentId, items, actionType, info)
         + DerivedCalls(ctx, groups[|groups| - 1], parentId, items, actionType, info)
  }

  /** All calls of `buildActivations` for a group `parentId` holding `items`. */
  function ActivationCalls(ctx: Ctx, parentId: string, items: seq<Item>, actionType: string, info: string): seq<HudCall> {
    CallsOver(ctx, ActivationGroups(), parentId, items, actionType, info)
  }

  /** Visiting one more table entry appends the calls of that entry. */
  lemma CallsOverStep(ctx: Ctx, groups: seq<Option<string>>, j: nat, parentId: string, items: seq<Item>,
                      actionType: string, info: string)
    requires j < |groups|
    ensures CallsOver(ctx, groups[..j + 1], parentId, items, actionType, info)
         == CallsOver(ctx, groups[..j], parentId, items, actionType, info)
            + DerivedCalls(ctx, groups[j], parentId, items, actionType, info)
  {
    assert groups[..j + 1][..j] == groups[..j];
  }

  /** Visiting two runs of table entries one after the other makes the calls of
      the first run, then those of the second. */
  lemma {:induction false} CallsOverAppend(ctx: Ctx, a: seq<Option<string>>, b: seq<Option<string>>, parentId: string,
                                           items: seq<Item>, actionType: string, info: string)
    ensures CallsOver(ctx, a + b, parentId, items, actionType, info)
         == CallsOver(ctx, a, parentId, items, actionType, info) + CallsOver(ctx, b, parentId, items, actionType, info)
    decreases |b|
  {
    if b == [] {
      assert a + b == a;
    } else {
      var ab := a + b;
      assert ab[..|ab| - 1] == a + b[..|b| - 1];
      assert ab[|ab| - 1] == b[|b| - 1];
      var d := DerivedCalls(ctx, b[|b| - 1], parentId, items, actionType, info);
      assert CallsOver(ctx, ab, parentId, items, actionType, info)
          == CallsOver(ctx, a + b[..|b| - 1], parentId, items, actionType, info) + d;
      assert CallsOver(ctx, b, parentId, items, actionType, info)
          == CallsOver(ctx, b[..|b| - 1], parentId, items, actionType, info) + d;
      CallsOverAppend(ctx, a, b[..|b| - 1], parentId, items, actionType, info);
    }
  }

  /** The three reaction entries sit next to each other in the table, so the
      "reactions" derived group and its actions are emitted three times in a
      row, after the entries before them and before "special" and "other". */
  lemma ReactionsEmittedThrice(ctx: Ctx, parentId: string, items: seq<Item>, actionType: string, info: string)
    ensures var g := ActivationGroups();
      var r := DerivedCalls(ctx, Some("reactions"), parentId, items, actionType, info);
      ActivationCalls(ctx, parentId, items, actionType, info)
        == CallsOver(ctx, g[..8], parentId, items, actionType, info) + r + r + r
           + CallsOver(ctx, g[11..], parentId, items, actionType, info)
  {
    var g := ActivationGroups();
    var r := Some("reactions");
    assert g == g[..8] + [r] + [r] + [r] + g[11..];
    CallsOverAppend(ctx, g[..8] + [r] + [r] + [r], g[11..], parentId, items, actionType, info);
    CallsOverAppend(ctx, g[..8] + [r] + [r], [r], parentId, items, actionType, info);
    CallsOverAppend(ctx, g[..8] + [r], [r], parentId, items, actionType, info);
    CallsOverAppend(ctx, g[..8], [r], parentId, items, actionType, info);
    assert CallsOver(ctx, [r], parentId, items, actionType, info)
        == DerivedCalls(ctx, Some("reactions"), parentId, items, actionType, info) by {
      assert [r][..0] == [];
    }
  }

  /** Items whose activation type has no group end up in the bucket "other",
      which no table entry visits: a group made only of such items gets no
      derived group at all. */
  lemma {:induction false} OtherBucketNeverEmitted(ctx: Ctx, groups: seq<Option<string>>, parentId: string,
                                                   items: seq<Item>, actionType: string, info: string)
    requires Some("other") !in groups
    requires forall i :: 0 <= i < |items| ==> ActivationBucket(items[i]) == "other"
    ensures CallsOver(ctx, groups, parentId, items, actionType, info) == []
  {
    if groups != [] {
      OtherBucketNeverEmitted(ctx, groups[..|groups| - 1], parentId, items, actionType, info);
      var last := groups[|groups| - 1];
      assert last in groups;
      if last.Some? {
        forall x | x in items ensures last.value !in ActivationKeysOf()(x) {
          var i :| 0 <= i < |items| && items[i] == x;
        }
        MembersOfUnusedKey(items, ActivationKeysOf(), last.value);
      }
    }
  }

  /** The table itself never visits the bucket "other". */
  lemma OtherIsNotVisited()
    ensures Some("other") !in ActivationGroups()
  {
    var g := ActivationGroups();
    forall i | 0 <= i < |g| ensures g[i] != Some("other") {
      ReactionKindsShareGroup();
    }
  }

  /** Each derived group is named "<bucket>+<parent id>" and sits under the
      bucket's system group; it is unselected by default exactly under the
      equipped and unequipped groups; and every `addActions` of a derived
      group carries at least one action. */
  lemma {:induction false} DerivedGroupShape(ctx: Ctx, groups: seq<Option<string>>, parentId: string,
                                             items: seq<Item>, actionType: string, info: string)
    ensures forall c :: c in CallsOver(ctx, groups, parentId, items, actionType, info) && c.AddGroup? ==>
      c.groupId == DerivedId(c.parentId, parentId)
      && (c.defaultSelected == Some(false) <==> parentId in ["equipped", "unequipped"])
    ensures forall c :: c in CallsOver(ctx, groups, parentId, items, actionType, info) && c.AddActions? ==>
      c.actions != []
  {
    if groups != [] {
      DerivedGroupShape(ctx, groups[..|groups| - 1], parentId, items, actionType, info);
    }
  }
}
