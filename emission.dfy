/** The emission loops of `#buildFeatures` and `#buildInventory`
    (scripts/action-handler.js): the group keys are visited in a fixed order,
    an empty bucket is skipped, and a populated one gets its actions
    (`buildActions`) followed by its activation sub-groups (`buildActivations`). */
module Emission {
  import opened Strings
  import opened Constants
  import opened Entities
  import opened ItemRules
  import opened Buckets
  import opened Activations

  /** `buildActions` then `buildActivations` for one group holding `members`:
      nothing at all when the group is empty. */
  function BucketCalls(ctx: Ctx, groupId: string, members: seq<Item>, actionType: string, info: string): seq<HudCall> {
    if members == [] then []
    else [AddActions(groupId, ItemActions(ctx, members, actionType))]
         + ActivationCalls(ctx, groupId, members, actionType, info)
  }

  /** Appending to the calls made so far: the grouping of the appends does
      not matter. */
  lemma AppendAssoc(a: seq<HudCall>, b: seq<HudCall>, c: seq<HudCall>)
    ensures a + b + c == a + (b + c)
  {
  }

  /** The calls of a loop over `xs` that makes the calls f(x) for each x in turn. */
  function ConcatMap<T>(xs: seq<T>, f: T -> seq<HudCall>): seq<HudCall> {
    if xs == [] then [] else ConcatMap(xs[..|xs| - 1], f) + f(xs[|xs| - 1])
  }

  /** Looping over two runs one after the other makes the calls of the first
      run, then those of the second. */
  lemma {:induction false} ConcatMapAppend<T>(a: seq<T>, b: seq<T>, f: T -> seq<HudCall>)
    ensures ConcatMap(a + b, f) == ConcatMap(a, f) + ConcatMap(b, f)
    decreases |b|
  {
    if b == [] {
      assert a + b == a;
    } else {
      var ab := a + b;
      var b' := b[..|b| - 1];
      assert ab[..|ab| - 1] == a + b';
      assert ab[|ab| - 1] == b[|b| - 1];
      ConcatMapAppend(a, b', f);
    }
  }

  /** The calls for the element at position i come after those of every
      earlier element and before those of every later one. */
  lemma ConcatMapPosition<T>(xs: seq<T>, i: nat, f: T -> seq<HudCall>)
    requires i < |xs|
    ensures ConcatMap(xs, f) == ConcatMap(xs[..i], f) + f(xs[i]) + ConcatMap(xs[i + 1..], f)
  {
    var x := xs[i];
    var pre := xs[..i];
    var post := xs[i + 1..];
    ConcatMapSingle(x, f);
    ConcatMapAppend(pre, [x], f);
    assert xs == pre + [x] + post;
    ConcatMapAppend(pre + [x], post, f);
  }

  /** One more turn of a loop appends the calls of the next element. */
  lemma ConcatMapStep<T>(xs: seq<T>, j: nat, f: T -> seq<HudCall>)
    requires j < |xs|
    ensures ConcatMap(xs[..j + 1], f) == ConcatMap(xs[..j], f) + f(xs[j])
  {
    assert xs[..j + 1][..j] == xs[..j];
  }

  lemma ConcatMapSingle<T>(x: T, f: T -> seq<HudCall>)
    ensures ConcatMap([x], f) == f(x)
  {
    assert [x][..0] == [];
    assert ConcatMap([x], f) == ConcatMap([], f) + f(x);
    assert [] + f(x) == f(x);
  }

  /** A property of every call made for every element holds of every call
      of the loop. */
  lemma {:induction false} ConcatMapAll<T>(xs: seq<T>, f: T -> seq<HudCall>, p: HudCall -> bool)
    requires forall i, c :: 0 <= i < |xs| && c in f(xs[i]) ==> p(c)
    ensures forall c :: c in ConcatMap(xs, f) ==> p(c)
  {
    if xs != [] {
      ConcatMapAll(xs[..|xs| - 1], f, p);
      assert forall c :: c in f(xs[|xs| - 1]) ==> p(c);
    }
  }

  /** The calls for the group key k. */
  function KeyCalls(ctx: Ctx, k: GroupKey, items: seq<Item>, keysOf: Item -> seq<GroupKey>,
                    actionType: string): seq<HudCall>
  {
    BucketCalls(ctx, GroupId(k), Members(items, keysOf, k), actionType, "")
  }

  /** The emission loop over the group keys `order`, for the buckets of
      `items` under `keysOf`. */
  function OrderedCalls(ctx: Ctx, order: seq<GroupKey>, items: seq<Item>, keysOf: Item -> seq<GroupKey>,
                        actionType: string): seq<HudCall>
  {
    ConcatMap(order, k => KeyCalls(ctx, k, items, keysOf, actionType))
  }

  /** `buildActivations` over no items makes no call. */
  lemma {:induction false} CallsOverNothing(ctx: Ctx, groups: seq<Option<string>>, parentId: string,
                                            actionType: string, info: string)
    ensures CallsOver(ctx, groups, parentId, [], actionType, info) == []
  {
    if groups != [] {
      CallsOverNothing(ctx, groups[..|groups| - 1], parentId, actionType, info);
    }
  }

  /** The groups are emitted in the fixed order: the calls of the group at
      position i come after those of every earlier group and before those of
      every later one. */
  lemma GroupPosition(ctx: Ctx, order: seq<GroupKey>, i: nat, items: seq<Item>,
                      keysOf: Item -> seq<GroupKey>, actionType: string)
    requires i < |order|
    ensures OrderedCalls(ctx, order, items, keysOf, actionType)
         == OrderedCalls(ctx, order[..i], items, keysOf, actionType)
            + KeyCalls(ctx, order[i], items, keysOf, actionType)
            + OrderedCalls(ctx, order[i + 1..], items, keysOf, actionType)
  {
    ConcatMapPosition(order, i, k => KeyCalls(ctx, k, items, keysOf, actionType));
  }

  /** Every `addActions` call of the emission carries at least one action. */
  lemma NoEmptyActions(ctx: Ctx, order: seq<GroupKey>, items: seq<Item>,
                       keysOf: Item -> seq<GroupKey>, actionType: string)
    ensures forall c :: c in OrderedCalls(ctx, order, items, keysOf, actionType) && c.AddActions? ==> c.actions != []
  {
    var f := k => KeyCalls(ctx, k, items, keysOf, actionType);
    forall i, c | 0 <= i < |order| && c in f(order[i]) ensures c.AddActions? ==> c.actions != [] {
      var k := order[i];
      var members := Members(items, keysOf, k);
      if members != [] {
        DerivedGroupShape(ctx, ActivationGroups(), GroupId(k), members, actionType, "");
      }
    }
    ConcatMapAll(order, f, (c: HudCall) => c.AddActions? ==> c.actions != []);
  }

  /** A group in the order gets its own `addActions` call, holding the
      actions of its bucket, exactly when its bucket has items: an empty
      bucket produces no group. */
  lemma GroupEmittedIffPopulated(ctx: Ctx, order: seq<GroupKey>, i: nat, items: seq<Item>,
                                 keysOf: Item -> seq<GroupKey>, actionType: string)
    requires i < |order|
    ensures var members := Members(items, keysOf, order[i]);
      AddActions(GroupId(order[i]), ItemActions(ctx, members, actionType))
        in OrderedCalls(ctx, order, items, keysOf, actionType)
      <==> members != []
  {
    var members := Members(items, keysOf, order[i]);
    var c := AddActions(GroupId(order[i]), ItemActions(ctx, members, actionType));
    GroupPosition(ctx, order, i, items, keysOf, actionType);
    NoEmptyActions(ctx, order, items, keysOf, actionType);
    if members != [] {
      assert KeyCalls(ctx, order[i], items, keysOf, actionType)[0] == c;
    }
  }

  /** One more turn of the emission loop appends the calls of the next key's
      bucket. */
  lemma OrderedCallsStep(ctx: Ctx, order: seq<GroupKey>, j: nat, items: seq<Item>,
                         keysOf: Item -> seq<GroupKey>, actionType: string, bucket: seq<Item>)
    requires j < |order| && bucket == Members(items, keysOf, order[j])
    ensures OrderedCalls(ctx, order[..j + 1], items, keysOf, actionType)
         == OrderedCalls(ctx, order[..j], items, keysOf, actionType) + BucketCalls(ctx, GroupId(order[j]), bucket, actionType, "")
  {
    assert order[..j + 1][..j] == order[..j];
  }

  /** A loop whose every turn makes no call makes no call. */
  lemma {:induction false} ConcatMapNothing<T>(xs: seq<T>, f: T -> seq<HudCall>)
    requires forall i :: 0 <= i < |xs| ==> f(xs[i]) == []
    ensures ConcatMap(xs, f) == []
  {
    if xs != [] {
      ConcatMapNothing(xs[..|xs| - 1], f);
    }
  }

  /** Without items the emission loop makes no call, whatever the order. */
  lemma OrderedCallsOverNothing(ctx: Ctx, order: seq<GroupKey>, keysOf: Item -> seq<GroupKey>, actionType: string)
    ensures OrderedCalls(ctx, order, [], keysOf, actionType) == []
  {
    var f := k => KeyCalls(ctx, k, [], keysOf, actionType);
    forall i | 0 <= i < |order| ensures f(order[i]) == [] {
      assert Members([], keysOf, order[i]) == [];
    }
    ConcatMapNothing(order, f);
  }
}
