/** The map-filling pattern shared by `#buildFeatures`, `#buildInventory`,
    `#buildSpells` and `buildActivations`: each item is looked at once, the
    bucket keys it belongs to are computed, and the item is added to the map
    entry of every such key, so that each bucket keeps the items in
    collection order. */
module Buckets {
  import opened Entities

  /** The items that belong to bucket k, in collection order. */
  function Members<K(==)>(items: seq<Item>, keysOf: Item -> seq<K>, k: K): (r: seq<Item>)
    ensures |r| <= |items|
  {
    if items == [] then []
    else
      var last := items[|items| - 1];
      Members(items[..|items| - 1], keysOf, k) + (if k in keysOf(last) then [last] else [])
  }

  /** An item is in bucket k exactly when it is in the collection and k is
      among its keys. */
  lemma {:induction false} MembersIff<K>(items: seq<Item>, keysOf: Item -> seq<K>, k: K)
    ensures forall x :: x in Members(items, keysOf, k) <==> x in items && k in keysOf(x)
  {
    if items != [] {
      var init := items[..|items| - 1];
      MembersIff(init, keysOf, k);
      assert items == init + [items[|items| - 1]];
    }
  }

  /** A key no item of the collection maps to has an empty bucket. */
  lemma {:induction false} MembersOfUnusedKey<K>(items: seq<Item>, keysOf: Item -> seq<K>, k: K)
    requires forall x :: x in items ==> k !in keysOf(x)
    ensures Members(items, keysOf, k) == []
  {
    if items != [] {
      var init := items[..|items| - 1];
      assert forall x :: x in init ==> x in items;
      MembersOfUnusedKey(init, keysOf, k);
      assert items[|items| - 1] in items;
    }
  }

  /** The loop that fills the bucket map: afterwards a key is in the map
      exactly when some item belongs to it, and its entry holds exactly the
      items of that bucket, in order. An item listed twice under one key is
      added once, as `Map.set` with an existing key keeps one entry. */
  method FillBuckets<K(==,!new)>(items: seq<Item>, keysOf: Item -> seq<K>) returns (buckets: map<K, seq<Item>>)
    ensures forall k :: k in buckets ==> buckets[k] == Members(items, keysOf, k) && buckets[k] != []
    ensures forall k :: k !in buckets ==> Members(items, keysOf, k) == []
  {
    buckets := map[];
    for i := 0 to |items|
      invariant forall k :: k in buckets ==> buckets[k] == Members(items[..i], keysOf, k) && buckets[k] != []
      invariant forall k :: k !in buckets ==> Members(items[..i], keysOf, k) == []
    {
      var item := items[i];
      var keys := keysOf(item);
      var next := AddToBuckets(buckets, item, keys);
      var prefix := items[..i + 1];
      assert prefix[..i] == items[..i] && prefix[i] == item;
      forall k | k in next
        ensures next[k] == Members(prefix, keysOf, k) && next[k] != []
      {
        var earlier := Members(items[..i], keysOf, k);
        assert Members(prefix, keysOf, k) == earlier + (if k in keysOf(item) then [item] else []);
        if k in buckets {
          assert buckets[k] == earlier && earlier != [];
        } else {
          assert k in keys;
          assert earlier == [];
          assert next[k] == [item];
        }
      }
      forall k | k !in next
        ensures Members(prefix, keysOf, k) == []
      {
        assert Members(prefix, keysOf, k) == Members(items[..i], keysOf, k) + (if k in keysOf(item) then [item] else []);
      }
      buckets := next;
    }
    assert items[..|items|] == items;
  }

  /** The inner loop of FillBuckets: the item is appended to the entry of each
      of its keys, creating the entry when the key is new. */
  method AddToBuckets<K(==,!new)>(buckets: map<K, seq<Item>>, item: Item, keys: seq<K>) returns (r: map<K, seq<Item>>)
    ensures forall k :: k in r <==> k in buckets || k in keys
    ensures forall k :: k in r ==> r[k] == (if k in buckets then buckets[k] else []) + (if k in keys then [item] else [])
  {
    r := buckets;
    for j := 0 to |keys|
      invariant forall k :: k in r <==> k in buckets || k in keys[..j]
      invariant forall k :: k in r ==> r[k] == (if k in buckets then buckets[k] else []) + (if k in keys[..j] then [item] else [])
    {
      var k := keys[j];
      assert keys[..j + 1] == keys[..j] + [k];
      if k !in keys[..j] {
        var current := if k in r then r[k] else [];
        r := r[k := current + [item]];
      }
    }
    assert keys[..|keys|] == keys;
  }
}
