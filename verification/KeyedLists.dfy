/** Lists whose entries are found by a key: the extensions of a shoot by type, its resources by name.
    Entries are overwritten where their key already occurs, and appended otherwise. */
module KeyedLists {
  import opened Common

  datatype Item<K, V> = Item(key: K, value: V)

  function Keys<K, V>(list: seq<Item<K, V>>): (r: seq<K>)
    ensures |r| == |list|
    ensures forall i :: 0 <= i < |list| ==> r[i] == list[i].key
  {
    if list == [] then [] else [list[0].key] + Keys(list[1..])
  }

  /** The value of the first entry with a key. */
  function Lookup<K(==), V>(list: seq<Item<K, V>>, key: K): (r: Option<V>)
    ensures r.None? <==> key !in Keys(list)
  {
    if list == [] then None
    else if list[0].key == key then Some(list[0].value)
    else Lookup(list[1..], key)
  }

  /** The value written last for a key. */
  function LastWriter<K(==), V>(writes: seq<Item<K, V>>, key: K): (r: Option<V>)
    ensures r.None? <==> key !in Keys(writes)
  {
    if writes == [] then None
    else
      var later := LastWriter(writes[1..], key);
      if later.Some? then later else if writes[0].key == key then Some(writes[0].value) else None
  }

  function Upsert<K(==), V>(list: seq<Item<K, V>>, item: Item<K, V>): seq<Item<K, V>> {
    if list == [] then [item]
    else if list[0].key == item.key then [item] + list[1..]
    else [list[0]] + Upsert(list[1..], item)
  }

  function UpsertAll<K(==), V>(list: seq<Item<K, V>>, writes: seq<Item<K, V>>): seq<Item<K, V>>
    decreases |writes|
  {
    if writes == [] then list else UpsertAll(Upsert(list, writes[0]), writes[1..])
  }

  // ---------------------------------------------------------------------------------------------
  // The update loops

  /** Looks for an entry with the item's key, overwrites it, or appends the item. */
  method UpsertInto<K(==), V>(list: seq<Item<K, V>>, item: Item<K, V>) returns (r: seq<Item<K, V>>)
    ensures r == Upsert(list, item)
  {
    var found := false;
    r := list;
    var i := 0;
    while i < |list|
      invariant 0 <= i <= |list| && r == list && !found
      invariant Upsert(list, item) == list[..i] + Upsert(list[i..], item)
    {
      assert list[i..] == [list[i]] + list[i + 1..];
      if list[i].key == item.key {
        r := r[i := item];
        found := true;
        assert r == list[..i] + ([item] + list[i + 1..]);
        break;
      }
      assert list[..i + 1] == list[..i] + [list[i]];
      i := i + 1;
    }
    if !found {
      assert list[i..] == [] && list[..i] == list;
      r := r + [item];
    }
  }

  method UpsertEach<K(==), V>(list: seq<Item<K, V>>, writes: seq<Item<K, V>>) returns (r: seq<Item<K, V>>)
    ensures r == UpsertAll(list, writes)
  {
    r := list;
    for i := 0 to |writes|
      invariant UpsertAll(list, writes) == UpsertAll(r, writes[i..])
    {
      assert writes[i..] == [writes[i]] + writes[i + 1..];
      r := UpsertInto(r, writes[i]);
    }
  }

  lemma {:induction false} UpsertAllConcat<K(!new), V(!new)>(list: seq<Item<K, V>>, a: seq<Item<K, V>>,
      b: seq<Item<K, V>>)
    ensures UpsertAll(list, a + b) == UpsertAll(UpsertAll(list, a), b)
    decreases |a|
  {
    if a == [] {
      assert a + b == b;
    } else {
      assert (a + b)[1..] == a[1..] + b;
      UpsertAllConcat(Upsert(list, a[0]), a[1..], b);
    }
  }

  // ---------------------------------------------------------------------------------------------
  // What the update loops mean

  lemma {:induction false} LookupAfterUpsert<K(!new), V(!new)>(list: seq<Item<K, V>>, item: Item<K, V>, key: K)
    ensures Lookup(Upsert(list, item), key) == if key == item.key then Some(item.value) else Lookup(list, key)
  {
    if list != [] && list[0].key != item.key {
      LookupAfterUpsert(list[1..], item, key);
    }
  }

  /** Upserting a list of writes overrides the old value of a key by its last write. */
  lemma {:induction false} LookupAfterUpsertAll<K(!new), V(!new)>(list: seq<Item<K, V>>,
      writes: seq<Item<K, V>>, key: K)
    ensures Lookup(UpsertAll(list, writes), key)
            == var last := LastWriter(writes, key); if last.Some? then last else Lookup(list, key)
    decreases |writes|
  {
    if writes != [] {
      LookupAfterUpsert(list, writes[0], key);
      LookupAfterUpsertAll(Upsert(list, writes[0]), writes[1..], key);
    }
  }

  lemma {:induction false} LastWriterConcat<K(!new), V(!new)>(a: seq<Item<K, V>>, b: seq<Item<K, V>>, key: K)
    ensures LastWriter(a + b, key)
            == var last := LastWriter(b, key); if last.Some? then last else LastWriter(a, key)
  {
    if a == [] {
      assert a + b == b;
    } else {
      assert (a + b)[1..] == a[1..] + b;
      LastWriterConcat(a[1..], b, key);
    }
  }

  lemma {:induction false} UpsertKeys<K(!new), V(!new)>(list: seq<Item<K, V>>, item: Item<K, V>)
    ensures Keys(Upsert(list, item)) == Keys(list) + if item.key in Keys(list) then [] else [item.key]
  {
    if list != [] && list[0].key != item.key { UpsertKeys(list[1..], item); }
  }

  /** The keys of the writes that are not among `have`, each once, in the order of their first write. */
  function NewKeys<K(==, !new), V>(have: seq<K>, writes: seq<Item<K, V>>): (r: seq<K>)
    ensures forall k :: k in r <==> k in Keys(writes) && k !in have
    ensures r == [] <==> forall k :: k in Keys(writes) ==> k in have
    decreases |writes|
  {
    if writes == [] then []
    else
      var key := writes[0].key;
      assert Keys(writes) == [key] + Keys(writes[1..]);
      if key in have then NewKeys(have, writes[1..]) else [key] + NewKeys(have + [key], writes[1..])
  }

  lemma {:induction false} NewKeysOnce<K(!new), V(!new)>(have: seq<K>, writes: seq<Item<K, V>>)
    ensures NoDuplicates(NewKeys(have, writes))
    decreases |writes|
  {
    if writes != [] {
      var key := writes[0].key;
      if key in have {
        NewKeysOnce(have, writes[1..]);
      } else {
        NewKeysOnce(have + [key], writes[1..]);
        assert key in have + [key];
      }
    }
  }

  /** Every entry keeps its position, and the new keys follow. */
  lemma {:induction false} UpsertAllKeys<K(!new), V(!new)>(list: seq<Item<K, V>>, writes: seq<Item<K, V>>)
    ensures Keys(UpsertAll(list, writes)) == Keys(list) + NewKeys(Keys(list), writes)
    decreases |writes|
  {
    if writes != [] {
      var key, rest := writes[0].key, writes[1..];
      var next := Upsert(list, writes[0]);
      var have := Keys(list);
      UpsertKeys(list, writes[0]);
      UpsertAllKeys(next, rest);
      if key !in have {
        AppendAssociates(have, [key], NewKeys(have + [key], rest));
      } else {
        AppendAssociates(have, [], NewKeys(have, rest));
      }
    }
  }

  lemma AppendAssociates<K>(a: seq<K>, b: seq<K>, c: seq<K>)
    ensures (a + b) + c == a + (b + c)
    ensures a + [] == a && [] + c == c
  {}

  /** The list already holds the last write of every key. */
  ghost predicate Reflects<K(!new), V>(list: seq<Item<K, V>>, writes: seq<Item<K, V>>) {
    forall k :: LastWriter(writes, k).Some? ==> Lookup(list, k) == LastWriter(writes, k)
  }

  /** Entry `i` is the one that is found by its key. */
  predicate IsFirst<K(==), V>(list: seq<Item<K, V>>, i: nat)
    requires i < |list|
  {
    forall j :: 0 <= j < i ==> list[j].key != list[i].key
  }

  lemma {:induction false} LookupAtFirst<K(!new), V(!new)>(list: seq<Item<K, V>>, i: nat)
    requires i < |list| && IsFirst(list, i)
    ensures Lookup(list, list[i].key) == Some(list[i].value)
  {
    if i > 0 {
      assert list[0].key != list[i].key;
      forall j | 0 <= j < i - 1 ensures list[1..][j].key != list[1..][i - 1].key {
        assert list[j + 1].key != list[i].key;
      }
      LookupAtFirst(list[1..], i - 1);
    }
  }

  lemma {:induction false} UpsertAt<K(!new), V(!new)>(list: seq<Item<K, V>>, item: Item<K, V>, i: nat)
    requires i < |list|
    ensures var r := Upsert(list, item);
            && i < |r|
            && r[i] == if IsFirst(list, i) && list[i].key == item.key then item else list[i]
  {
    if i > 0 {
      if list[0].key == item.key {
        assert list[i].key == item.key ==> !IsFirst(list, i);
      } else {
        UpsertAt(list[1..], item, i - 1);
        if list[i].key == item.key {
          assert IsFirst(list[1..], i - 1) <==> IsFirst(list, i) by {
            var tail := list[1..];
            forall j | 1 <= j < i ensures list[j].key == tail[j - 1].key {}
          }
        }
      }
    }
  }

  lemma {:induction false} UpsertAllAt<K(!new), V(!new)>(list: seq<Item<K, V>>, writes: seq<Item<K, V>>, i: nat)
    requires i < |list|
    ensures var r := UpsertAll(list, writes);
            && i < |r|
            && (!IsFirst(list, i) ==> r[i] == list[i])
            && (IsFirst(list, i) ==> r[i].key == list[i].key && Lookup(r, list[i].key) == Some(r[i].value))
    decreases |writes|
  {
    if writes == [] {
      if IsFirst(list, i) { LookupAtFirst(list, i); }
    } else {
      var next := Upsert(list, writes[0]);
      forall j | 0 <= j <= i ensures j < |next| && next[j].key == list[j].key {
        UpsertAt(list, writes[0], j);
      }
      UpsertAt(list, writes[0], i);
      assert IsFirst(next, i) <==> IsFirst(list, i) by {
        assert IsFirst(next, i) ==> forall j :: 0 <= j < i ==> next[j].key != next[i].key;
        assert IsFirst(list, i) ==> forall j :: 0 <= j < i ==> list[j].key != list[i].key;
      }
      UpsertAllAt(next, writes[1..], i);
    }
  }

  /** A list is left alone exactly if it already reflects the writes. */
  lemma UnchangedIff<K(!new), V(!new)>(list: seq<Item<K, V>>, writes: seq<Item<K, V>>)
    ensures UpsertAll(list, writes) == list <==> Reflects(list, writes)
  {
    var r := UpsertAll(list, writes);
    forall k ensures Lookup(r, k) == var last := LastWriter(writes, k); if last.Some? then last else Lookup(list, k) {
      LookupAfterUpsertAll(list, writes, k);
    }
    if Reflects(list, writes) {
      UpsertAllKeys(list, writes);
      assert forall k :: LastWriter(writes, k).Some? ==> k in Keys(list);
      assert |r| == |Keys(r)| == |list|;
      forall i | 0 <= i < |list| ensures r[i] == list[i] {
        UpsertAllAt(list, writes, i);
        if IsFirst(list, i) { LookupAtFirst(list, i); }
      }
    }
  }

  /** Writing the same list again changes nothing. */
  lemma UpsertAllIdempotent<K(!new), V(!new)>(list: seq<Item<K, V>>, writes: seq<Item<K, V>>)
    ensures UpsertAll(UpsertAll(list, writes), writes) == UpsertAll(list, writes)
  {
    var r := UpsertAll(list, writes);
    forall k | LastWriter(writes, k).Some? ensures Lookup(r, k) == LastWriter(writes, k) {
      LookupAfterUpsertAll(list, writes, k);
    }
    UnchangedIff(r, writes);
  }
}
