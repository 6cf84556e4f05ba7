/** When an update of a shoot wakes its Cluster: only if the shoot's conditions have changed. */
module Conditions {
  import opened Common
  import opened KeyedLists

  /** A condition: its type, and everything else in it. */
  type Condition = Item<string, string>

  /** Compares the lengths, then looks every new condition up among the old ones. */
  method ConditionsChanged(old_: seq<Condition>, new_: seq<Condition>) returns (changed: bool)
    ensures changed <==> Detected(old_, new_)
  {
    changed := |old_| != |new_|;
    var i := 0;
    while i < |new_| && !changed
      invariant 0 <= i <= |new_|
      invariant changed ==> Detected(old_, new_)
      invariant !changed ==> |old_| == |new_| && forall k :: 0 <= k < i ==> IsFound(old_, new_[k])
    {
      changed := ConditionChanged(old_, new_[i]);
      i := i + 1;
    }
  }

  /** The inner loop: a condition is changed if the first old one of its type differs, or if there is none. */
  method ConditionChanged(old_: seq<Condition>, c: Condition) returns (changed: bool)
    ensures changed <==> !IsFound(old_, c)
  {
    for j := 0 to |old_|
      invariant Lookup(old_, c.key) == Lookup(old_[j..], c.key)
    {
      assert old_[j..] == [old_[j]] + old_[j + 1..];
      if c.key == old_[j].key { return c != old_[j]; }
    }
    changed := true;
  }

  ghost predicate IsFound(list: seq<Condition>, c: Condition) {
    Lookup(list, c.key) == Some(c.value)
  }

  ghost predicate Detected(old_: seq<Condition>, new_: seq<Condition>) {
    |old_| != |new_| || exists k :: 0 <= k < |new_| && !IsFound(old_, new_[k])
  }

  /** Some condition type is added, removed or has a different condition. */
  ghost predicate Differ(a: seq<Condition>, b: seq<Condition>) {
    exists t :: Lookup(a, t) != Lookup(b, t)
  }

  ghost predicate UniqueTypes(list: seq<Condition>) {
    NoDuplicates(Keys(list))
  }

  lemma {:induction false} UniqueIsFound(list: seq<Condition>, k: nat)
    requires UniqueTypes(list) && k < |list|
    ensures Lookup(list, list[k].key) == Some(list[k].value)
  {
    forall j | 0 <= j < k ensures list[j].key != list[k].key {
      assert Keys(list)[j] != Keys(list)[k];
    }
    LookupAtFirst(list, k);
  }

  /** Lists that agree on every type have the same length. */
  lemma AgreeingListsAreEquallyLong(a: seq<Condition>, b: seq<Condition>)
    requires UniqueTypes(a) && UniqueTypes(b) && !Differ(a, b)
    ensures |a| == |b|
  {
    forall t ensures t in Keys(a) <==> t in Keys(b) {
      assert Lookup(a, t) == Lookup(b, t);
    }
    NoLongerThan(Keys(a), Keys(b));
    NoLongerThan(Keys(b), Keys(a));
  }

  /** Where all new conditions are found and the lengths agree, there is no room for a removed type. */
  lemma AllTypesKept(old_: seq<Condition>, new_: seq<Condition>, t: string)
    requires UniqueTypes(new_) && !Detected(old_, new_)
    ensures t in Keys(old_) ==> t in Keys(new_)
  {
    if t in Keys(old_) && t !in Keys(new_) {
      forall k | k in Keys(new_) ensures k in Without(Keys(old_), t) {
        var i :| 0 <= i < |Keys(new_)| && Keys(new_)[i] == k;
        assert IsFound(old_, new_[i]);
      }
      NoLongerThan(Keys(new_), Without(Keys(old_), t));
      WithoutShrinks(Keys(old_), t);
    }
  }

  /** Although it only scans the new conditions, the detector reports a change exactly if the lists
      differ as maps from type to condition. */
  lemma DetectorIsExact(old_: seq<Condition>, new_: seq<Condition>)
    requires UniqueTypes(old_) && UniqueTypes(new_)
    ensures Detected(old_, new_) <==> Differ(old_, new_)
  {
    if !Differ(old_, new_) {
      AgreeingListsAreEquallyLong(old_, new_);
      forall k | 0 <= k < |new_| ensures IsFound(old_, new_[k]) {
        UniqueIsFound(new_, k);
        assert Lookup(old_, new_[k].key) == Lookup(new_, new_[k].key);
      }
    }
    if !Detected(old_, new_) {
      forall t ensures Lookup(old_, t) == Lookup(new_, t) {
        if t in Keys(new_) {
          var k :| 0 <= k < |Keys(new_)| && Keys(new_)[k] == t;
          UniqueIsFound(new_, k);
        } else {
          AllTypesKept(old_, new_, t);
        }
      }
    }
  }

  /** The report does not depend on which list is the old one, nor on the order of either. */
  lemma DetectorIsSymmetric(a: seq<Condition>, b: seq<Condition>)
    requires UniqueTypes(a) && UniqueTypes(b)
    ensures Detected(a, b) <==> Detected(b, a)
  {
    DetectorIsExact(a, b);
    DetectorIsExact(b, a);
    forall t ensures Lookup(a, t) != Lookup(b, t) <==> Lookup(b, t) != Lookup(a, t) {}
  }

  lemma DetectorIgnoresOrder(a: seq<Condition>, b: seq<Condition>, a': seq<Condition>, b': seq<Condition>)
    requires UniqueTypes(a) && UniqueTypes(b) && UniqueTypes(a') && UniqueTypes(b')
    requires multiset(a) == multiset(a') && multiset(b) == multiset(b')
    ensures Detected(a, b) <==> Detected(a', b')
  {
    DetectorIsExact(a, b);
    DetectorIsExact(a', b');
    forall t ensures Lookup(a, t) == Lookup(a', t) && Lookup(b, t) == Lookup(b', t) {
      SameMembersSameLookup(a, a', t);
      SameMembersSameLookup(b, b', t);
    }
  }

  lemma SameMembersSameLookup(a: seq<Condition>, b: seq<Condition>, t: string)
    requires UniqueTypes(a) && UniqueTypes(b) && multiset(a) == multiset(b)
    ensures Lookup(a, t) == Lookup(b, t)
  {
    forall c ensures c in a <==> c in b {
      assert c in a <==> c in multiset(a);
      assert c in b <==> c in multiset(b);
    }
    FoundIffMember(a, t);
    FoundIffMember(b, t);
  }

  lemma FoundIffMember(a: seq<Condition>, t: string)
    requires UniqueTypes(a)
    ensures forall v :: Lookup(a, t) == Some(v) <==> Item(t, v) in a
  {
    forall v | Item(t, v) in a ensures Lookup(a, t) == Some(v) {
      var k :| 0 <= k < |a| && a[k] == Item(t, v);
      UniqueIsFound(a, k);
    }
    FoundIsMember(a, t);
  }

  lemma {:induction false} FoundIsMember(a: seq<Condition>, t: string)
    ensures var r := Lookup(a, t); r.Some? ==> Item(t, r.value) in a
  {
    if a != [] && a[0].key != t { FoundIsMember(a[1..], t); }
  }

  /** With types that occur more than once, a difference goes unnoticed if and only if the lengths agree,
      every new condition is the first old one of its type, and an old type is gone. */
  lemma {:induction false} UnnoticedIff(old_: seq<Condition>, new_: seq<Condition>)
    ensures Differ(old_, new_) && !Detected(old_, new_) <==>
            && |old_| == |new_| && (forall k :: 0 <= k < |new_| ==> IsFound(old_, new_[k]))
            && exists t :: t in Keys(old_) && t !in Keys(new_)
  {
    if !Detected(old_, new_) {
      if Differ(old_, new_) {
        var t :| Lookup(old_, t) != Lookup(new_, t);
        if t in Keys(new_) { FoundTypesAgree(old_, new_, t); }
        assert t in Keys(old_) && t !in Keys(new_);
      } else {
        forall t | t in Keys(old_) ensures t in Keys(new_) {
          assert Lookup(old_, t) == Lookup(new_, t);
        }
      }
    }
  }

  lemma FoundTypesAgree(old_: seq<Condition>, new_: seq<Condition>, t: string)
    requires !Detected(old_, new_) && t in Keys(new_)
    ensures Lookup(old_, t) == Lookup(new_, t)
  {
    FoundIsMember(new_, t);
    var k :| 0 <= k < |new_| && new_[k] == Item(t, Lookup(new_, t).value);
    assert IsFound(old_, new_[k]);
  }

  /** That takes a new list with a repeated type: as long as the new types are unique, every difference
      is reported, whatever the old list looks like. */
  lemma UniqueNewTypesHideNothing(old_: seq<Condition>, new_: seq<Condition>)
    requires UniqueTypes(new_) && Differ(old_, new_)
    ensures Detected(old_, new_)
  {
    UnnoticedIff(old_, new_);
    if !Detected(old_, new_) {
      var t :| t in Keys(old_) && t !in Keys(new_);
      AllTypesKept(old_, new_, t);
    }
  }

  /** With a type that occurs twice a change can go unnoticed. */
  lemma DuplicateHidesChange()
    ensures exists old_: seq<Condition>, new_: seq<Condition> ::
              UniqueTypes(old_) && !UniqueTypes(new_) && Differ(old_, new_) && !Detected(old_, new_)
  {
    var a, b := Item("a", ""), Item("b", "");
    var before, after := [a, b], [a, a];
    assert Lookup(before, "b") == Some("") && Lookup(after, "b") == None by {
      assert before[1..] == [b] && after[1..] == [a];
    }
    assert Keys(before) == ["a", "b"] && "a" != "b" by { assert "a"[0] != "b"[0]; }
    assert Keys(after)[0] == Keys(after)[1];
    assert UniqueTypes(before) && !UniqueTypes(after) && Differ(before, after) && !Detected(before, after);
  }
}
