/** ClusterConfig objects of the platform cluster, seen through their owner references: which Clusters
    a ClusterConfig belongs to, how a reconcile pass settles the references of one Cluster, and how a
    deletion pass releases them. */
module ClusterConfigs {
  import opened Common

  /** An owner reference. A Cluster is identified by its name, because owner references never cross
      namespaces. Everything else that may own a ClusterConfig is opaque. */
  datatype OwnerRef = ClusterOwner(name: string) | OtherOwner(uid: string)

  type Store = map<Key, seq<OwnerRef>>

  /** The value of the hash annotation: absent for an empty reference list, otherwise a hash over the
      referenced names, idealised as injective. */
  datatype Digest = NoRefs | Refs(names: seq<string>)

  function DigestOf(refs: seq<string>): (d: Digest)
    ensures d == NoRefs <==> refs == []
  {
    if refs == [] then NoRefs else Refs(refs)
  }

  /** Position of the first occurrence of `o`, or -1. */
  function IndexOf(owners: seq<OwnerRef>, o: OwnerRef): (i: int)
    ensures -1 <= i < |owners|
    ensures i == -1 <==> o !in owners
    ensures i >= 0 ==> owners[i] == o && o !in owners[..i]
  {
    if owners == [] then -1
    else if owners[0] == o then 0
    else
      var i := IndexOf(owners[1..], o);
      if i == -1 then -1 else
      assert owners[..i + 1] == [owners[0]] + owners[1..][..i];
      i + 1
  }

  /** Drops the first occurrence of `o` only, as the deletion in place does. */
  function CutFirst(owners: seq<OwnerRef>, o: OwnerRef): seq<OwnerRef> {
    var i := IndexOf(owners, o);
    if i == -1 then owners else owners[..i] + owners[i + 1..]
  }

  /** Around its first occurrence, a list splits into what is kept before and after it. */
  lemma CutSplit(owners: seq<OwnerRef>, o: OwnerRef) returns (front: seq<OwnerRef>, back: seq<OwnerRef>)
    requires o in owners
    ensures owners == front + [o] + back
    ensures o !in front
    ensures CutFirst(owners, o) == front + back
  {
    var i := IndexOf(owners, o);
    front, back := owners[..i], owners[i + 1..];
  }

  /** Cutting a reference leaves every other owner reference in place and in order. */
  lemma CutKeepsOthers(owners: seq<OwnerRef>, o: OwnerRef)
    ensures Without(CutFirst(owners, o), o) == Without(owners, o)
  {
    if o in owners {
      var front, back := CutSplit(owners, o);
      WithoutConcat(front + [o], back, o);
      WithoutConcat(front, [o], o);
      WithoutConcat(front, back, o);
    }
  }

  /** The Cluster called `n` is listed at most once. */
  ghost predicate AtMostOnce(owners: seq<OwnerRef>, n: string) {
    multiset(owners)[ClusterOwner(n)] <= 1
  }

  /** What a pass for the Cluster `key` wants the owner references of the ClusterConfig `k` to be. The
      Cluster's reference is added where the ClusterConfig is referenced, and cut where it is not, the
      latter only when the reference list differs from the recorded one (`changed`). */
  function Settled(key: Key, refs: seq<string>, changed: bool, k: Key, owners: seq<OwnerRef>): seq<OwnerRef> {
    var o := ClusterOwner(key.name);
    if k.ns != key.ns then owners
    else if k.name in refs then (if o in owners then owners else owners + [o])
    else if changed then CutFirst(owners, o)
    else owners
  }

  function Released(key: Key, k: Key, owners: seq<OwnerRef>): seq<OwnerRef> {
    if k.ns != key.ns then owners else CutFirst(owners, ClusterOwner(key.name))
  }

  /** One ClusterConfig after settling: as wanted, or still as it was if the stage failed. */
  ghost predicate SettledAt(before: Store, after: Store, key: Key, refs: seq<string>, recorded: Digest, ok: bool,
      k: Key) {
    k in before && k in after ==>
      || after[k] == Settled(key, refs, DigestOf(refs) != recorded, k, before[k])
      || (!ok && after[k] == before[k])
  }

  /** The possible effects of settling the references: all of them when it succeeds, which also means
      that every referenced ClusterConfig exists, and an arbitrary part of them when an API call fails
      halfway. */
  ghost predicate SettleOutcome(before: Store, after: Store, key: Key, refs: seq<string>, recorded: Digest, ok: bool) {
    && after.Keys == before.Keys
    && (ok ==> forall r :: r in refs ==> Key(key.ns, r) in before)
    && forall k {:trigger SettledAt(before, after, key, refs, recorded, ok, k)} ::
         SettledAt(before, after, key, refs, recorded, ok, k)
  }

  ghost predicate ReleasedAt(before: Store, after: Store, key: Key, ok: bool, k: Key) {
    k in before && k in after ==> after[k] == Released(key, k, before[k]) || (!ok && after[k] == before[k])
  }

  ghost predicate ReleaseOutcome(before: Store, after: Store, key: Key, ok: bool) {
    && after.Keys == before.Keys
    && forall k {:trigger ReleasedAt(before, after, key, ok, k)} :: ReleasedAt(before, after, key, ok, k)
  }

  /** The ClusterConfigs of the Cluster's namespace that carry its owner reference. */
  ghost function Bearers(configs: Store, key: Key): set<string> {
    set k | k in configs && k.ns == key.ns && ClusterOwner(key.name) in configs[k] :: k.name
  }

  /** No ClusterConfig lists the same Cluster twice. */
  ghost predicate SingleOwners(configs: Store) {
    forall k, n :: k in configs ==> AtMostOnce(configs[k], n)
  }

  /** A reference that occurs once is gone after the cut. */
  lemma CutRemovesSingle(owners: seq<OwnerRef>, n: string)
    requires AtMostOnce(owners, n)
    ensures ClusterOwner(n) !in CutFirst(owners, ClusterOwner(n))
  {
    var o := ClusterOwner(n);
    if o in owners {
      var front, back := CutSplit(owners, o);
      assert multiset(owners) == multiset(front) + multiset{o} + multiset(back);
    }
  }

  lemma CutMembership(owners: seq<OwnerRef>, o: OwnerRef, other: OwnerRef)
    requires other != o
    ensures other in CutFirst(owners, o) <==> other in owners
  {
    if o in owners {
      var front, back := CutSplit(owners, o);
    }
  }

  lemma CutKeepsSingle(owners: seq<OwnerRef>, o: OwnerRef, n: string)
    requires AtMostOnce(owners, n)
    ensures AtMostOnce(CutFirst(owners, o), n)
  {
    if o in owners {
      var front, back := CutSplit(owners, o);
      assert multiset(owners) == multiset(front) + multiset{o} + multiset(back);
    }
  }

  /** Settling keeps every Cluster listed at most once. */
  lemma SettledKeepsSingle(key: Key, refs: seq<string>, changed: bool, k: Key, owners: seq<OwnerRef>, n: string)
    requires AtMostOnce(owners, n)
    ensures AtMostOnce(Settled(key, refs, changed, k, owners), n)
  {
    CutKeepsSingle(owners, ClusterOwner(key.name), n);
  }

  /** Exactness of one successful pass: the Cluster's reference ends up on exactly the referenced
      ClusterConfigs if and only if the digest had changed or no unreferenced ClusterConfig carried
      the reference to begin with. */
  lemma SettleExactIff(before: Store, after: Store, key: Key, refs: seq<string>, recorded: Digest)
    requires SingleOwners(before)
    requires SettleOutcome(before, after, key, refs, recorded, true)
    ensures Bearers(after, key) == (set r | r in refs) <==>
            (DigestOf(refs) != recorded || Bearers(before, key) <= set r | r in refs)
  {
    var o := ClusterOwner(key.name);
    var wanted := set r | r in refs;
    var changed := DigestOf(refs) != recorded;
    forall n | n in wanted ensures n in Bearers(after, key) {
      var k := Key(key.ns, n);
      assert SettledAt(before, after, key, refs, recorded, true, k);
    }
    forall n | n !in wanted ensures n in Bearers(after, key) <==> !changed && n in Bearers(before, key) {
      var k := Key(key.ns, n);
      assert SettledAt(before, after, key, refs, recorded, true, k);
      if k in before {
        CutRemovesSingle(before[k], key.name);
      }
    }
  }

  /** Whatever a pass for one Cluster does to the references, successful or not, all other owner
      references of every ClusterConfig stay as they were, in the same order. */
  lemma SettleKeepsOthers(before: Store, after: Store, key: Key, refs: seq<string>, recorded: Digest, ok: bool, k: Key)
    requires SettleOutcome(before, after, key, refs, recorded, ok)
    requires k in before
    ensures Without(after[k], ClusterOwner(key.name)) == Without(before[k], ClusterOwner(key.name))
  {
    var o := ClusterOwner(key.name);
    assert SettledAt(before, after, key, refs, recorded, ok, k);
    CutKeepsOthers(before[k], o);
    WithoutConcat(before[k], [o], o);
  }

  /** A referenced ClusterConfig keeps its owner references as they are, and gets the Cluster's at the end if it does
      not have it. */
  lemma SettleAppends(before: Store, after: Store, key: Key, refs: seq<string>, recorded: Digest, k: Key)
    requires SettleOutcome(before, after, key, refs, recorded, true)
    requires k in before
    requires k.ns == key.ns && k.name in refs
    ensures ClusterOwner(key.name) in before[k] ==> after[k] == before[k]
    ensures ClusterOwner(key.name) !in before[k] ==> after[k] == before[k] + [ClusterOwner(key.name)]
  {
    assert SettledAt(before, after, key, refs, recorded, true, k);
  }

  lemma ReleaseKeepsOthers(before: Store, after: Store, key: Key, ok: bool, k: Key)
    requires ReleaseOutcome(before, after, key, ok)
    requires k in before
    ensures Without(after[k], ClusterOwner(key.name)) == Without(before[k], ClusterOwner(key.name))
  {
    assert ReleasedAt(before, after, key, ok, k);
    CutKeepsOthers(before[k], ClusterOwner(key.name));
  }

  /** A complete release leaves the Cluster's reference nowhere. */
  lemma ReleaseClears(before: Store, after: Store, key: Key)
    requires SingleOwners(before)
    requires ReleaseOutcome(before, after, key, true)
    ensures Bearers(after, key) == {}
  {
    forall k | k in after && k.ns == key.ns ensures ClusterOwner(key.name) !in after[k] {
      assert ReleasedAt(before, after, key, true, k);
      CutRemovesSingle(before[k], key.name);
    }
  }
}
