/** Ownership of ClusterConfigs over whole runs of the Cluster protocol. */
module ConfigOwnership {
  import opened Common
  import opened ClusterConfigs
  import opened ClusterLifecycle

  /** An owner reference to a Cluster means that the Cluster is there and holds the finalizer, so no
      reference outlives it. */
  ghost predicate OwnersKnown(w: World) {
    forall k, n :: k in w.configs && ClusterOwner(n) in w.configs[k] ==>
      Key(k.ns, n) in w.clusters && ClusterFinalizer in w.clusters[Key(k.ns, n)].finalizers
  }

  ghost function Names(refs: seq<string>): set<string> {
    set r | r in refs
  }

  /** A matching hash annotation is never wrong about stale references. */
  ghost predicate NoStaleBehindDigest(w: World, key: Key)
    requires key in w.clusters
  {
    DigestOf(w.clusters[key].refs) == w.clusters[key].recorded ==>
      Bearers(w.configs, key) <= Names(w.clusters[key].refs)
  }

  ghost predicate Ownership(w: World) {
    && SingleOwners(w.configs)
    && OwnersKnown(w)
    && forall key :: key in w.clusters ==> NoStaleBehindDigest(w, key)
  }

  /** The pass gets through the ClusterConfig stage. */
  ghost predicate SettlesConfigs(w: World, key: Key, f: Faults) {
    && Arrives(w, key, f, Outlook(w, key, f)) && !w.clusters[key].deleting
    && (ClusterFinalizer in w.clusters[key].finalizers || !f.finalizerFails) && f.configsOk
  }

  /** Carrying the same reference on the same ClusterConfigs. */
  lemma SameBearers(before: Store, after: Store, other: Key)
    requires before.Keys == after.Keys
    requires forall k :: k in before && k.ns == other.ns ==>
               (ClusterOwner(other.name) in after[k] <==> ClusterOwner(other.name) in before[k])
    ensures Bearers(after, other) == Bearers(before, other)
  {}

  lemma SettledMembership(key: Key, refs: seq<string>, changed: bool, k: Key, owners: seq<OwnerRef>, p: OwnerRef)
    requires p != ClusterOwner(key.name) || k.ns != key.ns
    ensures p in Settled(key, refs, changed, k, owners) <==> p in owners
  {
    if k.ns == key.ns { CutMembership(owners, ClusterOwner(key.name), p); }
  }

  lemma SettleKeepsBearersOfOthers(before: Store, after: Store, key: Key, refs: seq<string>, recorded: Digest,
      ok: bool, other: Key)
    requires SettleOutcome(before, after, key, refs, recorded, ok) && other != key
    ensures Bearers(after, other) == Bearers(before, other)
  {
    var p := ClusterOwner(other.name);
    forall k | k in before && k.ns == other.ns ensures p in after[k] <==> p in before[k] {
      assert SettledAt(before, after, key, refs, recorded, ok, k);
      SettledMembership(key, refs, DigestOf(refs) != recorded, k, before[k], p);
    }
    SameBearers(before, after, other);
  }

  lemma ReleaseKeepsBearersOfOthers(before: Store, after: Store, key: Key, ok: bool, other: Key)
    requires ReleaseOutcome(before, after, key, ok) && other != key
    ensures Bearers(after, other) == Bearers(before, other)
  {
    var o, p := ClusterOwner(key.name), ClusterOwner(other.name);
    forall k | k in before && k.ns == other.ns ensures p in after[k] <==> p in before[k] {
      assert ReleasedAt(before, after, key, ok, k);
      if other.ns == key.ns { CutMembership(before[k], o, p); }
    }
    SameBearers(before, after, other);
  }

  lemma SettleKeepsSingleOwners(before: Store, after: Store, key: Key, refs: seq<string>, recorded: Digest, ok: bool)
    requires SettleOutcome(before, after, key, refs, recorded, ok) && SingleOwners(before)
    ensures SingleOwners(after)
  {
    forall k, n | k in after ensures AtMostOnce(after[k], n) {
      assert SettledAt(before, after, key, refs, recorded, ok, k);
      SettledKeepsSingle(key, refs, DigestOf(refs) != recorded, k, before[k], n);
    }
  }

  lemma ReleaseKeepsSingleOwners(before: Store, after: Store, key: Key, ok: bool)
    requires ReleaseOutcome(before, after, key, ok) && SingleOwners(before)
    ensures SingleOwners(after)
  {
    forall k, n | k in after ensures AtMostOnce(after[k], n) {
      assert ReleasedAt(before, after, key, ok, k);
      CutKeepsSingle(before[k], ClusterOwner(key.name), n);
    }
  }

  /** An interrupted settlement behind a matching hash only ever adds wanted references. */
  lemma MatchingSettleStaysClean(before: Store, after: Store, key: Key, refs: seq<string>, ok: bool)
    requires SettleOutcome(before, after, key, refs, DigestOf(refs), ok)
    ensures Bearers(after, key) <= Bearers(before, key) + Names(refs)
  {
    forall n | n in Bearers(after, key) ensures n in Bearers(before, key) || n in Names(refs) {
      var k := Key(key.ns, n);
      assert SettledAt(before, after, key, refs, DigestOf(refs), ok, k);
      assert ClusterOwner(key.name) in before[k] || k.name in refs;
    }
  }

  /** References to other Clusters keep their owners; references to the Cluster itself have it. */
  lemma OwnersStayKnown(w: World, w': World, key: Key)
    requires OwnersKnown(w)
    requires forall k, n :: k in w'.configs && ClusterOwner(n) in w'.configs[k] && Key(k.ns, n) != key ==>
               k in w.configs && ClusterOwner(n) in w.configs[k]
    requires forall k :: k in w.clusters && k != key ==> k in w'.clusters && w'.clusters[k] == w.clusters[k]
    requires Bearers(w'.configs, key) == {} || (key in w'.clusters && ClusterFinalizer in w'.clusters[key].finalizers)
    ensures OwnersKnown(w')
  {
    forall k, n | k in w'.configs && ClusterOwner(n) in w'.configs[k]
      ensures Key(k.ns, n) in w'.clusters && ClusterFinalizer in w'.clusters[Key(k.ns, n)].finalizers
    {
      if Key(k.ns, n) == key {
        assert k.name in Bearers(w'.configs, key);
      }
    }
  }

  lemma BearersAreCarriers(before: Store, after: Store, k: Key, n: string)
    requires Bearers(after, Key(k.ns, n)) == Bearers(before, Key(k.ns, n))
    requires k in after && ClusterOwner(n) in after[k]
    ensures k in before && ClusterOwner(n) in before[k]
  {
    assert k.name in Bearers(after, Key(k.ns, n));
  }

  lemma CreatePassKeepsOwnership(w: World, key: Key, f: Faults, after: Store)
    requires Ownership(w) && ConfigStage(w, key, f, after)
    requires key in w.clusters && !w.clusters[key].deleting && Arrives(w, key, f, Outlook(w, key, f))
    requires ClusterFinalizer in w.clusters[key].finalizers || !f.finalizerFails
    ensures Ownership(CreateOrUpdate(w, key, f, after, Outlook(w, key, f)))
    ensures f.configsOk ==> Bearers(after, key) == Names(w.clusters[key].refs)
  {
    var c := w.clusters[key];
    var w' := CreateOrUpdate(w, key, f, after, Outlook(w, key, f));
    assert w'.configs == after && w'.clusters == w.clusters[key := w'.clusters[key]];
    forall k | k != key ensures Bearers(after, k) == Bearers(w.configs, k) {
      SettleKeepsBearersOfOthers(w.configs, after, key, c.refs, c.recorded, f.configsOk, k);
    }
    SettleKeepsSingleOwners(w.configs, after, key, c.refs, c.recorded, f.configsOk);
    forall k, n | k in after && ClusterOwner(n) in after[k] && Key(k.ns, n) != key
      ensures k in w.configs && ClusterOwner(n) in w.configs[k]
    {
      BearersAreCarriers(w.configs, after, k, n);
    }
    OwnersStayKnown(w, w', key);
    if f.configsOk {
      SettleExactIff(w.configs, after, key, c.refs, c.recorded);
    } else if DigestOf(c.refs) == c.recorded {
      MatchingSettleStaysClean(w.configs, after, key, c.refs, f.configsOk);
    }
    assert NoStaleBehindDigest(w', key);
    forall k | k in w'.clusters ensures NoStaleBehindDigest(w', k) {
      if k != key { assert NoStaleBehindDigest(w, k); }
    }
  }

  lemma ReleaseStageKeepsOthers(w: World, key: Key, after: Store, ok: bool)
    requires ReleaseOutcome(w.configs, after, key, ok)
    ensures forall k, n :: k in after && ClusterOwner(n) in after[k] && Key(k.ns, n) != key ==>
              k in w.configs && ClusterOwner(n) in w.configs[k]
    ensures forall k :: k != key ==> Bearers(after, k) == Bearers(w.configs, k)
  {
    forall k | k != key ensures Bearers(after, k) == Bearers(w.configs, k) {
      ReleaseKeepsBearersOfOthers(w.configs, after, key, ok, k);
    }
    forall k, n | k in after && ClusterOwner(n) in after[k] && Key(k.ns, n) != key
      ensures k in w.configs && ClusterOwner(n) in w.configs[k]
    {
      BearersAreCarriers(w.configs, after, k, n);
    }
  }

  /** A pass that gets to the release: the references go, perhaps not all, and if all go, perhaps the Cluster
      too. */
  lemma ReleaseKeepsOwnership(w: World, w': World, key: Key, ok: bool)
    requires Ownership(w) && key in w.clusters && ReleaseOutcome(w.configs, w'.configs, key, ok)
    requires w'.clusters == w.clusters || (ok && w'.clusters == w.clusters - {key})
    ensures Ownership(w')
  {
    ReleaseStageKeepsOthers(w, key, w'.configs, ok);
    ReleaseKeepsSingleOwners(w.configs, w'.configs, key, ok);
    ReleaseOnlyCuts(w.configs, w'.configs, key, ok);
    if ok { ReleaseClears(w.configs, w'.configs, key); }
    NoBearersWithoutFinalizer(w, key);
    OwnersStayKnown(w, w', key);
    forall k | k in w'.clusters ensures NoStaleBehindDigest(w', k) { assert NoStaleBehindDigest(w, k); }
  }

  lemma DeletePassKeepsOwnership(w: World, key: Key, f: Faults, after: Store)
    requires Ownership(w) && ConfigStage(w, key, f, after)
    requires key in w.clusters && w.clusters[key].deleting && Arrives(w, key, f, Outlook(w, key, f))
    ensures Ownership(Delete(w, key, f, after, Outlook(w, key, f)))
  {
    var w' := Delete(w, key, f, after, Outlook(w, key, f));
    if w'.configs == w.configs && w'.clusters == w.clusters {
      forall k | k in w'.clusters ensures NoStaleBehindDigest(w', k) { assert NoStaleBehindDigest(w, k); }
    } else {
      ReleaseKeepsOwnership(w, w', key, f.configsOk);
    }
  }

  lemma NoBearersWithoutFinalizer(w: World, key: Key)
    requires OwnersKnown(w)
    ensures Bearers(w.configs, key) == {} || (key in w.clusters && ClusterFinalizer in w.clusters[key].finalizers)
  {
    if n :| n in Bearers(w.configs, key) {
      var k := Key(key.ns, n);
      assert k in w.configs && ClusterOwner(key.name) in w.configs[k];
      assert Key(k.ns, key.name) == key;
    }
  }

  lemma CutOnlyRemoves(owners: seq<OwnerRef>, o: OwnerRef)
    ensures o in CutFirst(owners, o) ==> o in owners
  {}

  lemma ReleaseOnlyCuts(before: Store, after: Store, key: Key, ok: bool)
    requires ReleaseOutcome(before, after, key, ok)
    ensures Bearers(after, key) <= Bearers(before, key)
  {
    var o := ClusterOwner(key.name);
    forall k | k in after && o in after[k] && k.ns == key.ns ensures o in before[k] {
      assert ReleasedAt(before, after, key, ok, k);
      CutOnlyRemoves(before[k], o);
    }
  }

  lemma {:induction false} PassKeepsOwnership(w: World, key: Key, f: Faults, after: Store)
    requires Ownership(w) && ConfigStage(w, key, f, after)
    ensures Ownership(ClusterPass(w, key, f, after))
    ensures SettlesConfigs(w, key, f) ==>
              Bearers(ClusterPass(w, key, f, after).configs, key) == Names(w.clusters[key].refs)
  {
    if Arrives(w, key, f, Outlook(w, key, f)) {
      if w.clusters[key].deleting {
        DeletePassKeepsOwnership(w, key, f, after);
      } else if ClusterFinalizer in w.clusters[key].finalizers || !f.finalizerFails {
        CreatePassKeepsOwnership(w, key, f, after);
      }
    }
  }

  /** The step of the run theorem for edits. What the condition comes to for the passes that follow is in
      ConfigRuns. */
  lemma EditKeepsOwnershipIff(w: World, key: Key, c: Cluster)
    requires Ownership(w) && Enabled(w, EditCluster(key, c)) && !(c.deleting && c.finalizers == [])
    ensures Ownership(Apply(w, EditCluster(key, c))) <==>
            (DigestOf(c.refs) == c.recorded ==> Bearers(w.configs, key) <= Names(c.refs))
  {
    var w' := Apply(w, EditCluster(key, c));
    assert OwnersKnown(w');
    forall k | k in w'.clusters && k != key ensures NoStaleBehindDigest(w', k) { assert NoStaleBehindDigest(w, k); }
    if Ownership(w') { assert NoStaleBehindDigest(w', key); }
  }

  ghost predicate OrderlyEdit(w: World, s: Step) {
    s.EditCluster? ==> DigestOf(s.c.refs) == s.c.recorded ==> Bearers(w.configs, s.key) <= Names(s.c.refs)
  }

  lemma {:induction false} StepKeepsOwnership(w: World, s: Step)
    requires Ownership(w) && Enabled(w, s) && OrderlyEdit(w, s)
    ensures Ownership(Apply(w, s))
  {
    var w' := Apply(w, s);
    match s
    case Pass(key, f, after) => PassKeepsOwnership(w, key, f, after);
    case EditCluster(key, c) =>
      if c.deleting && c.finalizers == [] {
        NoBearersWithoutFinalizer(w, key);
        OwnersStayKnown(w, w', key);
        forall k | k in w'.clusters ensures NoStaleBehindDigest(w', k) { assert NoStaleBehindDigest(w, k); }
      } else {
        EditKeepsOwnershipIff(w, key, c);
      }
    case CreateCluster(key, c) =>
      NoBearersWithoutFinalizer(w, key);
      OwnersStayKnown(w, w', key);
      forall k | k in w'.clusters ensures NoStaleBehindDigest(w', k) {
        if k != key { assert NoStaleBehindDigest(w, k); }
      }
    case AddConfig(config, owners) => AddConfigKeepsOwnership(w, config, owners);
    case RemoveConfig(config) =>
      forall k | k in w'.clusters ensures NoStaleBehindDigest(w', k) {
        assert NoStaleBehindDigest(w, k) && Bearers(w'.configs, k) <= Bearers(w.configs, k);
      }
    case _ =>
      forall k | k in w'.clusters ensures NoStaleBehindDigest(w', k) { assert NoStaleBehindDigest(w, k); }
  }

  lemma AddConfigKeepsOwnership(w: World, config: Key, owners: seq<OwnerRef>)
    requires Ownership(w) && Enabled(w, AddConfig(config, owners))
    ensures Ownership(Apply(w, AddConfig(config, owners)))
  {
    var w' := Apply(w, AddConfig(config, owners));
    forall k, n | k in w'.configs ensures AtMostOnce(w'.configs[k], n) {
      if k == config { assert ClusterOwner(n) !in owners; }
    }
    forall k | k in w'.clusters ensures NoStaleBehindDigest(w', k) {
      assert NoStaleBehindDigest(w, k) && Bearers(w'.configs, k) <= Bearers(w.configs, k);
    }
  }

  ghost predicate OrderlyRun(w: World, steps: seq<Step>)
    decreases |steps|
  {
    steps == [] || (Enabled(w, steps[0]) && OrderlyEdit(w, steps[0]) && OrderlyRun(Apply(w, steps[0]), steps[1..]))
  }

  lemma {:induction false} RunKeepsOwnership(w: World, steps: seq<Step>)
    requires Ownership(w) && OrderlyRun(w, steps)
    ensures Ownership(Run(w, steps))
    decreases |steps|
  {
    if steps != [] {
      StepKeepsOwnership(w, steps[0]);
      RunKeepsOwnership(Apply(w, steps[0]), steps[1..]);
    }
  }

  /** At the end of every orderly run, a pass that gets through the ClusterConfig stage leaves the
      Cluster's owner reference on exactly the referenced ClusterConfigs, and no ClusterConfig refers
      to a Cluster that is gone or has lost its finalizer. */
  lemma {:induction false} OwnershipIsExact(w: World, steps: seq<Step>, key: Key, f: Faults, after: Store)
    requires Ownership(w) && OrderlyRun(w, steps)
    requires ConfigStage(Run(w, steps), key, f, after) && SettlesConfigs(Run(w, steps), key, f)
    ensures var w' := ClusterPass(Run(w, steps), key, f, after);
            && Bearers(w'.configs, key) == Names(Run(w, steps).clusters[key].refs)
            && w'.clusters[key].recorded == DigestOf(w'.clusters[key].refs)
            && OwnersKnown(w')
  {
    RunKeepsOwnership(w, steps);
    PassKeepsOwnership(Run(w, steps), key, f, after);
  }
}
