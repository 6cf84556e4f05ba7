/** Ownership of ClusterConfigs where every change of a reference list is reconciled before the next, and
    what becomes of a stale reference where it is not. */
module ConfigRuns {
  import opened Common
  import opened ClusterConfigs
  import opened ClusterLifecycle
  import opened ConfigOwnership

  // ---------------------------------------------------------------------------------------------
  // One change at a time

  /** The Clusters whose reference list has changed since the last pass that settled it. */
  ghost function Pending(w: World, pending: set<Key>, s: Step): set<Key> {
    match s
    case Pass(key, f, _) => if SettlesConfigs(w, key, f) then pending - {key} else pending
    case CreateCluster(key, c) => if c.refs == [] then pending - {key} else pending + {key}
    case EditCluster(key, c) => if ChangesRefs(w, key, c) then pending + {key} else pending
    case _ => pending
  }

  predicate ChangesRefs(w: World, key: Key, c: Cluster) {
    key in w.clusters && c.refs != w.clusters[key].refs
  }

  /** Every change of a reference list is reconciled to success before the next change of that list.
      Passes may fail, and everything else is free. */
  ghost predicate OneChangeAtATime(w: World, pending: set<Key>, steps: seq<Step>)
    decreases |steps|
  {
    steps == [] ||
    (&& Enabled(w, steps[0])
     && (steps[0].EditCluster? && ChangesRefs(w, steps[0].key, steps[0].c) ==> steps[0].key !in pending)
     && OneChangeAtATime(Apply(w, steps[0]), Pending(w, pending, steps[0]), steps[1..]))
  }

  /** Where no change is pending, the hash annotation is the one of the current list. */
  ghost predicate HashesMatch(w: World, pending: set<Key>) {
    forall key :: key in w.clusters && key !in pending ==> w.clusters[key].recorded == DigestOf(w.clusters[key].refs)
  }

  /** What a pass over a Cluster `c` makes of its list and its hash. */
  ghost predicate Records(c: Cluster, c': Cluster, settled: bool) {
    c'.refs == c.refs && c'.recorded == if settled then DigestOf(c.refs) else c.recorded
  }

  lemma UpdateRecords(w: World, key: Key, f: Faults, after: Store, found: Found)
    requires key in w.clusters && w.clusters[key].profile in w.sites
    requires found.At? ==> found.loc in w.shoots
    ensures var w' := CreateOrUpdate(w, key, f, after, found);
            && w'.clusters.Keys == w.clusters.Keys
            && (forall k :: k in w.clusters && k != key ==> w'.clusters[k] == w.clusters[k])
            && Records(w.clusters[key], w'.clusters[key],
                       (ClusterFinalizer in w.clusters[key].finalizers || !f.finalizerFails) && f.configsOk)
  {}

  lemma DeleteRecords(w: World, key: Key, f: Faults, after: Store, found: Found)
    requires key in w.clusters
    requires found.At? ==> found.loc in w.shoots
    ensures var w' := Delete(w, key, f, after, found);
            forall k :: k in w'.clusters ==> k in w.clusters && Records(w.clusters[k], w'.clusters[k], false)
  {}

  lemma PassRecords(w: World, key: Key, f: Faults, after: Store, k: Key)
    requires k in ClusterPass(w, key, f, after).clusters
    ensures k in w.clusters
    ensures Records(w.clusters[k], ClusterPass(w, key, f, after).clusters[k], k == key && SettlesConfigs(w, key, f))
  {
    if Arrives(w, key, f, Outlook(w, key, f)) {
      if w.clusters[key].deleting {
        DeleteRecords(w, key, f, after, Outlook(w, key, f));
      } else {
        UpdateRecords(w, key, f, after, Outlook(w, key, f));
      }
    }
  }

  lemma StepKeepsHashes(w: World, pending: set<Key>, s: Step)
    requires HashesMatch(w, pending) && Enabled(w, s)
    ensures HashesMatch(Apply(w, s), Pending(w, pending, s))
  {
    var w', pending' := Apply(w, s), Pending(w, pending, s);
    forall k | k in w'.clusters && k !in pending' ensures w'.clusters[k].recorded == DigestOf(w'.clusters[k].refs) {
      if s.Pass? { PassRecords(w, s.key, s.f, s.after, k); }
    }
  }

  /** A changed list never has the recorded hash if the change before it has been reconciled. */
  lemma ChangeIsOrderly(w: World, pending: set<Key>, s: Step)
    requires Ownership(w) && HashesMatch(w, pending) && Enabled(w, s)
    requires s.EditCluster? && ChangesRefs(w, s.key, s.c) ==> s.key !in pending
    ensures OrderlyEdit(w, s)
  {
    if s.EditCluster? { assert NoStaleBehindDigest(w, s.key); }
  }

  lemma {:induction false} OneChangeIsOrderly(w: World, pending: set<Key>, steps: seq<Step>)
    requires Ownership(w) && HashesMatch(w, pending) && OneChangeAtATime(w, pending, steps)
    ensures OrderlyRun(w, steps)
    decreases |steps|
  {
    if steps != [] {
      ChangeIsOrderly(w, pending, steps[0]);
      StepKeepsOwnership(w, steps[0]);
      StepKeepsHashes(w, pending, steps[0]);
      OneChangeIsOrderly(Apply(w, steps[0]), Pending(w, pending, steps[0]), steps[1..]);
    }
  }

  /** In every run in which each change of a reference list is reconciled to success before the next, a
      pass that gets through the ClusterConfig stage leaves the Cluster's owner reference on exactly the
      referenced ClusterConfigs, and no reference outlives the finalizer of its Cluster. */
  lemma {:induction false} ReconciledRunsAreExact(w: World, pending: set<Key>, steps: seq<Step>, key: Key,
      f: Faults, after: Store)
    requires Ownership(w) && HashesMatch(w, pending) && OneChangeAtATime(w, pending, steps)
    ensures OwnersKnown(Run(w, steps))
    ensures ConfigStage(Run(w, steps), key, f, after) && SettlesConfigs(Run(w, steps), key, f) ==>
              var w' := ClusterPass(Run(w, steps), key, f, after);
              && Bearers(w'.configs, key) == Names(w'.clusters[key].refs)
              && w'.clusters[key].recorded == DigestOf(w'.clusters[key].refs)
              && OwnersKnown(w')
  {
    OneChangeIsOrderly(w, pending, steps);
    RunKeepsOwnership(w, steps);
    if ConfigStage(Run(w, steps), key, f, after) && SettlesConfigs(Run(w, steps), key, f) {
      OwnershipIsExact(w, steps, key, f, after);
    }
  }

  /** A world without ClusterConfigs and Clusters, where every run may start. */
  lemma EmptyWorldIsReconciled(w: World)
    requires w.clusters == map[] && w.configs == map[]
    ensures Ownership(w) && HashesMatch(w, {})
  {}

  // ---------------------------------------------------------------------------------------------
  // A change on top of another

  /** Whatever has been going on before, an edit followed by a pass that gets through the ClusterConfig
      stage ends in exact references if and only if it does not go back to the list whose hash is
      recorded while a ClusterConfig outside that list has the Cluster as owner. */
  lemma EditThenPassIsExactIff(w: World, key: Key, c: Cluster, f: Faults, after: Store)
    requires SingleOwners(w.configs) && Enabled(w, EditCluster(key, c))
    requires var w1 := Apply(w, EditCluster(key, c)); ConfigStage(w1, key, f, after) && SettlesConfigs(w1, key, f)
    ensures Bearers(ClusterPass(Apply(w, EditCluster(key, c)), key, f, after).configs, key) == Names(c.refs) <==>
            !(DigestOf(c.refs) == c.recorded && exists n :: n in Bearers(w.configs, key) && n !in c.refs)
  {
    var w1 := Apply(w, EditCluster(key, c));
    var w2 := ClusterPass(w1, key, f, after);
    assert w1.clusters[key] == c && w1.configs == w.configs;
    SettleExactIff(w.configs, after, key, c.refs, c.recorded);
    assert w2.configs == after;
    assert Bearers(w.configs, key) <= Names(c.refs) <==> !exists n :: n in Bearers(w.configs, key) && n !in c.refs;
  }

  /** A ClusterConfig has the Cluster as owner although the Cluster does not refer to it, and the hash
      annotation says that there is nothing to do. */
  ghost predicate Stale(w: World, key: Key, n: string) {
    && key in w.clusters && !w.clusters[key].deleting
    && w.clusters[key].recorded == DigestOf(w.clusters[key].refs)
    && n !in w.clusters[key].refs && n in Bearers(w.configs, key)
  }

  /** Nobody changes the reference list, deletes the Cluster or deletes the ClusterConfig. */
  ghost predicate LeftAlone(w: World, key: Key, n: string, steps: seq<Step>)
    decreases |steps|
  {
    steps == [] ||
    (&& Enabled(w, steps[0])
     && (steps[0].EditCluster? && steps[0].key == key ==>
           key in w.clusters && steps[0].c.refs == w.clusters[key].refs && !steps[0].c.deleting)
     && steps[0] != RemoveConfig(Key(key.ns, n))
     && LeftAlone(Apply(w, steps[0]), key, n, steps[1..]))
  }

  lemma OwnPassKeepsStale(w: World, key: Key, n: string, f: Faults, after: Store)
    requires Stale(w, key, n) && ConfigStage(w, key, f, after)
    ensures Stale(ClusterPass(w, key, f, after), key, n)
  {
    var c := w.clusters[key];
    var k := Key(key.ns, n);
    assert SettledAt(w.configs, after, key, c.refs, c.recorded, f.configsOk, k);
    assert after[k] == w.configs[k];
    assert k in after && k.name in Bearers(after, key);
  }

  lemma OtherPassKeepsStale(w: World, key: Key, n: string, other: Key, f: Faults, after: Store)
    requires Stale(w, key, n) && other != key && ConfigStage(w, other, f, after)
    ensures Stale(ClusterPass(w, other, f, after), key, n)
  {
    if other in w.clusters {
      var c := w.clusters[other];
      if c.deleting {
        ReleaseKeepsBearersOfOthers(w.configs, after, other, f.configsOk, key);
      } else {
        SettleKeepsBearersOfOthers(w.configs, after, other, c.refs, c.recorded, f.configsOk, key);
      }
    }
  }

  lemma StepKeepsStale(w: World, key: Key, n: string, s: Step)
    requires Stale(w, key, n) && LeftAlone(w, key, n, [s])
    ensures Stale(Apply(w, s), key, n)
  {
    var w' := Apply(w, s);
    var k := Key(key.ns, n);
    match s
    case Pass(other, f, after) =>
      if other == key {
        OwnPassKeepsStale(w, key, n, f, after);
      } else {
        OtherPassKeepsStale(w, key, n, other, f, after);
      }
    case _ =>
      assert k in w'.configs && w'.configs[k] == w.configs[k];
      assert k.name in Bearers(w'.configs, key);
  }

  /** No pass ever removes a stale reference: only a change of the list, the deletion of the Cluster or
      the deletion of the ClusterConfig can. */
  lemma {:induction false} StaleReferenceStays(w: World, key: Key, n: string, steps: seq<Step>)
    requires Stale(w, key, n) && LeftAlone(w, key, n, steps)
    ensures Stale(Run(w, steps), key, n)
    decreases |steps|
  {
    if steps != [] {
      var s := steps[0];
      assert LeftAlone(w, key, n, [s]) by { assert [s][1..] == []; }
      StepKeepsStale(w, key, n, s);
      StaleReferenceStays(Apply(w, s), key, n, steps[1..]);
    }
  }
}
