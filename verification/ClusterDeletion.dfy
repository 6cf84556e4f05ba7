/** Progress of a Cluster's deletion, and the events it hinges on. */
module ClusterDeletion {
  import opened Common
  import opened ClusterConfigs
  import opened ClusterLifecycle
  import opened ClusterSafety
  import opened ClusterRuns

  /** A pass in which no API call fails and no write is lost. */
  predicate Clean(f: Faults) {
    && !f.clusterGetFails && !f.annotationFails && !f.shootGetFails && !f.shootListFails && !f.conflictCheckFails
    && !f.finalizerFails && f.configsOk && !f.labelsFail && f.written && !f.statusLost && !f.confirmFails && f.deleted
  }

  ghost predicate UnderDeletion(w: World, key: Key) {
    && key in w.clusters && w.clusters[key].deleting && ClusterFinalizer in w.clusters[key].finalizers
    && !w.clusters[key].ignored && Resolves(w, w.clusters[key])
  }

  ghost predicate GardenerAtWork(w: World, key: Key) {
    exists l :: l in Labelled(w.shoots, key) && w.shoots[l].deleting
  }

  /** The overridden name of the Cluster is the name of a Shoot that is not its own. */
  ghost predicate NameTaken(w: World, key: Key)
    requires key in w.clusters && w.clusters[key].profile in w.sites
  {
    var t := Target(w.sites[w.clusters[key].profile], key, w.clusters[key]);
    w.clusters[key].nameLabel.Some? && t in w.shoots && t !in Labelled(w.shoots, key)
  }

  function ForeignSet(finalizers: seq<Finalizer>): set<Finalizer> {
    set x | x in finalizers && x != ClusterFinalizer
  }

  /** How far a Cluster is from being released: foreign finalizers, then the Shoot that still has to be
      put under deletion, then Gardener's part, then the finalizer. */
  ghost function Distance(w: World, key: Key): nat {
    if key !in w.clusters || ClusterFinalizer !in w.clusters[key].finalizers then 0
    else
      |ForeignSet(w.clusters[key].finalizers)|
      + (if Labelled(w.shoots, key) == {} then 1 else if GardenerAtWork(w, key) then 2 else 3)
  }

  lemma OneLabelled(w: World, key: Key, l: Loc)
    requires Unique(w) && l in Labelled(w.shoots, key)
    ensures Labelled(w.shoots, key) == {l}
  {}

  /** A clean pass over a Cluster under deletion without foreign finalizers gets closer, unless it is
      Gardener's turn or the conflict check on an overridden name, which comes first even on deletion,
      finds the name taken by somebody else's Shoot after the own one is gone. */
  lemma CleanPassAdvancesIff(w: World, key: Key, f: Faults, after: Store)
    requires Safe(w) && UnderDeletion(w, key) && Foreign(w.clusters[key].finalizers) == []
    requires Clean(f)
    ensures var w' := ClusterPass(w, key, f, after);
            Distance(w', key) < Distance(w, key) <==>
            !(GardenerAtWork(w, key) || (Labelled(w.shoots, key) == {} && NameTaken(w, key)))
  {
    LookupIsExact(w, key, f);
    var c := w.clusters[key];
    var site := w.sites[c.profile];
    var w' := ClusterPass(w, key, f, after);
    if mine :| mine in Labelled(w.shoots, key) {
      OneLabelled(w, key, mine);
      assert Reachable(c, site, mine);
      LookupHits(w, key, f, mine);
      if !w.shoots[mine].deleting {
        assert w'.shoots == w.shoots[mine := w.shoots[mine].(confirmed := true, deleting := true)];
        assert mine in Labelled(w'.shoots, key);
        assert !GardenerAtWork(w, key);
      } else {
        assert GardenerAtWork(w, key);
      }
    } else {
      LookupMisses(w, key, f);
    }
  }

  /** A Cluster under deletion whose Shoot is gone and whose overridden name belongs to somebody else. */
  ghost predicate Blocked(w: World, key: Key) {
    && Safe(w) && key in w.clusters && w.clusters[key].deleting && w.clusters[key].profile in w.sites
    && ClusterFinalizer in w.clusters[key].finalizers
    && Labelled(w.shoots, key) == {} && NameTaken(w, key)
  }

  /** No pass over such a Cluster does anything, whether or not its calls fail. */
  lemma BlockedPassIsIdle(w: World, key: Key, f: Faults, after: Store)
    requires Blocked(w, key)
    ensures ClusterPass(w, key, f, after) == w
  {
    var c := w.clusters[key];
    var site := w.sites[c.profile];
    assert LabelledAt(w.shoots, site, key) == {};
    if c.status.Some? {
      assert RecordedLoc(site, c.status.value) !in Labelled(w.shoots, key);
    }
  }

  /** Nobody edits the Cluster or removes the Shoot that has its name. */
  ghost predicate LeavesBlocked(w: World, key: Key, s: Step) {
    && (s.EditCluster? ==> s.key != key)
    && (s.ShootGone? && key in w.clusters && w.clusters[key].profile in w.sites ==>
          s.loc != Target(w.sites[w.clusters[key].profile], key, w.clusters[key]))
  }

  lemma StepKeepsBlocked(w: World, key: Key, s: Step)
    requires Blocked(w, key) && Enabled(w, s) && Harmless(w, s) && LeavesBlocked(w, key, s)
    ensures Blocked(Apply(w, s), key)
  {
    StepKeepsSafe(w, s);
    if s.Pass? {
      if s.key == key {
        BlockedPassIsIdle(w, key, s.f, s.after);
      } else {
        PassIsIsolated(w, s.key, s.f, s.after);
        PassKeepsLabels(w, s.key, s.f, s.after, key);
        OtherPassKeepsCluster(w, s.key, s.f, s.after, key);
      }
    }
  }

  lemma OtherPassKeepsCluster(w: World, k: Key, f: Faults, after: Store, key: Key)
    requires k != key && key in w.clusters
    ensures var w' := ClusterPass(w, k, f, after);
            w'.sites == w.sites && key in w'.clusters && w'.clusters[key] == w.clusters[key]
  {
    if Arrives(w, k, f, Outlook(w, k, f)) {
      UpdateKeepsOthers(w, k, f, after, Outlook(w, k, f), key);
      DeleteKeepsOthers(w, k, f, after, Outlook(w, k, f), key);
    }
  }

  lemma UpdateKeepsOthers(w: World, k: Key, f: Faults, after: Store, found: Found, key: Key)
    requires k in w.clusters && w.clusters[k].profile in w.sites && k != key && key in w.clusters
    requires found.At? ==> found.loc in w.shoots
    ensures var w' := CreateOrUpdate(w, k, f, after, found);
            w'.sites == w.sites && key in w'.clusters && w'.clusters[key] == w.clusters[key]
  {}

  lemma DeleteKeepsOthers(w: World, k: Key, f: Faults, after: Store, found: Found, key: Key)
    requires k in w.clusters && k != key && key in w.clusters
    requires found.At? ==> found.loc in w.shoots
    ensures var w' := Delete(w, k, f, after, found);
            w'.sites == w.sites && key in w'.clusters && w'.clusters[key] == w.clusters[key]
  {}

  ghost predicate LeftBlocked(w: World, key: Key, steps: seq<Step>)
    decreases |steps|
  {
    steps == [] || (LeavesBlocked(w, key, steps[0]) && LeftBlocked(Apply(w, steps[0]), key, steps[1..]))
  }

  /** Such a Cluster is never released, however many passes follow, until its user edits it or the other
      Shoot goes away. */
  lemma {:induction false} TakenNameBlocksRelease(w: World, key: Key, steps: seq<Step>)
    requires Blocked(w, key) && Legal(w, steps) && LeftBlocked(w, key, steps)
    ensures Blocked(Run(w, steps), key)
    decreases |steps|
  {
    if steps != [] {
      StepKeepsBlocked(w, key, steps[0]);
      TakenNameBlocksRelease(Apply(w, steps[0]), key, steps[1..]);
    }
  }

  lemma LookupHits(w: World, key: Key, f: Faults, mine: Loc)
    requires Safe(w) && Clean(f) && UnderDeletion(w, key) && Labelled(w.shoots, key) == {mine}
    ensures Outlook(w, key, f) == At(mine)
  {
    var c := w.clusters[key];
    var site := w.sites[c.profile];
    assert mine in Labelled(w.shoots, key) && Reachable(c, site, mine);
    if c.status.None? {
      assert LabelledAt(w.shoots, site, key) == {mine};
    }
  }

  lemma LookupMisses(w: World, key: Key, f: Faults)
    requires Safe(w) && Clean(f) && UnderDeletion(w, key) && Labelled(w.shoots, key) == {}
    ensures Outlook(w, key, f) == Absent
  {
    var c := w.clusters[key];
    var site := w.sites[c.profile];
    assert LabelledAt(w.shoots, site, key) == {};
    if c.status.Some? {
      assert RecordedLoc(site, c.status.value) !in Labelled(w.shoots, key);
    }
  }

  /** Gardener's part: once the labelled Shoot is gone, the Cluster is one step from release. */
  lemma ShootGoneAdvances(w: World, key: Key, l: Loc)
    requires Safe(w) && l in Labelled(w.shoots, key)
    ensures Distance(Apply(w, ShootGone(l)), key) < Distance(w, key)
    ensures Labelled(Apply(w, ShootGone(l)).shoots, key) == {}
  {
    OneLabelled(w, key, l);
    var w' := Apply(w, ShootGone(l));
    forall l' | l' in w'.shoots ensures w'.shoots[l'].owner != Some(key) {
      assert l' in Labelled(w.shoots, key) <==> l' == l;
    }
    assert ClusterFinalizer in w.clusters[key].finalizers;
  }

  /** No pass sets a Cluster under deletion back, whichever Cluster it is for and whatever fails in it. */
  lemma {:induction false} PassNeverSetsBack(w: World, k: Key, f: Faults, after: Store, key: Key)
    requires Safe(w) && key in w.clusters && w.clusters[key].deleting
    ensures Distance(ClusterPass(w, k, f, after), key) <= Distance(w, key)
  {
    var w' := ClusterPass(w, k, f, after);
    PassIsIsolated(w, k, f, after);
    PassKeepsLabels(w, k, f, after, key);
    if GardenerAtWork(w, key) {
      var l :| l in Labelled(w.shoots, key) && w.shoots[l].deleting;
      PassKeepsDeletion(w, k, f, after, l);
      assert l in Labelled(w'.shoots, key);
    }
    PassKeepsFinalizers(w, k, f, after, key);
  }

  lemma PassKeepsLabels(w: World, k: Key, f: Faults, after: Store, key: Key)
    requires Safe(w) && key in w.clusters && w.clusters[key].deleting
    ensures Labelled(ClusterPass(w, k, f, after).shoots, key) == Labelled(w.shoots, key)
  {
    var w' := ClusterPass(w, k, f, after);
    PassIsIsolated(w, k, f, after);
    if k == key { DeletingPassAddsNothing(w, k, f, after); }
    forall l ensures l in Labelled(w'.shoots, key) <==> l in Labelled(w.shoots, key) {}
  }

  lemma DeletingPassAddsNothing(w: World, key: Key, f: Faults, after: Store)
    requires key in w.clusters && w.clusters[key].deleting
    ensures ClusterPass(w, key, f, after).shoots.Keys == w.shoots.Keys
  {}

  lemma PassKeepsDeletion(w: World, k: Key, f: Faults, after: Store, l: Loc)
    requires Safe(w) && l in w.shoots && w.shoots[l].deleting
    ensures var w' := ClusterPass(w, k, f, after); l in w'.shoots && w'.shoots[l].deleting
  {
    PassIsIsolated(w, k, f, after);
  }

  lemma PassKeepsFinalizers(w: World, k: Key, f: Faults, after: Store, key: Key)
    requires key in w.clusters && w.clusters[key].deleting
    ensures var w' := ClusterPass(w, k, f, after);
            key in w'.clusters ==>
              w'.clusters[key] == w.clusters[key] || ClusterFinalizer !in w'.clusters[key].finalizers
  {}

  /** The last clean pass releases the ClusterConfigs and then the Cluster. */
  lemma LastPassReleases(w: World, key: Key, f: Faults, after: Store)
    requires Safe(w) && SingleOwners(w.configs) && UnderDeletion(w, key) && Foreign(w.clusters[key].finalizers) == []
    requires Clean(f) && ConfigStage(w, key, f, after)
    requires Labelled(w.shoots, key) == {} && !NameTaken(w, key)
    ensures var w' := ClusterPass(w, key, f, after);
            key !in w'.clusters && Labelled(w'.shoots, key) == {} && Bearers(w'.configs, key) == {}
  {
    LookupMisses(w, key, f);
    ReleaseClears(w.configs, after, key);
  }

  /** The first clean pass leaves the Shoot where it is, under deletion, and everything else alone. */
  lemma FirstPassDeletes(w: World, key: Key, l: Loc, f: Faults, after: Store)
    requires Safe(w) && UnderDeletion(w, key) && Foreign(w.clusters[key].finalizers) == []
    requires Clean(f) && l in Labelled(w.shoots, key)
    ensures var w' := ClusterPass(w, key, f, after);
            && Safe(w') && w'.(shoots := w.shoots) == w
            && w'.shoots.Keys == w.shoots.Keys && l in Labelled(w'.shoots, key)
            && forall l' :: l' in w.shoots && l' != l ==> w'.shoots[l'] == w.shoots[l']
  {
    OneLabelled(w, key, l);
    LookupHits(w, key, f, l);
    PassKeepsSafeIff(w, key, f, after);
  }

  /** Deletion completes: a clean pass, Gardener's removal of the Shoot and another clean pass leave
      neither Cluster nor Shoot nor owner reference. */
  lemma DeletionCompletes(w: World, key: Key, l: Loc, f: Faults, f': Faults, after: Store, after': Store)
    requires Safe(w) && SingleOwners(w.configs) && UnderDeletion(w, key) && Foreign(w.clusters[key].finalizers) == []
    requires Clean(f) && Clean(f') && l in Labelled(w.shoots, key) && !NameTaken(w, key)
    requires ReleaseOutcome(w.configs, after', key, true)
    ensures var end := Run(w, [Pass(key, f, after), ShootGone(l), Pass(key, f', after')]);
            key !in end.clusters && Labelled(end.shoots, key) == {} && Bearers(end.configs, key) == {}
  {
    FirstPassDeletes(w, key, l, f, after);
    var w1 := ClusterPass(w, key, f, after);
    ReleaseAfterRemoval(w1, key, l, f', after');
    RunOfThree(w, Pass(key, f, after), ShootGone(l), Pass(key, f', after'));
  }

  lemma ReleaseAfterRemoval(w: World, key: Key, l: Loc, f: Faults, after: Store)
    requires Safe(w) && SingleOwners(w.configs) && UnderDeletion(w, key) && Foreign(w.clusters[key].finalizers) == []
    requires Clean(f) && l in Labelled(w.shoots, key) && !NameTaken(w, key)
    requires ReleaseOutcome(w.configs, after, key, true)
    ensures var end := ClusterPass(Apply(w, ShootGone(l)), key, f, after);
            key !in end.clusters && Labelled(end.shoots, key) == {} && Bearers(end.configs, key) == {}
  {
    var w' := Apply(w, ShootGone(l));
    OneLabelled(w, key, l);
    ShootGoneAdvances(w, key, l);
    StepKeepsSafe(w, ShootGone(l));
    LastPassReleases(w', key, f, after);
  }

  lemma RunOfThree(w: World, a: Step, b: Step, c: Step)
    ensures Run(w, [a, b, c]) == Apply(Apply(Apply(w, a), b), c)
  {
    assert [a, b, c][1..] == [b, c] && [b, c][1..] == [c] && [c][1..] == [];
    var w2 := Apply(Apply(w, a), b);
    assert Run(w2, [c]) == Run(Apply(w2, c), []);
  }

  // ---------------------------------------------------------------------------------------------
  // Deletion over runs

  /** The Cluster is there and has not been released. */
  ghost predicate Waiting(w: World, key: Key) {
    key in w.clusters && w.clusters[key].deleting && ClusterFinalizer in w.clusters[key].finalizers
  }

  lemma EditNeverSetsBack(w: World, k: Key, c: Cluster, key: Key)
    requires Enabled(w, EditCluster(k, c)) && Waiting(w, key)
    ensures Distance(Apply(w, EditCluster(k, c)), key) <= Distance(w, key)
    ensures Waiting(Apply(w, EditCluster(k, c)), key)
  {
    if k == key {
      var before, now := ForeignSet(w.clusters[key].finalizers), ForeignSet(c.finalizers);
      assert now <= before;
      FewerElements(now, before);
    }
  }

  lemma FewerElements<T>(a: set<T>, b: set<T>)
    requires a <= b
    ensures |a| <= |b|
  {
    assert b == a + (b - a);
  }

  lemma RemovalNeverSetsBack(w: World, l: Loc, key: Key)
    requires Safe(w) && Waiting(w, key)
    ensures Distance(Apply(w, ShootGone(l)), key) <= Distance(w, key)
  {
    var w' := Apply(w, ShootGone(l));
    if l in Labelled(w.shoots, key) {
      ShootGoneAdvances(w, key, l);
    } else {
      assert Labelled(w'.shoots, key) == Labelled(w.shoots, key);
      assert forall l' :: l' in Labelled(w.shoots, key) ==> w'.shoots[l'] == w.shoots[l'];
    }
  }

  lemma ForeignShootNeverSetsBack(w: World, l: Loc, s: Shoot, key: Key)
    requires Enabled(w, ForeignShoot(l, s)) && Waiting(w, key)
    ensures Distance(Apply(w, ForeignShoot(l, s)), key) <= Distance(w, key)
  {
    var w' := Apply(w, ForeignShoot(l, s));
    assert Labelled(w'.shoots, key) == Labelled(w.shoots, key);
    assert forall l' :: l' in Labelled(w.shoots, key) ==> w'.shoots[l'] == w.shoots[l'];
  }

  lemma StepNeverSetsBack(w: World, s: Step, key: Key)
    requires Safe(w) && Enabled(w, s) && Waiting(w, key)
    ensures Distance(Apply(w, s), key) <= Distance(w, key)
  {
    match s
    case Pass(k, f, after) => PassNeverSetsBack(w, k, f, after, key);
    case EditCluster(k, c) => EditNeverSetsBack(w, k, c, key);
    case ShootGone(l) => RemovalNeverSetsBack(w, l, key);
    case ForeignShoot(l, shoot) => ForeignShootNeverSetsBack(w, l, shoot, key);
    case _ =>
  }

  /** A step that has to bring the Cluster closer to its release: Gardener removes its Shoot, or a pass in
      which nothing fails comes when it is the controller's turn. */
  ghost predicate Effective(w: World, s: Step, key: Key) {
    match s
    case ShootGone(l) => l in Labelled(w.shoots, key)
    case Pass(k, f, _) =>
      && k == key && Clean(f) && UnderDeletion(w, key) && Foreign(w.clusters[key].finalizers) == []
      && !(GardenerAtWork(w, key) || (Labelled(w.shoots, key) == {} && NameTaken(w, key)))
    case _ => false
  }

  ghost function EffectiveSteps(w: World, steps: seq<Step>, key: Key): nat
    decreases |steps|
  {
    if steps == [] then 0
    else (if Effective(w, steps[0], key) then 1 else 0) + EffectiveSteps(Apply(w, steps[0]), steps[1..], key)
  }

  /** The Cluster has not been released at any point of the run. */
  ghost predicate KeepsWaiting(w: World, steps: seq<Step>, key: Key)
    decreases |steps|
  {
    Waiting(w, key) && (steps == [] || KeepsWaiting(Apply(w, steps[0]), steps[1..], key))
  }

  lemma EffectiveStepAdvances(w: World, s: Step, key: Key)
    requires Safe(w) && Enabled(w, s) && Waiting(w, key) && Effective(w, s, key)
    ensures Distance(Apply(w, s), key) < Distance(w, key)
  {
    match s
    case ShootGone(l) => ShootGoneAdvances(w, key, l);
    case Pass(_, f, after) => CleanPassAdvancesIff(w, key, f, after);
  }

  /** Over any legal run the distance of a Cluster under deletion never rises before its release, whatever
      fails and whatever other Clusters and users do, and it drops with every effective step. */
  lemma {:induction false} DistanceFalls(w: World, steps: seq<Step>, key: Key)
    requires Safe(w) && Legal(w, steps) && KeepsWaiting(w, steps, key)
    ensures Distance(Run(w, steps), key) + EffectiveSteps(w, steps, key) <= Distance(w, key)
    ensures Waiting(Run(w, steps), key)
    decreases |steps|
  {
    if steps != [] {
      var s := steps[0];
      StepNeverSetsBack(w, s, key);
      if Effective(w, s, key) { EffectiveStepAdvances(w, s, key); }
      StepKeepsSafe(w, s);
      DistanceFalls(Apply(w, s), steps[1..], key);
    }
  }

  /** So deletion terminates: a legal run with as many effective steps as the distance, three at most once
      the foreign finalizers are gone, has released the Cluster at some point. */
  lemma DeletionTerminates(w: World, steps: seq<Step>, key: Key)
    requires Safe(w) && Legal(w, steps) && Waiting(w, key)
    requires EffectiveSteps(w, steps, key) >= Distance(w, key)
    ensures !KeepsWaiting(w, steps, key)
    ensures Foreign(w.clusters[key].finalizers) == [] ==> Distance(w, key) <= 3
  {
    if KeepsWaiting(w, steps, key) { DistanceFalls(w, steps, key); }
    if Foreign(w.clusters[key].finalizers) == [] {
      WithoutEmpty(w.clusters[key].finalizers, ClusterFinalizer);
      assert ForeignSet(w.clusters[key].finalizers) == {};
    }
  }

  // ---------------------------------------------------------------------------------------------
  // The wake-up a waiting deletion depends on

  /** The update filter: a pass that waits for foreign finalizers is not requeued, so it has to be woken
      when finalizers go away. */
  predicate FinalizersLost(before: seq<Finalizer>, now: seq<Finalizer>, deleting: bool) {
    deleting && |now| < |before|
  }

  /** Comparing lengths is enough. On an object under deletion, which takes no new finalizers, the filter
      fires if and only if some finalizer is gone. */
  lemma {:induction false} FinalizersLostIff(before: seq<Finalizer>, now: seq<Finalizer>)
    requires NoDuplicates(before) && NoDuplicates(now)
    requires forall x :: x in now ==> x in before
    ensures FinalizersLost(before, now, true) <==> exists x :: x in before && x !in now
    ensures !FinalizersLost(before, now, false)
  {
    if x :| x in before && x !in now {
      NoLongerThan(now + [x], before);
    } else {
      NoLongerThan(before, now);
    }
  }

  /** The update that removes the last foreign finalizer always wakes the Cluster. */
  lemma {:induction false} UnblockingUpdateWakes(before: seq<Finalizer>, now: seq<Finalizer>)
    requires NoDuplicates(before) && NoDuplicates(now)
    requires forall x :: x in now ==> x in before
    requires Foreign(before) != [] && Foreign(now) == []
    ensures FinalizersLost(before, now, true)
  {
    var x := Foreign(before)[0];
    assert x in Foreign(before) && x !in Foreign(now);
    FinalizersLostIff(before, now);
  }
}
