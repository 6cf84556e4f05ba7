/** What a pass that is not benign can come to: from the world it leaves there is always a run to a Shoot that
    is left behind, taken over, or put under deletion against the will of its Cluster. */
module ClusterHarm {
  import opened Common
  import opened ClusterConfigs
  import opened ClusterLifecycle
  import opened ClusterSafety
  import opened ClusterRuns
  import opened ClusterReach

  // ---------------------------------------------------------------------------------------------
  // Harm

  /** A Shoot is labelled for a Cluster that does not exist. */
  ghost predicate Orphaned(w: World) {
    exists l :: l in w.shoots && w.shoots[l].owner.Some? && w.shoots[l].owner.value !in w.clusters
  }

  /** A Shoot has got the labels of a Cluster that it did not belong to. */
  ghost predicate Seized(before: World, now: World) {
    exists l :: l in before.shoots && l in now.shoots
                && now.shoots[l].owner.Some? && now.shoots[l].owner != before.shoots[l].owner
  }

  /** A Shoot is under deletion, although its Cluster is not. */
  ghost predicate Struck(w: World) {
    exists l :: l in w.shoots && w.shoots[l].deleting && w.shoots[l].owner.Some?
                && w.shoots[l].owner.value in w.clusters && !w.clusters[w.shoots[l].owner.value].deleting
  }

  ghost predicate Harm(before: World, now: World) {
    Orphaned(now) || Seized(before, now) || Struck(now)
  }

  /** No legal run comes to the first or the last of these, and no pass of one to the second. */
  lemma SafeIsUnharmed(w: World, key: Key, f: Faults, after: Store)
    requires Safe(w)
    ensures !Orphaned(w) && !Struck(w) && !Seized(w, ClusterPass(w, key, f, after))
  {
    PassIsIsolated(w, key, f, after);
  }

  /** A Cluster with a recorded Shoot holds the finalizer of the provider. */
  ghost predicate RecordersHold(w: World) {
    forall k :: k in w.clusters && w.clusters[k].status.Some? ==> ClusterFinalizer in w.clusters[k].finalizers
  }

  // ---------------------------------------------------------------------------------------------
  // Passes in which nothing fails

  function NothingFails(): Faults {
    Faults(false, false, false, false, false, false, true, Some(""), false, true, false, false, true)
  }

  /** The ClusterConfigs without the owner reference of a Cluster. */
  function AllReleased(configs: Store, key: Key): Store {
    map k | k in configs :: Released(key, k, configs[k])
  }

  lemma ReleaseIsPossible(configs: Store, key: Key)
    ensures ReleaseOutcome(configs, AllReleased(configs, key), key, true)
  {
    forall k ensures ReleasedAt(configs, AllReleased(configs, key), key, true, k) {}
  }

  function AllSettled(configs: Store, key: Key, recorded: Digest): Store {
    map k | k in configs :: Settled(key, [], DigestOf([]) != recorded, k, configs[k])
  }

  lemma SettlingIsPossible(configs: Store, key: Key, recorded: Digest)
    ensures SettleOutcome(configs, AllSettled(configs, key, recorded), key, [], recorded, true)
  {
    forall k ensures SettledAt(configs, AllSettled(configs, key, recorded), key, [], recorded, true, k) {}
  }

  // ---------------------------------------------------------------------------------------------
  // Preparations

  /** A Cluster on which the next pass gets through. */
  ghost predicate Ready(w: World, key: Key) {
    && key in w.clusters && Resolves(w, w.clusters[key])
    && !w.clusters[key].ignored && w.clusters[key].refs == []
    && ClusterFinalizer in w.clusters[key].finalizers
    && (w.clusters[key].deleting ==> Foreign(w.clusters[key].finalizers) == [])
  }

  /** The Cluster as its user can leave it: without references, without the ignore annotation, without an
      overridden name, and without foreign finalizers if it is deleted. */
  function Opened(c: Cluster, deleting: bool): Cluster {
    c.(ignored := false, refs := [], nameLabel := None, deleting := deleting,
       finalizers := if deleting then [ClusterFinalizer] else c.finalizers)
  }

  /** The world after that edit, with everything registered that the Cluster needs. */
  function Prepared(w: World, key: Key, deleting: bool): World
    requires key in w.clusters && w.clusters[key].profile in w.sites
  {
    var c := w.clusters[key];
    w.(clusters := w.clusters[key := Opened(c, deleting)], known := w.known + {c.profile},
       landscapes := w.landscapes[w.sites[c.profile].landscape := true])
  }

  lemma PreparingIsPossible(w: World, key: Key, deleting: bool)
    requires key in w.clusters && w.clusters[key].profile in w.sites
    requires ClusterFinalizer in w.clusters[key].finalizers && (w.clusters[key].deleting ==> deleting)
    ensures Leads(w, Prepared(w, key, deleting))
    ensures Ready(Prepared(w, key, deleting), key)
  {
    var c := w.clusters[key];
    var w1 := w.(clusters := w.clusters[key := Opened(c, deleting)]);
    var w2 := Prepared(w, key, deleting);
    OneStep(w, EditCluster(key, Opened(c, deleting)), w1);
    OneStep(w1, Register(w2.known, w2.landscapes), w2);
    Chain(w, w1, w2);
    WithoutEmpty([ClusterFinalizer], ClusterFinalizer);
  }

  // ---------------------------------------------------------------------------------------------
  // A recorded name of somebody else's Shoot

  /** The next pass over a Cluster that has recorded a Shoot takes it over, or puts it under deletion. */
  lemma RecordedShootIsTaken(w: World, key: Key, t: Loc)
    requires Ready(w, key) && w.clusters[key].status.Some?
    requires t == RecordedLoc(w.sites[w.clusters[key].profile], w.clusters[key].status.value) && t in w.shoots
    ensures exists w' :: Leads(w, w') && t in w'.shoots && w'.clusters.Keys == w.clusters.Keys
              && (forall k :: k in w.clusters && k != key ==> w'.clusters[k] == w.clusters[k])
              && if w.clusters[key].deleting
                 then w'.shoots[t].deleting && w'.shoots[t].owner == w.shoots[t].owner
                 else w'.shoots[t].owner == Some(key)
  {
    var c, f := w.clusters[key], NothingFails();
    assert Outlook(w, key, f) == At(t);
    assert Arrives(w, key, f, At(t));
    if c.deleting {
      var after := AllReleased(w.configs, key);
      ReleaseIsPossible(w.configs, key);
      DeletingTakes(w, key, t, after);
      OneStep(w, Pass(key, f, after), ClusterPass(w, key, f, after));
    } else {
      var after := AllSettled(w.configs, key, c.recorded);
      SettlingIsPossible(w.configs, key, c.recorded);
      UpdatingTakes(w, key, t, after);
      OneStep(w, Pass(key, f, after), ClusterPass(w, key, f, after));
    }
  }

  lemma DeletingTakes(w: World, key: Key, t: Loc, after: Store)
    requires Ready(w, key) && w.clusters[key].deleting && t in w.shoots
    ensures var w' := Delete(w, key, NothingFails(), after, At(t));
            && w'.clusters == w.clusters && t in w'.shoots
            && w'.shoots[t].deleting && w'.shoots[t].owner == w.shoots[t].owner
  {}

  lemma UpdatingTakes(w: World, key: Key, t: Loc, after: Store)
    requires Ready(w, key) && !w.clusters[key].deleting && t in w.shoots
    ensures var w' := CreateOrUpdate(w, key, NothingFails(), after, At(t));
            && w'.clusters.Keys == w.clusters.Keys && t in w'.shoots && w'.shoots[t].owner == Some(key)
            && forall k :: k in w.clusters && k != key ==> w'.clusters[k] == w.clusters[k]
  {}

  /** A Cluster has recorded a Shoot that is not its own. A Shoot of an existing Cluster that is not under
      deletion is harmed even if the Cluster that has recorded it is. */
  lemma WrongRecordLeadsToHarm(w: World, key: Key, t: Loc)
    requires key in w.clusters && w.clusters[key].profile in w.sites && w.clusters[key].status.Some?
    requires ClusterFinalizer in w.clusters[key].finalizers
    requires t == RecordedLoc(w.sites[w.clusters[key].profile], w.clusters[key].status.value)
    requires t in w.shoots && w.shoots[t].owner != Some(key)
    requires w.clusters[key].deleting ==>
               && w.shoots[t].owner.Some? && w.shoots[t].owner.value in w.clusters
               && !w.clusters[w.shoots[t].owner.value].deleting
    ensures exists w' :: Leads(w, w') && Harm(w, w')
  {
    var deleting := w.clusters[key].deleting;
    var w1 := Prepared(w, key, deleting);
    PreparingIsPossible(w, key, deleting);
    RecordedShootIsTaken(w1, key, t);
    var w2 :| Leads(w1, w2) && t in w2.shoots && w2.clusters.Keys == w1.clusters.Keys
              && (forall k :: k in w1.clusters && k != key ==> w2.clusters[k] == w1.clusters[k])
              && if w1.clusters[key].deleting
                 then w2.shoots[t].deleting && w2.shoots[t].owner == w1.shoots[t].owner
                 else w2.shoots[t].owner == Some(key);
    Chain(w, w1, w2);
    if deleting {
      assert w2.clusters[w.shoots[t].owner.value] == w.clusters[w.shoots[t].owner.value];
      assert Struck(w2);
    } else {
      assert Seized(w, w2);
    }
  }

  // ---------------------------------------------------------------------------------------------
  // A Shoot that is not recorded

  /** Once its user deletes it, a Cluster that has recorded a vanished Shoot leaves all its Shoots behind. */
  lemma MissedShootIsOrphaned(w: World, key: Key, t: Loc)
    requires key in w.clusters && w.clusters[key].profile in w.sites && w.clusters[key].status.Some?
    requires ClusterFinalizer in w.clusters[key].finalizers
    requires RecordedLoc(w.sites[w.clusters[key].profile], w.clusters[key].status.value) !in w.shoots
    requires t in w.shoots && w.shoots[t].owner == Some(key)
    ensures exists w' :: Leads(w, w') && Harm(w, w')
  {
    var w1, f := Prepared(w, key, true), NothingFails();
    var after := AllReleased(w.configs, key);
    var w2 := ClusterPass(w1, key, f, after);
    PreparingIsPossible(w, key, true);
    ReleaseIsPossible(w.configs, key);
    OneStep(w1, Pass(key, f, after), w2);
    Chain(w, w1, w2);
    LastPassReleases(w1, key, after);
    assert t in w2.shoots && w2.shoots[t].owner == Some(key) && key !in w2.clusters;
    assert Orphaned(w2);
  }

  lemma LastPassReleases(w: World, key: Key, after: Store)
    requires Ready(w, key) && w.clusters[key].deleting && w.clusters[key].nameLabel.None?
    requires w.clusters[key].status.Some?
    requires RecordedLoc(w.sites[w.clusters[key].profile], w.clusters[key].status.value) !in w.shoots
    ensures var w' := ClusterPass(w, key, NothingFails(), after);
            key !in w'.clusters && w'.shoots == w.shoots
  {
    var f := NothingFails();
    assert Outlook(w, key, f) == Absent;
    assert Arrives(w, key, f, Absent);
    WithoutEmpty(w.clusters[key].finalizers, ClusterFinalizer);
  }

  // ---------------------------------------------------------------------------------------------
  // Passes that are not benign

  /** What such a pass leaves behind. */
  lemma HarmfulPassEffect(w: World, key: Key, f: Faults, after: Store)
    requires Safe(w) && !Benign(w, key, f)
    ensures var w', c := ClusterPass(w, key, f, after), w.clusters[key];
            var site := w.sites[c.profile];
            var t := Target(site, key, c);
            && key in w.clusters && c.profile in w.sites && !c.deleting
            && w'.sites == w.sites && key in w'.clusters && w'.clusters[key].profile == c.profile
            && !w'.clusters[key].deleting && ClusterFinalizer in w'.clusters[key].finalizers
            && (forall k :: k in w.clusters && k != key ==> k in w'.clusters && w'.clusters[k] == w.clusters[k])
            && t in w'.shoots
            && if t in w.shoots
               then && w'.shoots == w.shoots && w.shoots[t].owner != Some(key)
                    && w'.clusters[key].status == Some(ShootRef(t.ns, t.name))
               else && w'.shoots == w.shoots[t := w'.shoots[t]] && w'.shoots[t].owner == Some(key)
                    && (Unclaimed(w, key, t) ==>
                          && w'.clusters[key].status == c.status && c.status.Some?
                          && RecordedLoc(site, c.status.value) !in w.shoots
                          && RecordedLoc(site, c.status.value) != t)
  {
    LookupIsExact(w, key, f);
    var c := w.clusters[key];
    var t := Target(w.sites[c.profile], key, c);
    if t in w.shoots { assert t !in Labelled(w.shoots, key); }
  }

  /** Every pass that is not benign can be continued to harm, by steps that are open to users, Gardener's
      operators and the controller at any time. */
  lemma HarmfulPassLeadsToHarm(w: World, key: Key, f: Faults, after: Store)
    requires Safe(w) && RecordersHold(w) && !Benign(w, key, f)
    ensures var w' := ClusterPass(w, key, f, after);
            exists now :: Leads(w', now) && Harm(w', now)
  {
    var w' := ClusterPass(w, key, f, after);
    HarmfulPassEffect(w, key, f, after);
    var c := w.clusters[key];
    var site := w.sites[c.profile];
    var t := Target(site, key, c);
    assert RecordedLoc(site, ShootRef(t.ns, t.name)) == t;
    if t in w.shoots {
      WrongRecordLeadsToHarm(w', key, t);
    } else if !Unclaimed(w, key, t) {
      var k :| k in w.clusters && k != key && w.clusters[k].status.Some? && w.clusters[k].profile in w.sites
               && RecordedLoc(w.sites[w.clusters[k].profile], w.clusters[k].status.value) == t;
      WrongRecordLeadsToHarm(w', k, t);
    } else {
      MissedShootIsOrphaned(w', key, t);
    }
  }

  // ---------------------------------------------------------------------------------------------
  // Recorded Shoots and finalizers

  lemma UpdateHolds(w: World, key: Key, f: Faults, after: Store, found: Found)
    requires key in w.clusters && w.clusters[key].profile in w.sites && RecordersHold(w)
    requires found.At? ==> found.loc in w.shoots
    ensures RecordersHold(CreateOrUpdate(w, key, f, after, found))
  {}

  lemma DeleteHolds(w: World, key: Key, f: Faults, after: Store, found: Found)
    requires key in w.clusters && w.clusters[key].deleting && RecordersHold(w)
    requires found.At? ==> found.loc in w.shoots
    ensures RecordersHold(Delete(w, key, f, after, found))
  {}

  lemma StepKeepsHolding(w: World, s: Step)
    requires RecordersHold(w) && Enabled(w, s)
    ensures RecordersHold(Apply(w, s))
  {
    if s.Pass? && Arrives(w, s.key, s.f, Outlook(w, s.key, s.f)) {
      if w.clusters[s.key].deleting {
        DeleteHolds(w, s.key, s.f, s.after, Outlook(w, s.key, s.f));
      } else {
        UpdateHolds(w, s.key, s.f, s.after, Outlook(w, s.key, s.f));
      }
    }
  }

  /** In every run whatsoever a Cluster with a recorded Shoot holds the finalizer, so the premise of
      HarmfulPassLeadsToHarm is met in every run from a world without Clusters. */
  lemma {:induction false} RunKeepsHolding(w: World, steps: seq<Step>)
    requires RecordersHold(w) && Possible(w, steps)
    ensures RecordersHold(Run(w, steps))
    decreases |steps|
  {
    if steps != [] {
      StepKeepsHolding(w, steps[0]);
      RunKeepsHolding(Apply(w, steps[0]), steps[1..]);
    }
  }
}
