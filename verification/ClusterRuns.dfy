/** The Cluster protocol over whole runs. */
module ClusterRuns {
  import opened Common
  import opened ClusterConfigs
  import opened ClusterLifecycle
  import opened ClusterSafety

  /** Steps that keep a world safe. User edits of the name label, of the ClusterConfig references and
      of foreign finalizers, deletions of Shoots behind the provider's back, lost writes and failing
      calls are all free. */
  ghost predicate Harmless(w: World, s: Step) {
    match s
    case Pass(key, f, _) => Benign(w, key, f)
    case EditCluster(key, c) => key in w.clusters ==> SameHome(w, key, w.clusters[key], c)
    case ForeignShoot(loc, _) =>
      forall k :: k in w.clusters && w.clusters[k].status.Some? && w.clusters[k].profile in w.sites ==>
      RecordedLoc(w.sites[w.clusters[k].profile], w.clusters[k].status.value) != loc
    case _ => true
  }

  ghost predicate Legal(w: World, steps: seq<Step>)
    decreases |steps|
  {
    steps == [] || (Enabled(w, steps[0]) && Harmless(w, steps[0]) && Legal(Apply(w, steps[0]), steps[1..]))
  }

  lemma EditStepKeepsSafe(w: World, key: Key, c: Cluster)
    requires Safe(w) && Enabled(w, EditCluster(key, c)) && Harmless(w, EditCluster(key, c))
    ensures Safe(Apply(w, EditCluster(key, c)))
  {
    var w' := Apply(w, EditCluster(key, c));
    if c.deleting && c.finalizers == [] {
      forall l | l in w.shoots ensures w.shoots[l].owner != Some(key) {}
      RemovalKeepsSafe(w, w', key);
    } else {
      WithoutEmpty(w.clusters[key].finalizers, ClusterFinalizer);
      WithoutEmpty(c.finalizers, ClusterFinalizer);
      EditKeepsSafe(w, w', key);
    }
  }

  lemma CreateStepKeepsSafe(w: World, key: Key, c: Cluster)
    requires Safe(w) && Enabled(w, CreateCluster(key, c))
    ensures Safe(Apply(w, CreateCluster(key, c)))
  {
    var w' := Apply(w, CreateCluster(key, c));
    forall l | l in w.shoots && w.shoots[l].owner.Some? ensures w.shoots[l].owner.value != key {}
    forall k | k in w'.clusters && k != key ensures k in w.clusters && w'.clusters[k] == w.clusters[k] {}
  }

  lemma StepKeepsSafe(w: World, s: Step)
    requires Safe(w) && Enabled(w, s) && Harmless(w, s)
    ensures Safe(Apply(w, s))
  {
    match s
    case Pass(key, f, after) => PassKeepsSafeIff(w, key, f, after);
    case CreateCluster(key, c) => CreateStepKeepsSafe(w, key, c);
    case EditCluster(key, c) => EditStepKeepsSafe(w, key, c);
    case _ =>
  }

  lemma {:induction false} RunKeepsSafe(w: World, steps: seq<Step>)
    requires Safe(w) && Legal(w, steps)
    ensures Safe(Run(w, steps))
    decreases |steps|
  {
    if steps != [] {
      StepKeepsSafe(w, steps[0]);
      RunKeepsSafe(Apply(w, steps[0]), steps[1..]);
    }
  }

  lemma {:induction false} LegalPrefix(w: World, steps: seq<Step>, i: nat)
    requires Legal(w, steps) && i <= |steps|
    ensures Legal(w, steps[..i])
    ensures i < |steps| ==> Enabled(Run(w, steps[..i]), steps[i]) && Harmless(Run(w, steps[..i]), steps[i])
    decreases i
  {
    if i > 0 {
      LegalPrefix(Apply(w, steps[0]), steps[1..], i - 1);
      assert steps[..i][1..] == steps[1..][..i - 1];
    }
  }

  /** No orphan and no twin: at every point of every legal run, every Cluster has at most one Shoot
      labelled for it, and a Cluster that is gone or has lost the provider's finalizer has none. */
  lemma NoOrphanNoTwin(w: World, steps: seq<Step>, i: nat, key: Key)
    requires Safe(w) && Legal(w, steps) && i <= |steps|
    ensures var now := Run(w, steps[..i]);
            && |Labelled(now.shoots, key)| <= 1
            && (key !in now.clusters || ClusterFinalizer !in now.clusters[key].finalizers ==>
                  Labelled(now.shoots, key) == {})
  {
    LegalPrefix(w, steps, i);
    RunKeepsSafe(w, steps[..i]);
    var now := Run(w, steps[..i]);
    var mine := Labelled(now.shoots, key);
    if mine != {} {
      var l :| l in mine;
      assert mine == {l};
    }
  }

  // ---------------------------------------------------------------------------------------------
  // What a pass may touch

  /** From `before` to `now`, only Shoots labelled for the Cluster are changed or added, and none goes. */
  ghost predicate Touches(before: map<Loc, Shoot>, now: map<Loc, Shoot>, key: Key) {
    && (forall l :: l in before ==>
          l in now && (now[l] == before[l] || before[l].owner == now[l].owner == Some(key)))
    && (forall l :: l in now && l !in before ==> now[l].owner == Some(key))
  }

  lemma UpdateTouches(w: World, key: Key, f: Faults, after: Store, found: Found)
    requires key in w.clusters && w.clusters[key].profile in w.sites
    requires found.At? ==> found.loc in w.shoots && w.shoots[found.loc].owner == Some(key)
    ensures Touches(w.shoots, CreateOrUpdate(w, key, f, after, found).shoots, key)
  {}

  lemma DeleteTouches(w: World, key: Key, f: Faults, after: Store, found: Found)
    requires key in w.clusters
    requires found.At? ==> found.loc in w.shoots && w.shoots[found.loc].owner == Some(key)
    ensures Touches(w.shoots, Delete(w, key, f, after, found).shoots, key)
  {}

  /** In a safe world, whatever its API calls answer, a pass changes or adds only Shoots that are
      labelled for its own Cluster and removes none. */
  lemma {:induction false} PassIsIsolated(w: World, key: Key, f: Faults, after: Store)
    requires Safe(w)
    ensures Touches(w.shoots, ClusterPass(w, key, f, after).shoots, key)
  {
    var found := Outlook(w, key, f);
    if Arrives(w, key, f, found) {
      LookupIsExact(w, key, f);
      if w.clusters[key].deleting {
        DeleteTouches(w, key, f, after, found);
      } else {
        UpdateTouches(w, key, f, after, found);
      }
    }
  }

  /** A pass puts a Shoot under deletion only for a Cluster under deletion without foreign finalizers,
      and only together with the confirmation annotation. */
  lemma PassDeletesGated(w: World, key: Key, f: Faults, after: Store, l: Loc)
    requires Safe(w)
    requires var w' := ClusterPass(w, key, f, after);
             l in w'.shoots && w'.shoots[l].deleting && !(l in w.shoots && w.shoots[l].deleting)
    ensures var w' := ClusterPass(w, key, f, after);
            && w'.shoots[l].confirmed && w'.shoots[l].owner == Some(key)
            && key in w.clusters && w.clusters[key].deleting
            && forall x :: x in w.clusters[key].finalizers ==> x == ClusterFinalizer
  {
    LookupIsExact(w, key, f);
    var c := w.clusters[key];
    forall x | x in c.finalizers ensures x == ClusterFinalizer {
      assert x != ClusterFinalizer ==> x in Foreign(c.finalizers);
    }
  }

  /** Both facts hold of every pass of every legal run, and Gardener sees a labelled Shoot under
      deletion only with its confirmation and with its Cluster under deletion. */
  lemma RunsRespectOwners(w: World, steps: seq<Step>, i: nat, l: Loc)
    requires Safe(w) && Legal(w, steps) && i < |steps| && steps[i].Pass?
    ensures var before, later := Run(w, steps[..i]), Run(w, steps[..i + 1]);
            && (l in before.shoots && before.shoots[l].owner != Some(steps[i].key) ==>
                  l in later.shoots && later.shoots[l] == before.shoots[l])
            && (l in later.shoots && later.shoots[l].owner.Some? && later.shoots[l].deleting ==>
                  var k := later.shoots[l].owner.value;
                  && later.shoots[l].confirmed
                  && k in later.clusters && later.clusters[k].deleting && Foreign(later.clusters[k].finalizers) == [])
  {
    LegalPrefix(w, steps, i);
    LegalPrefix(w, steps, i + 1);
    RunKeepsSafe(w, steps[..i]);
    RunKeepsSafe(w, steps[..i + 1]);
    assert steps[..i + 1] == steps[..i] + [steps[i]];
    RunConcat(w, steps[..i], [steps[i]]);
    var before := Run(w, steps[..i]);
    assert Run(before, [steps[i]]) == Apply(before, steps[i]) by {
      assert [steps[i]][1..] == [];
    }
    PassIsIsolated(before, steps[i].key, steps[i].f, steps[i].after);
  }

  // ---------------------------------------------------------------------------------------------
  // Runs with fixed names

  /** Every Cluster has one location of its own, and anything recorded or labelled for it is there. */
  ghost predicate FixedNames(w: World) {
    && (forall k :: k in w.clusters && w.clusters[k].profile in w.sites ==> Settles(w, k))
    && (forall k, k' :: k in w.clusters && k' in w.clusters && k != k'
          && w.clusters[k].profile in w.sites && w.clusters[k'].profile in w.sites
          ==> Place(w, k) != Place(w, k'))
  }

  ghost function Place(w: World, k: Key): Loc
    requires k in w.clusters && w.clusters[k].profile in w.sites
  {
    Target(w.sites[w.clusters[k].profile], k, w.clusters[k])
  }

  ghost predicate Settles(w: World, k: Key)
    requires k in w.clusters && w.clusters[k].profile in w.sites
  {
    && (w.clusters[k].status.Some? ==>
          RecordedLoc(w.sites[w.clusters[k].profile], w.clusters[k].status.value) == Place(w, k))
    && (Place(w, k) in w.shoots ==> w.shoots[Place(w, k)].owner == Some(k))
    && (forall l :: l in w.shoots && w.shoots[l].owner == Some(k) ==> l == Place(w, k))
  }

  /** The premises users have to respect: names and profiles of existing Clusters are not edited, new
      Clusters resolve to a fresh location, and nobody else uses a Cluster's location. */
  ghost predicate Steady(w: World, s: Step) {
    match s
    case EditCluster(key, c) =>
      key in w.clusters ==> c.profile == w.clusters[key].profile && c.nameLabel == w.clusters[key].nameLabel
    case CreateCluster(key, c) => c.profile in w.sites ==>
      var t := Target(w.sites[c.profile], key, c);
      t !in w.shoots && forall k :: k in w.clusters && w.clusters[k].profile in w.sites ==> Place(w, k) != t
    case ForeignShoot(loc, _) => forall k :: k in w.clusters && w.clusters[k].profile in w.sites ==> Place(w, k) != loc
    case _ => true
  }

  ghost predicate SteadyRun(w: World, steps: seq<Step>)
    decreases |steps|
  {
    steps == [] || (Enabled(w, steps[0]) && Steady(w, steps[0]) && SteadyRun(Apply(w, steps[0]), steps[1..]))
  }

  /** Under these premises no failure whatsoever makes a pass harmful. */
  lemma SteadyIsHarmless(w: World, s: Step)
    requires Safe(w) && FixedNames(w) && Enabled(w, s) && Steady(w, s)
    ensures Harmless(w, s)
  {
    match s
    case Pass(key, f, _) =>
      if Creates(w, key, f) {
        LookupIsExact(w, key, f);
        assert Settles(w, key);
        forall l | l in w.shoots ensures w.shoots[l].owner != Some(key) {
          assert l !in Labelled(w.shoots, key);
        }
      }
    case _ =>
  }

  lemma {:induction false} WriteKeepsFixedNames(w: World, key: Key, f: Faults, after: Store)
    requires Safe(w) && FixedNames(w) && Writes(w, key, f)
    ensures FixedNames(ClusterPass(w, key, f, after))
  {
    LookupIsExact(w, key, f);
    WriteHasEffect(w, key, f, after);
    assert Settles(w, key);
    EffectKeepsFixedNames(w, ClusterPass(w, key, f, after), key, w.sites[w.clusters[key].profile], WorksOn(w, key, f));
  }

  ghost predicate SameNames(c: Cluster, c': Cluster) {
    c'.profile == c.profile && c'.nameLabel == c.nameLabel && c'.status == c.status
  }

  /** Names stay fixed when no Cluster changes name, profile or status, and no Shoot its labels. */
  lemma SmallChangeKeepsFixedNames(w: World, w': World)
    requires FixedNames(w) && w'.sites == w.sites
    requires w'.clusters.Keys <= w.clusters.Keys
    requires forall k :: k in w'.clusters ==> SameNames(w.clusters[k], w'.clusters[k])
    requires forall l :: l in w'.shoots ==> l in w.shoots && w'.shoots[l].owner == w.shoots[l].owner
    ensures FixedNames(w')
  {
    forall k | k in w'.clusters && w'.clusters[k].profile in w'.sites
      ensures Place(w', k) == Place(w, k) && Settles(w', k)
    {
      assert Settles(w, k);
    }
  }

  lemma {:induction false} PassKeepsFixedNames(w: World, key: Key, f: Faults, after: Store)
    requires Safe(w) && FixedNames(w)
    ensures FixedNames(ClusterPass(w, key, f, after))
  {
    if Writes(w, key, f) {
      WriteKeepsFixedNames(w, key, f, after);
    } else if Arrives(w, key, f, Outlook(w, key, f)) {
      if w.clusters[key].deleting {
        DeleteKeepsFixedNames(w, key, f, after);
      } else {
        QuietKeepsFixedNames(w, key, f, after);
      }
    }
  }

  lemma DeleteKeepsFixedNames(w: World, key: Key, f: Faults, after: Store)
    requires FixedNames(w) && key in w.clusters && w.clusters[key].deleting
    requires Arrives(w, key, f, Outlook(w, key, f))
    ensures FixedNames(Delete(w, key, f, after, Outlook(w, key, f)))
  {
    SmallChangeKeepsFixedNames(w, Delete(w, key, f, after, Outlook(w, key, f))) by {
      if Outlook(w, key, f).At? && w.clusters[key].status.None? {
        assert Outlook(w, key, f).loc in LabelledAt(w.shoots, w.sites[w.clusters[key].profile], key);
      }
    }
  }

  lemma QuietKeepsFixedNames(w: World, key: Key, f: Faults, after: Store)
    requires FixedNames(w) && key in w.clusters && !w.clusters[key].deleting && !Writes(w, key, f)
    requires Arrives(w, key, f, Outlook(w, key, f))
    ensures FixedNames(CreateOrUpdate(w, key, f, after, Outlook(w, key, f)))
  {
    SmallChangeKeepsFixedNames(w, CreateOrUpdate(w, key, f, after, Outlook(w, key, f)));
  }

  lemma EffectKeepsFixedNames(w: World, w': World, key: Key, site: Site, loc: Loc)
    requires FixedNames(w) && WriteEffect(w, w', key, site, loc) && loc == Place(w, key)
    requires w'.clusters[key].nameLabel == w.clusters[key].nameLabel
    ensures FixedNames(w')
  {
    forall k | k in w'.clusters && w'.clusters[k].profile in w'.sites
      ensures Place(w', k) == Place(w, k) && Settles(w', k)
    {
      if k != key {
        assert w'.clusters[k] == w.clusters[k];
        assert Settles(w, k);
      } else {
        assert Settles(w, key);
      }
    }
  }

  lemma CreateKeepsFixedNames(w: World, key: Key, c: Cluster)
    requires Safe(w) && FixedNames(w) && Enabled(w, CreateCluster(key, c)) && Steady(w, CreateCluster(key, c))
    ensures FixedNames(Apply(w, CreateCluster(key, c)))
  {
    var w' := Apply(w, CreateCluster(key, c));
    forall k | k in w'.clusters && w'.clusters[k].profile in w'.sites
      ensures Settles(w', k) && (k != key ==> k in w.clusters && Place(w', k) == Place(w, k))
    {
      if k != key {
        assert w'.clusters[k] == w.clusters[k];
        assert Settles(w, k);
      } else {
        forall l | l in w.shoots ensures w.shoots[l].owner != Some(key) {}
      }
    }
  }

  lemma ForeignShootKeepsFixedNames(w: World, loc: Loc, s: Shoot)
    requires FixedNames(w) && Enabled(w, ForeignShoot(loc, s)) && Steady(w, ForeignShoot(loc, s))
    ensures FixedNames(Apply(w, ForeignShoot(loc, s)))
  {
    var w' := Apply(w, ForeignShoot(loc, s));
    forall k | k in w'.clusters && w'.clusters[k].profile in w'.sites
      ensures Place(w', k) == Place(w, k) && Settles(w', k)
    {
      assert Settles(w, k);
    }
  }

  lemma {:induction false} StepKeepsFixedNames(w: World, s: Step)
    requires Safe(w) && FixedNames(w) && Enabled(w, s) && Steady(w, s)
    ensures FixedNames(Apply(w, s))
  {
    match s
    case Pass(key, f, after) => PassKeepsFixedNames(w, key, f, after);
    case CreateCluster(key, c) => CreateKeepsFixedNames(w, key, c);
    case ForeignShoot(loc, shoot) => ForeignShootKeepsFixedNames(w, loc, shoot);
    case _ => SmallChangeKeepsFixedNames(w, Apply(w, s));
  }

  /** With fixed and distinct names every run is legal: whatever API calls fail, however many status
      writes are lost and whenever Shoots disappear, the safety theorems above apply. */
  lemma {:induction false} SteadyRunIsLegal(w: World, steps: seq<Step>)
    requires Safe(w) && FixedNames(w) && SteadyRun(w, steps)
    ensures Legal(w, steps)
    decreases |steps|
  {
    if steps != [] {
      SteadyIsHarmless(w, steps[0]);
      StepKeepsSafe(w, steps[0]);
      StepKeepsFixedNames(w, steps[0]);
      SteadyRunIsLegal(Apply(w, steps[0]), steps[1..]);
    }
  }

  /** A world without Shoots and without recorded names, where every run may start. */
  lemma EmptyWorldIsSafe(sites: map<string, Site>, known: set<string>, landscapes: map<string, bool>, configs: Store)
    ensures var w := World(sites, known, landscapes, map[], configs, map[]);
            Safe(w) && FixedNames(w)
  {}
}
