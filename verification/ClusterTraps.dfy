/** Concrete runs of the Cluster protocol in which a plausible promise fails. Each starts in a world without
    any Cluster, and takes the step that the conditions of the safety theorems rule out. */
module ClusterTraps {
  import opened Common
  import opened ClusterConfigs
  import opened ClusterLifecycle
  import opened ClusterSafety
  import opened ClusterRuns
  import opened ClusterDeletion
  import opened ConfigOwnership
  import opened ConfigRuns
  import opened ClusterReach

  const A := Key("ns", "a")
  const B := Key("ns", "b")
  const GARDEN := Site("live", "garden-dev")

  /** No API call fails; only the fate of the Shoot write and of the status write varies. */
  function Calls(written: bool, statusLost: bool): Faults {
    Faults(false, false, false, false, false, false, true, Some("spec"), false, written, statusLost, false, true)
  }

  function Plain(nameLabel: Option<string>, status: Option<ShootRef>): Cluster {
    Cluster([ClusterFinalizer], false, false, "p", nameLabel, [], NoRefs, status)
  }

  function Setting(clusters: map<Key, Cluster>, shoots: map<Loc, Shoot>): World {
    World(map["p" := GARDEN], {"p"}, map["live" := true], clusters, map[], shoots)
  }

  function Place(name: string): Loc {
    Loc(GARDEN.landscape, GARDEN.ns, name)
  }

  function Recorded(name: string): Option<ShootRef> {
    Some(ShootRef(GARDEN.ns, name))
  }

  function Mine(key: Key): Shoot {
    Shoot(Some(key), "spec", false, false)
  }

  lemma LabelledSingleton(shoots: map<Loc, Shoot>, key: Key, l: Loc)
    requires l in shoots && shoots[l].owner == Some(key)
    requires forall l' :: l' in shoots && l' != l ==> shoots[l'].owner != Some(key)
    ensures Labelled(shoots, key) == {l}
  {}

  /** The start of all runs: a profile, and nothing else. */
  function Start(): World {
    Setting(map[], map[])
  }

  lemma StartIsSafe()
    ensures Safe(Start()) && Ownership(Start())
  {
    EmptyWorldIsSafe(Start().sites, Start().known, Start().landscapes, map[]);
    EmptyWorldIsReconciled(Start());
  }

  // ---------------------------------------------------------------------------------------------
  // Single passes

  /** A pass of a Cluster that has no Shoot yet, under a name that is free. */
  lemma FirstPass(w: World, key: Key, name: string)
    requires key in w.clusters && w.clusters[key] == Plain(Some(name), None) && name != ""
    requires w == Setting(w.clusters, w.shoots)
    requires Place(name) !in w.shoots && Labelled(w.shoots, key) == {}
    ensures ClusterPass(w, key, Calls(true, false), map[])
            == Setting(w.clusters[key := Plain(Some(name), Recorded(name))], w.shoots[Place(name) := Mine(key)])
  {
    var f := Calls(true, false);
    assert LabelledAt(w.shoots, GARDEN, key) == {};
    assert Outlook(w, key, f) == Absent;
    assert Writes(w, key, f) && WorksOn(w, key, f) == Place(name);
  }

  /** One pass of a Cluster that has recorded the name "old" of a vanished Shoot, and whose name label
      now says `now`: the Shoot `now` is created, while the status write that should record it is lost. */
  lemma LostMove(w: World, now: string)
    requires now != "" && now != "old"
    requires w == Setting(map[A := Plain(Some(now), Recorded("old"))], w.shoots)
    requires Place("old") !in w.shoots && Place(now) !in w.shoots
    ensures ClusterPass(w, A, Calls(true, true), map[]) == w.(shoots := w.shoots[Place(now) := Mine(A)])
  {
    var f := Calls(true, true);
    assert Outlook(w, A, f) == Absent;
    assert Writes(w, A, f) && WorksOn(w, A, f) == Place(now);
  }

  lemma AnyConfigStage(w: World, key: Key, f: Faults)
    requires key in w.clusters && w.configs == map[] && w.clusters[key].refs == []
    ensures Enabled(w, Pass(key, f, map[]))
  {}

  // ---------------------------------------------------------------------------------------------
  // Lost moves

  /** The Cluster A, whose Shoot "old" has vanished, and whose name label has been edited. */
  function Moved(now: string): World {
    Setting(map[A := Plain(Some(now), Recorded("old"))], map[])
  }

  lemma MovedIsReachable(now: string)
    requires now != ""
    ensures Leads(Start(), Moved(now))
  {
    var w1 := Setting(map[A := Plain(Some("old"), None)], map[]);
    var w2 := Setting(map[A := Plain(Some("old"), Recorded("old"))], map[Place("old") := Mine(A)]);
    var w3 := Setting(map[A := Plain(Some("old"), Recorded("old"))], map[]);
    OneStep(Start(), CreateCluster(A, Plain(Some("old"), None)), w1);
    FirstPass(w1, A, "old");
    AnyConfigStage(w1, A, Calls(true, false));
    assert w1.clusters[A := Plain(Some("old"), Recorded("old"))] == w2.clusters;
    OneStep(w1, Pass(A, Calls(true, false), map[]), w2);
    OneStep(w2, ShootGone(Place("old")), w3);
    OneStep(w3, EditCluster(A, Plain(Some(now), Recorded("old"))), Moved(now));
    Chain(Start(), w1, w2);
    Chain(Start(), w2, w3);
    Chain(Start(), w3, Moved(now));
  }

  /** The Shoot "x" of A, which has recorded the name "old" and is labelled with the name `now`. */
  function Unrecorded(c: Cluster): World {
    Setting(map[A := c], map[Place("x") := Mine(A)])
  }

  lemma UnrecordedIsReachable(c: Cluster)
    requires Editable(Plain(Some("x"), Recorded("old")), c)
    ensures Leads(Start(), Unrecorded(c))
  {
    var lost := Unrecorded(Plain(Some("x"), Recorded("old")));
    MovedIsReachable("x");
    LostMove(Moved("x"), "x");
    AnyConfigStage(Moved("x"), A, Calls(true, true));
    OneStep(Moved("x"), Pass(A, Calls(true, true), map[]), lost);
    Chain(Start(), Moved("x"), lost);
    WithoutEmpty(c.finalizers, ClusterFinalizer);
    OneStep(lost, EditCluster(A, c), Unrecorded(c));
    Chain(Start(), lost, Unrecorded(c));
  }

  /** A twin: a lost status write while another name is recorded, then an edited name label, and the
      next pass creates a second Shoot for the same Cluster. */
  lemma TwinAfterLostMove()
    ensures exists w: World :: Leads(Start(), w) && |Labelled(w.shoots, A)| == 2
  {
    var w := Unrecorded(Plain(Some("y"), Recorded("old")));
    var w' := w.(shoots := w.shoots[Place("y") := Mine(A)]);
    UnrecordedIsReachable(Plain(Some("y"), Recorded("old")));
    LostMove(w, "y");
    AnyConfigStage(w, A, Calls(true, true));
    OneStep(w, Pass(A, Calls(true, true), map[]), w');
    Chain(Start(), w, w');
    assert Labelled(w'.shoots, A) == {Place("x"), Place("y")};
  }

  lemma LastPass(w: World, c: Cluster)
    requires c == Plain(None, Recorded("old")).(deleting := true) && w == Unrecorded(c)
    ensures ClusterPass(w, A, Calls(true, false), map[]) == w.(clusters := map[])
  {
    var f := Calls(true, false);
    assert Outlook(w, A, f) == Absent;
    WithoutEmpty(c.finalizers, ClusterFinalizer);
    assert Delete(w, A, f, map[], Outlook(w, A, f)) == w.(clusters := map[]);
  }

  /** An orphan: after the same lost write, deleting the Cluster releases its finalizer although its
      Shoot is still there, because a recorded name switches the label search off. */
  lemma OrphanAfterLostMove()
    ensures exists w: World ::
              Leads(Start(), w) && A !in w.clusters && Labelled(w.shoots, A) == {Place("x")}
  {
    var c := Plain(None, Recorded("old")).(deleting := true);
    var w := Unrecorded(c);
    var w' := w.(clusters := map[]);
    UnrecordedIsReachable(c);
    LastPass(w, c);
    assert Enabled(w, Pass(A, Calls(true, false), map[]));
    OneStep(w, Pass(A, Calls(true, false), map[]), w');
    Chain(Start(), w, w');
    LabelledSingleton(w'.shoots, A, Place("x"));
  }

  // ---------------------------------------------------------------------------------------------
  // Taken names

  /** The Cluster B has overridden its name with the default name of A, and has its Shoot there. */
  function Squatting(a: Option<ShootRef>, owner: Key): World {
    var name := ShootK8sName(A);
    Setting(map[A := Plain(None, a), B := Plain(Some(name), Recorded(name))], map[Place(name) := Mine(owner)])
  }

  lemma SquattingIsReachable()
    ensures Leads(Start(), Squatting(None, B))
  {
    var name := ShootK8sName(A);
    var w1 := Setting(map[B := Plain(Some(name), None)], map[]);
    var w2 := Setting(map[B := Plain(Some(name), Recorded(name))], map[Place(name) := Mine(B)]);
    OneStep(Start(), CreateCluster(B, Plain(Some(name), None)), w1);
    FirstPass(w1, B, name);
    AnyConfigStage(w1, B, Calls(true, false));
    assert w1.clusters[B := Plain(Some(name), Recorded(name))] == w2.clusters;
    OneStep(w1, Pass(B, Calls(true, false), map[]), w2);
    OneStep(w2, CreateCluster(A, Plain(None, None)), Squatting(None, B));
    Chain(Start(), w1, w2);
    Chain(Start(), w2, Squatting(None, B));
  }

  lemma TakenNameIsRecorded()
    ensures ClusterPass(Squatting(None, B), A, Calls(true, false), map[])
            == Squatting(Recorded(ShootK8sName(A)), B)
  {
    var w, f, name := Squatting(None, B), Calls(true, false), ShootK8sName(A);
    assert LabelledAt(w.shoots, GARDEN, A) == {};
    assert Outlook(w, A, f) == Absent;
    assert Writes(w, A, f) && WorksOn(w, A, f) == Place(name);
  }

  lemma RecordedShootIsRelabelled()
    ensures var r := Recorded(ShootK8sName(A));
            ClusterPass(Squatting(r, B), A, Calls(true, false), map[]) == Squatting(r, A)
  {
    var name := ShootK8sName(A);
    var w, f := Squatting(Recorded(name), B), Calls(true, false);
    assert Outlook(w, A, f) == At(Place(name));
    assert Writes(w, A, f) && WorksOn(w, A, f) == Place(name);
  }

  /** A hijack: without a name label there is no conflict check, so a creation that fails because the
      name is taken is still recorded, and the next pass relabels the Shoot of the other Cluster. */
  lemma HijackAfterTakenName()
    ensures exists w: World, w': World ::
              && Leads(Start(), w) && Leads(w, w')
              && Labelled(w.shoots, B) != {}
              && Labelled(w'.shoots, B) == {} && Labelled(w'.shoots, A) == Labelled(w.shoots, B)
  {
    var r, f := Recorded(ShootK8sName(A)), Calls(true, false);
    var w, w1, w2 := Squatting(None, B), Squatting(r, B), Squatting(r, A);
    SquattingIsReachable();
    TakenNameIsRecorded();
    RecordedShootIsRelabelled();
    AnyConfigStage(w, A, f);
    AnyConfigStage(w1, A, f);
    OneStep(w, Pass(A, f, map[]), w1);
    OneStep(w1, Pass(A, f, map[]), w2);
    Chain(w, w1, w2);
    LabelledSingleton(w.shoots, B, Place(ShootK8sName(A)));
    LabelledSingleton(w2.shoots, A, Place(ShootK8sName(A)));
    assert Labelled(w2.shoots, B) == {};
  }

  /** The Cluster A is under deletion, its own Shoot is gone, and its name label names a foreign one. */
  function Barred(deleting: bool): World {
    Setting(map[A := Plain(Some("taken"), Recorded("old")).(deleting := deleting)],
            map[Place("taken") := Shoot(None, "", false, false)])
  }

  lemma BarredIsReachable()
    ensures Leads(Start(), Barred(true))
  {
    var w, w' := Barred(false), Barred(true);
    MovedIsReachable("taken");
    OneStep(Moved("taken"), ForeignShoot(Place("taken"), Shoot(None, "", false, false)), w);
    OneStep(w, EditCluster(A, Plain(Some("taken"), Recorded("old")).(deleting := true)), w');
    Chain(Start(), Moved("taken"), w);
    Chain(Start(), w, w');
  }

  lemma BarredIsBlocked()
    ensures Blocked(Barred(true), A)
  {
    var w := Barred(true);
    assert Labelled(w.shoots, A) == {};
    assert Target(GARDEN, A, w.clusters[A]) == Place("taken");
    assert NameTaken(w, A);
    assert "old" != "taken" by { assert |"old"| != |"taken"|; }
    assert RecordedLoc(GARDEN, ShootRef(GARDEN.ns, "old")) !in w.shoots;
    assert Owned(w) && Unique(w) && Tracked(w) && Faithful(w) && Gated(w);
  }

  /** A blocked release: the conflict check, which comes before the branch for deletions, stops every pass
      over a Cluster under deletion that has nothing left to clean up. */
  lemma BlockedReleaseIsReachable()
    ensures exists w: World :: Leads(Start(), w) && Blocked(w, A) && Foreign(w.clusters[A].finalizers) == []
  {
    BarredIsReachable();
    BarredIsBlocked();
    WithoutEmpty(Barred(true).clusters[A].finalizers, ClusterFinalizer);
  }

  // ---------------------------------------------------------------------------------------------
  // Stale owners

  const M := Key("ns", "m")

  function WithRefs(refs: seq<string>): Cluster {
    Plain(None, None).(refs := refs)
  }

  /** The ClusterConfig "m" with some owners, and the Cluster A with some references. */
  function Referring(owners: seq<OwnerRef>, refs: seq<string>): World {
    Setting(map[A := WithRefs(refs)], map[]).(configs := map[M := owners])
  }

  lemma ReferringIsReachable()
    ensures Leads(Start(), Referring([], ["m", "n"]))
  {
    var w1 := Start().(configs := map[M := []]);
    OneStep(Start(), AddConfig(M, []), w1);
    OneStep(w1, CreateCluster(A, WithRefs(["m", "n"])), Referring([], ["m", "n"]));
    Chain(Start(), w1, Referring([], ["m", "n"]));
  }

  /** A pass that settles the first reference and fails at the second one, which does not exist. */
  lemma HalfSettled()
    ensures Leads(Referring([], ["m", "n"]), Referring([ClusterOwner("a")], ["m", "n"]))
  {
    var w, w' := Referring([], ["m", "n"]), Referring([ClusterOwner("a")], ["m", "n"]);
    var f := Calls(true, false).(configsOk := false);
    assert LabelledAt(w.shoots, GARDEN, A) == {};
    assert Outlook(w, A, f) == Absent;
    assert Settled(A, ["m", "n"], true, M, []) == [ClusterOwner("a")];
    assert SettleOutcome(w.configs, w'.configs, A, ["m", "n"], NoRefs, false);
    OneStep(w, Pass(A, f, w'.configs), w');
  }

  /** A stale owner reference: a settlement that fails halfway, followed by an edit that goes back to the
      recorded list, leaves a reference that no pass of any later run removes, as long as nobody changes
      the list again or deletes the Cluster or the ClusterConfig. */
  lemma StaleOwnerAfterRevert()
    ensures exists w: World ::
              && Leads(Start(), w) && Stale(w, A, "m")
              && forall later :: LeftAlone(w, A, "m", later) ==> Stale(Run(w, later), A, "m")
  {
    var w, w' := Referring([ClusterOwner("a")], ["m", "n"]), Referring([ClusterOwner("a")], []);
    ReferringIsReachable();
    HalfSettled();
    Chain(Start(), Referring([], ["m", "n"]), w);
    OneStep(w, EditCluster(A, WithRefs([])), w');
    Chain(Start(), w, w');
    assert w'.configs[M][0] == ClusterOwner("a");
    assert M in w'.configs && M.name in Bearers(w'.configs, A);
    forall later | LeftAlone(w', A, "m", later) ensures Stale(Run(w', later), A, "m") {
      StaleReferenceStays(w', A, "m", later);
    }
  }
}
