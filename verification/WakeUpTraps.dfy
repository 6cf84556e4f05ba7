/** Concrete runs of the notification protocol in which a plausible promise fails. Each starts with nothing
    registered and no objects. */
module WakeUpTraps {
  import opened Common
  import opened Registry
  import opened WakeUp

  const OLD := PcSpec("a", "p", "1")
  const NEW := PcSpec("a", "p", "2")
  const MOVED := PcSpec("b", "p", "1")
  const C := Key("ns", "c")

  function Smooth(listFails: bool): PcFaults {
    PcFaults(false, false, false, false, true, true, false, listFails, [])
  }

  function Garden(ns: string): Landscape {
    Landscape(Some(0), 0, true, map["p" := ns])
  }

  function Building(ns: string): LsFaults {
    LsFaults(false, false, false, Garden(ns), InformerFaults(false, false))
  }

  function Config(spec: PcSpec): PcObject {
    PcObject(spec, true, false, false, true)
  }

  // ---------------------------------------------------------------------------------------------
  // Runs

  ghost predicate Leads(w: World, w': World) {
    exists steps :: Run(w, steps) == w'
  }

  lemma {:induction false} RunConcat(w: World, a: seq<Step>, b: seq<Step>)
    ensures Run(w, a + b) == Run(Run(w, a), b)
    decreases |a|
  {
    if a == [] {
      assert a + b == b;
    } else {
      assert (a + b)[0] == a[0] && (a + b)[1..] == a[1..] + b;
      RunConcat(Apply(w, a[0]), a[1..], b);
    }
  }

  lemma OneStep(w: World, s: Step, w': World)
    requires Apply(w, s) == w'
    ensures Leads(w, w')
  {
    assert [s][1..] == [] && Run(w', []) == w';
    assert Run(w, [s]) == w';
  }

  lemma Chain(w: World, w1: World, w2: World)
    requires Leads(w, w1) && Leads(w1, w2)
    ensures Leads(w, w2)
  {
    var a :| Run(w, a) == w1;
    var b :| Run(w1, b) == w2;
    RunConcat(w, a, b);
  }

  function Start(): World {
    World("", Api(map[], map[], map[]), Reg(map[], map[], map[]), Mail({}, {}), Seen(map[], map[]))
  }

  // ---------------------------------------------------------------------------------------------
  // A Cluster that is up to date

  /** The Landscape "a" and, if it has been reconciled, its entry. */
  function WithLandscape(landscapes: Landscapes): World {
    Start().(api := Api(map["a" := LsObject(false, false, true)], map[], map[]), reg := Reg(map[], landscapes, map[]))
  }

  /** The ProviderConfig "x" besides, as it is and as it is registered. */
  function WithConfig(ns: string, configs: map<string, PcSpec>, profiles: map<string, Profile>, mail: Mail): World {
    World("", Api(map["a" := LsObject(false, false, true)], map["x" := Config(OLD)], map[]),
          Reg(configs, map["a" := Garden(ns)], profiles), mail, Seen(map[], map[]))
  }

  /** A Cluster with the profile of "x", whose last pass has seen the profile as it is registered. */
  function Settled(spec: PcSpec, ns: string, registered: Profile, mail: Mail): World {
    World("", Api(map["a" := LsObject(false, false, true)], map["x" := Config(spec)], map[C := "x"]),
          Reg(map["x" := registered.spec], map["a" := Garden(ns)], map["x" := registered]), mail,
          Seen(map[C := Some(Sight(registered.spec, registered.ns))], map[]))
  }

  function Base(ns: string): World {
    Settled(OLD, ns, Profile(OLD, ns, []), Mail({}, {}))
  }

  lemma LandscapeIsReachable(ns: string)
    ensures Leads(Start(), WithLandscape(map["a" := Garden(ns)]))
  {
    OneStep(Start(), PutLandscape("a", LsObject(false, false, true)), WithLandscape(map[]));
    OneStep(WithLandscape(map[]), LandscapeStep("a", Building(ns)), WithLandscape(map["a" := Garden(ns)]));
    Chain(Start(), WithLandscape(map[]), WithLandscape(map["a" := Garden(ns)]));
  }

  lemma ConfigIsReachable(ns: string)
    ensures Leads(Start(), WithConfig(ns, map["x" := OLD], map["x" := Profile(OLD, ns, [])], Mail({}, {})))
  {
    var w1, w2 := WithLandscape(map["a" := Garden(ns)]), WithConfig(ns, map[], map[], Mail({}, {"x"}));
    var w3 := WithConfig(ns, map["x" := OLD], map["x" := Profile(OLD, ns, [])], Mail({}, {}));
    LandscapeIsReachable(ns);
    OneStep(w1, PutConfig("x", Config(OLD)), w2);
    assert ProfileK8sName("", "x") == "x";
    assert ConfigResult(w2, "x", Smooth(false)) == Ready(Profile(OLD, ns, []));
    OneStep(w2, ConfigStep("x", Smooth(false)), w3);
    Chain(Start(), w1, w2);
    Chain(Start(), w2, w3);
  }

  lemma BaseIsReachable(ns: string)
    ensures Leads(Start(), Base(ns))
  {
    var w1 := WithConfig(ns, map["x" := OLD], map["x" := Profile(OLD, ns, [])], Mail({}, {}));
    var w2 := Base(ns).(mail := Mail({C}, {}), seen := Seen(map[], map[]));
    ConfigIsReachable(ns);
    OneStep(w1, PutCluster(C, "x"), w2);
    OneStep(w2, ClusterStep(C), Base(ns));
    Chain(Start(), w1, w2);
    Chain(Start(), w2, Base(ns));
  }

  // ---------------------------------------------------------------------------------------------
  // Lost notifications

  /** A failed list call is not repaired by the retry: the retry finds the new profile registered already
      and notifies nobody, so the Cluster keeps the old spec with no request pending. */
  lemma RetryAfterFailedListWakesNobody()
    ensures var w, failed, retry := Settled(NEW, "n", Profile(OLD, "n", []), Mail({}, {"x"})),
                                    ConfigStep("x", Smooth(true)), ConfigStep("x", Smooth(false));
            var w' := Run(w, [failed, retry]);
            && Leads(Start(), w) && ClustersWoken(w) && C !in w'.mail.clusters
            && LastSeen(w', C) == Some(OLD) && ProfileSpec(w'.reg.profiles, "x") == Some(NEW)
  {
    var w := Settled(NEW, "n", Profile(OLD, "n", []), Mail({}, {"x"}));
    BaseIsReachable("n");
    OneStep(Base("n"), PutConfig("x", Config(NEW)), w);
    Chain(Start(), Base("n"), w);
    assert ProfileK8sName("", "x") == "x";
    var w1 := ConfigPass(w, "x", Smooth(true));
    assert w1.reg.profiles["x"] == Profile(NEW, "n", []);
    var w2 := ConfigPass(w1, "x", Smooth(false));
    var last := [ConfigStep("x", Smooth(false))];
    var steps := [ConfigStep("x", Smooth(true))] + last;
    assert steps[1..] == last && last[1..] == [];
    assert Run(w, steps) == Run(w1, last) == Run(w2, []) == w2;
  }

  /** The namespace behind the project has moved to "new", and the profile has not been renewed yet. */
  function Unmoved(): World {
    Settled(OLD, "new", Profile(OLD, "old", []), Mail({}, {}))
  }

  function MovedBehind(): World {
    Base("new").(seen := Unmoved().seen)
  }

  lemma UnmovedIsReachable()
    ensures Leads(Start(), Unmoved())
  {
    BaseIsReachable("old");
    assert LandscapeResult(Base("old"), "a", Building("new")) == Have(Garden("new"));
    OneStep(Base("old"), LandscapeStep("a", Building("new")), Unmoved());
    Chain(Start(), Base("old"), Unmoved());
  }

  lemma UnmovedMoves()
    ensures ConfigPass(Unmoved(), "x", Smooth(false)) == MovedBehind()
    ensures !Current(MovedBehind(), C)
  {
    assert ProfileK8sName("", "x") == "x";
    assert ConfigResult(Unmoved(), "x", Smooth(false)) == Ready(Profile(OLD, "new", []));
    assert "old" != "new" by { assert "old"[0] != "new"[0]; }
  }

  lemma MovedRests()
    ensures ConfigPass(MovedBehind(), "x", Smooth(false)) == MovedBehind()
  {
    assert ProfileK8sName("", "x") == "x";
    assert ConfigResult(MovedBehind(), "x", Smooth(false)) == Ready(Profile(OLD, "new", []));
  }

  lemma {:induction false} RepeatedPass(w: World, s: Step, n: nat)
    requires Apply(w, s) == w
    ensures Run(w, seq(n, _ => s)) == w
  {
    if n > 0 {
      assert seq(n, _ => s)[1..] == seq(n - 1, _ => s);
      RepeatedPass(w, s, n - 1);
    }
  }

  /** Only the spec counts as a change: when the namespace behind the project moves, the registered
      profile moves along, and a Cluster that has seen the old namespace is not told, by this pass or by
      any number of further ones that find the same. */
  lemma MovedNamespaceWakesNobody(passes: nat)
    ensures var w' := Run(Unmoved(), seq(passes + 1, _ => ConfigStep("x", Smooth(false))));
            && Leads(Start(), Unmoved()) && ClustersCurrent(Unmoved())
            && C in w'.api.clusters && !Current(w', C)
            && ProfileSight(w'.reg.profiles, "x") == Some(Sight(OLD, "new"))
            && LastSight(w', C) == Some(Sight(OLD, "old"))
  {
    var pass := ConfigStep("x", Smooth(false));
    UnmovedIsReachable();
    UnmovedMoves();
    MovedRests();
    assert seq(passes + 1, _ => pass)[1..] == seq(passes, _ => pass);
    RepeatedPass(MovedBehind(), pass, passes);
    assert Run(Unmoved(), seq(passes + 1, _ => pass)) == Run(MovedBehind(), seq(passes, _ => pass)) == MovedBehind();
  }

  // ---------------------------------------------------------------------------------------------
  // The gate

  /** The ProviderConfig has been edited to an unknown Landscape, and the old one is under deletion. */
  function Leaving(): World {
    var w := Settled(MOVED, "n", Profile(OLD, "n", []), Mail({}, {"x"}));
    w.(api := w.api.(landscapes := map["a" := LsObject(false, true, true)]))
  }

  lemma LeavingIsReachable()
    ensures Leads(Start(), Leaving())
  {
    var w := Settled(MOVED, "n", Profile(OLD, "n", []), Mail({}, {"x"}));
    BaseIsReachable("n");
    OneStep(Base("n"), PutConfig("x", Config(MOVED)), w);
    OneStep(w, PutLandscape("a", LsObject(false, true, true)), Leaving());
    Chain(Start(), Base("n"), w);
    Chain(Start(), w, Leaving());
  }

  /** After a pass that does not find the new Landscape. */
  function Diverged(landscapes: map<string, LsObject>, entries: Landscapes): World {
    World("", Leaving().api.(landscapes := landscapes),
          Reg(map["x" := MOVED], entries, map["x" := Profile(OLD, "n", [])]), Mail({}, {}),
          Leaving().seen.(missing := map["x" := "b"]))
  }

  lemma LeavingDiverges()
    ensures Leads(Leaving(), Diverged(map["a" := LsObject(false, true, true)], map["a" := Garden("n")]))
    ensures Leads(Diverged(map["a" := LsObject(false, true, true)], map["a" := Garden("n")]), Diverged(map[], map[]))
  {
    var w, w1 := Leaving(), Diverged(map["a" := LsObject(false, true, true)], map["a" := Garden("n")]);
    assert ProfileK8sName("", "x") == "x";
    assert ConfigResult(w, "x", Smooth(false)) == Missing;
    OneStep(w, ConfigStep("x", Smooth(false)), w1);
    assert LandscapeResult(w1, "a", Building("n")) == Gone;
    assert Users(w1.reg.configs, "a") == {};
    OneStep(w1, LandscapeStep("a", Building("n")), Diverged(map[], map[]));
  }

  /** The gate misses a Landscape in use: a ProviderConfig edited to an unknown Landscape is registered
      with it, keeps its old profile, and the old Landscape can be deleted under that profile. */
  lemma GateMissesUsedLandscape()
    ensures exists w: World, w': World ::
              && Leads(Start(), w) && Leads(w, w') && GateSees(w, "x") && "a" in w.api.landscapes
              && ProfileSpec(w'.reg.profiles, "x") == Some(OLD) && OLD.landscape == "a"
              && "a" !in w'.api.landscapes && "a" !in w'.reg.landscapes
  {
    var w, w1, w2 := Leaving(), Diverged(map["a" := LsObject(false, true, true)], map["a" := Garden("n")]),
                     Diverged(map[], map[]);
    LeavingIsReachable();
    LeavingDiverges();
    Chain(w, w1, w2);
    assert ProfileK8sName("", "x") == "x";
  }
}
