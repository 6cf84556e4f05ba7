/** Concrete runs in which role names that are given by the requests leave a granted request with objects it
    does not demand. Each starts without requests and objects. */
module AccessTraps {
  import opened Common
  import opened KeyedLists
  import opened TokenRenewal
  import opened AccessObjects
  import opened AccessRequests
  import opened AccessSafety
  import opened AccessRuns
  import opened AccessConvergence

  function OnlyPermissions(permissions: seq<RoleDef>): Spec {
    Spec(Some(TokenSpec(permissions, [])), None)
  }

  /** A spec that asks for one cluster-wide role. */
  function OneRole(name: string, rules: string): Spec {
    OnlyPermissions([RoleDef(name, "", rules)])
  }

  /** A spec that asks for two cluster-wide roles of the same name. */
  function TwoRoles(name: string, first: string, second: string): Spec {
    OnlyPermissions([RoleDef(name, "", first), RoleDef(name, "", second)])
  }

  function RoleKey(name: string): ObjKey {
    ClusterWide(ClusterRole, Given(name))
  }

  function NoRequests(): World {
    World(map[], map[], map[], true, "")
  }

  lemma RunOfTwo(w: World, a: Step, b: Step)
    ensures Run(w, [a, b]) == Apply(Apply(w, a), b)
  {
    assert [a, b][1..] == [b] && [b][1..] == [];
    assert Run(Apply(w, a), [b]) == Run(Apply(Apply(w, a), b), []);
  }

  lemma RunOfFour(w: World, a: Step, b: Step, c: Step, d: Step)
    ensures Run(w, [a, b]) == Apply(Apply(w, a), b)
    ensures Run(w, [a, b, c, d]) == Apply(Apply(Apply(Apply(w, a), b), c), d)
  {
    RunOfTwo(w, a, b);
    RunOfTwo(Apply(Apply(w, a), b), c, d);
    assert [a, b, c, d][1..] == [b, c, d] && [b, c, d][1..] == [c, d];
    assert Run(w, [a, b, c, d]) == Run(Apply(w, a), [b, c, d]) == Run(Apply(Apply(w, a), b), [c, d]);
  }

  // ---------------------------------------------------------------------------------------------
  // Two requests with the same role name

  lemma OneRoleIsDemanded(r: Key, name: string, rules: string)
    requires name != ""
    ensures Meetable(Tasks(r, "", OneRole(name, rules)))
    ensures LastWriter(Demands(r, "", OneRole(name, rules)), RoleKey(name)) == Some(Rules(rules))
  {
    var def := RoleDef(name, "", rules);
    var account, permission := [AccountDemand(r, "")], PermissionDemands(r, AccountSubjects(r, ""), def, 0);
    assert Tasks(r, "", OneRole(name, rules)) == [account, permission];
    FlattenTwo(account, permission);
    LastWriterConcat(account, permission, RoleKey(name));
    assert permission[1..] == [permission[1]];
  }

  lemma FlattenTwo(a: Task, b: Task)
    ensures Flatten([a, b]) == a + b
  {
    assert [a, b][1..] == [b] && [b][1..] == [];
    assert Flatten([b]) == b + Flatten([]);
  }

  /** The first pass over a new request gives it its role. */
  lemma FirstPassGivesRole(w: World, p: Key, name: string, rules: string)
    requires name != "" && w.clusterExists && w.accounts == ""
    requires p in w.requests && w.requests[p] == NewRequest(OneRole(name, rules))
    ensures var w' := Pass(w, p, NoFaults());
            && p in w'.requests && Exact(w', p) && AtRest(w', p, NoFaults().now)
            && Has(w'.objects, p, RoleKey(name)) == Some(Rules(rules))
            && w'.clusterExists && w'.accounts == ""
    ensures LastWriter(Writes(w, p, NoFaults()), RoleKey(name)) == Some(Rules(rules))
  {
    var spec := OneRole(name, rules);
    OneRoleIsDemanded(p, name, rules);
    NewRequestIsGranted(w, p, spec);
    var w' := Pass(w, p, NoFaults());
    assert Has(w'.objects, p, RoleKey(name)) == LastWriter(Demands(p, "", spec), RoleKey(name));
    MeetableSucceeds(SpecTasks(w, p));
    AllPerformed(SpecTasks(w, p), []);
  }

  /** A pass over another request leaves a request at rest, whatever it does to its objects. */
  lemma OtherPassKeepsRest(w: World, p: Key, f: Faults, q: Key, now: int)
    requires p != q && AtRest(w, q, now)
    ensures AtRest(Pass(w, p, f), q, now) && Pass(w, p, f).requests[q] == w.requests[q]
  {
    PassRequests(w, p, f, q);
    PassSecrets(w, p, f, q);
  }

  /** Two requests that give a cluster-wide role the same name. The first one is created and granted, with
      its role; then the second one is. Without any failure the role then belongs to the second request,
      with the rules of that one, and the first request is still granted and has no such role any more,
      which further passes over it do not notice. */
  lemma SharedNameTakesRoleAway(q: Key, p: Key, name: string, rules: string, others: string)
    requires p != q && name != ""
    ensures var mine, theirs, fine := OneRole(name, rules), OneRole(name, others), NoFaults();
            var before := Run(NoRequests(), [Create(q, mine), Reconcile(q, fine)]);
            var after := Run(NoRequests(), [Create(q, mine), Reconcile(q, fine),
                                            Create(p, theirs), Reconcile(p, fine)]);
            && q in before.requests && Settled(before.requests[q]) && before.requests[q].spec == mine
            && Exact(before, q) && Has(before.objects, q, RoleKey(name)) == Some(Rules(rules))
            && q in after.requests && after.requests[q] == before.requests[q]
            && Has(after.objects, q, RoleKey(name)) == None && !Exact(after, q)
            && Has(after.objects, p, RoleKey(name)) == Some(Rules(others))
            && Apply(after, Reconcile(q, fine)) == after
  {
    var mine, theirs, fine := OneRole(name, rules), OneRole(name, others), NoFaults();
    var k := RoleKey(name);
    var w1 := Apply(NoRequests(), Create(q, mine));
    var w2 := Pass(w1, q, fine);
    var w3 := Apply(w2, Create(p, theirs));
    var w4 := Pass(w3, p, fine);
    RunOfFour(NoRequests(), Create(q, mine), Reconcile(q, fine), Create(p, theirs), Reconcile(p, fine));
    FirstPassGivesRole(w1, q, name, rules);
    PassKeepsSpec(w1, q, fine);
    PassRequests(w1, q, fine, p);
    FirstPassGivesRole(w3, p, name, others);
    OtherHas(w3, p, fine, q, k);
    OtherPassKeepsRest(w3, p, fine, q, fine.now);
    PassObjects(w3, p, fine);
    RoleIsMissed(w4, q, name, rules);
    RestIsKept(w4, q, fine);
  }

  lemma RoleIsMissed(w: World, q: Key, name: string, rules: string)
    requires name != "" && w.accounts == "" && q in w.requests && w.requests[q].spec == OneRole(name, rules)
    requires Has(w.objects, q, RoleKey(name)) == None
    ensures !Exact(w, q)
  {
    OneRoleIsDemanded(q, name, rules);
  }

  // ---------------------------------------------------------------------------------------------
  // One request with two roles of the same name

  /** The pass fails at the second role, and its status is lost. */
  function Stopping(): Faults {
    NoFaults().(progress := [1, 2, 0], status := true)
  }

  lemma TwoRolesAreDemanded(p: Key, name: string, first: string, second: string)
    requires name != ""
    ensures var tasks := Tasks(p, "", TwoRoles(name, first, second));
            && Meetable(tasks) && !AllSucceed(tasks, [1, 2, 0])
            && LastWriter(Ensured(tasks, [1, 2, 0]), RoleKey(name)) == Some(Rules(first))
            && LastWriter(Flatten(tasks), RoleKey(name)) == Some(Rules(second))
  {
    var a, b, k := RoleDef(name, "", first), RoleDef(name, "", second), RoleKey(name);
    var subjects := AccountSubjects(p, "");
    var t0, t1, t2 := [AccountDemand(p, "")], PermissionDemands(p, subjects, a, 0),
        PermissionDemands(p, subjects, b, 1);
    assert Tasks(p, "", TwoRoles(name, first, second)) == [t0, t1, t2];
    FlattenThree(t0, t1, t2);
    FailsAtThird(t0, t1, t2);
    LastWriterConcat(t0 + t1, t2, k);
    LastWriterConcat(t0, t1, k);
    assert t1[1..] == [t1[1]] && t2[1..] == [t2[1]];
  }

  lemma FlattenThree(a: Task, b: Task, c: Task)
    ensures Flatten([a, b, c]) == a + b + c
  {
    assert [a, b, c][1..] == [b, c];
    FlattenTwo(b, c);
  }

  lemma FailsAtThird(t0: Task, t1: Task, t2: Task)
    requires |t0| == 1 && |t1| == 2 && |t2| == 2
    ensures var f := [1, 2, 0];
            Ensured([t0, t1, t2], f) == t0 + t1 && !AllSucceed([t0, t1, t2], f)
  {
    var f: Progress := [1, 2, 0];
    var tasks := [t0, t1, t2];
    assert tasks[1..] == [t1, t2] && [t1, t2][1..] == [t2] && [t2][1..] == [];
    assert Later(f) == [2, 0] && Later([2, 0]) == [0] && Later([0]) == [];
    assert t0[..1] == t0 && t1[..2] == t1 && t2[..0] == [];
    assert Performed([t2], [0]) == [];
    assert Performed([t1, t2], [2, 0]) == t1;
    assert !AllSucceed([t2], [0]);
    assert !AllSucceed([t1, t2], [2, 0]);
  }

  /** A pass over a request at rest that is enforced and then stops half-way without a trace in the status:
      the objects are those of the demands that were met, and the request is at rest again. */
  lemma StoppedPass(w: World, p: Key, now: int)
    requires AtRest(w, p, now) && w.clusterExists
    requires !AllSucceed(SpecTasks(w, p), Stopping().progress)
    ensures var w1 := Apply(w, Annotate(p, ReconcileNow));
            var w2 := Pass(w1, p, Stopping());
            && w2 == w.(objects := Put(w.objects, p, Ensured(SpecTasks(w, p), Stopping().progress)))
  {
    var w1, f := Apply(w, Annotate(p, ReconcileNow)), Stopping();
    var r := w.requests[p];
    assert StageEnsures(true, w1.requests[p], Start(w1, p), f);
    EnsuringStage(p, w1.accounts, true, w1.requests[p], Start(w1, p), f);
    assert Prepared(w1.requests[p]) == r;
    assert w1.requests[p := r] == w.requests && w.secrets[p := w.secrets[p]] == w.secrets;
  }

  /** A request that gives two roles the same name. It is created and granted, with the rules of the second
      role; then it is annotated, and the pass fails between the two roles and loses its status. The request
      is still granted for the same spec, but its role has the rules of the first, which further passes over
      it do not notice. */
  lemma RepeatedNameKeepsEarlierRules(p: Key, name: string, first: string, second: string)
    requires name != "" && first != second
    ensures var spec, k, fine := TwoRoles(name, first, second), RoleKey(name), NoFaults();
            var before := Run(NoRequests(), [Create(p, spec), Reconcile(p, fine)]);
            var after := Run(NoRequests(), [Create(p, spec), Reconcile(p, fine),
                                            Annotate(p, ReconcileNow), Reconcile(p, Stopping())]);
            && p in before.requests && Settled(before.requests[p]) && before.requests[p].spec == spec
            && Exact(before, p) && Has(before.objects, p, k) == Some(Rules(second))
            && p in after.requests && after.requests[p] == before.requests[p]
            && LastWriter(Demands(p, after.accounts, spec), k) == Some(Rules(second))
            && Has(after.objects, p, k) == Some(Rules(first)) && !Exact(after, p)
            && Apply(after, Reconcile(p, fine)) == after
  {
    var spec, k, fine := TwoRoles(name, first, second), RoleKey(name), NoFaults();
    var w1 := Apply(NoRequests(), Create(p, spec));
    var w2 := Pass(w1, p, fine);
    RunOfFour(NoRequests(), Create(p, spec), Reconcile(p, fine), Annotate(p, ReconcileNow), Reconcile(p, Stopping()));
    TwoRolesAreDemanded(p, name, first, second);
    NewRequestIsGranted(w1, p, spec);
    assert Has(w2.objects, p, k) == LastWriter(Demands(p, "", spec), k);
    StoppedPass(w2, p, fine.now);
    var w4 := Pass(Apply(w2, Annotate(p, ReconcileNow)), p, Stopping());
    PutHas(w2.objects, p, Ensured(SpecTasks(w2, p), Stopping().progress), p, k);
    assert Has(w4.objects, p, k) != LastWriter(Demands(p, w4.accounts, spec), k);
    RestIsKept(w4, p, fine);
  }
}
