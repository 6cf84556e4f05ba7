/** Requests whose demands cannot collide never get in each other's way, nor in their own. Those that let
    the controller name their roles are of this kind. */
module AccessNames {
  import opened Common
  import opened KeyedLists
  import opened TokenRenewal
  import opened AccessObjects
  import opened AccessRequests
  import opened AccessSafety
  import opened AccessRuns

  // ---------------------------------------------------------------------------------------------
  // Demands that cannot collide

  /** No object is demanded by both requests, or with two contents by the same one. */
  ghost predicate Apart(accounts: string, p: Key, spec: Spec, q: Key, spec': Spec) {
    forall d, e :: d in Demands(p, accounts, spec) && e in Demands(q, accounts, spec') && d.key == e.key ==>
      p == q && d == e
  }

  predicate Live(w: World, q: Key) {
    q in w.requests && !w.requests[q].deleting
  }

  /** No two requests that are not under deletion collide, and none collides with itself. */
  ghost predicate CollisionFree(w: World) {
    forall p, q :: Live(w, p) && Live(w, q) ==> Apart(w.accounts, p, w.requests[p].spec, q, w.requests[q].spec)
  }

  lemma {:induction false} LastWriterIsMember(demands: seq<Demand>, k: ObjKey)
    requires LastWriter(demands, k).Some?
    ensures Item(k, LastWriter(demands, k).value) in demands
  {
    if LastWriter(demands[1..], k).Some? { LastWriterIsMember(demands[1..], k); }
  }

  lemma {:induction false} MemberHasWriter(demands: seq<Demand>, d: Demand)
    requires d in demands
    ensures LastWriter(demands, d.key).Some?
  {
    if d != demands[0] { MemberHasWriter(demands[1..], d); }
  }

  lemma {:induction false} PerformedAreDemands(tasks: seq<Task>, progress: Progress, d: Demand)
    requires d in Performed(tasks, progress)
    ensures d in Flatten(tasks)
    decreases |tasks|
  {
    if d !in tasks[0] { PerformedAreDemands(tasks[1..], Later(progress), d); }
  }

  lemma WritesAreDemands(w: World, p: Key, f: Faults, k: ObjKey)
    requires LastWriter(Writes(w, p, f), k).Some?
    ensures p in w.requests
    ensures Item(k, LastWriter(Writes(w, p, f), k).value) in Demands(p, w.accounts, w.requests[p].spec)
  {
    var tasks := SpecTasks(w, p);
    var d := Item(k, LastWriter(Writes(w, p, f), k).value);
    LastWriterIsMember(Writes(w, p, f), k);
    if !Succeeds(f.progress, tasks[0]) {
      assert d in tasks[0];
      assert Flatten(tasks) == tasks[0] + Flatten(tasks[1..]);
    } else {
      PerformedAreDemands(tasks, f.progress, d);
    }
  }

  lemma AvoidsOther(w: World, p: Key, f: Faults, q: Key)
    requires CollisionFree(w) && Live(w, q) && q != p && Exact(w, q) && Ensures(w, p, f)
    ensures Avoids(w.objects, q, Writes(w, p, f))
  {
    var demands := Demands(q, w.accounts, w.requests[q].spec);
    assert Apart(w.accounts, p, w.requests[p].spec, q, w.requests[q].spec);
    forall k | LastWriter(Writes(w, p, f), k).Some? ensures Has(w.objects, q, k).None? {
      WritesAreDemands(w, p, f, k);
      assert Has(w.objects, q, k) == LastWriter(demands, k);
      if LastWriter(demands, k).Some? { LastWriterIsMember(demands, k); }
    }
  }

  lemma NothingOverridden(w: World, p: Key, f: Faults)
    requires CollisionFree(w) && Live(w, p)
    ensures StopsNowhere(Writes(w, p, f), Flatten(SpecTasks(w, p)))
  {
    var spec, writes, demands := w.requests[p].spec, Writes(w, p, f), Flatten(SpecTasks(w, p));
    assert Apart(w.accounts, p, spec, p, spec);
    forall k | LastWriter(writes, k).Some? ensures LastWriter(writes, k) == LastWriter(demands, k) {
      WritesAreDemands(w, p, f, k);
      MemberHasWriter(demands, Item(k, LastWriter(writes, k).value));
      LastWriterIsMember(demands, k);
      assert Item(k, LastWriter(writes, k).value) == Item(k, LastWriter(demands, k).value);
    }
  }

  /** Where no demands collide, every pass is benign, whatever fails in it. */
  lemma CollisionFreeIsBenign(w: World, p: Key, f: Faults)
    requires Agreed(w) && CollisionFree(w)
    ensures Benign(w, p, f)
  {
    if Ensures(w, p, f) {
      forall q | q in w.requests && q != p && Settled(w.requests[q]) ensures Avoids(w.objects, q, Writes(w, p, f)) {
        AvoidsOther(w, p, f, q);
      }
      NothingOverridden(w, p, f);
    }
  }

  /** A spec that is created or edited collides neither with the other requests nor with itself. */
  ghost predicate Fits(w: World, s: Step) {
    match s
    case Create(key, spec) => SpecFits(w, key, spec)
    case Edit(key, spec) => SpecFits(w, key, spec)
    case _ => true
  }

  ghost predicate SpecFits(w: World, key: Key, spec: Spec) {
    && Apart(w.accounts, key, spec, key, spec)
    && forall q :: Live(w, q) && q != key ==> Apart(w.accounts, key, spec, q, w.requests[q].spec)
  }

  lemma ApartIsSymmetric(accounts: string, p: Key, spec: Spec, q: Key, spec': Spec)
    requires Apart(accounts, p, spec, q, spec')
    ensures Apart(accounts, q, spec', p, spec)
  {}

  /** Live requests of `w'` are live requests of `w` with the same spec, but for `key`. */
  lemma CollisionFreeStays(w: World, w': World, key: Key)
    requires CollisionFree(w) && w'.accounts == w.accounts
    requires forall q :: q != key && Live(w', q) ==> Live(w, q) && w'.requests[q].spec == w.requests[q].spec
    requires Live(w', key) ==> SpecFits(w, key, w'.requests[key].spec)
    ensures CollisionFree(w')
  {
    forall p, q | Live(w', p) && Live(w', q)
      ensures Apart(w'.accounts, p, w'.requests[p].spec, q, w'.requests[q].spec)
    {
      if q == key && p != key { ApartIsSymmetric(w.accounts, q, w'.requests[q].spec, p, w'.requests[p].spec); }
    }
  }

  lemma LiveSpecFits(w: World, key: Key)
    requires CollisionFree(w) && Live(w, key)
    ensures SpecFits(w, key, w.requests[key].spec)
  {}

  /** Where the specs of live requests come from. */
  lemma SpecIsOldOrNew(w: World, s: Step, q: Key)
    requires !s.Reconcile? && Live(Apply(w, s), q)
    ensures || (Live(w, q) && Apply(w, s).requests[q].spec == w.requests[q].spec)
            || ((s.Create? || s.Edit?) && s.key == q && Apply(w, s).requests[q].spec == s.spec)
  {}

  lemma StepKeepsCollisionFree(w: World, s: Step)
    requires CollisionFree(w) && Fits(w, s)
    ensures CollisionFree(Apply(w, s))
  {
    if s.Reconcile? {
      PassKeepsCollisionFree(w, s.key, s.faults);
    } else {
      var w' := Apply(w, s);
      var key := if s.Create? || s.Edit? then s.key else Key("", "");
      forall q | Live(w', q)
        ensures || (Live(w, q) && w'.requests[q].spec == w.requests[q].spec)
                || (q == key && SpecFits(w, key, w'.requests[key].spec))
      {
        SpecIsOldOrNew(w, s, q);
      }
      if Live(w', key) && Live(w, key) && w'.requests[key].spec == w.requests[key].spec { LiveSpecFits(w, key); }
      AccountsStay(w, s);
      CollisionFreeStays(w, w', key);
    }
  }

  lemma AccountsStay(w: World, s: Step)
    ensures Apply(w, s).accounts == w.accounts
  {
    if s.Reconcile? { PassObjects(w, s.key, s.faults); }
  }

  lemma PassKeepsCollisionFree(w: World, key: Key, f: Faults)
    requires CollisionFree(w)
    ensures CollisionFree(Pass(w, key, f))
  {
    var w' := Pass(w, key, f);
    PassObjects(w, key, f);
    forall q | q != key && Live(w', q) ensures Live(w, q) && w'.requests[q].spec == w.requests[q].spec {
      PassRequests(w, key, f, q);
    }
    if Live(w', key) {
      if key in w.requests { PassKeepsSpec(w, key, f); }
      LiveSpecFits(w, key);
    }
    CollisionFreeStays(w, w', key);
  }

  ghost predicate FittingRun(w: World, steps: seq<Step>)
    decreases |steps|
  {
    steps == [] || (Fits(w, steps[0]) && !LosesObjects(w, steps[0]) && FittingRun(Apply(w, steps[0]), steps[1..]))
  }

  /** In every run in which no spec is created or edited that collides with itself or with another request,
      role names given by the requests included, every request that is granted for its current generation
      has exactly the objects its spec demands, whatever fails and whatever statuses are lost. */
  lemma {:induction false} CollisionFreeStaysExact(w: World, steps: seq<Step>)
    requires Agreed(w) && StatusBehind(w) && CollisionFree(w) && FittingRun(w, steps)
    ensures Agreed(Run(w, steps))
    decreases |steps|
  {
    if steps != [] {
      var s := steps[0];
      if s.Reconcile? { CollisionFreeIsBenign(w, s.key, s.faults); }
      StepKeepsAgreedIff(w, s);
      StepKeepsBehind(w, s);
      StepKeepsCollisionFree(w, s);
      CollisionFreeStaysExact(Apply(w, s), steps[1..]);
    }
  }

  // ---------------------------------------------------------------------------------------------
  // Generated names

  /** No role of the spec is given a name. */
  predicate NamesGenerated(spec: Spec) {
    && (spec.token.Some? ==> forall d :: d in spec.token.value.permissions ==> d.name == "")
    && (spec.oidc.Some? ==> forall d :: d in spec.oidc.value.roles ==> d.name == "")
  }

  /** What the name of an object says about the demand for it. */
  ghost predicate Originates(r: Key, accounts: string, spec: Spec, d: Demand) {
    match d.key.name
    case Given(_) => false
    case OfRequest(q) =>
      && q == r
      && (if spec.token.Some? then d == AccountDemand(r, accounts)
          else spec.oidc.Some? && d == IssuerDemand(r, spec.oidc.value))
    case PermissionName(q, i) =>
      && q == r && spec.token.Some? && i < |spec.token.value.permissions|
      && d in PermissionDemands(r, AccountSubjects(r, accounts), spec.token.value.permissions[i], i)
    case RoleRefName(q, i) =>
      && q == r && spec.token.Some? && i < |spec.token.value.roleRefs|
      && d in RoleRefDemands(r, AccountSubjects(r, accounts), spec.token.value.roleRefs[i], i)
    case OidcRoleName(q, i) =>
      && q == r && spec.oidc.Some? && i < |spec.oidc.value.roles|
      && d in OidcRoleDemands(r, spec.oidc.value.roles[i], i)
    case OidcBindingName(q, i, j) =>
      && q == r && spec.oidc.Some? && i < |spec.oidc.value.bindings|
      && var def := spec.oidc.value.bindings[i];
      && j < |def.roleRefs|
      && d in OidcBindingDemands(r, PrefixedSubjects(spec.oidc.value, def.subjects), def.roleRefs[j], i, j)
  }

  ghost predicate TaskOriginates(r: Key, accounts: string, spec: Spec, task: Task) {
    forall d :: d in task ==> Originates(r, accounts, spec, d)
  }

  lemma TokenTasksOriginate(r: Key, accounts: string, spec: Spec, task: Task)
    requires NamesGenerated(spec) && spec.token.Some? && task in TokenTasks(r, accounts, spec.token.value)
    ensures TaskOriginates(r, accounts, spec, task)
  {
    var t, subjects := spec.token.value, AccountSubjects(r, accounts);
    var tasks := TokenTasks(r, accounts, t);
    var i :| 0 <= i < |tasks| && tasks[i] == task;
    if i < |t.permissions| {
      assert t.permissions[i].name == "";
      assert task == PermissionDemands(r, subjects, t.permissions[i], i);
    } else {
      assert task == RoleRefDemands(r, subjects, t.roleRefs[i - |t.permissions|], i - |t.permissions|);
    }
  }

  lemma OidcRoleTasksOriginate(r: Key, accounts: string, spec: Spec, task: Task)
    requires NamesGenerated(spec) && spec.oidc.Some? && task in OidcRoleTasks(r, spec.oidc.value)
    ensures TaskOriginates(r, accounts, spec, task)
  {
    var roles := spec.oidc.value.roles;
    var i :| 0 <= i < |roles| && task == OidcRoleDemands(r, roles[i], i);
    assert roles[i].name == "";
  }

  lemma {:induction false} OidcBindingTasksOriginate(r: Key, accounts: string, spec: Spec, n: nat, task: Task)
    requires spec.oidc.Some? && n <= |spec.oidc.value.bindings| && task in OidcBindingTasks(r, spec.oidc.value, n)
    ensures TaskOriginates(r, accounts, spec, task)
  {
    if task in BindingTasks(r, spec.oidc.value, n - 1) {
      var def := spec.oidc.value.bindings[n - 1];
      var subjects := PrefixedSubjects(spec.oidc.value, def.subjects);
      var j :| 0 <= j < |def.roleRefs| && task == OidcBindingDemands(r, subjects, def.roleRefs[j], n - 1, j);
    } else {
      OidcBindingTasksOriginate(r, accounts, spec, n - 1, task);
    }
  }

  lemma TasksOriginate(r: Key, accounts: string, spec: Spec, task: Task)
    requires NamesGenerated(spec) && task in Tasks(r, accounts, spec)
    ensures TaskOriginates(r, accounts, spec, task)
  {
    if spec.token.Some? {
      if task in TokenTasks(r, accounts, spec.token.value) { TokenTasksOriginate(r, accounts, spec, task); }
    } else {
      var o := spec.oidc.value;
      if task in OidcRoleTasks(r, o) {
        OidcRoleTasksOriginate(r, accounts, spec, task);
      } else if task in OidcBindingTasks(r, o, |o.bindings|) {
        OidcBindingTasksOriginate(r, accounts, spec, |o.bindings|, task);
      } else {
        assert task == [IssuerDemand(r, o)];
      }
    }
  }

  lemma {:induction false} InFlattened(tasks: seq<Task>, d: Demand)
    requires d in Flatten(tasks)
    ensures exists t :: t in tasks && d in t
    decreases |tasks|
  {
    assert d in tasks[0] || d in Flatten(tasks[1..]);
    if d in tasks[0] {
      assert tasks[0] in tasks;
    } else {
      InFlattened(tasks[1..], d);
    }
  }

  lemma DemandsOriginate(r: Key, accounts: string, spec: Spec, d: Demand)
    requires NamesGenerated(spec) && d in Demands(r, accounts, spec)
    ensures Originates(r, accounts, spec, d)
  {
    InFlattened(Tasks(r, accounts, spec), d);
    var t :| t in Tasks(r, accounts, spec) && d in t;
    TasksOriginate(r, accounts, spec, t);
  }

  /** A generated name and a kind determine the demand. */
  lemma OriginDetermines(r: Key, accounts: string, spec: Spec, a: Demand, b: Demand)
    requires NamesGenerated(spec)
    requires Originates(r, accounts, spec, a) && Originates(r, accounts, spec, b) && a.key == b.key
    ensures a == b
  {}

  lemma OriginNamesRequest(r: Key, accounts: string, spec: Spec, q: Key, accounts': string, spec': Spec,
      a: Demand, b: Demand)
    requires Originates(r, accounts, spec, a) && Originates(q, accounts', spec', b) && a.key == b.key
    ensures r == q
  {}

  lemma GeneratedIsApart(accounts: string, p: Key, spec: Spec, q: Key, spec': Spec)
    requires NamesGenerated(spec) && NamesGenerated(spec') && (p == q ==> spec == spec')
    ensures Apart(accounts, p, spec, q, spec')
  {
    forall d, e | d in Demands(p, accounts, spec) && e in Demands(q, accounts, spec') && d.key == e.key
      ensures p == q && d == e
    {
      DemandsOriginate(p, accounts, spec, d);
      DemandsOriginate(q, accounts, spec', e);
      OriginNamesRequest(p, accounts, spec, q, accounts, spec', d, e);
      OriginDetermines(p, accounts, spec, d, e);
    }
  }

  ghost predicate AllGenerated(w: World) {
    forall q :: q in w.requests ==> NamesGenerated(w.requests[q].spec)
  }

  /** Where the controller names all roles, no demands collide. */
  lemma {:induction false} GeneratedIsCollisionFree(w: World)
    requires AllGenerated(w)
    ensures CollisionFree(w)
  {
    forall p, q | Live(w, p) && Live(w, q) ensures Apart(w.accounts, p, w.requests[p].spec, q, w.requests[q].spec) {
      GeneratedIsApart(w.accounts, p, w.requests[p].spec, q, w.requests[q].spec);
    }
  }

  predicate StepGenerates(s: Step) {
    match s
    case Create(_, spec) => NamesGenerated(spec)
    case Edit(_, spec) => NamesGenerated(spec)
    case _ => true
  }

  lemma GeneratedFits(w: World, s: Step)
    requires AllGenerated(w) && StepGenerates(s)
    ensures Fits(w, s)
  {
    if s.Create? || s.Edit? {
      GeneratedIsApart(w.accounts, s.key, s.spec, s.key, s.spec);
      forall q | Live(w, q) && q != s.key ensures Apart(w.accounts, s.key, s.spec, q, w.requests[q].spec) {
        GeneratedIsApart(w.accounts, s.key, s.spec, q, w.requests[q].spec);
      }
    }
  }

  lemma StepKeepsGenerated(w: World, s: Step)
    requires AllGenerated(w) && StepGenerates(s)
    ensures AllGenerated(Apply(w, s))
  {
    if s.Reconcile? && s.key in w.requests {
      var w' := Apply(w, s);
      forall q | q in w'.requests ensures NamesGenerated(w'.requests[q].spec) {
        if q == s.key { PassKeepsSpec(w, q, s.faults); } else { PassRequests(w, s.key, s.faults, q); }
      }
    }
  }

  ghost predicate KeepsObjects(w: World, steps: seq<Step>)
    decreases |steps|
  {
    steps == [] || (!LosesObjects(w, steps[0]) && KeepsObjects(Apply(w, steps[0]), steps[1..]))
  }

  lemma {:induction false} GeneratedRunFits(w: World, steps: seq<Step>)
    requires AllGenerated(w) && KeepsObjects(w, steps) && forall s :: s in steps ==> StepGenerates(s)
    ensures FittingRun(w, steps)
    decreases |steps|
  {
    if steps != [] {
      GeneratedFits(w, steps[0]);
      StepKeepsGenerated(w, steps[0]);
      GeneratedRunFits(Apply(w, steps[0]), steps[1..]);
    }
  }

  /** In particular this holds in every run in which the controller names all roles. */
  lemma GeneratedNamesStayExact(w: World, steps: seq<Step>)
    requires Agreed(w) && StatusBehind(w) && AllGenerated(w) && KeepsObjects(w, steps)
    requires forall s :: s in steps ==> StepGenerates(s)
    ensures Agreed(Run(w, steps))
  {
    GeneratedIsCollisionFree(w);
    GeneratedRunFits(w, steps);
    CollisionFreeStaysExact(w, steps);
  }

  // ---------------------------------------------------------------------------------------------
  // What exact objects grant

  lemma {:induction false} TaskIsFlattened(tasks: seq<Task>, i: nat, d: Demand)
    requires i < |tasks| && d in tasks[i]
    ensures d in Flatten(tasks)
    decreases |tasks|
  {
    if i > 0 { TaskIsFlattened(tasks[1..], i - 1, d); }
  }

  /** No demand is overridden by another one. */
  lemma DemandCounts(r: Key, accounts: string, spec: Spec, i: nat, d: Demand)
    requires Apart(accounts, r, spec, r, spec) && i < |Tasks(r, accounts, spec)| && d in Tasks(r, accounts, spec)[i]
    ensures LastWriter(Demands(r, accounts, spec), d.key) == Some(d.value)
  {
    var demands := Demands(r, accounts, spec);
    TaskIsFlattened(Tasks(r, accounts, spec), i, d);
    MemberHasWriter(demands, d);
    LastWriterIsMember(demands, d.key);
    assert Item(d.key, LastWriter(demands, d.key).value) == d;
  }

  /** For every permission of a granted token request that does not collide with itself there is a role with
      the rules of that permission, in its namespace or cluster-wide, and a binding of the account of the
      request to this role. */
  lemma PermissionsAreGranted(w: World, q: Key, i: nat)
    requires q in w.requests && Exact(w, q)
    requires var spec := w.requests[q].spec;
             && Apart(w.accounts, q, spec, q, spec)
             && spec.token.Some? && i < |spec.token.value.permissions|
    ensures var p := w.requests[q].spec.token.value.permissions[i];
            var account := Subject(Account, OfRequest(q), w.accounts);
            var name := RoleName(p.name, PermissionName(q, i));
            && Has(w.objects, q, InNamespace(ServiceAccount, w.accounts, OfRequest(q))).Some?
            && if p.namespace == "" then
                 && Has(w.objects, q, ClusterWide(ClusterRole, name)) == Some(Rules(p.rules))
                 && Has(w.objects, q, ClusterWide(ClusterRoleBinding, name))
                    == Some(Grant(ClusterRole, name, [account]))
               else
                 && Has(w.objects, q, InNamespace(Role, p.namespace, name)) == Some(Rules(p.rules))
                 && Has(w.objects, q, InNamespace(RoleBinding, p.namespace, name)) == Some(Grant(Role, name, [account]))
  {
    var spec := w.requests[q].spec;
    var p := spec.token.value.permissions[i];
    var tasks, task := Tasks(q, w.accounts, spec), PermissionDemands(q, AccountSubjects(q, w.accounts), p, i);
    assert tasks[0] == [AccountDemand(q, w.accounts)] && tasks[i + 1] == task;
    DemandCounts(q, w.accounts, spec, 0, AccountDemand(q, w.accounts));
    DemandCounts(q, w.accounts, spec, i + 1, task[0]);
    DemandCounts(q, w.accounts, spec, i + 1, task[1]);
    forall d | d in {AccountDemand(q, w.accounts), task[0], task[1]} ensures Has(w.objects, q, d.key) == Some(d.value) {
      assert Has(w.objects, q, d.key) == LastWriter(Demands(q, w.accounts, spec), d.key);
    }
  }

  /** A request for a token demands no OpenIDConnect object, and one for OIDC no account, so that a
      request which is switched from one to the other loses what the other had. */
  lemma {:induction false} NoLeftovers(w: World, q: Key, k: ObjKey)
    requires q in w.requests && Exact(w, q)
    requires var spec := w.requests[q].spec;
             if spec.token.Some? then k.kind == OpenIDConnect else k.kind == ServiceAccount
    ensures Has(w.objects, q, k) == None
  {
    var spec, demands := w.requests[q].spec, Demands(q, w.accounts, w.requests[q].spec);
    assert Has(w.objects, q, k) == LastWriter(demands, k);
    if LastWriter(demands, k).Some? {
      LastWriterIsMember(demands, k);
      var d := Item(k, LastWriter(demands, k).value);
      InFlattened(Tasks(q, w.accounts, spec), d);
      var t :| t in Tasks(q, w.accounts, spec) && d in t;
      TaskKinds(q, w.accounts, spec, t, d);
    }
  }

  lemma TaskKinds(r: Key, accounts: string, spec: Spec, task: Task, d: Demand)
    requires task in Tasks(r, accounts, spec) && d in task
    ensures if spec.token.Some? then d.key.kind != OpenIDConnect else d.key.kind != ServiceAccount
  {
    if spec.token.Some? {
      assert task == [AccountDemand(r, accounts)] || task in TokenTasks(r, accounts, spec.token.value);
    } else {
      var o := spec.oidc.value;
      if task in OidcBindingTasks(r, o, |o.bindings|) {
        BindingKinds(r, o, |o.bindings|, task, d);
      } else {
        assert task == [IssuerDemand(r, o)] || task in OidcRoleTasks(r, o);
      }
    }
  }

  lemma {:induction false} BindingKinds(r: Key, o: OidcSpec, n: nat, task: Task, d: Demand)
    requires n <= |o.bindings| && task in OidcBindingTasks(r, o, n) && d in task
    ensures d.key.kind in {RoleBinding, ClusterRoleBinding}
  {
    if task !in BindingTasks(r, o, n - 1) { BindingKinds(r, o, n - 1, task, d); }
  }
}
