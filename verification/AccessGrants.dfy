/** What the objects of a request grant to whom, said over the spec alone. */
module AccessGrants {
  import opened Common
  import opened KeyedLists
  import opened AccessObjects
  import opened AccessRequests
  import opened AccessSafety
  import opened AccessNames

  /** The request has exactly its objects, and its demands do not collide with each other. */
  ghost predicate InShape(w: World, q: Key) {
    && q in w.requests && Exact(w, q)
    && Apart(w.accounts, q, w.requests[q].spec, q, w.requests[q].spec)
  }

  lemma DemandIsThere(w: World, q: Key, task: Task, d: Demand)
    requires InShape(w, q) && task in Tasks(q, w.accounts, w.requests[q].spec) && d in task
    ensures Has(w.objects, q, d.key) == Some(d.value)
  {
    var spec := w.requests[q].spec;
    var tasks := Tasks(q, w.accounts, spec);
    var i :| 0 <= i < |tasks| && tasks[i] == task;
    DemandCounts(q, w.accounts, spec, i, d);
    assert Has(w.objects, q, d.key) == LastWriter(Demands(q, w.accounts, spec), d.key);
  }

  /** The role reference is met by a binding of the given subjects: to a Role in its namespace if it is one to a
      Role, and otherwise cluster-wide to a ClusterRole. */
  ghost predicate IsBound(w: World, q: Key, name: ObjName, ref: RoleRef, subjects: seq<Subject>) {
    if ref.kind == ToRole
    then Has(w.objects, q, InNamespace(RoleBinding, ref.namespace, name))
         == Some(Grant(Role, Given(ref.name), subjects))
    else Has(w.objects, q, ClusterWide(ClusterRoleBinding, name))
         == Some(Grant(ClusterRole, Given(ref.name), subjects))
  }

  /** Every role reference of a token request is bound to the account of the request. */
  lemma RoleRefsAreBound(w: World, q: Key, i: nat)
    requires InShape(w, q) && w.requests[q].spec.token.Some? && i < |w.requests[q].spec.token.value.roleRefs|
    ensures IsBound(w, q, RoleRefName(q, i), w.requests[q].spec.token.value.roleRefs[i],
                    [Subject(Account, OfRequest(q), w.accounts)])
  {
    var t := w.requests[q].spec.token.value;
    var subjects := AccountSubjects(q, w.accounts);
    var task := RoleRefDemands(q, subjects, t.roleRefs[i], i);
    var tasks := Tasks(q, w.accounts, w.requests[q].spec);
    assert RoleRefTasks(q, subjects, t.roleRefs)[i] == task;
    assert tasks[1 + |t.permissions| + i] == task;
    DemandIsThere(w, q, task, task[0]);
  }

  /** An OIDC request has an OpenIDConnect object with the issuer, the client and the claims of its spec, and with
      its prefixes, where a dash stands for none. */
  lemma IssuerIsThere(w: World, q: Key)
    requires InShape(w, q) && w.requests[q].spec.token.None? && w.requests[q].spec.oidc.Some?
    ensures var o := w.requests[q].spec.oidc.value;
            var c := Has(w.objects, q, ClusterWide(OpenIDConnect, OfRequest(q)));
            && c.Some? && c.value.Issuer?
            && c.value.issuer == o.issuer && c.value.clientID == o.clientID
            && c.value.usernameClaim == o.usernameClaim && c.value.groupsClaim == o.groupsClaim
            && c.value.usernamePrefix == (if o.usernamePrefix == "" then "-" else o.usernamePrefix)
            && c.value.groupsPrefix == (if o.groupsPrefix == "" then "-" else o.groupsPrefix)
  {
    var o := w.requests[q].spec.oidc.value;
    assert Tasks(q, w.accounts, w.requests[q].spec)[0] == [IssuerDemand(q, o)];
    DemandIsThere(w, q, [IssuerDemand(q, o)], IssuerDemand(q, o));
  }

  /** Every role of an OIDC request is there, in its namespace or cluster-wide, with its rules. */
  lemma OidcRolesAreThere(w: World, q: Key, i: nat)
    requires InShape(w, q) && w.requests[q].spec.token.None? && w.requests[q].spec.oidc.Some?
    requires i < |w.requests[q].spec.oidc.value.roles|
    ensures var def := w.requests[q].spec.oidc.value.roles[i];
            var name := if def.name == "" then OidcRoleName(q, i) else Given(def.name);
            var key := if def.namespace == "" then ClusterWide(ClusterRole, name)
                       else InNamespace(Role, def.namespace, name);
            Has(w.objects, q, key) == Some(Rules(def.rules))
  {
    var o := w.requests[q].spec.oidc.value;
    var task := OidcRoleDemands(q, o.roles[i], i);
    assert OidcRoleTasks(q, o)[i] == task;
    assert Tasks(q, w.accounts, w.requests[q].spec)[1 + i] == task;
    DemandIsThere(w, q, task, task[0]);
  }

  /** The subject as it is bound: a name after two colons is taken as it is, and the names of users and groups get
      the prefix of the request otherwise. */
  ghost predicate IsSubject(o: OidcSpec, given: OidcSubject, bound: Subject) {
    && bound.kind == given.kind && bound.ns == given.ns && bound.name.Given?
    && var name := bound.name.text;
    || given.name == "::" + name
    || (!("::" <= given.name)
        && match given.kind
           case User => name == o.usernamePrefix + given.name
           case Group => name == o.groupsPrefix + given.name
           case Account => name == given.name)
  }

  lemma PrefixedIsSubject(o: OidcSpec, given: OidcSubject)
    ensures IsSubject(o, given, PrefixedSubject(o, given))
  {
    if |given.name| >= 2 && given.name[0] == ':' && given.name[1] == ':' {
      assert given.name == "::" + given.name[2..];
    }
  }

  lemma {:induction false} BindingTaskIsListed(q: Key, o: OidcSpec, n: nat, i: nat, j: nat)
    requires i < n <= |o.bindings| && j < |o.bindings[i].roleRefs|
    ensures BindingTasks(q, o, i)[j] in OidcBindingTasks(q, o, n)
  {
    if i < n - 1 {
      BindingTaskIsListed(q, o, n - 1, i, j);
    } else {
      assert BindingTasks(q, o, i)[j] in BindingTasks(q, o, n - 1);
    }
  }

  /** Every role reference of an OIDC request to a role is bound to all its subjects, in their order. */
  lemma OidcRefsAreBound(w: World, q: Key, i: nat, j: nat)
    requires InShape(w, q) && w.requests[q].spec.token.None? && w.requests[q].spec.oidc.Some?
    requires var o := w.requests[q].spec.oidc.value;
             i < |o.bindings| && j < |o.bindings[i].roleRefs| && o.bindings[i].roleRefs[j].kind != ToOther
    ensures var o := w.requests[q].spec.oidc.value;
            var def := o.bindings[i];
            exists subjects: seq<Subject> :: |subjects| == |def.subjects|
              && (forall k :: 0 <= k < |subjects| ==> IsSubject(o, def.subjects[k], subjects[k]))
              && IsBound(w, q, OidcBindingName(q, i, j), def.roleRefs[j], subjects)
  {
    var o := w.requests[q].spec.oidc.value;
    var def := o.bindings[i];
    var subjects := PrefixedSubjects(o, def.subjects);
    var task := OidcBindingDemands(q, subjects, def.roleRefs[j], i, j);
    BindingTaskIsListed(q, o, |o.bindings|, i, j);
    assert BindingTasks(q, o, i)[j] == task;
    DemandIsThere(w, q, task, task[0]);
    forall k | 0 <= k < |subjects| ensures IsSubject(o, def.subjects[k], subjects[k]) {
      PrefixedIsSubject(o, def.subjects[k]);
    }
    assert IsBound(w, q, OidcBindingName(q, i, j), def.roleRefs[j], subjects);
  }

  /** A request with a reference to something else than a role is never granted by a pass. */
  lemma OtherRefsAreNeverMet(q: Key, accounts: string, spec: Spec, progress: Progress, i: nat, j: nat)
    requires spec.token.None? && spec.oidc.Some?
    requires var o := spec.oidc.value;
             i < |o.bindings| && j < |o.bindings[i].roleRefs| && o.bindings[i].roleRefs[j].kind == ToOther
    ensures !AllSucceed(Tasks(q, accounts, spec), progress)
  {
    var o := spec.oidc.value;
    BindingTaskIsListed(q, o, |o.bindings|, i, j);
    assert BindingTasks(q, o, i)[j] == [];
    EmptyTaskFails(Tasks(q, accounts, spec), progress);
  }

  lemma {:induction false} EmptyTaskFails(tasks: seq<Task>, progress: Progress)
    requires [] in tasks
    ensures !AllSucceed(tasks, progress)
    decreases |tasks|
  {
    if tasks[0] != [] { EmptyTaskFails(tasks[1..], Later(progress)); }
  }

  // ---------------------------------------------------------------------------------------------
  // Errors on the way

  /** Task `j` meets with no failure. */
  predicate GoesWell(tasks: seq<Task>, progress: Progress, j: nat)
    requires j < |tasks|
  {
    tasks[j] != [] && (j >= |progress| || progress[j] >= |tasks[j]|)
  }

  lemma {:induction false} PerformedDespiteErrors(tasks: seq<Task>, progress: Progress, j: nat, d: Demand)
    requires j < |tasks| && GoesWell(tasks, progress, j) && d in tasks[j]
    ensures d in Performed(tasks, progress)
    decreases |tasks|
  {
    if j == 0 {
      assert tasks[0][..|tasks[0]|] == tasks[0];
    } else {
      PerformedDespiteErrors(tasks[1..], Later(progress), j - 1, d);
    }
  }

  /** A pass that goes as far as ensuring gives the request every object of every task that meets with no failure,
      however many other tasks fail, as long as the first one, the account or the issuer, does not. */
  lemma ErrorsDoNotStopOthers(w: World, p: Key, f: Faults, j: nat, d: Demand)
    requires Ensures(w, p, f) && j < |SpecTasks(w, p)|
    requires GoesWell(SpecTasks(w, p), f.progress, 0) && GoesWell(SpecTasks(w, p), f.progress, j)
    requires d in SpecTasks(w, p)[j]
    ensures Has(Put(w.objects, p, Writes(w, p, f)), p, d.key).Some?
  {
    var tasks := SpecTasks(w, p);
    PerformedDespiteErrors(tasks, f.progress, j, d);
    MemberHasWriter(Writes(w, p, f), d);
    PutHas(w.objects, p, Writes(w, p, f), p, d.key);
  }

  /** Nothing at all happens to the objects if the account or the issuer cannot be ensured, and the grant is taken
      back unless the status is lost. */
  lemma NothingWithoutAccount(w: World, p: Key, f: Faults)
    requires Ensures(w, p, f) && SpecTasks(w, p) != [] && f.progress != [] && f.progress[0] == 0
    ensures var w' := Pass(w, p, f);
            && w'.objects == w.objects && w'.secrets == w.secrets
            && p in w'.requests && (!f.status ==> w'.requests[p].phase == Pending)
  {
    var tasks := SpecTasks(w, p);
    EnsuringStage(p, w.accounts, w.clusterExists, w.requests[p], Start(w, p), f);
    assert !Succeeds(f.progress, tasks[0]) && tasks[0][..0] == [];
    assert p in w.secrets ==> w.secrets[p := w.secrets[p]] == w.secrets;
    assert p !in w.secrets ==> w.secrets - {p} == w.secrets;
  }

  /** The objects of a failed pass are those it has ensured: without success in all tasks nothing is cleaned up. */
  lemma NoCleanupAfterErrors(w: World, p: Key, f: Faults, j: nat)
    requires Ensures(w, p, f) && j < |SpecTasks(w, p)| && !GoesWell(SpecTasks(w, p), f.progress, j)
    ensures Pass(w, p, f).objects == Put(w.objects, p, Writes(w, p, f))
  {
    TaskFails(SpecTasks(w, p), f.progress, j);
    EnsuringStage(p, w.accounts, w.clusterExists, w.requests[p], Start(w, p), f);
  }

  lemma {:induction false} TaskFails(tasks: seq<Task>, progress: Progress, j: nat)
    requires j < |tasks| && !GoesWell(tasks, progress, j)
    ensures !AllSucceed(tasks, progress)
    decreases |tasks|
  {
    if j > 0 { TaskFails(tasks[1..], Later(progress), j - 1); }
  }
}
