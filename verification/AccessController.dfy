/** The AccessRequest controller: its loops and early returns, proved against the protocol. */
module AccessController {
  import opened Common
  import opened KeyedLists
  import opened TokenRenewal
  import opened AccessObjects
  import opened AccessRequests

  // ---------------------------------------------------------------------------------------------
  // Ensuring

  /** The tasks have been tried in order, and if all went well, their objects are kept. */
  ghost predicate Tried(objects: Objects, key: Key, tasks: seq<Task>, progress: Progress,
                        after: Objects, keep: seq<ObjKey>, ok: bool)
  {
    && after == Put(objects, key, Performed(tasks, progress))
    && ok == AllSucceed(tasks, progress)
    && (ok ==> keep == Keys(Flatten(tasks)))
  }

  lemma {:induction false} KeysConcat(a: seq<Demand>, b: seq<Demand>)
    ensures Keys(a + b) == Keys(a) + Keys(b)
  {}

  lemma TriedConcat(objects: Objects, key: Key, a: seq<Task>, b: seq<Task>, progress: Progress,
                    middle: Objects, keep: seq<ObjKey>, ok: bool, after: Objects, keep': seq<ObjKey>, ok': bool)
    requires Tried(objects, key, a, progress, middle, keep, ok)
    requires Tried(middle, key, b, From(progress, |a|), after, keep', ok')
    ensures Tried(objects, key, a + b, progress, after, keep + keep', ok && ok')
  {
    PerformedConcat(a, b, progress);
    PutConcat(objects, key, Performed(a, progress), Performed(b, From(progress, |a|)));
    KeysConcat(Flatten(a), Flatten(b));
  }

  /** Meets the demands of a task, up to the first that fails, and keeps the objects if none does. */
  method EnsureTask(objects: Objects, key: Key, task: Task, progress: Progress)
      returns (after: Objects, keep: seq<ObjKey>, met: bool)
    ensures Tried(objects, key, [task], progress, after, keep, met)
  {
    var n := Met(progress, task);
    after := objects;
    for j := 0 to n
      invariant Put(objects, key, task[..n]) == Put(after, key, task[j..n])
    {
      assert task[j..n] == [task[j]] + task[j + 1..n];
      after := after[task[j].key := Obj(Some(key), task[j].value)];
    }
    assert task[n..n] == [];
    met := task != [] && n == |task|;
    keep := if met then Keys(task) else [];
    OneTask(task, progress);
  }

  lemma OneTask(task: Task, progress: Progress)
    ensures Performed([task], progress) == task[..Met(progress, task)]
    ensures AllSucceed([task], progress) == Succeeds(progress, task)
    ensures Flatten([task]) == task
  {
    assert Performed([], Later(progress)) == [] && [task][1..] == [] && Flatten([]) == [];
  }

  /** One turn of an ensuring loop: an error is noted and the loop goes on. */
  method Proceed(ghost objects: Objects, middle: Objects, keep: seq<ObjKey>, ok: bool, key: Key,
                 ghost tasks: seq<Task>, i: nat, task: Task, progress: Progress)
      returns (after: Objects, keep': seq<ObjKey>, ok': bool)
    requires i < |tasks| && task == tasks[i] && Tried(objects, key, tasks[..i], progress, middle, keep, ok)
    ensures Tried(objects, key, tasks[..i + 1], progress, after, keep', ok')
  {
    var k, met;
    after, k, met := EnsureTask(middle, key, task, From(progress, i));
    TriedConcat(objects, key, tasks[..i], [task], progress, middle, keep, ok, after, k, met);
    assert tasks[..i + 1] == tasks[..i] + [task];
    keep', ok' := keep + k, ok && met;
  }

  method EnsurePermissions(objects: Objects, key: Key, subjects: seq<Subject>, permissions: seq<RoleDef>,
      progress: Progress)
      returns (after: Objects, keep: seq<ObjKey>, ok: bool)
    ensures Tried(objects, key, PermissionTasks(key, subjects, permissions), progress, after, keep, ok)
  {
    ghost var tasks := PermissionTasks(key, subjects, permissions);
    after, keep, ok := objects, [], true;
    for i := 0 to |permissions|
      invariant Tried(objects, key, tasks[..i], progress, after, keep, ok)
    {
      var p := permissions[i];
      var name := if p.name == "" then PermissionName(key, i) else Given(p.name);
      var task: Task;
      if p.namespace != "" {
        task := [Item(InNamespace(Role, p.namespace, name), Rules(p.rules)),
                 Item(InNamespace(RoleBinding, p.namespace, name), Grant(Role, name, subjects))];
      } else {
        task := [Item(ClusterWide(ClusterRole, name), Rules(p.rules)),
                 Item(ClusterWide(ClusterRoleBinding, name), Grant(ClusterRole, name, subjects))];
      }
      after, keep, ok := Proceed(objects, after, keep, ok, key, tasks, i, task, progress);
    }
    assert tasks[..|tasks|] == tasks;
  }

  method EnsureRoleRefs(objects: Objects, key: Key, subjects: seq<Subject>, refs: seq<RoleRef>, progress: Progress)
      returns (after: Objects, keep: seq<ObjKey>, ok: bool)
    ensures Tried(objects, key, RoleRefTasks(key, subjects, refs), progress, after, keep, ok)
  {
    ghost var tasks := RoleRefTasks(key, subjects, refs);
    after, keep, ok := objects, [], true;
    for i := 0 to |refs|
      invariant Tried(objects, key, tasks[..i], progress, after, keep, ok)
    {
      var ref := refs[i];
      var task: Task;
      if ref.kind == ToRole {
        task := [Item(InNamespace(RoleBinding, ref.namespace, RoleRefName(key, i)),
          Grant(Role, Given(ref.name), subjects))];
      } else {
        task := [Item(ClusterWide(ClusterRoleBinding, RoleRefName(key, i)),
          Grant(ClusterRole, Given(ref.name), subjects))];
      }
      after, keep, ok := Proceed(objects, after, keep, ok, key, tasks, i, task, progress);
    }
    assert tasks[..|tasks|] == tasks;
  }

  method EnsureOidcRoles(objects: Objects, key: Key, spec: OidcSpec, progress: Progress)
      returns (after: Objects, keep: seq<ObjKey>, ok: bool)
    ensures Tried(objects, key, OidcRoleTasks(key, spec), progress, after, keep, ok)
  {
    ghost var tasks := OidcRoleTasks(key, spec);
    after, keep, ok := objects, [], true;
    for i := 0 to |spec.roles|
      invariant Tried(objects, key, tasks[..i], progress, after, keep, ok)
    {
      var def := spec.roles[i];
      var name := if def.name == "" then OidcRoleName(key, i) else Given(def.name);
      var task: Task;
      if def.namespace != "" {
        task := [Item(InNamespace(Role, def.namespace, name), Rules(def.rules))];
      } else {
        task := [Item(ClusterWide(ClusterRole, name), Rules(def.rules))];
      }
      after, keep, ok := Proceed(objects, after, keep, ok, key, tasks, i, task, progress);
    }
    assert tasks[..|tasks|] == tasks;
  }

  /** The inner loop: the role references of one binding. */
  method EnsureRefs(objects: Objects, key: Key, subjects: seq<Subject>, refs: seq<RoleRef>, i: nat, progress: Progress)
      returns (after: Objects, keep: seq<ObjKey>, ok: bool)
    ensures Tried(objects, key, RefTasks(key, subjects, refs, i), progress, after, keep, ok)
  {
    ghost var tasks := RefTasks(key, subjects, refs, i);
    after, keep, ok := objects, [], true;
    for j := 0 to |refs|
      invariant Tried(objects, key, tasks[..j], progress, after, keep, ok)
    {
      var ref := refs[j];
      var name := OidcBindingName(key, i, j);
      var task: Task := [];
      if ref.kind == ToRole {
        task := [Item(InNamespace(RoleBinding, ref.namespace, name), Grant(Role, Given(ref.name), subjects))];
      } else if ref.kind == ToClusterRole {
        task := [Item(ClusterWide(ClusterRoleBinding, name), Grant(ClusterRole, Given(ref.name), subjects))];
      }
      after, keep, ok := Proceed(objects, after, keep, ok, key, tasks, j, task, progress);
    }
    assert tasks[..|tasks|] == tasks;
  }

  method EnsureOidcBindings(objects: Objects, key: Key, spec: OidcSpec, progress: Progress)
      returns (after: Objects, keep: seq<ObjKey>, ok: bool)
    ensures Tried(objects, key, OidcBindingTasks(key, spec, |spec.bindings|), progress, after, keep, ok)
  {
    after, keep, ok := objects, [], true;
    var tried := 0;
    for i := 0 to |spec.bindings|
      invariant tried == |OidcBindingTasks(key, spec, i)|
      invariant Tried(objects, key, OidcBindingTasks(key, spec, i), progress, after, keep, ok)
    {
      var subjects := PrefixedSubjects(spec, spec.bindings[i].subjects);
      var refs := spec.bindings[i].roleRefs;
      var middle := after;
      var k, met;
      after, k, met := EnsureRefs(middle, key, subjects, refs, i, From(progress, tried));
      TriedConcat(objects, key, OidcBindingTasks(key, spec, i), BindingTasks(key, spec, i), progress,
                  middle, keep, ok, after, k, met);
      keep, ok, tried := keep + k, ok && met, tried + |refs|;
    }
  }

  /** Ensures the account, then the roles and bindings of a token. */
  method EnsureToken(objects: Objects, key: Key, accounts: string, spec: TokenSpec, progress: Progress)
      returns (after: Objects, keep: seq<ObjKey>, ok: bool)
    ensures var tasks := [[AccountDemand(key, accounts)]] + TokenTasks(key, accounts, spec);
            && after == Put(objects, key, Ensured(tasks, progress)) && ok == AllSucceed(tasks, progress)
            && (ok ==> keep == Keys(Flatten(tasks)))
  {
    var subjects := AccountSubjects(key, accounts);
    var first := [AccountDemand(key, accounts)];
    after, keep, ok := EnsureTask(objects, key, first, progress);
    FirstTask(first, TokenTasks(key, accounts, spec), progress);
    if !ok { return; }
    var middle, k, m, k', m' := after, [], true, [], true;
    after, k, m := EnsurePermissions(middle, key, subjects, spec.permissions, From(progress, 1));
    var middle' := after;
    after, k', m' := EnsureRoleRefs(middle', key, subjects, spec.roleRefs, From(From(progress, 1), |spec.permissions|));
    TriedConcat(middle, key,
                PermissionTasks(key, subjects, spec.permissions), RoleRefTasks(key, subjects, spec.roleRefs),
                From(progress, 1), middle', k, m, after, k', m');
    TriedConcat(objects, key, [first], TokenTasks(key, accounts, spec), progress, middle, keep, ok,
                after, k + k', m && m');
    keep, ok := keep + (k + k'), m && m';
  }

  /** Ensures the OpenIDConnect object, then the roles and bindings. */
  method EnsureOidc(objects: Objects, key: Key, spec: OidcSpec, progress: Progress)
      returns (after: Objects, keep: seq<ObjKey>, ok: bool)
    ensures var tasks := [[IssuerDemand(key, spec)]] + OidcRoleTasks(key, spec)
            + OidcBindingTasks(key, spec, |spec.bindings|);
            && after == Put(objects, key, Ensured(tasks, progress)) && ok == AllSucceed(tasks, progress)
            && (ok ==> keep == Keys(Flatten(tasks)))
  {
    var first := [IssuerDemand(key, spec)];
    ghost var roles, bindings := OidcRoleTasks(key, spec), OidcBindingTasks(key, spec, |spec.bindings|);
    after, keep, ok := EnsureTask(objects, key, first, progress);
    FirstTask(first, roles + bindings, progress);
    assert [first] + (roles + bindings) == [first] + roles + bindings;
    if !ok { return; }
    var middle, k, m, k', m' := after, [], true, [], true;
    after, k, m := EnsureOidcRoles(middle, key, spec, From(progress, 1));
    var middle' := after;
    after, k', m' := EnsureOidcBindings(middle', key, spec, From(From(progress, 1), |spec.roles|));
    TriedConcat(middle, key, roles, bindings, From(progress, 1), middle', k, m, after, k', m');
    TriedConcat(objects, key, [first], roles + bindings, progress, middle, keep, ok, after, k + k', m && m');
    keep, ok := keep + (k + k'), m && m';
  }

  /** Nothing follows on a first task that fails. */
  lemma FirstTask(first: Task, others: seq<Task>, progress: Progress)
    requires first != []
    ensures Ensured([first] + others, progress)
            == if AllSucceed([first], progress) then Performed([first] + others, progress)
               else Performed([first], progress)
    ensures AllSucceed([first] + others, progress) ==> AllSucceed([first], progress)
  {
    OneTask(first, progress);
    PerformedConcat([first], others, progress);
  }

  // ---------------------------------------------------------------------------------------------
  // Cleanup

  function SetOf(keep: seq<ObjKey>): (s: set<ObjKey>)
    ensures forall k :: k in s <==> k in keep
  {
    set k | k in keep
  }

  method IsKept(k: ObjKey, keep: seq<ObjKey>) returns (kept: bool)
    ensures kept <==> k in keep
  {
    for i := 0 to |keep|
      invariant k !in keep[..i]
    {
      if keep[i] == k { return true; }
    }
    kept := false;
  }

  /** The cleanup loop of one kind: goes on after a deletion that fails. The list is in no particular
      order. */
  method CleanupObjects(objects: Objects, key: Key, keep: seq<ObjKey>, kind: Kind, f: CleanupFaults)
      returns (after: Objects, ok: bool)
    ensures Cleaned(after, ok) == CleanKind(objects, key, SetOf(keep), kind, f)
    ensures ok ==> forall k :: k in objects && k !in after <==> k in Unwanted(objects, key, SetOf(keep), kind)
  {
    if kind in f.unlisted { return objects, false; }
    var listed := set k | k in objects && objects[k].owner == Some(key) && k.kind == kind;
    var left := listed;
    after, ok := objects, true;
    while left != {}
      invariant left <= listed
      invariant after == objects - (set k | k in listed - left && k !in keep && k !in f.stuck)
      invariant ok <==> forall k :: k in listed - left && k !in keep ==> k !in f.stuck
      decreases left
    {
      var k :| k in left;
      var kept := IsKept(k, keep);
      if !kept {
        if k in f.stuck { ok := false; } else { after := after - {k}; }
      }
      left := left - {k};
    }
    assert listed - left == listed;
    assert Unwanted(objects, key, SetOf(keep), kind) == set k | k in listed && k !in keep;
  }

  method CleanupResources(objects: Objects, key: Key, keep: seq<ObjKey>, f: CleanupFaults)
      returns (after: Objects, ok: bool)
    ensures Cleaned(after, ok) == Cleanup(objects, key, SetOf(keep), f)
  {
    after := objects;
    var kinds := CleanupOrder();
    for i := 0 to |kinds|
      invariant Cleanup(objects, key, SetOf(keep), f) == CleanKinds(after, key, SetOf(keep), kinds[i..], f)
    {
      assert kinds[i..] == [kinds[i]] + kinds[i + 1..];
      after, ok := CleanupObjects(after, key, keep, kinds[i], f);
      if !ok { return; }
    }
    ok := true;
  }

  // ---------------------------------------------------------------------------------------------
  // Passes

  /** Whether the secret of a granted request exists and holds a token that need not be renewed yet. */
  method CheckSecret(r: Request, secret: Option<Secret>, f: Faults) returns (verdict: SkipCheck)
    requires r.phase == Granted && r.observed == r.generation
    ensures verdict == CheckGranted(r, secret, false, f)
  {
    if !r.secretRef { return Crash; }
    if f.secretRead { return Failed; }
    if secret.None? { return Outdated; }
    if r.spec.token.Some? {
      var created, expires := secret.value.created, secret.value.expires;
      if created != Missing && expires != Missing {
        if created == Garbled { return Failed; }
        if expires == Garbled { return Failed; }
        var createdAt, expiresAt := created.value * Second, expires.value * Second;
        var renewal := createdAt + FourFifths(expiresAt - createdAt);
        if f.now < renewal { return SkipCheck.Skip; }
      }
    } else if r.spec.oidc.Some? {
      return SkipCheck.Skip;
    }
    verdict := Outdated;
  }

  method EnsureAccess(key: Key, accounts: string, r: Request, s: Stage, f: Faults) returns (s': Stage)
    ensures s' == Ensure(key, accounts, r, s, f)
  {
    var objects, keep, ok := s.objects, [], true;
    if r.spec.token.Some? {
      objects, keep, ok := EnsureToken(s.objects, key, accounts, r.spec.token.value, f.progress);
    } else if r.spec.oidc.Some? {
      objects, keep, ok := EnsureOidc(s.objects, key, r.spec.oidc.value, f.progress);
    }
    var r', secret := r, s.secret;
    if r.spec.token.Some? || r.spec.oidc.Some? {
      if !ok || f.secretWrite { return Stage(Finish(r, false, f), s.secret, objects); }
      r', secret := Referring(r, f), Some(if r.spec.token.Some? then SecretOf(f.token) else Secret(Missing, Missing));
    }
    assert SetOf(keep) == KeySet(Flatten(Tasks(key, accounts, r.spec)));
    objects, ok := CleanupResources(objects, key, keep, f.cleanup);
    s' := Stage(Finish(r', ok, f), secret, objects);
  }

  method HandleCreateOrUpdate(key: Key, accounts: string, clusterExists: bool, r0: Request, enforce: bool, s: Stage,
      f: Faults)
      returns (s': Stage)
    ensures s' == UpdatePass(key, accounts, clusterExists, r0, enforce, s, f)
  {
    var r := r0;
    if f.cluster || !clusterExists { return Stage(Finish(r, false, f), s.secret, s.objects); }
    if !r.finalizer {
      if f.finalizer { return Stage(Finish(r, false, f), s.secret, s.objects); }
      r := r.(finalizer := true);
    }
    assert r == r0.(finalizer := true);
    if r.phase == Granted && r.observed == r.generation && !enforce {
      var verdict := CheckSecret(r, s.secret, f);
      match verdict
      case Crash => return Stage(Some(r), s.secret, s.objects);
      case Failed => return Stage(Finish(r, false, f), s.secret, s.objects);
      case Skip => return Stage(Finish(r, true, f), s.secret, s.objects);
      case _ => {}
    }
    if f.access { return Stage(Finish(r, false, f), s.secret, s.objects); }
    s' := EnsureAccess(key, accounts, r, s, f);
  }

  method RemoveFinalizer(r: Request, secret: Option<Secret>, objects: Objects, f: Faults) returns (s': Stage)
    ensures s' == Release(r, Stage(Some(r), secret, objects), f)
  {
    if f.release { return Stage(Finish(r, false, f), secret, objects); }
    s' := Stage(None, None, objects);
  }

  method HandleDelete(key: Key, clusterExists: bool, r: Request, s: Stage, f: Faults) returns (s': Stage)
    ensures s' == DeletePass(key, clusterExists, r, s, f)
  {
    if f.cluster { return Stage(Finish(r, false, f), s.secret, s.objects); }
    if !clusterExists {
      s' := RemoveFinalizer(r, s.secret, s.objects, f);
      return;
    }
    if f.access { return Stage(Finish(r, false, f), s.secret, s.objects); }
    var objects, ok := CleanupResources(s.objects, key, [], f.cleanup);
    assert SetOf([]) == {};
    if !ok { return Stage(Finish(r, false, f), s.secret, objects); }
    s' := RemoveFinalizer(r, s.secret, objects, f);
  }

  class AccessRequestReconciler {
    var requests: map<Key, Request>
    var secrets: map<Key, Secret>
    var objects: Objects
    const clusterExists: bool
    const accounts: string

    constructor (w: World)
      ensures State() == w
    {
      requests, secrets, objects := w.requests, w.secrets, w.objects;
      clusterExists, accounts := w.clusterExists, w.accounts;
    }

    function State(): World
      reads this
    {
      World(requests, secrets, objects, clusterExists, accounts)
    }

    method Reconcile(key: Key, f: Faults)
      modifies this
      ensures State() == Pass(old(State()), key, f)
    {
      if f.get || key !in requests {
        if key in requests { Unchanged(State(), key, f); }
        return;
      }
      var r := requests[key];
      if r.operation == Ignore || (r.operation == ReconcileNow && f.operation) {
        Unchanged(State(), key, f);
        return;
      }
      var s := Stage(Some(r), SecretIn(State(), key), objects);
      var enforce := r.operation == ReconcileNow;
      var s';
      if r.deleting {
        s' := HandleDelete(key, clusterExists, r.(operation := NoOperation), s, f);
      } else {
        s' := HandleCreateOrUpdate(key, accounts, clusterExists, r.(operation := NoOperation), enforce, s, f);
      }
      requests := if s'.request.Some? then requests[key := s'.request.value] else requests - {key};
      secrets := if s'.secret.Some? then secrets[key := s'.secret.value] else secrets - {key};
      objects := s'.objects;
    }
  }

  lemma Unchanged(w: World, key: Key, f: Faults)
    requires key in w.requests && Ignored(w.requests[key], f)
    ensures Pass(w, key, f) == w
  {
    assert w.requests[key := w.requests[key]] == w.requests;
    assert key !in w.secrets ==> w.secrets - {key} == w.secrets;
    assert key in w.secrets ==> w.secrets[key := w.secrets[key]] == w.secrets;
  }
}
