/** What an AccessRequest puts on a shoot cluster: the objects its spec demands, how they are ensured, and
    how the objects of earlier specs are cleaned up. */
module AccessObjects {
  import opened Common
  import opened KeyedLists

  // ---------------------------------------------------------------------------------------------
  // Objects

  datatype Kind = OpenIDConnect | RoleBinding | ClusterRoleBinding | Role | ClusterRole | ServiceAccount

  /** The names of objects. The generated ones contain a hash of the request's name and namespace, and
      are taken to be different for different requests and indices. */
  datatype ObjName =
    | Given(text: string)
    | OfRequest(request: Key)
    | PermissionName(request: Key, i: nat)
    | RoleRefName(request: Key, i: nat)
    | OidcRoleName(request: Key, i: nat)
    | OidcBindingName(request: Key, i: nat, j: nat)

  datatype ObjKey =
    | InNamespace(kind: Kind, ns: string, name: ObjName)
    | ClusterWide(kind: Kind, name: ObjName)

  datatype SubjectKind = User | Group | Account

  datatype Subject = Subject(kind: SubjectKind, name: ObjName, ns: string)

  datatype Content =
    | NoContent
    | Rules(rules: string)
    | Grant(roleKind: Kind, role: ObjName, subjects: seq<Subject>)
    | Issuer(issuer: string, clientID: string, usernameClaim: string, groupsClaim: string,
             usernamePrefix: string, groupsPrefix: string)

  /** An object, and the request that its labels name. */
  datatype Obj = Obj(owner: Option<Key>, content: Content)

  type Objects = map<ObjKey, Obj>
  type Demand = Item<ObjKey, Content>

  // ---------------------------------------------------------------------------------------------
  // Specs

  /** A role to create, in a namespace or, if that is empty, cluster-wide. */
  datatype RoleDef = RoleDef(name: string, namespace: string, rules: string)

  datatype RefKind = ToRole | ToClusterRole | ToOther

  datatype RoleRef = RoleRef(kind: RefKind, namespace: string, name: string)

  datatype OidcSubject = OidcSubject(kind: SubjectKind, name: string, ns: string)

  datatype BindingDef = BindingDef(subjects: seq<OidcSubject>, roleRefs: seq<RoleRef>)

  datatype TokenSpec = TokenSpec(permissions: seq<RoleDef>, roleRefs: seq<RoleRef>)

  datatype OidcSpec = OidcSpec(
    issuer: string, clientID: string, usernameClaim: string, groupsClaim: string,
    usernamePrefix: string, groupsPrefix: string, roles: seq<RoleDef>, bindings: seq<BindingDef>)

  datatype Spec = Spec(token: Option<TokenSpec>, oidc: Option<OidcSpec>)

  // ---------------------------------------------------------------------------------------------
  // Demands

  function AccountDemand(r: Key, namespace: string): Demand {
    Item(InNamespace(ServiceAccount, namespace, OfRequest(r)), NoContent)
  }

  function AccountSubjects(r: Key, namespace: string): seq<Subject> {
    [Subject(Account, OfRequest(r), namespace)]
  }

  function RoleName(given: string, generated: ObjName): ObjName {
    if given == "" then generated else Given(given)
  }

  function RoleDemand(name: ObjName, def: RoleDef): Demand {
    if def.namespace != "" then Item(InNamespace(Role, def.namespace, name), Rules(def.rules))
    else Item(ClusterWide(ClusterRole, name), Rules(def.rules))
  }

  function BindingDemand(name: ObjName, namespaced: bool, namespace: string, role: ObjName,
      subjects: seq<Subject>): Demand {
    if namespaced then Item(InNamespace(RoleBinding, namespace, name), Grant(Role, role, subjects))
    else Item(ClusterWide(ClusterRoleBinding, name), Grant(ClusterRole, role, subjects))
  }

  /** A permission asks for a role, and for a binding of the same name. */
  function PermissionDemands(r: Key, subjects: seq<Subject>, def: RoleDef, i: nat): (d: seq<Demand>)
    ensures |d| == 2
  {
    var name := RoleName(def.name, PermissionName(r, i));
    [RoleDemand(name, def), BindingDemand(name, def.namespace != "", def.namespace, name, subjects)]
  }

  /** Every reference that is not to a Role is taken as one to a ClusterRole. */
  function RoleRefDemands(r: Key, subjects: seq<Subject>, ref: RoleRef, i: nat): (d: seq<Demand>)
    ensures |d| == 1
  {
    [BindingDemand(RoleRefName(r, i), ref.kind.ToRole?, ref.namespace, Given(ref.name), subjects)]
  }

  function OidcRoleDemands(r: Key, def: RoleDef, i: nat): (d: seq<Demand>)
    ensures |d| == 1
  {
    [RoleDemand(RoleName(def.name, OidcRoleName(r, i)), def)]
  }

  /** A name after "::" is taken as it is, the others get the prefix of their kind. */
  function PrefixedSubject(spec: OidcSpec, s: OidcSubject): Subject {
    var name :=
      if |s.name| >= 2 && s.name[0] == ':' && s.name[1] == ':' then s.name[2..]
      else match s.kind
        case User => spec.usernamePrefix + s.name
        case Group => spec.groupsPrefix + s.name
        case Account => s.name;
    Subject(s.kind, Given(name), s.ns)
  }

  function PrefixedSubjects(spec: OidcSpec, subjects: seq<OidcSubject>): (r: seq<Subject>)
    ensures |r| == |subjects|
  {
    seq(|subjects|, i requires 0 <= i < |subjects| => PrefixedSubject(spec, subjects[i]))
  }

  /** A reference to something else than a role cannot be met. */
  function OidcBindingDemands(r: Key, subjects: seq<Subject>, ref: RoleRef, i: nat, j: nat): (d: seq<Demand>)
    ensures |d| <= 1
  {
    if ref.kind.ToOther? then []
    else [BindingDemand(OidcBindingName(r, i, j), ref.kind.ToRole?, ref.namespace, Given(ref.name), subjects)]
  }

  function IssuerDemand(r: Key, s: OidcSpec): Demand {
    Item(ClusterWide(OpenIDConnect, OfRequest(r)),
         Issuer(s.issuer, s.clientID, s.usernameClaim, s.groupsClaim,
                if s.usernamePrefix == "" then "-" else s.usernamePrefix,
                if s.groupsPrefix == "" then "-" else s.groupsPrefix))
  }

  /** What is ensured together: demands that are met in order, up to the first that fails. A task
      without demands is one that cannot succeed. */
  type Task = seq<Demand>

  function PermissionTasks(r: Key, subjects: seq<Subject>, permissions: seq<RoleDef>): seq<Task> {
    seq(|permissions|, i requires 0 <= i < |permissions| => PermissionDemands(r, subjects, permissions[i], i))
  }

  function RoleRefTasks(r: Key, subjects: seq<Subject>, refs: seq<RoleRef>): seq<Task> {
    seq(|refs|, i requires 0 <= i < |refs| => RoleRefDemands(r, subjects, refs[i], i))
  }

  function TokenTasks(r: Key, namespace: string, spec: TokenSpec): seq<Task> {
    var subjects := AccountSubjects(r, namespace);
    PermissionTasks(r, subjects, spec.permissions) + RoleRefTasks(r, subjects, spec.roleRefs)
  }

  function OidcRoleTasks(r: Key, spec: OidcSpec): seq<Task> {
    seq(|spec.roles|, i requires 0 <= i < |spec.roles| => OidcRoleDemands(r, spec.roles[i], i))
  }

  /** The tasks of the first `n` role bindings. */
  function OidcBindingTasks(r: Key, spec: OidcSpec, n: nat): seq<Task>
    requires n <= |spec.bindings|
  {
    if n == 0 then [] else OidcBindingTasks(r, spec, n - 1) + BindingTasks(r, spec, n - 1)
  }

  function BindingTasks(r: Key, spec: OidcSpec, i: nat): seq<Task>
    requires i < |spec.bindings|
  {
    RefTasks(r, PrefixedSubjects(spec, spec.bindings[i].subjects), spec.bindings[i].roleRefs, i)
  }

  function RefTasks(r: Key, subjects: seq<Subject>, refs: seq<RoleRef>, i: nat): seq<Task> {
    seq(|refs|, j requires 0 <= j < |refs| => OidcBindingDemands(r, subjects, refs[j], i, j))
  }

  /** The tasks of a spec, in order. The first one must succeed for the others to be tried. */
  function Tasks(r: Key, namespace: string, spec: Spec): seq<Task> {
    if spec.token.Some? then [[AccountDemand(r, namespace)]] + TokenTasks(r, namespace, spec.token.value)
    else if spec.oidc.Some? then
      [[IssuerDemand(r, spec.oidc.value)]] + OidcRoleTasks(r, spec.oidc.value)
      + OidcBindingTasks(r, spec.oidc.value, |spec.oidc.value.bindings|)
    else []
  }

  function Flatten(tasks: seq<Task>): (r: seq<Demand>) {
    if tasks == [] then [] else tasks[0] + Flatten(tasks[1..])
  }

  function Demands(r: Key, namespace: string, spec: Spec): seq<Demand> {
    Flatten(Tasks(r, namespace, spec))
  }

  // ---------------------------------------------------------------------------------------------
  // Ensuring

  /** How many demands of each task can be met; tasks without a number meet with no failure. */
  type Progress = seq<nat>

  function Met(progress: Progress, task: Task): (n: nat)
    ensures n <= |task|
  {
    if progress == [] || progress[0] >= |task| then |task| else progress[0]
  }

  function Later(progress: Progress): Progress {
    if progress == [] then [] else progress[1..]
  }

  function From(progress: Progress, n: nat): Progress {
    if n <= |progress| then progress[n..] else []
  }

  predicate Succeeds(progress: Progress, task: Task) {
    task != [] && Met(progress, task) == |task|
  }

  predicate AllSucceed(tasks: seq<Task>, progress: Progress)
    decreases |tasks|
  {
    tasks == [] || (Succeeds(progress, tasks[0]) && AllSucceed(tasks[1..], Later(progress)))
  }

  /** The demands that are met, in order. */
  function Performed(tasks: seq<Task>, progress: Progress): seq<Demand>
    decreases |tasks|
  {
    if tasks == [] then []
    else tasks[0][..Met(progress, tasks[0])] + Performed(tasks[1..], Later(progress))
  }

  /** Nothing follows on a first task that fails. */
  function Ensured(tasks: seq<Task>, progress: Progress): seq<Demand> {
    if tasks != [] && !Succeeds(progress, tasks[0]) then tasks[0][..Met(progress, tasks[0])]
    else Performed(tasks, progress)
  }

  lemma {:induction false} SuccessPerformsAll(tasks: seq<Task>, progress: Progress)
    requires AllSucceed(tasks, progress)
    ensures Performed(tasks, progress) == Flatten(tasks)
    decreases |tasks|
  {
    if tasks != [] {
      assert tasks[0][..|tasks[0]|] == tasks[0];
      SuccessPerformsAll(tasks[1..], Later(progress));
    }
  }

  lemma {:induction false} PerformedConcat(a: seq<Task>, b: seq<Task>, progress: Progress)
    ensures Performed(a + b, progress) == Performed(a, progress) + Performed(b, From(progress, |a|))
    ensures AllSucceed(a + b, progress) == (AllSucceed(a, progress) && AllSucceed(b, From(progress, |a|)))
    ensures Flatten(a + b) == Flatten(a) + Flatten(b)
    decreases |a|
  {
    if a == [] {
      assert a + b == b && From(progress, 0) == progress;
    } else {
      assert (a + b)[1..] == a[1..] + b && (a + b)[0] == a[0];
      assert From(Later(progress), |a| - 1) == From(progress, |a|);
      PerformedConcat(a[1..], b, Later(progress));
      var met, first, second := a[0][..Met(progress, a[0])], Performed(a[1..], Later(progress)),
          Performed(b, From(progress, |a|));
      assert met + (first + second) == (met + first) + second;
      assert a[0] + (Flatten(a[1..]) + Flatten(b)) == (a[0] + Flatten(a[1..])) + Flatten(b);
    }
  }

  /** Writes an object for each demand, labelled for the request, over whatever was there before. */
  function Put(objects: Objects, r: Key, demands: seq<Demand>): Objects
    decreases |demands|
  {
    if demands == [] then objects
    else Put(objects[demands[0].key := Obj(Some(r), demands[0].value)], r, demands[1..])
  }

  lemma {:induction false} PutConcat(objects: Objects, r: Key, a: seq<Demand>, b: seq<Demand>)
    ensures Put(objects, r, a + b) == Put(Put(objects, r, a), r, b)
    decreases |a|
  {
    if a == [] {
      assert a + b == b;
    } else {
      assert (a + b)[1..] == a[1..] + b;
      PutConcat(objects[a[0].key := Obj(Some(r), a[0].value)], r, a[1..], b);
    }
  }

  /** What a request has under a key: the content of an object that is labelled for it. */
  function Has(objects: Objects, r: Key, k: ObjKey): Option<Content> {
    if k in objects && objects[k].owner == Some(r) then Some(objects[k].content) else None
  }

  lemma {:induction false} PutHas(objects: Objects, r: Key, demands: seq<Demand>, q: Key, k: ObjKey)
    ensures var last := LastWriter(demands, k);
            && (q == r ==> Has(Put(objects, r, demands), q, k) == if last.Some? then last else Has(objects, q, k))
            && (q != r ==> Has(Put(objects, r, demands), q, k) == if last.Some? then None else Has(objects, q, k))
    decreases |demands|
  {
    if demands != [] {
      PutHas(objects[demands[0].key := Obj(Some(r), demands[0].value)], r, demands[1..], q, k);
    }
  }

  /** Objects without a label stay as they are unless they are demanded. */
  lemma {:induction false} PutKeeps(objects: Objects, r: Key, demands: seq<Demand>, k: ObjKey)
    requires LastWriter(demands, k).None?
    ensures k in Put(objects, r, demands) <==> k in objects
    ensures k in objects ==> Put(objects, r, demands)[k] == objects[k]
    decreases |demands|
  {
    if demands != [] {
      PutKeeps(objects[demands[0].key := Obj(Some(r), demands[0].value)], r, demands[1..], k);
    }
  }

  // ---------------------------------------------------------------------------------------------
  // Cleanup

  /** The kinds that cannot be listed, and the objects that cannot be deleted. */
  datatype CleanupFaults = CleanupFaults(unlisted: set<Kind>, stuck: set<ObjKey>)

  datatype Cleaned = Cleaned(objects: Objects, ok: bool)

  /** The objects of a kind that are labelled for the request but not kept. */
  function Unwanted(objects: Objects, r: Key, keep: set<ObjKey>, kind: Kind): set<ObjKey> {
    set k | k in objects && objects[k].owner == Some(r) && k.kind == kind && k !in keep
  }

  function CleanKind(objects: Objects, r: Key, keep: set<ObjKey>, kind: Kind, f: CleanupFaults): Cleaned {
    if kind in f.unlisted then Cleaned(objects, false)
    else
      var bad := Unwanted(objects, r, keep, kind);
      Cleaned(objects - (bad - f.stuck), bad !! f.stuck)
  }

  /** Kind by kind, up to the first that leaves an error. */
  function CleanKinds(objects: Objects, r: Key, keep: set<ObjKey>, kinds: seq<Kind>, f: CleanupFaults): Cleaned
    decreases |kinds|
  {
    if kinds == [] then Cleaned(objects, true)
    else
      var first := CleanKind(objects, r, keep, kinds[0], f);
      if first.ok then CleanKinds(first.objects, r, keep, kinds[1..], f) else first
  }

  /** Bindings go before the roles they refer to. */
  function CleanupOrder(): seq<Kind> {
    [OpenIDConnect, RoleBinding, ClusterRoleBinding, Role, ClusterRole, ServiceAccount]
  }

  function Cleanup(objects: Objects, r: Key, keep: set<ObjKey>, f: CleanupFaults): Cleaned {
    CleanKinds(objects, r, keep, CleanupOrder(), f)
  }

  /** Nothing but deletions, of labelled objects that are not kept and of the given kinds. */
  ghost predicate DeletesOnly(before: Objects, after: Objects, r: Key, keep: set<ObjKey>, kinds: seq<Kind>) {
    && (forall k :: k in after ==> k in before && after[k] == before[k])
    && (forall k :: k in before && k !in after ==> before[k].owner == Some(r) && k !in keep && k.kind in kinds)
  }

  lemma {:induction false} KindsDeleteOnly(objects: Objects, r: Key, keep: set<ObjKey>, kinds: seq<Kind>,
      f: CleanupFaults)
    ensures DeletesOnly(objects, CleanKinds(objects, r, keep, kinds, f).objects, r, keep, kinds)
    decreases |kinds|
  {
    if kinds != [] {
      var first := CleanKind(objects, r, keep, kinds[0], f);
      KindsDeleteOnly(first.objects, r, keep, kinds[1..], f);
    }
  }

  /** A cleanup without an error leaves nothing unwanted. */
  lemma {:induction false} KindsLeaveNothing(objects: Objects, r: Key, keep: set<ObjKey>, kinds: seq<Kind>,
      f: CleanupFaults, kind: Kind)
    requires CleanKinds(objects, r, keep, kinds, f).ok && kind in kinds
    ensures Unwanted(CleanKinds(objects, r, keep, kinds, f).objects, r, keep, kind) == {}
    decreases |kinds|
  {
    var first := CleanKind(objects, r, keep, kinds[0], f);
    if kind == kinds[0] {
      KindsDeleteOnly(first.objects, r, keep, kinds[1..], f);
      assert Unwanted(first.objects, r, keep, kind) == {};
    } else {
      KindsLeaveNothing(first.objects, r, keep, kinds[1..], f, kind);
    }
  }

  lemma {:induction false} KindsConcat(objects: Objects, r: Key, keep: set<ObjKey>, a: seq<Kind>, b: seq<Kind>,
      f: CleanupFaults)
    ensures var first := CleanKinds(objects, r, keep, a, f);
            CleanKinds(objects, r, keep, a + b, f)
            == if first.ok then CleanKinds(first.objects, r, keep, b, f) else first
    decreases |a|
  {
    if a == [] {
      assert a + b == b;
    } else {
      assert (a + b)[1..] == a[1..] + b;
      KindsConcat(CleanKind(objects, r, keep, a[0], f).objects, r, keep, a[1..], b, f);
    }
  }

  /** Whatever becomes of a cleanup: it deletes only unwanted objects of the request, and a role or
      account only once no unwanted binding is left. */
  lemma {:induction false} CleanupIsOrdered(objects: Objects, r: Key, keep: set<ObjKey>, f: CleanupFaults)
    ensures var after := Cleanup(objects, r, keep, f).objects;
            && DeletesOnly(objects, after, r, keep, CleanupOrder())
            && ((exists k :: k in objects && k !in after && k.kind in {Role, ClusterRole, ServiceAccount}) ==>
                  && Unwanted(after, r, keep, RoleBinding) == {}
                  && Unwanted(after, r, keep, ClusterRoleBinding) == {})
  {
    var early, late := [OpenIDConnect, RoleBinding, ClusterRoleBinding], [Role, ClusterRole, ServiceAccount];
    assert CleanupOrder() == early + late;
    KindsConcat(objects, r, keep, early, late, f);
    KindsDeleteOnly(objects, r, keep, CleanupOrder(), f);
    KindsDeleteOnly(objects, r, keep, early, f);
    var first := CleanKinds(objects, r, keep, early, f);
    if first.ok {
      KindsLeaveNothing(objects, r, keep, early, f, RoleBinding);
      KindsLeaveNothing(objects, r, keep, early, f, ClusterRoleBinding);
      KindsDeleteOnly(first.objects, r, keep, late, f);
      FewerUnwanted(first.objects, CleanKinds(first.objects, r, keep, late, f).objects, r, keep);
    }
  }

  lemma FewerUnwanted(before: Objects, after: Objects, r: Key, keep: set<ObjKey>)
    requires forall k :: k in after ==> k in before && after[k] == before[k]
    ensures forall kind :: Unwanted(before, r, keep, kind) == {} ==> Unwanted(after, r, keep, kind) == {}
  {
    forall kind | Unwanted(before, r, keep, kind) == {} ensures Unwanted(after, r, keep, kind) == {} {
      forall k | k in Unwanted(after, r, keep, kind) ensures k in Unwanted(before, r, keep, kind) {}
    }
  }

  /** After a cleanup without an error the request has exactly the kept ones of its objects, and every
      other object is as it was. */
  lemma {:induction false} CleanupIsExact(objects: Objects, r: Key, keep: set<ObjKey>, f: CleanupFaults)
    requires Cleanup(objects, r, keep, f).ok
    ensures var after := Cleanup(objects, r, keep, f).objects;
            && (forall k :: Has(after, r, k) == if k in keep then Has(objects, r, k) else None)
            && (forall k :: k in objects && objects[k].owner != Some(r) ==> k in after && after[k] == objects[k])
  {
    var after := Cleanup(objects, r, keep, f).objects;
    KindsDeleteOnly(objects, r, keep, CleanupOrder(), f);
    forall k | k !in keep ensures Has(after, r, k) == None {
      assert k.kind in CleanupOrder() by { KindIsCleaned(k.kind); }
      KindsLeaveNothing(objects, r, keep, CleanupOrder(), f, k.kind);
      assert k !in Unwanted(after, r, keep, k.kind);
    }
  }

  lemma KindIsCleaned(kind: Kind)
    ensures kind in CleanupOrder()
  {
    var o := CleanupOrder();
    assert o[0] == OpenIDConnect && o[1] == RoleBinding && o[2] == ClusterRoleBinding;
    assert o[3] == Role && o[4] == ClusterRole && o[5] == ServiceAccount;
  }
}
