/** The AccessRequest protocol on one shoot cluster: passes, edits of the requests, and what every run
    of them keeps. */
module AccessRequests {
  import opened Common
  import opened KeyedLists
  import opened TokenRenewal
  import opened AccessObjects

  // ---------------------------------------------------------------------------------------------
  // State

  datatype Phase = NoPhase | Pending | Granted

  /** The operation annotation. */
  datatype Operation = NoOperation | Ignore | ReconcileNow

  datatype Request = Request(
    spec: Spec, generation: nat, deleting: bool, finalizer: bool, operation: Operation,
    phase: Phase, observed: nat, secretRef: bool)

  /** The requests for one cluster and their secrets, the objects on its shoot cluster, and the
      namespace for the accounts of requests. */
  datatype World = World(
    requests: map<Key, Request>, secrets: map<Key, Secret>, objects: Objects, clusterExists: bool, accounts: string)

  /** What goes wrong during a pass, and the time and token it is given. `cluster` stands for a Cluster
      that cannot be read or has an unknown profile, `access` for a shoot that cannot be accessed,
      `secretWrite` for a token, kubeconfig or secret that cannot be created, and `status` for a
      status that is not written. */
  datatype Faults = Faults(
    get: bool, operation: bool, cluster: bool, finalizer: bool, secretRead: bool, access: bool,
    progress: Progress, secretWrite: bool, cleanup: CleanupFaults, release: bool, status: bool,
    now: int, token: Token)

  // ---------------------------------------------------------------------------------------------
  // Passes

  /** What a pass works on: the request and its secret, if they exist, and the objects. */
  datatype Stage = Stage(request: Option<Request>, secret: Option<Secret>, objects: Objects)

  /** Whether a request is skipped because it is granted already: `NotGranted` if not, otherwise what
      the secret says. */
  datatype SkipCheck = NotGranted | Crash | Failed | Skip | Outdated

  function CheckGranted(r: Request, secret: Option<Secret>, enforce: bool, f: Faults): SkipCheck {
    if r.phase != Granted || r.observed != r.generation || enforce then NotGranted
    else if !r.secretRef then Crash
    else if f.secretRead then Failed
    else if secret.None? then Outdated
    else if r.spec.token.Some? then
      match Judge(secret.value, f.now)
      case Keep(_) => Skip
      case Renew => Outdated
      case Unreadable => Failed
    else if r.spec.oidc.Some? then Skip
    else Outdated
  }

  /** The end of a pass: the phase says whether it succeeded, unless the status is not written. */
  function Finish(r: Request, ok: bool, f: Faults): Option<Request> {
    Some(if f.status then r else r.(phase := if ok then Granted else Pending, observed := r.generation))
  }

  /** A reference to a secret is part of the status. */
  function Referring(r: Request, f: Faults): Request {
    if f.status then r else r.(secretRef := true)
  }

  /** Ensures what the spec demands, writes the secret, and cleans up the rest. */
  function Ensure(key: Key, accounts: string, r: Request, s: Stage, f: Faults): Stage {
    var tasks := Tasks(key, accounts, r.spec);
    var put := Put(s.objects, key, Ensured(tasks, f.progress));
    if !AllSucceed(tasks, f.progress) || (tasks != [] && f.secretWrite) then Stage(Finish(r, false, f), s.secret, put)
    else
      var c := Cleanup(put, key, KeySet(Flatten(tasks)), f.cleanup);
      if tasks == [] then Stage(Finish(r, c.ok, f), s.secret, c.objects)
      else
        var secret := if r.spec.token.Some? then SecretOf(f.token) else Secret(Missing, Missing);
        Stage(Finish(Referring(r, f), c.ok, f), Some(secret), c.objects)
  }

  function KeySet(demands: seq<Demand>): (s: set<ObjKey>)
    ensures forall k :: k in s <==> LastWriter(demands, k).Some?
  {
    set k | k in Keys(demands)
  }

  /** Removes the finalizer; the API server then removes the request and, with it, its secret. */
  function Release(r: Request, s: Stage, f: Faults): Stage {
    if f.release then Stage(Finish(r, false, f), s.secret, s.objects) else Stage(None, None, s.objects)
  }

  function DeletePass(key: Key, clusterExists: bool, r: Request, s: Stage, f: Faults): Stage {
    if f.cluster then Stage(Finish(r, false, f), s.secret, s.objects)
    else if !clusterExists then Release(r, s, f)
    else if f.access then Stage(Finish(r, false, f), s.secret, s.objects)
    else
      var c := Cleanup(s.objects, key, {}, f.cleanup);
      if c.ok then Release(r, Stage(s.request, s.secret, c.objects), f)
      else Stage(Finish(r, false, f), s.secret, c.objects)
  }

  function UpdatePass(key: Key, accounts: string, clusterExists: bool, r0: Request, enforce: bool, s: Stage,
      f: Faults): Stage {
    if f.cluster || !clusterExists || (!r0.finalizer && f.finalizer) then
      Stage(Finish(r0, false, f), s.secret, s.objects)
    else
      var r := r0.(finalizer := true);
      match CheckGranted(r, s.secret, enforce, f)
      case Crash => Stage(Some(r), s.secret, s.objects)
      case Failed => Stage(Finish(r, false, f), s.secret, s.objects)
      case Skip => Stage(Finish(r, true, f), s.secret, s.objects)
      case _ =>
        if f.access then Stage(Finish(r, false, f), s.secret, s.objects) else Ensure(key, accounts, r, s, f)
  }

  /** The pass is not interested in the request, or fails before it looks at it. */
  predicate Ignored(r: Request, f: Faults) {
    f.get || r.operation.Ignore? || (r.operation.ReconcileNow? && f.operation)
  }

  function PassStage(key: Key, accounts: string, clusterExists: bool, r: Request, s: Stage, f: Faults): Stage {
    if Ignored(r, f) then s
    else if r.deleting then DeletePass(key, clusterExists, r.(operation := NoOperation), s, f)
    else UpdatePass(key, accounts, clusterExists, r.(operation := NoOperation), r.operation.ReconcileNow?, s, f)
  }

  function SecretIn(w: World, key: Key): Option<Secret> {
    if key in w.secrets then Some(w.secrets[key]) else None
  }

  function Start(w: World, key: Key): Stage
    requires key in w.requests
  {
    Stage(Some(w.requests[key]), SecretIn(w, key), w.objects)
  }

  function Store(w: World, key: Key, s: Stage): World {
    World(if s.request.Some? then w.requests[key := s.request.value] else w.requests - {key},
          if s.secret.Some? then w.secrets[key := s.secret.value] else w.secrets - {key},
          s.objects, w.clusterExists, w.accounts)
  }

  function Pass(w: World, key: Key, f: Faults): World {
    if key !in w.requests then w
    else Store(w, key, PassStage(key, w.accounts, w.clusterExists, w.requests[key], Start(w, key), f))
  }

  // ---------------------------------------------------------------------------------------------
  // What a pass writes

  /** The pass gets as far as ensuring what the spec demands. */
  predicate StageEnsures(clusterExists: bool, r: Request, s: Stage, f: Faults) {
    && !Ignored(r, f) && !r.deleting && !f.cluster && clusterExists && (r.finalizer || !f.finalizer)
    && CheckGranted(r, s.secret, r.operation.ReconcileNow?, f) in {NotGranted, Outdated}
    && !f.access
  }

  function StageWrites(key: Key, accounts: string, clusterExists: bool, r: Request, s: Stage, f: Faults): seq<Demand> {
    if StageEnsures(clusterExists, r, s, f) then Ensured(Tasks(key, accounts, r.spec), f.progress) else []
  }

  predicate Ensures(w: World, key: Key, f: Faults) {
    key in w.requests && StageEnsures(w.clusterExists, w.requests[key], Start(w, key), f)
  }

  function SpecTasks(w: World, key: Key): seq<Task>
    requires key in w.requests
  {
    Tasks(key, w.accounts, w.requests[key].spec)
  }

  function Writes(w: World, key: Key, f: Faults): seq<Demand> {
    if Ensures(w, key, f) then Ensured(SpecTasks(w, key), f.progress) else []
  }

  // ---------------------------------------------------------------------------------------------
  // Exactness

  /** Granted for the current generation of the spec. */
  predicate Settled(r: Request) {
    r.phase == Granted && r.observed == r.generation && !r.deleting
  }

  /** The objects of a request are exactly what its spec demands; of several demands for the same object
      the last one counts. */
  ghost predicate Exact(w: World, key: Key)
    requires key in w.requests
  {
    Owns(w.objects, key, Demands(key, w.accounts, w.requests[key].spec))
  }

  ghost predicate Owns(objects: Objects, key: Key, demands: seq<Demand>) {
    forall k :: Has(objects, key, k) == LastWriter(demands, k)
  }

  /** Whenever a request is granted for its current generation, its objects are exact. */
  ghost predicate Agreed(w: World) {
    forall q :: q in w.requests && Settled(w.requests[q]) ==> Exact(w, q)
  }

  /** A pass that interferes with no request: it writes to no object of another settled request, and if
      it fails half-way on a settled request and its status is lost as well, it stops at no demand that
      a later one overrides. */
  ghost predicate Benign(w: World, p: Key, f: Faults) {
    && (forall q :: q in w.requests && q != p && Settled(w.requests[q]) ==> Avoids(w.objects, q, Writes(w, p, f)))
    && (Interrupted(w, p, f) ==> StopsNowhere(Writes(w, p, f), Flatten(SpecTasks(w, p))))
  }

  ghost predicate Avoids(objects: Objects, q: Key, writes: seq<Demand>) {
    forall k :: LastWriter(writes, k).Some? ==> Has(objects, q, k).None?
  }

  predicate Interrupted(w: World, p: Key, f: Faults) {
    Ensures(w, p, f) && f.status && Settled(w.requests[p]) && !AllSucceed(SpecTasks(w, p), f.progress)
  }

  ghost predicate StopsNowhere(writes: seq<Demand>, demands: seq<Demand>) {
    forall k :: LastWriter(writes, k).Some? ==> LastWriter(writes, k) == LastWriter(demands, k)
  }
}
