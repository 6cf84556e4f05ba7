/** What passes over AccessRequests come to when nothing fails. */
module AccessConvergence {
  import opened Common
  import opened KeyedLists
  import opened TokenRenewal
  import opened AccessObjects
  import opened AccessRequests
  import opened AccessSafety
  import opened AccessRuns

  /** A pass in which no call fails. */
  predicate Faultless(f: Faults) {
    && !f.get && !f.operation && !f.cluster && !f.finalizer && !f.secretRead && !f.access && !f.secretWrite
    && !f.release && !f.status && f.progress == [] && f.cleanup == CleanupFaults({}, {})
  }

  /** All role references of an OIDC request are of a known kind. */
  ghost predicate Meetable(tasks: seq<Task>) {
    forall i :: 0 <= i < |tasks| ==> tasks[i] != []
  }

  lemma {:induction false} MeetableSucceeds(tasks: seq<Task>)
    ensures AllSucceed(tasks, []) <==> Meetable(tasks)
    decreases |tasks|
  {
    if tasks != [] {
      MeetableSucceeds(tasks[1..]);
      if Meetable(tasks) {
        assert forall i :: 0 <= i < |tasks| - 1 ==> tasks[1..][i] == tasks[i + 1];
      }
      if tasks[0] != [] && Meetable(tasks[1..]) {
        forall i | 0 <= i < |tasks| ensures tasks[i] != [] {
          assert i > 0 ==> tasks[i] == tasks[1..][i - 1];
        }
      }
    }
  }

  lemma {:induction false} NothingStuck(objects: Objects, r: Key, keep: set<ObjKey>, kinds: seq<Kind>)
    ensures CleanKinds(objects, r, keep, kinds, CleanupFaults({}, {})).ok
    decreases |kinds|
  {
    if kinds != [] {
      NothingStuck(CleanKind(objects, r, keep, kinds[0], CleanupFaults({}, {})).objects, r, keep, kinds[1..]);
    }
  }

  /** A pass without failures that has something to do grants the request if and only if its demands can be
      met, and then, whatever earlier passes have left behind, its objects are exact. */
  lemma OnePassSuffices(w: World, p: Key, f: Faults)
    requires Faultless(f) && Ensures(w, p, f)
    ensures var w' := Pass(w, p, f);
            && p in w'.requests
            && (Settled(w'.requests[p]) <==> Meetable(SpecTasks(w, p)))
            && (Settled(w'.requests[p]) ==> Exact(w', p))
  {
    var demands := Flatten(SpecTasks(w, p));
    MeetableSucceeds(SpecTasks(w, p));
    NothingStuck(Put(w.objects, p, demands), p, KeySet(demands), CleanupOrder());
    GrantingPassIsExact(w, p, f);
    PassKeepsSpec(w, p, f);
    PassIsObserved(w, p, f);
  }

  lemma PassIsObserved(w: World, p: Key, f: Faults)
    requires Ensures(w, p, f) && !f.status
    ensures var w' := Pass(w, p, f);
            p in w'.requests && w'.requests[p].observed == w'.requests[p].generation
  {
    EnsuringStage(p, w.accounts, w.clusterExists, w.requests[p], Start(w, p), f);
  }

  /** The request is granted, and its secret holds a token that need not be renewed yet or grants OIDC. */
  predicate AtRest(w: World, p: Key, now: int) {
    && p in w.requests && p in w.secrets
    && var r := w.requests[p];
    && Settled(r) && r.operation == NoOperation && r.finalizer && r.secretRef
    && (if r.spec.token.Some? then Judge(w.secrets[p], now).Keep? else r.spec.oidc.Some?)
  }

  /** What a pass without failures grants is at rest. */
  lemma GrantedIsAtRest(w: World, p: Key, f: Faults, now: int)
    requires Faultless(f) && Ensures(w, p, f) && Meetable(SpecTasks(w, p))
    requires var spec := w.requests[p].spec;
             if spec.token.Some? then now < RenewalTime(FullSecond(f.token.created), FullSecond(f.token.expires))
             else spec.oidc.Some?
    ensures AtRest(Pass(w, p, f), p, now)
  {
    var demands := Flatten(SpecTasks(w, p));
    MeetableSucceeds(SpecTasks(w, p));
    AllPerformed(SpecTasks(w, p), []);
    NothingStuck(Put(w.objects, p, demands), p, KeySet(demands), CleanupOrder());
    EnsuringStage(p, w.accounts, w.clusterExists, w.requests[p], Start(w, p), f);
  }

  /** Passes over a request at rest change nothing at all. */
  lemma RestIsKept(w: World, p: Key, f: Faults)
    requires AtRest(w, p, f.now) && Faultless(f) && w.clusterExists
    ensures Pass(w, p, f) == w
  {
    var r := w.requests[p];
    assert CheckGranted(r, SecretIn(w, p), false, f) == Skip;
    assert r.(operation := NoOperation).(finalizer := true) == r;
    var s := PassStage(p, w.accounts, w.clusterExists, r, Start(w, p), f);
    assert s.request == Some(r) && s.secret == SecretIn(w, p) && s.objects == w.objects;
    assert w.requests[p := r] == w.requests && w.secrets[p := w.secrets[p]] == w.secrets;
  }

  /** After the shoot has been replaced, a pass without failures gives a granted request its objects back if
      and only if the pass gets as far as ensuring, which takes the annotation, a missing secret or a token
      that is due. A request at rest is skipped and stays granted without its objects. */
  lemma ReplacedShootIsRefilledIff(w: World, p: Key, f: Faults)
    requires p in w.requests && Settled(w.requests[p]) && Labelled(w.objects, p) && Exact(w, p)
    requires Faultless(f) && Meetable(SpecTasks(w, p))
    ensures var w1 := Apply(w, ReplaceShoot);
            var w2 := Pass(w1, p, f);
            && p in w2.requests && (Exact(w2, p) <==> Ensures(w1, p, f))
            && (AtRest(w, p, f.now) && w.clusterExists ==> w2 == w1 && Settled(w2.requests[p]) && !Exact(w2, p))
  {
    var w1 := Apply(w, ReplaceShoot);
    var demands := Demands(p, w.accounts, w.requests[p].spec);
    NothingDemandedIff(w.objects, p, demands);
    if Ensures(w1, p, f) {
      OnePassSuffices(w1, p, f);
      PassKeepsSpec(w1, p, f);
    } else {
      QuietUpdate(p, w1.accounts, w1.clusterExists, w1.requests[p], Start(w1, p), f);
      PassObjects(w1, p, f);
      PassKeepsSpec(w1, p, f);
    }
    if AtRest(w, p, f.now) && w.clusterExists { RestIsKept(w1, p, f); }
  }

  function NoFaults(): Faults {
    Faults(false, false, false, false, false, false, [], false, CleanupFaults({}, {}), false, false, 0,
      Token(0, 10 * Second))
  }

  /** A concrete run: a request is created and granted, the shoot is replaced, and the next pass changes
      nothing although the request has lost its account. */
  lemma ReplacedShootStaysEmpty(p: Key, accounts: string)
    ensures var spec := Spec(Some(TokenSpec([], [])), None);
            var w := World(map[], map[], map[], true, accounts);
            var granted := Run(w, [Create(p, spec), Reconcile(p, NoFaults())]);
            var replaced := Apply(granted, ReplaceShoot);
            && p in granted.requests && Settled(granted.requests[p]) && Exact(granted, p)
            && Apply(replaced, Reconcile(p, NoFaults())) == replaced
            && Settled(replaced.requests[p]) && !Exact(replaced, p)
  {
    var spec, f := Spec(Some(TokenSpec([], [])), None), NoFaults();
    var w := World(map[], map[], map[], true, accounts);
    var w1 := Apply(w, Create(p, spec));
    var w2 := Pass(w1, p, f);
    var steps, last := [Create(p, spec), Reconcile(p, f)], [Reconcile(p, f)];
    assert steps[1..] == last && last[1..] == [];
    assert Run(w, steps) == Run(w1, last) == Run(w2, []) == w2;
    GrantedOnce(w1, p, spec, f);
    ReplacedShootIsRefilledIff(w2, p, f);
  }

  lemma GrantedOnce(w: World, p: Key, spec: Spec, f: Faults)
    requires w.clusterExists && f == NoFaults() && spec == Spec(Some(TokenSpec([], [])), None)
    requires p in w.requests && w.requests[p] == NewRequest(spec)
    ensures var w' := Pass(w, p, f);
            && p in w'.requests && Exact(w', p) && AtRest(w', p, f.now) && w'.clusterExists
            && Labelled(w'.objects, p) && Meetable(SpecTasks(w', p))
  {
    var account := AccountDemand(p, w.accounts);
    assert SpecTasks(w, p) == [[account]];
    NewRequestIsGranted(w, p, spec);
    var w' := Pass(w, p, f);
    assert [[account]][1..] == [] && Flatten([]) == [];
    assert Demands(p, w.accounts, spec) == [account];
    assert Has(w'.objects, p, account.key) == LastWriter([account], account.key) == Some(NoContent);
  }

  /** A request for a token as it is created. */
  function NewRequest(spec: Spec): Request {
    Request(spec, 1, false, false, NoOperation, NoPhase, 0, false)
  }

  /** Its first pass grants it, if nothing fails, and leaves it at rest. */
  lemma NewRequestIsGranted(w: World, p: Key, spec: Spec)
    requires w.clusterExists && p in w.requests && w.requests[p] == NewRequest(spec)
    requires spec.token.Some? && Meetable(Tasks(p, w.accounts, spec))
    ensures var w' := Pass(w, p, NoFaults());
            && p in w'.requests && w'.requests[p].spec == spec && Exact(w', p) && AtRest(w', p, NoFaults().now)
            && w'.clusterExists && w'.accounts == w.accounts
    ensures Ensures(w, p, NoFaults())
  {
    var f := NoFaults();
    assert Ensures(w, p, f);
    OnePassSuffices(w, p, f);
    GrantedIsAtRest(w, p, f, f.now);
    PassKeepsSpec(w, p, f);
    PassObjects(w, p, f);
  }

  /** A pass without failures over a request under deletion is its last one, and leaves no object of it. */
  lemma {:induction false} TeardownCompletes(w: World, p: Key, f: Faults)
    requires Faultless(f) && p in w.requests && w.requests[p].deleting && w.requests[p].operation != Ignore
    ensures var w' := Pass(w, p, f);
            && p !in w'.requests && p !in w'.secrets
            && (w.clusterExists ==> !Labelled(w'.objects, p))
            && (forall k :: k in w.objects && w.objects[k].owner != Some(p) ==>
                  k in w'.objects && w'.objects[k] == w.objects[k])
  {
    var c := Cleanup(w.objects, p, {}, f.cleanup);
    NothingStuck(w.objects, p, {}, CleanupOrder());
    CleanupIsExact(w.objects, p, {}, f.cleanup);
    assert Pass(w, p, f).objects == if w.clusterExists then c.objects else w.objects;
    forall k | k in c.objects ensures c.objects[k].owner != Some(p) {
      assert Has(c.objects, p, k) == None;
    }
  }
}
