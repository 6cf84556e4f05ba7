/** Runs of AccessRequest passes, edits and losses: granted requests stay exact, and no request disappears
    before its objects do. */
module AccessRuns {
  import opened Common
  import opened KeyedLists
  import opened TokenRenewal
  import opened AccessObjects
  import opened AccessRequests
  import opened AccessSafety

  datatype Step =
    | Reconcile(key: Key, faults: Faults)
    | Create(key: Key, spec: Spec)
    | Edit(key: Key, spec: Spec)
    | Delete(key: Key)
    | Annotate(key: Key, operation: Operation)
    | LoseSecret(key: Key)
    | LoseCluster
    | ReplaceShoot
    | EditForeign(object: ObjKey, content: Option<Content>)

  /** Edits by others touch only objects that are labelled for no request. A Cluster whose shoot has vanished
      gets a new one, which has none of the objects. */
  function Apply(w: World, s: Step): World {
    match s
    case Reconcile(key, f) => Pass(w, key, f)
    case Create(key, spec) =>
      if key in w.requests then w
      else w.(requests := w.requests[key := Request(spec, 1, false, false, NoOperation, NoPhase, 0, false)])
    case Edit(key, spec) =>
      if key !in w.requests then w
      else
        var r := w.requests[key];
        w.(requests := w.requests[key := r.(spec := spec, generation := r.generation + 1)])
    case Delete(key) =>
      if key !in w.requests then w
      else if w.requests[key].finalizer then w.(requests := w.requests[key := w.requests[key].(deleting := true)])
      else w.(requests := w.requests - {key}, secrets := w.secrets - {key})
    case Annotate(key, op) =>
      if key !in w.requests then w else w.(requests := w.requests[key := w.requests[key].(operation := op)])
    case LoseSecret(key) => w.(secrets := w.secrets - {key})
    case LoseCluster => w.(clusterExists := false)
    case ReplaceShoot => w.(objects := map[])
    case EditForeign(k, content) =>
      if k in w.objects && w.objects[k].owner.Some? then w
      else w.(objects := if content.Some? then w.objects[k := Obj(None, content.value)] else w.objects - {k})
  }

  function Run(w: World, steps: seq<Step>): World
    decreases |steps|
  {
    if steps == [] then w else Run(Apply(w, steps[0]), steps[1..])
  }

  // ---------------------------------------------------------------------------------------------
  // No request goes before its objects

  /** Some object is labelled for the request. */
  ghost predicate Labelled(objects: Objects, q: Key) {
    exists k :: k in objects && objects[k].owner == Some(q)
  }

  /** As long as the Cluster exists, every labelled object belongs to a request with a finalizer. */
  ghost predicate Tracked(w: World) {
    w.clusterExists ==> forall q :: Labelled(w.objects, q) ==> q in w.requests && w.requests[q].finalizer
  }

  lemma EnsureTracks(key: Key, accounts: string, r: Request, s: Stage, f: Faults)
    requires r.finalizer
    ensures var s' := Ensure(key, accounts, r, s, f); s'.request.Some? && s'.request.value.finalizer
  {}

  lemma {:induction false} DeleteTracks(key: Key, r: Request, s: Stage, f: Faults)
    ensures var s' := DeletePass(key, true, r, s, f);
            if s'.request.Some? then s'.request.value.finalizer == r.finalizer else !Labelled(s'.objects, key)
  {
    var c := Cleanup(s.objects, key, {}, f.cleanup);
    if c.ok {
      CleanupIsExact(s.objects, key, {}, f.cleanup);
      forall k | k in c.objects ensures c.objects[k].owner != Some(key) {
        assert Has(c.objects, key, k) == None;
      }
    }
  }

  lemma StageTracks(key: Key, accounts: string, r: Request, s: Stage, f: Faults)
    requires s.request == Some(r) && (Labelled(s.objects, key) ==> r.finalizer)
    ensures var s' := PassStage(key, accounts, true, r, s, f);
            Labelled(s'.objects, key) ==> s'.request.Some? && s'.request.value.finalizer
  {
    var s' := PassStage(key, accounts, true, r, s, f);
    if StageEnsures(true, r, s, f) {
      EnsuringStage(key, accounts, true, r, s, f);
      EnsureTracks(key, accounts, Prepared(r), s, f);
    } else {
      QuietStage(key, accounts, true, r, s, f);
      assert Labelled(s'.objects, key) ==> Labelled(s.objects, key);
      DeleteTracks(key, r.(operation := NoOperation), s, f);
      if !r.deleting { QuietUpdate(key, accounts, true, r, s, f); }
    }
  }

  lemma {:induction false} PassKeepsTracked(w: World, p: Key, f: Faults)
    requires Tracked(w)
    ensures Tracked(Pass(w, p, f))
  {
    var w' := Pass(w, p, f);
    PassObjects(w, p, f);
    if w.clusterExists && p in w.requests {
      StageTracks(p, w.accounts, w.requests[p], Start(w, p), f);
      forall q | q != p && Labelled(w'.objects, q) ensures q in w'.requests && w'.requests[q].finalizer {
        var k :| k in w'.objects && w'.objects[k].owner == Some(q);
        OtherHas(w, p, f, q, k);
        assert Has(w'.objects, q, k).Some?;
        assert Labelled(w.objects, q);
        PassRequests(w, p, f, q);
      }
    }
  }

  /** A pass lets a request go if and only if it is under deletion, the finalizer can be removed, and the
      Cluster is gone or the cleanup succeeds. Where the Cluster is gone, it does not touch an object. */
  lemma PassReleasesIff(w: World, p: Key, f: Faults)
    requires p in w.requests
    ensures p !in Pass(w, p, f).requests <==>
              && w.requests[p].deleting && !Ignored(w.requests[p], f) && !f.cluster && !f.release
              && (w.clusterExists ==> !f.access && Cleanup(w.objects, p, {}, f.cleanup).ok)
    ensures !w.clusterExists ==> Pass(w, p, f).objects == w.objects
  {
    var r := w.requests[p];
    if StageEnsures(w.clusterExists, r, Start(w, p), f) {
      EnsuringStage(p, w.accounts, w.clusterExists, r, Start(w, p), f);
    } else if !r.deleting {
      QuietUpdate(p, w.accounts, w.clusterExists, r, Start(w, p), f);
    }
  }

  /** A world without requests and labelled objects, where every run may start. */
  lemma EmptyWorldIsAgreed(w: World)
    requires w.requests == map[] && forall k :: k in w.objects ==> w.objects[k].owner.None?
    ensures Tracked(w) && Agreed(w) && StatusBehind(w)
  {}

  lemma StepKeepsTracked(w: World, s: Step)
    requires Tracked(w)
    ensures Tracked(Apply(w, s))
  {
    var w' := Apply(w, s);
    match s
    case Reconcile(key, f) => PassKeepsTracked(w, key, f);
    case EditForeign(_, _) =>
      forall q | Labelled(w'.objects, q) ensures Labelled(w.objects, q) {
        var k :| k in w'.objects && w'.objects[k].owner == Some(q);
        assert k in w.objects && w.objects[k].owner == Some(q);
      }
    case ReplaceShoot => assert forall q :: !Labelled(w'.objects, q);
    case _ => assert w'.objects == w.objects;
  }

  /** In every run, without any premise on what fails: as long as the Cluster exists, a request keeps its
      finalizer until none of its objects is left. */
  lemma {:induction false} NoObjectOutlivesItsRequest(w: World, steps: seq<Step>)
    requires Tracked(w)
    ensures Tracked(Run(w, steps))
    decreases |steps|
  {
    if steps != [] {
      StepKeepsTracked(w, steps[0]);
      NoObjectOutlivesItsRequest(Apply(w, steps[0]), steps[1..]);
    }
  }

  // ---------------------------------------------------------------------------------------------
  // Granted requests stay exact

  /** No status is ahead of its spec. */
  ghost predicate StatusBehind(w: World) {
    forall q :: q in w.requests ==> w.requests[q].observed <= w.requests[q].generation
  }

  lemma StageKeepsBehind(key: Key, accounts: string, exists_: bool, r: Request, s: Stage, f: Faults)
    requires s.request == Some(r) && r.observed <= r.generation
    ensures var s' := PassStage(key, accounts, exists_, r, s, f);
            s'.request.Some? ==> s'.request.value.observed <= s'.request.value.generation
  {
    if StageEnsures(exists_, r, s, f) { EnsuringStage(key, accounts, exists_, r, s, f); }
  }

  lemma {:induction false} StepKeepsBehind(w: World, s: Step)
    requires StatusBehind(w)
    ensures StatusBehind(Apply(w, s))
  {
    if s.Reconcile? && s.key in w.requests {
      StageKeepsBehind(s.key, w.accounts, w.clusterExists, w.requests[s.key], Start(w, s.key), s.faults);
    }
  }

  /** The shoot is replaced while a granted request has objects on it. */
  ghost predicate LosesObjects(w: World, s: Step) {
    s.ReplaceShoot? && exists q :: q in w.requests && Settled(w.requests[q]) && Labelled(w.objects, q)
  }

  ghost predicate BenignStep(w: World, s: Step) {
    (s.Reconcile? ==> Benign(w, s.key, s.faults)) && !LosesObjects(w, s)
  }

  ghost predicate BenignRun(w: World, steps: seq<Step>)
    decreases |steps|
  {
    steps == [] || (BenignStep(w, steps[0]) && BenignRun(Apply(w, steps[0]), steps[1..]))
  }

  /** A step other than a pass makes no request settled. */
  lemma OtherStepSettles(w: World, s: Step, q: Key)
    requires StatusBehind(w) && !s.Reconcile?
    requires q in Apply(w, s).requests && Settled(Apply(w, s).requests[q])
    ensures q in w.requests && Settled(w.requests[q]) && Apply(w, s).requests[q].spec == w.requests[q].spec
  {}

  lemma OtherStepHas(w: World, s: Step, q: Key, k: ObjKey)
    requires !s.Reconcile? && !s.ReplaceShoot?
    ensures Has(Apply(w, s).objects, q, k) == Has(w.objects, q, k) && Apply(w, s).accounts == w.accounts
  {}

  /** Nor does it take an object from one. */
  lemma OtherStepKeepsAgreed(w: World, s: Step)
    requires Agreed(w) && StatusBehind(w) && !s.Reconcile? && !s.ReplaceShoot?
    ensures Agreed(Apply(w, s))
  {
    var w' := Apply(w, s);
    forall q | q in w'.requests && Settled(w'.requests[q]) ensures Exact(w', q) {
      OtherStepSettles(w, s, q);
      assert Exact(w, q);
      forall k ensures Has(w'.objects, q, k) == Has(w.objects, q, k) && w'.accounts == w.accounts {
        OtherStepHas(w, s, q, k);
      }
      SameHas(w.objects, w'.objects, q, Demands(q, w.accounts, w.requests[q].spec));
    }
  }

  lemma SameHas(before: Objects, after: Objects, q: Key, demands: seq<Demand>)
    requires Owns(before, q, demands)
    requires forall k :: Has(after, q, k) == Has(before, q, k)
    ensures Owns(after, q, demands)
  {
    forall k ensures Has(after, q, k) == LastWriter(demands, k) {
      assert Has(before, q, k) == LastWriter(demands, k);
    }
  }

  lemma NothingDemandedIff(objects: Objects, q: Key, demands: seq<Demand>)
    requires Owns(objects, q, demands)
    ensures Labelled(objects, q) <==> !Owns(map[], q, demands)
  {
    if Labelled(objects, q) {
      var k :| k in objects && objects[k].owner == Some(q);
      assert Has(objects, q, k) == LastWriter(demands, k);
      assert Has(map[], q, k) == None;
    } else {
      forall k ensures Has(map[], q, k) == LastWriter(demands, k) {
        assert Has(objects, q, k) == LastWriter(demands, k);
      }
    }
  }

  /** A new shoot behind a Cluster leaves a granted request without its objects, unless it has none. */
  lemma ReplacingKeepsAgreedIff(w: World)
    requires Agreed(w)
    ensures Agreed(Apply(w, ReplaceShoot)) <==> !LosesObjects(w, ReplaceShoot)
  {
    var w' := Apply(w, ReplaceShoot);
    forall q | q in w.requests && Settled(w.requests[q])
      ensures Exact(w', q) <==> !Labelled(w.objects, q)
    {
      assert Exact(w, q);
      NothingDemandedIff(w.objects, q, Demands(q, w.accounts, w.requests[q].spec));
    }
  }

  lemma {:induction false} StepKeepsAgreedIff(w: World, s: Step)
    requires Agreed(w) && StatusBehind(w)
    ensures Agreed(Apply(w, s)) <==> BenignStep(w, s)
  {
    match s
    case Reconcile(key, f) => PassKeepsAgreedIff(w, key, f);
    case ReplaceShoot => ReplacingKeepsAgreedIff(w);
    case _ => OtherStepKeepsAgreed(w, s);
  }

  /** In every run of benign passes, edits and losses, with statuses lost at any time, a request that is
      granted for its current generation has exactly the objects its spec demands. This is what makes it
      sound to skip such a request. */
  lemma {:induction false} GrantedStaysExact(w: World, steps: seq<Step>)
    requires Agreed(w) && StatusBehind(w) && BenignRun(w, steps)
    ensures Agreed(Run(w, steps)) && StatusBehind(Run(w, steps))
    decreases |steps|
  {
    if steps != [] {
      StepKeepsAgreedIff(w, steps[0]);
      StepKeepsBehind(w, steps[0]);
      GrantedStaysExact(Apply(w, steps[0]), steps[1..]);
    }
  }
}
