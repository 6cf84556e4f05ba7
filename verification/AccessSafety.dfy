/** One pass over an AccessRequest: when it leaves granted requests with exactly the objects they demand,
    and what it does to the objects of others. */
module AccessSafety {
  import opened Common
  import opened KeyedLists
  import opened TokenRenewal
  import opened AccessObjects
  import opened AccessRequests

  // ---------------------------------------------------------------------------------------------
  // The effect of a pass

  /** From `before` to `after` nothing changes but that objects of one request are deleted. */
  ghost predicate Shrinks(before: Objects, after: Objects, r: Key) {
    && (forall k :: k in after ==> k in before && after[k] == before[k])
    && (forall k :: k in before && k !in after ==> before[k].owner == Some(r))
  }

  lemma CleanupShrinks(objects: Objects, r: Key, keep: set<ObjKey>, f: CleanupFaults)
    ensures Shrinks(objects, Cleanup(objects, r, keep, f).objects, r)
  {
    KindsDeleteOnly(objects, r, keep, CleanupOrder(), f);
  }

  /** The spec of a request, and whether it is deleted, if it still exists. */
  ghost predicate SameSpec(r: Request, after: Option<Request>) {
    after.Some? ==> after.value.spec == r.spec && after.value.deleting == r.deleting
  }

  lemma {:induction false} EnsureEffect(key: Key, accounts: string, r: Request, s: Stage, f: Faults)
    ensures var s' := Ensure(key, accounts, r, s, f);
            && Shrinks(Put(s.objects, key, Ensured(Tasks(key, accounts, r.spec), f.progress)), s'.objects, key)
            && SameSpec(r, s'.request)
  {
    var tasks := Tasks(key, accounts, r.spec);
    CleanupShrinks(Put(s.objects, key, Ensured(tasks, f.progress)), key, KeySet(Flatten(tasks)), f.cleanup);
  }

  lemma {:induction false} DeleteEffect(key: Key, clusterExists: bool, r: Request, s: Stage, f: Faults)
    ensures var s' := DeletePass(key, clusterExists, r, s, f);
            Shrinks(s.objects, s'.objects, key) && SameSpec(r, s'.request)
  {
    CleanupShrinks(s.objects, key, {}, f.cleanup);
  }

  function Prepared(r: Request): Request {
    r.(operation := NoOperation, finalizer := true)
  }

  lemma EnsuringStage(key: Key, accounts: string, clusterExists: bool, r: Request, s: Stage, f: Faults)
    requires StageEnsures(clusterExists, r, s, f)
    ensures PassStage(key, accounts, clusterExists, r, s, f) == Ensure(key, accounts, Prepared(r), s, f)
  {}

  lemma QuietUpdate(key: Key, accounts: string, clusterExists: bool, r: Request, s: Stage, f: Faults)
    requires s.request == Some(r) && !StageEnsures(clusterExists, r, s, f) && !r.deleting
    ensures var s' := PassStage(key, accounts, clusterExists, r, s, f);
            && s'.objects == s.objects && s'.request.Some? && SameSpec(r, s'.request)
            && (r.finalizer ==> s'.request.value.finalizer)
            && (Settled(s'.request.value) ==> Settled(r))
  {}

  lemma {:induction false} QuietStage(key: Key, accounts: string, clusterExists: bool, r: Request, s: Stage, f: Faults)
    requires s.request == Some(r) && !StageEnsures(clusterExists, r, s, f)
    ensures var s' := PassStage(key, accounts, clusterExists, r, s, f);
            && SameSpec(r, s'.request)
            && Shrinks(s.objects, s'.objects, key)
            && (s'.request.Some? && Settled(s'.request.value) ==> Settled(r) && s'.objects == s.objects)
  {
    if r.deleting {
      DeleteEffect(key, clusterExists, r.(operation := NoOperation), s, f);
    } else {
      QuietUpdate(key, accounts, clusterExists, r, s, f);
    }
  }

  /** What a pass over an existing request does to it and to the objects. */
  lemma {:induction false} StageEffect(key: Key, accounts: string, clusterExists: bool, r: Request, s: Stage, f: Faults)
    requires s.request == Some(r)
    ensures var s' := PassStage(key, accounts, clusterExists, r, s, f);
            && SameSpec(r, s'.request)
            && Shrinks(Put(s.objects, key, StageWrites(key, accounts, clusterExists, r, s, f)), s'.objects, key)
  {
    if StageEnsures(clusterExists, r, s, f) {
      EnsuringStage(key, accounts, clusterExists, r, s, f);
      EnsureEffect(key, accounts, Prepared(r), s, f);
    } else {
      QuietStage(key, accounts, clusterExists, r, s, f);
    }
  }

  /** How a pass changes the objects: it first writes, then deletes objects of its request. */
  lemma {:induction false} PassObjects(w: World, p: Key, f: Faults)
    ensures Shrinks(Put(w.objects, p, Writes(w, p, f)), Pass(w, p, f).objects, p)
    ensures Pass(w, p, f).accounts == w.accounts && Pass(w, p, f).clusterExists == w.clusterExists
  {
    if p in w.requests {
      StageEffect(p, w.accounts, w.clusterExists, w.requests[p], Start(w, p), f);
    }
  }

  /** A pass leaves the other requests alone. */
  lemma PassRequests(w: World, p: Key, f: Faults, q: Key)
    requires q != p
    ensures q in Pass(w, p, f).requests <==> q in w.requests
    ensures q in w.requests ==> Pass(w, p, f).requests[q] == w.requests[q]
  {}

  lemma PassSecrets(w: World, p: Key, f: Faults, q: Key)
    requires q != p
    ensures q in Pass(w, p, f).secrets <==> q in w.secrets
    ensures q in w.secrets ==> Pass(w, p, f).secrets[q] == w.secrets[q]
  {}

  /** A pass changes the spec of no request. */
  lemma PassKeepsSpec(w: World, p: Key, f: Faults)
    requires p in w.requests && p in Pass(w, p, f).requests
    ensures Pass(w, p, f).requests[p].spec == w.requests[p].spec
    ensures Pass(w, p, f).requests[p].deleting == w.requests[p].deleting
  {
    StageEffect(p, w.accounts, w.clusterExists, w.requests[p], Start(w, p), f);
  }

  lemma ShrinkKeepsOthers(before: Objects, after: Objects, p: Key, q: Key, k: ObjKey)
    requires Shrinks(before, after, p) && p != q
    ensures Has(after, q, k) == Has(before, q, k)
  {}

  // ---------------------------------------------------------------------------------------------
  // Other requests

  lemma OtherHas(w: World, p: Key, f: Faults, q: Key, k: ObjKey)
    requires q != p
    ensures Has(Pass(w, p, f).objects, q, k)
            == if LastWriter(Writes(w, p, f), k).Some? then None else Has(w.objects, q, k)
  {
    PassObjects(w, p, f);
    PutHas(w.objects, p, Writes(w, p, f), q, k);
    ShrinkKeepsOthers(Put(w.objects, p, Writes(w, p, f)), Pass(w, p, f).objects, p, q, k);
  }

  lemma {:induction false} OtherStaysExactIff(w: World, p: Key, f: Faults, q: Key)
    requires q != p && q in w.requests && Exact(w, q)
    ensures q in Pass(w, p, f).requests
    ensures Exact(Pass(w, p, f), q) <==> Avoids(w.objects, q, Writes(w, p, f))
  {
    PassRequests(w, p, f, q);
    PassObjects(w, p, f);
    var w', writes := Pass(w, p, f), Writes(w, p, f);
    forall k ensures Has(w'.objects, q, k) == if LastWriter(writes, k).Some? then None else Has(w.objects, q, k) {
      OtherHas(w, p, f, q, k);
    }
    OverwrittenIff(w.objects, w'.objects, q, writes, Demands(q, w.accounts, w.requests[q].spec));
  }

  lemma OverwrittenIff(before: Objects, after: Objects, q: Key, writes: seq<Demand>, demands: seq<Demand>)
    requires Owns(before, q, demands)
    requires forall k :: Has(after, q, k) == if LastWriter(writes, k).Some? then None else Has(before, q, k)
    ensures Owns(after, q, demands) <==> Avoids(before, q, writes)
  {
    if Owns(after, q, demands) {
      forall k | LastWriter(writes, k).Some? ensures Has(before, q, k).None? {
        assert Has(after, q, k) == LastWriter(demands, k) == Has(before, q, k);
      }
    }
    if Avoids(before, q, writes) {
      forall k ensures Has(after, q, k) == LastWriter(demands, k) {
        assert Has(before, q, k) == LastWriter(demands, k);
      }
    }
  }

  // ---------------------------------------------------------------------------------------------
  // The request itself

  /** What ensuring all demands makes of the objects, and what the cleanup then leaves. */
  lemma FullPassOwns(objects: Objects, p: Key, demands: seq<Demand>, f: CleanupFaults)
    ensures var c := Cleanup(Put(objects, p, demands), p, KeySet(demands), f);
            c.ok || Owns(objects, p, demands) ==> Owns(c.objects, p, demands)
    ensures Owns(objects, p, demands) ==> Owns(Put(objects, p, demands), p, demands)
  {
    var put := Put(objects, p, demands);
    var c := Cleanup(put, p, KeySet(demands), f);
    KindsDeleteOnly(put, p, KeySet(demands), CleanupOrder(), f);
    if c.ok { CleanupIsExact(put, p, KeySet(demands), f); }
    forall k
      ensures Owns(objects, p, demands) ==> Has(put, p, k) == LastWriter(demands, k)
      ensures c.ok || Owns(objects, p, demands) ==> Has(c.objects, p, k) == LastWriter(demands, k)
    {
      PutHas(objects, p, demands, p, k);
      assert Owns(objects, p, demands) ==> Has(objects, p, k) == LastWriter(demands, k);
    }
  }

  /** Writing some of the demands over exact objects keeps them exact if no write is overridden later. */
  lemma PartialPassOwnsIff(objects: Objects, p: Key, writes: seq<Demand>, demands: seq<Demand>)
    requires Owns(objects, p, demands)
    ensures Owns(Put(objects, p, writes), p, demands) <==> StopsNowhere(writes, demands)
  {
    var put := Put(objects, p, writes);
    forall k
      ensures Has(put, p, k)
              == if LastWriter(writes, k).Some? then LastWriter(writes, k) else LastWriter(demands, k)
    {
      PutHas(objects, p, writes, p, k);
      assert Has(objects, p, k) == LastWriter(demands, k);
    }
    if Owns(put, p, demands) {
      forall k | LastWriter(writes, k).Some? ensures LastWriter(writes, k) == LastWriter(demands, k) {
        assert Has(put, p, k) == LastWriter(demands, k);
      }
    }
  }

  lemma AllPerformed(tasks: seq<Task>, progress: Progress)
    requires AllSucceed(tasks, progress)
    ensures Ensured(tasks, progress) == Flatten(tasks)
  {
    SuccessPerformsAll(tasks, progress);
  }

  /** A pass that ensures the demands of the spec, by its outcome: it stops at a demand, at the secret, or
      cleans up. */
  lemma EnsuresOutcome(w: World, p: Key, f: Faults)
    requires Ensures(w, p, f)
    ensures var w', tasks := Pass(w, p, f), SpecTasks(w, p);
            var put := Put(w.objects, p, Writes(w, p, f));
            var c := Cleanup(put, p, KeySet(Flatten(tasks)), f.cleanup);
            && p in w'.requests
            && (f.status ==> Settled(w'.requests[p]) == Settled(w.requests[p]))
            && (!AllSucceed(tasks, f.progress) ==> w'.objects == put)
            && (AllSucceed(tasks, f.progress) ==> w'.objects == put || w'.objects == c.objects)
            && (!f.status && Settled(w'.requests[p]) ==>
                  AllSucceed(tasks, f.progress) && c.ok && w'.objects == c.objects)
  {
    EnsuringStage(p, w.accounts, w.clusterExists, w.requests[p], Start(w, p), f);
  }

  lemma QuietPass(w: World, p: Key, f: Faults)
    requires p in w.requests && !Ensures(w, p, f)
    ensures var w' := Pass(w, p, f);
            p in w'.requests && Settled(w'.requests[p]) ==>
              Settled(w.requests[p]) && w'.objects == w.objects
  {
    QuietStage(p, w.accounts, w.clusterExists, w.requests[p], Start(w, p), f);
  }

  lemma {:induction false} EnsuringPassIff(w: World, p: Key, f: Faults)
    requires Agreed(w) && Ensures(w, p, f)
    ensures var w' := Pass(w, p, f);
            && p in w'.requests
            && ((Settled(w'.requests[p]) ==> Exact(w', p)) <==>
                (Interrupted(w, p, f) ==> StopsNowhere(Writes(w, p, f), Flatten(SpecTasks(w, p)))))
  {
    var w', tasks, writes := Pass(w, p, f), SpecTasks(w, p), Writes(w, p, f);
    EnsuresOutcome(w, p, f);
    PassKeepsSpec(w, p, f);
    PassObjects(w, p, f);
    FullPassOwns(w.objects, p, Flatten(tasks), f.cleanup);
    assert Settled(w.requests[p]) ==> Exact(w, p);
    if AllSucceed(tasks, f.progress) {
      AllPerformed(tasks, f.progress);
    } else if Settled(w.requests[p]) {
      PartialPassOwnsIff(w.objects, p, writes, Flatten(tasks));
    }
  }

  /** A pass keeps every granted request exact if and only if it is benign. */
  lemma PassKeepsAgreedIff(w: World, p: Key, f: Faults)
    requires Agreed(w)
    ensures Agreed(Pass(w, p, f)) <==> Benign(w, p, f)
  {
    var w' := Pass(w, p, f);
    forall q | q != p && q in w.requests && Settled(w.requests[q])
      ensures q in w'.requests && w'.requests[q] == w.requests[q]
      ensures Exact(w', q) <==> Avoids(w.objects, q, Writes(w, p, f))
    {
      PassRequests(w, p, f, q);
      OtherStaysExactIff(w, p, f, q);
    }
    forall q | q != p && q in w'.requests ensures q in w.requests && w'.requests[q] == w.requests[q] {
      PassRequests(w, p, f, q);
    }
    SelfIff(w, p, f);
    if Agreed(w') {
      forall q | q in w.requests && q != p && Settled(w.requests[q]) ensures Avoids(w.objects, q, Writes(w, p, f)) {
        assert Exact(w', q);
      }
    }
  }

  lemma {:induction false} SelfIff(w: World, p: Key, f: Faults)
    requires Agreed(w)
    ensures var w' := Pass(w, p, f);
            (p in w'.requests && Settled(w'.requests[p]) ==> Exact(w', p)) <==>
            (Interrupted(w, p, f) ==> StopsNowhere(Writes(w, p, f), Flatten(SpecTasks(w, p))))
  {
    var w' := Pass(w, p, f);
    if Ensures(w, p, f) {
      EnsuringPassIff(w, p, f);
    } else if p in w.requests {
      QuietPass(w, p, f);
      PassObjects(w, p, f);
      if p in w'.requests && Settled(w'.requests[p]) {
        PassKeepsSpec(w, p, f);
        assert Exact(w, p);
      }
    }
  }

  // ---------------------------------------------------------------------------------------------
  // What needs no premise

  /** Whatever earlier specs and other requests have left: if a pass that got as far as ensuring leaves the
      request granted and its status is written, then the objects of the request are exact. */
  lemma {:induction false} GrantingPassIsExact(w: World, p: Key, f: Faults)
    requires Ensures(w, p, f) && !f.status
    ensures var w' := Pass(w, p, f);
            && p in w'.requests
            && (w'.requests[p].phase == Granted ==> Exact(w', p))
            && (w'.requests[p].phase == Granted <==>
                  AllSucceed(SpecTasks(w, p), f.progress) && (SpecTasks(w, p) != [] ==> !f.secretWrite)
                  && Cleanup(Put(w.objects, p, Flatten(SpecTasks(w, p))), p, KeySet(Flatten(SpecTasks(w, p))),
                             f.cleanup).ok)
  {
    var w', tasks := Pass(w, p, f), SpecTasks(w, p);
    EnsuringStage(p, w.accounts, w.clusterExists, w.requests[p], Start(w, p), f);
    PassObjects(w, p, f);
    PassKeepsSpec(w, p, f);
    FullPassOwns(w.objects, p, Flatten(tasks), f.cleanup);
    if AllSucceed(tasks, f.progress) { AllPerformed(tasks, f.progress); }
  }

  /** A pass changes no object that is not labelled for its request, except those it writes. */
  lemma PassLeavesOthersObjects(w: World, p: Key, f: Faults, k: ObjKey)
    requires k in w.objects && w.objects[k].owner != Some(p)
    requires LastWriter(Writes(w, p, f), k).None?
    ensures k in Pass(w, p, f).objects && Pass(w, p, f).objects[k] == w.objects[k]
  {
    PassObjects(w, p, f);
    PutKeeps(w.objects, p, Writes(w, p, f), k);
  }
}
