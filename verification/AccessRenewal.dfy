/** When a pass over an AccessRequest writes a new secret, in numbers, and why the secret of a token request never
    holds an expired token. */
module AccessRenewal {
  import opened Common
  import opened KeyedLists
  import opened TokenRenewal
  import opened AccessObjects
  import opened AccessRequests
  import opened AccessSafety
  import opened AccessRuns
  import opened AccessConvergence

  // ---------------------------------------------------------------------------------------------
  // One pass

  /** A request that a pass is to serve: it is there and not under deletion or ignored, and so is the Cluster. */
  predicate ToServe(w: World, p: Key) {
    && p in w.requests && w.clusterExists
    && !w.requests[p].deleting && w.requests[p].operation != Ignore
  }

  /** The request is not granted for its generation, or is to be reconciled in any case, or has no secret. */
  predicate NotSettledYet(w: World, p: Key)
    requires p in w.requests
  {
    var r := w.requests[p];
    r.phase != Granted || r.observed != r.generation || r.operation == ReconcileNow || p !in w.secrets
  }

  /** The stamps of the secret are missing, or four fifths of the time between them have passed. Times are in
      nanoseconds, stamps in seconds. */
  predicate TokenIsDue(secret: Secret, now: int) {
    || secret.created == Missing || secret.expires == Missing
    || (secret.created.Seconds? && secret.expires.Seconds?
        && (secret.created.value + 4 * secret.expires.value) * 1_000_000_000 <= 5 * now)
  }

  /** What a secret holds for a token. */
  function Stamped(t: Token): Secret {
    Secret(Seconds(t.created / 1_000_000_000), Seconds(t.expires / 1_000_000_000))
  }

  lemma FifthsOfSeconds(c: int, e: int, now: int)
    ensures now < RenewalTime(c * Second, e * Second) <==> 5 * now < (c + 4 * e) * 1_000_000_000
  {
    var d := (e - c) * 200_000_000;
    assert e * Second - c * Second == 5 * d;
    assert FourFifths(5 * d) == 4 * d;
  }

  lemma JudgedByNumbers(s: Secret, now: int)
    requires s.created != Garbled && s.expires != Garbled
    ensures Judge(s, now).Renew? <==> TokenIsDue(s, now)
    ensures Judge(s, now).Keep? <==> !TokenIsDue(s, now)
  {
    if s.created.Seconds? && s.expires.Seconds? { FifthsOfSeconds(s.created.value, s.expires.value, now); }
  }

  lemma TokenIsMeetable(p: Key, accounts: string, spec: Spec)
    requires spec.token.Some?
    ensures Meetable(Tasks(p, accounts, spec))
  {
    var tasks := Tasks(p, accounts, spec);
    forall i | 0 <= i < |tasks| ensures tasks[i] != [] {
      if i > 0 { assert tasks[i] == TokenTasks(p, accounts, spec.token.value)[i - 1]; }
    }
  }

  /** A granted request refers to its secret, which is readable. */
  predicate InOrder(w: World, p: Key)
    requires p in w.requests
  {
    && w.requests[p].secretRef
    && (p in w.secrets ==> w.secrets[p].created != Garbled && w.secrets[p].expires != Garbled)
  }

  /** The request is granted for its generation, with a reference to its secret, and has exactly its objects. */
  ghost predicate Served(w: World, p: Key) {
    && p in w.requests && w.requests[p].phase == Granted && w.requests[p].observed == w.requests[p].generation
    && w.requests[p].secretRef && w.requests[p].finalizer && w.requests[p].operation == NoOperation
    && Exact(w, p)
  }

  lemma EnsuringPassServes(w: World, p: Key, f: Faults)
    requires Faultless(f) && Ensures(w, p, f) && Meetable(SpecTasks(w, p)) && SpecTasks(w, p) != []
    ensures var w' := Pass(w, p, f);
            && Served(w', p) && p in w'.secrets
            && w'.secrets[p] == if w.requests[p].spec.token.Some? then Stamped(f.token) else Secret(Missing, Missing)
  {
    var demands := Flatten(SpecTasks(w, p));
    OnePassSuffices(w, p, f);
    MeetableSucceeds(SpecTasks(w, p));
    AllPerformed(SpecTasks(w, p), []);
    NothingStuck(Put(w.objects, p, demands), p, KeySet(demands), CleanupOrder());
    EnsuringStage(p, w.accounts, w.clusterExists, w.requests[p], Start(w, p), f);
  }

  /** What a pass that skips the request leaves behind. */
  ghost predicate LeftAsItWas(w: World, w': World, p: Key)
    requires p in w.requests
  {
    && p in w'.requests && w'.requests[p] == w.requests[p].(finalizer := true)
    && w'.secrets == w.secrets && w'.objects == w.objects
  }

  lemma SkippingPassLeaves(w: World, p: Key, f: Faults)
    requires Faultless(f) && ToServe(w, p) && !NotSettledYet(w, p) && InOrder(w, p)
    requires CheckGranted(w.requests[p], SecretIn(w, p), false, f) == Skip
    ensures LeftAsItWas(w, Pass(w, p, f), p)
  {
    var r := w.requests[p].(finalizer := true);
    assert r.(operation := NoOperation) == r;
    assert PassStage(p, w.accounts, true, w.requests[p], Start(w, p), f) == Stage(Some(r), SecretIn(w, p), w.objects);
    assert w.secrets[p := w.secrets[p]] == w.secrets;
  }

  /** A pass in which nothing fails writes a new token into the secret of a request if and only if the request is
      not granted for its generation, is annotated, or has no secret, or the stamps are missing or four fifths of
      the validity have passed. Then the secret has the full seconds of the new token and the request is granted
      with exactly its objects; otherwise nothing changes. */
  lemma TokenIsRenewedIff(w: World, p: Key, f: Faults)
    requires Faultless(f) && ToServe(w, p) && w.requests[p].spec.token.Some?
    requires w.requests[p].phase == Granted ==> InOrder(w, p)
    ensures var w' := Pass(w, p, f);
            if NotSettledYet(w, p) || TokenIsDue(w.secrets[p], f.now)
            then Served(w', p) && p in w'.secrets && w'.secrets[p] == Stamped(f.token)
            else LeftAsItWas(w, w', p)
  {
    TokenIsMeetable(p, w.accounts, w.requests[p].spec);
    if p in w.secrets && w.requests[p].phase == Granted { JudgedByNumbers(w.secrets[p], f.now); }
    if NotSettledYet(w, p) || TokenIsDue(w.secrets[p], f.now) {
      assert Ensures(w, p, f);
      EnsuringPassServes(w, p, f);
    } else {
      SkippingPassLeaves(w, p, f);
    }
  }

  /** A pass that cannot read the stamps of the secret changes nothing but takes the grant back, so that the next
      one renews the token. */
  lemma GarbledSecretTakesGrantBack(w: World, p: Key, f: Faults)
    requires Faultless(f) && ToServe(w, p) && w.requests[p].spec.token.Some? && w.requests[p].secretRef
    requires !NotSettledYet(w, p) && w.secrets[p].created != Missing && w.secrets[p].expires != Missing
    requires w.secrets[p].created == Garbled || w.secrets[p].expires == Garbled
    ensures var w' := Pass(w, p, f);
            && w'.secrets == w.secrets && w'.objects == w.objects
            && p in w'.requests && w'.requests[p].phase == Pending && NotSettledYet(w', p)
  {
    assert PassStage(p, w.accounts, true, w.requests[p], Start(w, p), f).secret == SecretIn(w, p);
    assert w.secrets[p := w.secrets[p]] == w.secrets;
  }

  /** The secret of an OIDC request does not expire, so only the first three reasons count for it. */
  lemma OidcIsRenewedIff(w: World, p: Key, f: Faults)
    requires Faultless(f) && ToServe(w, p) && w.requests[p].spec.token.None? && w.requests[p].spec.oidc.Some?
    requires Meetable(SpecTasks(w, p)) && (w.requests[p].phase == Granted ==> w.requests[p].secretRef)
    ensures var w' := Pass(w, p, f);
            if NotSettledYet(w, p) then Served(w', p) && p in w'.secrets && w'.secrets[p] == Secret(Missing, Missing)
            else LeftAsItWas(w, w', p)
  {
    if NotSettledYet(w, p) {
      assert Ensures(w, p, f);
      EnsuringPassServes(w, p, f);
    } else {
      var r := w.requests[p].(finalizer := true);
      assert r.(operation := NoOperation) == r;
      assert PassStage(p, w.accounts, true, w.requests[p], Start(w, p), f)
             == Stage(Some(r), SecretIn(w, p), w.objects);
      assert w.secrets[p := w.secrets[p]] == w.secrets;
    }
  }

  /** A pass that cannot read the request, or its ignore annotation, or cannot remove the other annotation, changes
      nothing. */
  lemma IgnoredRequestIsLeftAlone(w: World, p: Key, f: Faults)
    requires p in w.requests ==>
               f.get || w.requests[p].operation == Ignore || (w.requests[p].operation == ReconcileNow && f.operation)
    ensures Pass(w, p, f) == w
  {
    if p in w.requests {
      assert w.requests[p := w.requests[p]] == w.requests;
      assert p !in w.secrets ==> w.secrets - {p} == w.secrets;
      assert p in w.secrets ==> w.secrets[p := w.secrets[p]] == w.secrets;
    }
  }

  /** A call fails before the pass comes to the objects: the Cluster or its profile cannot be read, or it is gone
      although the request is not under deletion, or the finalizer cannot be added, or the secret of a granted request
      cannot be read, or the shoot cannot be accessed where it has to be. */
  predicate FailsEarly(w: World, p: Key, f: Faults)
    requires p in w.requests
  {
    var r := w.requests[p];
    var granted := r.phase == Granted && r.observed == r.generation && r.operation != ReconcileNow;
    if r.deleting then f.cluster || (w.clusterExists && f.access)
    else || f.cluster || !w.clusterExists || (!r.finalizer && f.finalizer)
         || (granted && r.secretRef && f.secretRead)
         || (f.access && (!granted || (r.secretRef && p !in w.secrets)))
  }

  /** Then it touches neither objects nor secrets, and takes the grant back unless the status is lost. */
  lemma EarlyFailureTakesGrantBack(w: World, p: Key, f: Faults)
    requires p in w.requests && !f.get && w.requests[p].operation != Ignore
    requires !(w.requests[p].operation == ReconcileNow && f.operation)
    requires FailsEarly(w, p, f)
    ensures var w' := Pass(w, p, f);
            && w'.objects == w.objects && w'.secrets == w.secrets
            && p in w'.requests && w'.requests[p].spec == w.requests[p].spec
            && w'.requests[p].phase == (if f.status then w.requests[p].phase else Pending)
  {
    var r := w.requests[p];
    var s := PassStage(p, w.accounts, w.clusterExists, r, Start(w, p), f);
    assert s.objects == w.objects && s.secret == SecretIn(w, p) && s.request.Some?;
    assert p in w.secrets ==> w.secrets[p := w.secrets[p]] == w.secrets;
    assert p !in w.secrets ==> w.secrets - {p} == w.secrets;
  }

  // ---------------------------------------------------------------------------------------------
  // Runs

  /** The secret holds a token, and the next pass is due at the renewal time computed from the token or from the
      secret. */
  ghost predicate HoldsToken(w: World, p: Key, h: Held) {
    && ToServe(w, p) && w.requests[p].spec.token.Some? && w.requests[p].secretRef
    && p in w.secrets && w.secrets[p] == Stamped(h.token) && Due(h)
  }

  /** What a step must not do to the request: its passes have no failures, it and its secret are not deleted, and it
      is not ignored or turned into an OIDC request. The Cluster and its shoot stay. */
  predicate LeavesServed(s: Step, p: Key) {
    match s
    case Reconcile(key, f) => key == p ==> Faultless(f) && f.token.created <= f.token.expires
    case Edit(key, spec) => key == p ==> spec.token.Some?
    case Delete(key) => key != p
    case Annotate(key, op) => key == p ==> op != Ignore
    case LoseSecret(key) => key != p
    case LoseCluster => false
    case ReplaceShoot => false
    case _ => true
  }

  /** The token after a step, and when the next pass is due. */
  function HeldAfter(w: World, s: Step, p: Key, h: Held): Held {
    if !s.Reconcile? || s.key != p || p !in w.requests then h
    else if NotSettledYet(w, p) || TokenIsDue(w.secrets[p], s.faults.now) then
      Held(s.faults.token, RenewalTime(s.faults.token.created, s.faults.token.expires))
    else Held(h.token, RenewalTime(FullSecond(h.token.created), FullSecond(h.token.expires)))
  }

  lemma StampedIsStored(t: Token)
    ensures Stamped(t) == SecretOf(t)
  {}

  lemma OwnPassHolds(w: World, p: Key, f: Faults, h: Held)
    requires HoldsToken(w, p, h) && Faultless(f) && f.token.created <= f.token.expires
    ensures HoldsToken(Pass(w, p, f), p, HeldAfter(w, Reconcile(p, f), p, h))
  {
    TokenIsRenewedIff(w, p, f);
    PassObjects(w, p, f);
    if NotSettledYet(w, p) || TokenIsDue(w.secrets[p], f.now) { PassKeepsSpec(w, p, f); }
  }

  lemma StepHolds(w: World, s: Step, p: Key, h: Held)
    requires HoldsToken(w, p, h) && LeavesServed(s, p)
    ensures HoldsToken(Apply(w, s), p, HeldAfter(w, s, p, h))
  {
    if s.Reconcile? {
      if s.key == p {
        OwnPassHolds(w, p, s.faults, h);
      } else {
        PassRequests(w, s.key, s.faults, p);
        PassSecrets(w, s.key, s.faults, p);
        PassObjects(w, s.key, s.faults);
      }
    }
  }

  /** The pass over the request comes late by no more than a fifth of the validity, less one second. It may come
      early, for whatever reason. */
  predicate ComesInTime(s: Step, p: Key, h: Held) {
    s.Reconcile? && s.key == p ==>
      5 * (s.faults.now - h.due) <= h.token.expires - h.token.created - 5_000_000_000
  }

  ghost predicate ServedInTime(w: World, steps: seq<Step>, p: Key, h: Held)
    decreases |steps|
  {
    steps == [] ||
    (&& LeavesServed(steps[0], p) && ComesInTime(steps[0], p, h)
     && ServedInTime(Apply(w, steps[0]), steps[1..], p, HeldAfter(w, steps[0], p, h)))
  }

  /** The secret is there at every point, and at every pass over the request the expiry that it states is in the
      future. */
  ghost predicate LiveAtAllTimes(w: World, steps: seq<Step>, p: Key)
    decreases |steps|
  {
    && p in w.secrets && w.secrets[p].expires.Seconds?
    && (steps == [] ||
        (&& (steps[0].Reconcile? && steps[0].key == p ==>
               steps[0].faults.now < w.secrets[p].expires.value * 1_000_000_000)
         && LiveAtAllTimes(Apply(w, steps[0]), steps[1..], p)))
  }

  /** In every run, with passes over other requests and with edits of this one at any time, the secret of a token
      request always holds a live token, as long as no pass over it is later than a fifth of the validity less one
      second. */
  lemma {:induction false} SecretStaysLive(w: World, steps: seq<Step>, p: Key, h: Held)
    requires HoldsToken(w, p, h) && ServedInTime(w, steps, p, h)
    ensures LiveAtAllTimes(w, steps, p)
    decreases |steps|
  {
    if steps != [] {
      var s := steps[0];
      if s.Reconcile? && s.key == p { InTimeIsLive(h, Visit(s.faults.now, s.faults.token)); }
      StepHolds(w, s, p, h);
      SecretStaysLive(Apply(w, s), steps[1..], p, HeldAfter(w, s, p, h));
    }
  }

  /** The first pass over a new request, or one that is due, is a start for such a run. */
  lemma RenewedHoldsToken(w: World, p: Key, f: Faults)
    requires Faultless(f) && ToServe(w, p) && w.requests[p].spec.token.Some? && f.token.created <= f.token.expires
    requires w.requests[p].phase == Granted ==> InOrder(w, p)
    requires NotSettledYet(w, p) || TokenIsDue(w.secrets[p], f.now)
    ensures HoldsToken(Pass(w, p, f), p, Held(f.token, RenewalTime(f.token.created, f.token.expires)))
  {
    TokenIsRenewedIff(w, p, f);
    PassKeepsSpec(w, p, f);
    PassObjects(w, p, f);
  }
}
