/** What the passes of the Cluster controller write: the Shoot of a Cluster carries the spec that was rendered last,
    and passes that are not to touch anything do not. */
module ClusterRendering {
  import opened Common
  import opened ClusterConfigs
  import opened ClusterLifecycle
  import opened ClusterSafety
  import opened ClusterRuns

  // ---------------------------------------------------------------------------------------------
  // One pass

  /** The write of the pass takes effect: it goes all the way, is not lost, and creates a Shoot only where the
      name is free. */
  ghost predicate Delivers(w: World, key: Key, f: Faults) {
    && Writes(w, key, f) && f.written
    && (Outlook(w, key, f).At? || WorksOn(w, key, f) !in w.shoots)
  }

  /** Then the Shoot has the labels of the Cluster and the rendered spec. A new Shoot is neither confirmed nor under
      deletion, and an existing one stays what it was in these. No other Shoot changes. */
  lemma DeliveredShoot(w: World, key: Key, f: Faults, after: Store)
    requires Delivers(w, key, f)
    ensures var w', l := ClusterPass(w, key, f, after), WorksOn(w, key, f);
            && l in w'.shoots && w'.shoots[l].owner == Some(key) && w'.shoots[l].spec == f.rendered.value
            && w'.shoots[l].confirmed == (l in w.shoots && w.shoots[l].confirmed)
            && w'.shoots[l].deleting == (l in w.shoots && w.shoots[l].deleting)
            && (forall l' :: l' != l ==> (l' in w'.shoots <==> l' in w.shoots))
            && (forall l' :: l' != l && l' in w.shoots ==> w'.shoots[l'] == w.shoots[l'])
  {}

  /** A new Shoot is created in the project namespace, under the name that the Cluster's label gives, or else under
      the generated one. */
  lemma CreatedInPlace(w: World, key: Key, f: Faults)
    requires Writes(w, key, f) && Outlook(w, key, f).Absent?
    ensures var c := w.clusters[key];
            var name := if c.nameLabel.None? || c.nameLabel.value == "" then ShootK8sName(key) else c.nameLabel.value;
            WorksOn(w, key, f) == Loc(w.sites[c.profile].landscape, w.sites[c.profile].ns, name)
  {}

  /** Different Clusters have different generated names. Namespaces contain no slash. */
  lemma GeneratedNamesDiffer(a: Key, b: Key)
    requires '/' !in a.ns && '/' !in b.ns && ShootK8sName(a) == ShootK8sName(b)
    ensures a == b
  {
    var s, t := a.ns + "/" + a.name, b.ns + "/" + b.name;
    assert ShootK8sName(a)[2..] == s && ShootK8sName(b)[2..] == t;
    assert s[|a.ns|] == '/' && t[|b.ns|] == '/';
    assert forall i :: 0 <= i < |a.ns| ==> s[i] == a.ns[i] && s[i] != '/';
    assert forall i :: 0 <= i < |b.ns| ==> t[i] == b.ns[i] && t[i] != '/';
    assert |a.ns| == |b.ns|;
    assert a.ns == s[..|a.ns|] && b.ns == t[..|b.ns|];
    assert a.name == s[|a.ns| + 1..] && b.name == t[|b.ns| + 1..];
  }

  /** A pass that delivers nothing leaves labels and spec of every Shoot as they were. */
  lemma NothingDelivered(w: World, key: Key, f: Faults, after: Store, l: Loc)
    requires !Delivers(w, key, f)
    ensures var w' := ClusterPass(w, key, f, after);
            && (l in w'.shoots <==> l in w.shoots)
            && (l in w.shoots ==> w'.shoots[l].owner == w.shoots[l].owner && w'.shoots[l].spec == w.shoots[l].spec)
  {
    if Arrives(w, key, f, Outlook(w, key, f)) {
      if w.clusters[key].deleting {
        DeletionKeepsSpec(w, key, f, after, Outlook(w, key, f), l);
      } else {
        UndeliveredUpdate(w, key, f, after, l);
      }
    }
  }

  lemma DeletionKeepsSpec(w: World, key: Key, f: Faults, after: Store, found: Found, l: Loc)
    requires key in w.clusters && found.At? ==> found.loc in w.shoots
    requires key in w.clusters
    ensures var w' := Delete(w, key, f, after, found);
            && (l in w'.shoots <==> l in w.shoots)
            && (l in w.shoots ==> w'.shoots[l].owner == w.shoots[l].owner && w'.shoots[l].spec == w.shoots[l].spec)
  {}

  lemma UndeliveredUpdate(w: World, key: Key, f: Faults, after: Store, l: Loc)
    requires Arrives(w, key, f, Outlook(w, key, f)) && !w.clusters[key].deleting && !Delivers(w, key, f)
    ensures CreateOrUpdate(w, key, f, after, Outlook(w, key, f)).shoots == w.shoots
  {}

  /** The pass records the name of the Shoot it works on, unless the status is lost. */
  lemma NameIsRecorded(w: World, key: Key, f: Faults, after: Store)
    requires Writes(w, key, f)
    ensures var w', l := ClusterPass(w, key, f, after), WorksOn(w, key, f);
            && key in w'.clusters && ClusterFinalizer in w'.clusters[key].finalizers
            && w'.clusters[key].status == if f.statusLost then w.clusters[key].status else Some(ShootRef(l.ns, l.name))
  {}

  // ---------------------------------------------------------------------------------------------
  // A pass in which nothing fails

  /** No call of a pass that creates or updates fails. */
  predicate NoCallFails(f: Faults) {
    && !f.clusterGetFails && !f.annotationFails && !f.shootGetFails && !f.shootListFails && !f.conflictCheckFails
    && !f.finalizerFails && f.configsOk && f.rendered.Some? && !f.labelsFail && f.written && !f.statusLost
  }

  /** A Cluster that is to be served: not ignored, not under deletion, with a registered profile and landscape. */
  ghost predicate Served(w: World, key: Key) {
    && key in w.clusters && !w.clusters[key].ignored && !w.clusters[key].deleting && Resolves(w, w.clusters[key])
  }

  lemma LookupFinds(w: World, key: Key, f: Faults, l: Loc)
    requires Safe(w) && Served(w, key) && NoCallFails(f) && l in Labelled(w.shoots, key)
    ensures Outlook(w, key, f) == At(l)
  {
    var c := w.clusters[key];
    var site := w.sites[c.profile];
    assert Labelled(w.shoots, key) == {l};
    assert Reachable(c, site, l);
    if c.status.None? { assert LabelledAt(w.shoots, site, key) == {l}; }
  }

  lemma LookupFindsNothing(w: World, key: Key, f: Faults)
    requires Safe(w) && Served(w, key) && NoCallFails(f) && Labelled(w.shoots, key) == {}
    ensures Outlook(w, key, f) == Absent
  {
    var c := w.clusters[key];
    var site := w.sites[c.profile];
    assert LabelledAt(w.shoots, site, key) == {};
    if c.status.Some? { assert RecordedLoc(site, c.status.value) !in Labelled(w.shoots, key); }
  }

  /** Where no call fails, a pass over a Cluster that is to be served, and that has a Shoot or whose name is free,
      ends with exactly one Shoot labelled for it, which has the rendered spec and is recorded. */
  lemma CleanPassRenders(w: World, key: Key, f: Faults, after: Store)
    requires Safe(w) && Served(w, key) && NoCallFails(f)
    requires || Labelled(w.shoots, key) != {}
             || Target(w.sites[w.clusters[key].profile], key, w.clusters[key]) !in w.shoots
    ensures var w' := ClusterPass(w, key, f, after);
            exists l :: Labelled(w'.shoots, key) == {l} && w'.shoots[l].spec == f.rendered.value
              && key in w'.clusters && w'.clusters[key].status == Some(ShootRef(l.ns, l.name))
              && ClusterFinalizer in w'.clusters[key].finalizers
  {
    var w' := ClusterPass(w, key, f, after);
    if l :| l in Labelled(w.shoots, key) {
      LookupFinds(w, key, f, l);
    } else {
      LookupFindsNothing(w, key, f);
    }
    assert Delivers(w, key, f);
    DeliveredShoot(w, key, f, after);
    NameIsRecorded(w, key, f, after);
    var l := WorksOn(w, key, f);
    assert forall l' :: l' in Labelled(w'.shoots, key) ==> l' == l || l' in Labelled(w.shoots, key);
    assert Labelled(w'.shoots, key) == {l};
  }

  // ---------------------------------------------------------------------------------------------
  // Passes that touch nothing

  /** A Cluster that is ignored, or whose profile or landscape is not registered with a handle, is left alone. */
  lemma UnservedIsLeftAlone(w: World, key: Key, f: Faults, after: Store)
    requires key in w.clusters ==>
               var c := w.clusters[key];
               || c.ignored || c.profile !in w.known || c.profile !in w.sites
               || w.sites[c.profile].landscape !in w.landscapes || !w.landscapes[w.sites[c.profile].landscape]
    ensures ClusterPass(w, key, f, after) == w
  {}

  /** Where the finalizer cannot be added, the ClusterConfigs cannot be settled, the Shoot cannot be rendered or the
      labels of the Cluster cannot be set, a pass creates and updates no Shoot and records none. */
  lemma FailedPreparationWritesNothing(w: World, key: Key, f: Faults, after: Store)
    requires key in w.clusters && !w.clusters[key].deleting
    requires || (f.finalizerFails && ClusterFinalizer !in w.clusters[key].finalizers)
             || !f.configsOk || f.rendered.None? || f.labelsFail
    ensures var w' := ClusterPass(w, key, f, after);
            && w'.shoots == w.shoots && key in w'.clusters && w'.clusters[key].status == w.clusters[key].status
  {
    if Arrives(w, key, f, Outlook(w, key, f)) {
      FailedUpdate(w, key, f, after, Outlook(w, key, f));
    }
  }

  lemma FailedUpdate(w: World, key: Key, f: Faults, after: Store, found: Found)
    requires key in w.clusters && w.clusters[key].profile in w.sites
    requires found.At? ==> found.loc in w.shoots
    requires || (f.finalizerFails && ClusterFinalizer !in w.clusters[key].finalizers)
             || !f.configsOk || f.rendered.None? || f.labelsFail
    ensures var w' := CreateOrUpdate(w, key, f, after, found);
            && w'.shoots == w.shoots && key in w'.clusters && w'.clusters[key].status == w.clusters[key].status
  {}

  /** So is one whose read fails, and one without a Shoot whose name label gives a name that is in use. */
  lemma ConflictIsLeftAlone(w: World, key: Key, f: Faults, after: Store)
    requires key in w.clusters && w.clusters[key].profile in w.sites
    requires || f.clusterGetFails
             || (&& Outlook(w, key, f).Absent? && w.clusters[key].nameLabel.Some?
                 && var site := w.sites[w.clusters[key].profile];
                 var name := w.clusters[key].nameLabel.value;
                 Loc(site.landscape, site.ns, if name == "" then ShootK8sName(key) else name) in w.shoots)
    ensures ClusterPass(w, key, f, after) == w
  {}

  // ---------------------------------------------------------------------------------------------
  // Lookup

  /** What a pass takes for the Shoot of a Cluster. A recorded name is taken as it is, wherever its namespace says and
      whoever the Shoot is labelled for. Without one, the only Shoot labelled for the Cluster in the project namespace
      is taken; several of them, like a call that fails, make the pass give up. */
  lemma LookupOutcome(w: World, key: Key, f: Faults)
    requires key in w.clusters && w.clusters[key].profile in w.sites
    ensures var c, site, found := w.clusters[key], w.sites[w.clusters[key].profile], Outlook(w, key, f);
            var hits := set l | l in w.shoots && w.shoots[l].owner == Some(key)
                                && l.landscape == site.landscape && l.ns == site.ns;
            if c.status.Some? then
              var l := Loc(site.landscape, c.status.value.ns, c.status.value.name);
              found == if f.shootGetFails then Failed else if l in w.shoots then At(l) else Absent
            else if f.shootListFails then found == Failed
            else
              && (found == Absent <==> hits == {})
              && (forall l :: found == At(l) <==> hits == {l})
              && (found == Failed <==> exists l, l' :: l in hits && l' in hits && l != l')
  {
    var c, site, found := w.clusters[key], w.sites[w.clusters[key].profile], Outlook(w, key, f);
    var hits := set l | l in w.shoots && w.shoots[l].owner == Some(key)
                        && l.landscape == site.landscape && l.ns == site.ns;
    assert hits == LabelledAt(w.shoots, site, key);
    if c.status.None? && !f.shootListFails {
      SizeOfHits(hits);
      if hits != {} && |hits| <= 1 {
        var l :| l in hits;
        assert hits == {l};
        assert found == At(l);
      }
    }
  }

  lemma SizeOfHits(hits: set<Loc>)
    ensures |hits| > 1 <==> exists l, l' :: l in hits && l' in hits && l != l'
  {
    if l, l' :| l in hits && l' in hits && l != l' {
      assert |hits| == |hits - {l, l'}| + |{l, l'}|;
    } else if hits != {} {
      var l :| l in hits;
      assert hits == {l};
    }
  }

  /** A pass whose lookup fails changes nothing. */
  lemma FailedLookupIsIdle(w: World, key: Key, f: Faults, after: Store)
    requires Outlook(w, key, f) == Failed
    ensures ClusterPass(w, key, f, after) == w
  {}

  /** A pass over a Cluster under deletion that finds no Shoot, and no foreign finalizers, releases as many
      ClusterConfigs as it can, also if it then fails. */
  lemma ReleasedAsFarAsPossible(w: World, key: Key, f: Faults, after: Store)
    requires Arrives(w, key, f, Absent) && w.clusters[key].deleting && Foreign(w.clusters[key].finalizers) == []
    ensures ClusterPass(w, key, f, after).configs == after
  {}

  // ---------------------------------------------------------------------------------------------
  // Runs

  /** The spec that the last delivering pass of the run has rendered for the Cluster, or `given` if there is none. */
  ghost function LastRendered(w: World, steps: seq<Step>, key: Key, given: Option<string>): Option<string>
    decreases |steps|
  {
    if steps == [] then given
    else
      var s := steps[0];
      var next := if s.Pass? && s.key == key && Delivers(w, key, s.f) then s.f.rendered else given;
      LastRendered(Apply(w, s), steps[1..], key, next)
  }

  ghost predicate Carries(w: World, key: Key, spec: Option<string>) {
    spec.Some? ==> forall l :: l in Labelled(w.shoots, key) ==> w.shoots[l].spec == spec.value
  }

  lemma PassCarries(w: World, k: Key, f: Faults, after: Store, key: Key, given: Option<string>)
    requires Safe(w) && Safe(ClusterPass(w, k, f, after)) && Carries(w, key, given)
    ensures Carries(ClusterPass(w, k, f, after), key, if k == key && Delivers(w, key, f) then f.rendered else given)
  {
    var w' := ClusterPass(w, k, f, after);
    if k == key && Delivers(w, key, f) {
      DeliveredShoot(w, key, f, after);
      assert WorksOn(w, key, f) in Labelled(w'.shoots, key);
    } else {
      PassIsIsolated(w, k, f, after);
      forall l | l in Labelled(w'.shoots, key)
        ensures l in Labelled(w.shoots, key) && w'.shoots[l].spec == w.shoots[l].spec
      {
        if k == key { NothingDelivered(w, k, f, after, l); }
      }
    }
  }

  lemma StepCarries(w: World, s: Step, key: Key, given: Option<string>)
    requires Safe(w) && Enabled(w, s) && Harmless(w, s) && Carries(w, key, given)
    ensures Carries(Apply(w, s), key, if s.Pass? && s.key == key && Delivers(w, key, s.f) then s.f.rendered else given)
  {
    StepKeepsSafe(w, s);
    if s.Pass? {
      PassCarries(w, s.key, s.f, s.after, key, given);
    } else {
      var w' := Apply(w, s);
      forall l | l in Labelled(w'.shoots, key) ensures l in Labelled(w.shoots, key) && w'.shoots[l] == w.shoots[l] {}
    }
  }

  /** At the end of every legal run, the Shoot of a Cluster, if there is one, carries the spec that was rendered for
      it last: every change of the template, the version or a ClusterConfig reaches the Shoot with the first pass
      that renders it and writes it. */
  lemma {:induction false} ShootCarriesLastSpec(w: World, steps: seq<Step>, key: Key, given: Option<string>)
    requires Safe(w) && Legal(w, steps) && Carries(w, key, given)
    ensures Carries(Run(w, steps), key, LastRendered(w, steps, key, given))
    decreases |steps|
  {
    if steps != [] {
      var s := steps[0];
      StepCarries(w, s, key, given);
      StepKeepsSafe(w, s);
      var next := if s.Pass? && s.key == key && Delivers(w, key, s.f) then s.f.rendered else given;
      ShootCarriesLastSpec(Apply(w, s), steps[1..], key, next);
    }
  }
}
