/** Safety of the Cluster protocol over whole runs: no orphaned Shoot, no second Shoot for a Cluster, no
    hand on another Cluster's Shoot, and no deletion before its time. */
module ClusterSafety {
  import opened Common
  import opened ClusterConfigs
  import opened ClusterLifecycle

  // ---------------------------------------------------------------------------------------------
  // The invariant

  /** No orphan: whatever a Shoot is labelled for exists and still holds the provider's finalizer. */
  ghost predicate Owned(w: World) {
    forall l :: l in w.shoots && w.shoots[l].owner.Some? ==>
      var k := w.shoots[l].owner.value;
      k in w.clusters && ClusterFinalizer in w.clusters[k].finalizers && w.clusters[k].profile in w.sites
  }

  /** No twin. */
  ghost predicate Unique(w: World) {
    forall l, l' :: l in w.shoots && l' in w.shoots ==>
      w.shoots[l].owner.Some? && w.shoots[l].owner == w.shoots[l'].owner ==> l == l'
  }

  /** The next lookup cannot miss a labelled Shoot: it is the recorded one or, as long as nothing is
      recorded, it lies in the namespace the label search covers. */
  ghost predicate Reachable(c: Cluster, site: Site, l: Loc) {
    if c.status.Some? then l == RecordedLoc(site, c.status.value)
    else l.landscape == site.landscape && l.ns == site.ns
  }

  ghost predicate Tracked(w: World) {
    forall l :: l in w.shoots && w.shoots[l].owner.Some? ==>
      var k := w.shoots[l].owner.value;
      k in w.clusters && w.clusters[k].profile in w.sites ==>
        Reachable(w.clusters[k], w.sites[w.clusters[k].profile], l)
  }

  /** A recorded name never points at a Shoot of anybody else. */
  ghost predicate Faithful(w: World) {
    forall k :: k in w.clusters && w.clusters[k].status.Some? && w.clusters[k].profile in w.sites ==>
      var l := RecordedLoc(w.sites[w.clusters[k].profile], w.clusters[k].status.value);
      l in w.shoots ==> w.shoots[l].owner == Some(k)
  }

  /** A labelled Shoot is under deletion only if its Cluster is, which then has no foreign finalizer,
      and only with the confirmation annotation. */
  ghost predicate Gated(w: World) {
    forall l :: l in w.shoots && w.shoots[l].owner.Some? && w.shoots[l].deleting ==>
      var k := w.shoots[l].owner.value;
      && w.shoots[l].confirmed
      && (k in w.clusters ==> w.clusters[k].deleting && Foreign(w.clusters[k].finalizers) == [])
  }

  ghost predicate Safe(w: World) {
    Owned(w) && Unique(w) && Tracked(w) && Faithful(w) && Gated(w)
  }

  // ---------------------------------------------------------------------------------------------
  // Which passes keep it

  /** Nobody else has recorded the location `t`. */
  ghost predicate Unclaimed(w: World, key: Key, t: Loc) {
    forall k :: k in w.clusters && k != key && w.clusters[k].status.Some? && w.clusters[k].profile in w.sites ==>
      RecordedLoc(w.sites[w.clusters[k].profile], w.clusters[k].status.value) != t
  }

  /** A creating pass is harmless if it does not record a name that is already taken, does not take a
      name somebody else has recorded, and does not create a Shoot while losing the status write that
      would replace another recorded name. */
  ghost predicate Benign(w: World, key: Key, f: Faults) {
    Creates(w, key, f) ==>
      var c := w.clusters[key];
      var site := w.sites[c.profile];
      var t := Target(site, key, c);
      if t in w.shoots then f.statusLost
      else f.written ==>
        && Unclaimed(w, key, t)
        && (f.statusLost ==> c.status.None? || RecordedLoc(site, c.status.value) == t)
  }

  /** In a safe world a lookup answers `Absent` exactly when no Shoot is labelled for the Cluster, and
      otherwise finds that Shoot. */
  lemma LookupIsExact(w: World, key: Key, f: Faults)
    requires Safe(w) && key in w.clusters && w.clusters[key].profile in w.sites
    ensures var found := Outlook(w, key, f);
            && (found.Absent? ==> Labelled(w.shoots, key) == {})
            && (found.At? ==> found.loc in w.shoots && w.shoots[found.loc].owner == Some(key))
  {
    var c := w.clusters[key];
    var site := w.sites[c.profile];
    var found := Outlook(w, key, f);
    forall l | l in Labelled(w.shoots, key) ensures Reachable(c, site, l) {}
    if found.Absent? && c.status.None? {
      assert Labelled(w.shoots, key) == LabelledAt(w.shoots, site, key);
    }
    if found.At? && c.status.None? {
      assert found.loc in LabelledAt(w.shoots, site, key);
    }
  }

  /** All that a writing pass may change: the entry of its own Cluster, which holds the finalizer and
      records either what it recorded before or the Shoot the pass works on, and that Shoot. */
  ghost predicate WriteEffect(w: World, w': World, key: Key, site: Site, loc: Loc) {
    && key in w.clusters && key in w'.clusters
    && var c, c' := w.clusters[key], w'.clusters[key];
    && w'.sites == w.sites && w'.clusters == w.clusters[key := c']
    && c'.profile == c.profile && c.profile in w.sites && w.sites[c.profile] == site
    && ClusterFinalizer in c'.finalizers && !c.deleting && !c'.deleting
    && loc.landscape == site.landscape
    && (c'.status == c.status || c'.status == Some(ShootRef(loc.ns, loc.name)))
    && (w'.shoots == w.shoots || exists s :: w'.shoots == w.shoots[loc := s] && s.owner == Some(key) && !s.deleting)
  }

  lemma WriteHasEffect(w: World, key: Key, f: Faults, after: Store)
    requires Safe(w) && Writes(w, key, f)
    ensures WriteEffect(w, ClusterPass(w, key, f, after), key, w.sites[w.clusters[key].profile], WorksOn(w, key, f))
  {
    LookupIsExact(w, key, f);
    var w' := ClusterPass(w, key, f, after);
    var loc := WorksOn(w, key, f);
    if w'.shoots != w.shoots {
      assert w'.shoots == w.shoots[loc := w'.shoots[loc]];
      assert loc in w.shoots ==> w.shoots[loc].owner == Some(key);
    }
  }

  lemma EffectKeepsOwned(w: World, w': World, key: Key, site: Site, loc: Loc)
    requires WriteEffect(w, w', key, site, loc) && Owned(w) && Gated(w)
    ensures Owned(w') && Gated(w')
  {}

  /** What is labelled for the Cluster afterwards is the Shoot worked on, or was labelled before. */
  lemma EffectKeepsTracked(w: World, w': World, key: Key, site: Site, loc: Loc)
    requires WriteEffect(w, w', key, site, loc) && Unique(w) && Tracked(w)
    requires Labelled(w.shoots, key) <= {loc}
    requires w'.clusters[key].status == w.clusters[key].status ==>
               loc in w'.shoots && w'.shoots[loc].owner == Some(key) ==> Reachable(w.clusters[key], site, loc)
    ensures Unique(w') && Tracked(w')
  {
    forall l | l in w'.shoots && w'.shoots[l].owner == Some(key) ensures l == loc {
      assert l == loc || l in Labelled(w.shoots, key);
    }
  }

  lemma EffectKeepsFaithful(w: World, w': World, key: Key, site: Site, loc: Loc)
    requires WriteEffect(w, w', key, site, loc) && Faithful(w)
    requires w'.shoots != w.shoots ==> Unclaimed(w, key, loc)
    requires w'.clusters[key].status != w.clusters[key].status ==> loc in w'.shoots ==>
               w'.shoots[loc].owner == Some(key)
    ensures Faithful(w')
  {
    forall k | k in w'.clusters && w'.clusters[k].status.Some? && w'.clusters[k].profile in w'.sites
      ensures var l := RecordedLoc(w'.sites[w'.clusters[k].profile], w'.clusters[k].status.value);
              l in w'.shoots ==> w'.shoots[l].owner == Some(k)
    {
      if k != key {
        assert k in w.clusters && w.clusters[k] == w'.clusters[k];
      }
    }
  }

  /** A benign write keeps the world safe. */
  lemma WriteKeepsSafe(w: World, key: Key, f: Faults, after: Store)
    requires Safe(w) && Writes(w, key, f) && Benign(w, key, f)
    ensures Safe(ClusterPass(w, key, f, after))
  {
    LookupIsExact(w, key, f);
    WriteHasEffect(w, key, f, after);
    var w' := ClusterPass(w, key, f, after);
    var loc := WorksOn(w, key, f);
    var site := w.sites[w.clusters[key].profile];
    EffectKeepsOwned(w, w', key, site, loc);
    EffectKeepsTracked(w, w', key, site, loc) by {
      forall l | l in Labelled(w.shoots, key) ensures l == loc {
        assert Outlook(w, key, f).At? ==> w.shoots[loc].owner == Some(key);
      }
    }
    EffectKeepsFaithful(w, w', key, site, loc) by {
      if w'.shoots != w.shoots {
        ClaimIsMine(w, key, f);
      }
    }
  }

  lemma ClaimIsMine(w: World, key: Key, f: Faults)
    requires Safe(w) && Writes(w, key, f) && Benign(w, key, f)
    requires Outlook(w, key, f).Absent? ==> f.written && WorksOn(w, key, f) !in w.shoots
    ensures Unclaimed(w, key, WorksOn(w, key, f))
  {
    LookupIsExact(w, key, f);
  }

  /** A pass that neither writes nor deletes changes, of all that matters here, at most the finalizers
      of its own Cluster, and only to add the provider's. */
  lemma QuietPassKeepsSafe(w: World, key: Key, f: Faults, after: Store)
    requires Safe(w) && !Writes(w, key, f)
    requires key in w.clusters ==> !w.clusters[key].deleting
    ensures Safe(ClusterPass(w, key, f, after))
  {
    var w' := ClusterPass(w, key, f, after);
    if w' != w {
      assert w'.clusters == w.clusters[key := w'.clusters[key]];
      EditKeepsSafe(w, w', key);
    }
  }

  /** Replacing the entry of one Cluster is harmless as long as finalizer, status and site stay and no
      deletion is undone. */
  ghost predicate EntryEffect(w: World, w': World, key: Key) {
    && key in w.clusters && key in w'.clusters
    && var c, c' := w.clusters[key], w'.clusters[key];
    && w'.sites == w.sites && w'.clusters == w.clusters[key := c'] && w'.shoots == w.shoots
    && c'.status == c.status
    && (ClusterFinalizer in c.finalizers ==> ClusterFinalizer in c'.finalizers)
    && (c.deleting ==> c'.deleting && (Foreign(c.finalizers) == [] ==> Foreign(c'.finalizers) == []))
    && SameHome(w, key, c, c')
  }

  /** Same site, or nothing at the old site that could be lost. */
  ghost predicate SameHome(w: World, key: Key, c: Cluster, c': Cluster) {
    || c'.profile == c.profile
    || (c.profile in w.sites && c'.profile in w.sites && w.sites[c.profile] == w.sites[c'.profile])
    || (c.status.None? && Labelled(w.shoots, key) == {})
  }

  lemma EditKeepsSafe(w: World, w': World, key: Key)
    requires Safe(w) && EntryEffect(w, w', key)
    ensures Safe(w')
  {
    var c := w.clusters[key];
    forall l | l in w'.shoots && w'.shoots[l].owner == Some(key)
      ensures w'.clusters[key].profile in w.sites && w.sites[w'.clusters[key].profile] == w.sites[c.profile]
    {
      assert l in Labelled(w.shoots, key);
    }
    assert Owned(w') && Unique(w') && Gated(w');
    assert Tracked(w');
    assert Faithful(w') by {
      forall k | k in w'.clusters && w'.clusters[k].status.Some? && w'.clusters[k].profile in w'.sites
        ensures var l := RecordedLoc(w'.sites[w'.clusters[k].profile], w'.clusters[k].status.value);
                l in w'.shoots ==> w'.shoots[l].owner == Some(k)
      {
        if k != key {
          assert k in w.clusters && w.clusters[k] == w'.clusters[k];
        }
      }
    }
  }

  /** A Cluster no Shoot is labelled for can go. */
  lemma RemovalKeepsSafe(w: World, w': World, key: Key)
    requires Safe(w) && Labelled(w.shoots, key) == {}
    requires w'.sites == w.sites && w'.shoots == w.shoots && w'.clusters == w.clusters - {key}
    ensures Safe(w')
  {
    forall l | l in w.shoots && w.shoots[l].owner.Some? ensures w.shoots[l].owner.value != key {
      assert l !in Labelled(w.shoots, key);
    }
    forall k | k in w'.clusters ensures k in w.clusters && w.clusters[k] == w'.clusters[k] {}
  }

  /** Confirming a Shoot, and perhaps putting it under deletion, for a Cluster that is ready for it. */
  lemma ConfirmingKeepsSafe(w: World, w': World, key: Key, loc: Loc, deleting: bool)
    requires Safe(w) && key in w.clusters && w.clusters[key].deleting && Foreign(w.clusters[key].finalizers) == []
    requires loc in w.shoots && w.shoots[loc].owner == Some(key)
    requires w'.sites == w.sites && w'.clusters == w.clusters
    requires w'.shoots == w.shoots[loc := w.shoots[loc].(confirmed := true, deleting := deleting)]
    ensures Safe(w')
  {
    assert Owned(w') && Unique(w') && Tracked(w') && Faithful(w') && Gated(w');
  }

  lemma DeletePassKeepsSafe(w: World, key: Key, f: Faults, after: Store)
    requires Safe(w) && key in w.clusters && w.clusters[key].deleting
    ensures Safe(ClusterPass(w, key, f, after))
  {
    var found := Outlook(w, key, f);
    if Arrives(w, key, f, found) {
      LookupIsExact(w, key, f);
      if found.At? {
        DeleteOfFoundKeepsSafe(w, key, f, after, found);
      } else {
        ReleaseKeepsSafe(w, key, f, after);
      }
    }
  }

  lemma DeleteOfFoundKeepsSafe(w: World, key: Key, f: Faults, after: Store, found: Found)
    requires Safe(w) && key in w.clusters && w.clusters[key].deleting
    requires found.At? && found.loc in w.shoots && w.shoots[found.loc].owner == Some(key)
    ensures Safe(Delete(w, key, f, after, found))
  {
    var w' := Delete(w, key, f, after, found);
    if w' != w { ConfirmingKeepsSafe(w, w', key, found.loc, f.deleted); }
  }

  lemma ReleaseKeepsSafe(w: World, key: Key, f: Faults, after: Store)
    requires Safe(w) && key in w.clusters && w.clusters[key].deleting && Labelled(w.shoots, key) == {}
    ensures Safe(Delete(w, key, f, after, Absent))
  {
    var w' := Delete(w, key, f, after, Absent);
    if w'.clusters != w.clusters {
      RemovalKeepsSafe(w, w', key);
    } else {
      assert w'.shoots == w.shoots && w'.sites == w.sites;
    }
  }

  // ---------------------------------------------------------------------------------------------
  // Exactness

  /** A pass that is not benign destroys the invariant: the conditions on creating passes cannot be
      weakened. */
  lemma HarmfulPassBreaksSafe(w: World, key: Key, f: Faults, after: Store)
    requires Safe(w) && !Benign(w, key, f)
    ensures !Safe(ClusterPass(w, key, f, after))
  {
    LookupIsExact(w, key, f);
    var w' := ClusterPass(w, key, f, after);
    var c := w.clusters[key];
    var site := w.sites[c.profile];
    var t := Target(site, key, c);
    assert RecordedLoc(site, ShootRef(t.ns, t.name)) == t;
    if t in w.shoots {
      assert t !in Labelled(w.shoots, key);
      assert w'.clusters[key].status == Some(ShootRef(t.ns, t.name)) && w'.shoots == w.shoots;
      assert !Faithful(w');
    } else if !Unclaimed(w, key, t) {
      var k :| k in w.clusters && k != key && w.clusters[k].status.Some? && w.clusters[k].profile in w.sites
               && RecordedLoc(w.sites[w.clusters[k].profile], w.clusters[k].status.value) == t;
      assert w'.clusters[k] == w.clusters[k] && w'.shoots[t].owner == Some(key);
      assert !Faithful(w');
    } else {
      assert w'.shoots[t].owner == Some(key) && w'.clusters[key].status == c.status;
      assert !Reachable(w'.clusters[key], site, t);
      assert !Tracked(w');
    }
  }

  /** A pass, with whatever API calls fail in it, keeps the world safe if and only if it is benign. */
  lemma {:induction false} PassKeepsSafeIff(w: World, key: Key, f: Faults, after: Store)
    requires Safe(w)
    ensures Safe(ClusterPass(w, key, f, after)) <==> Benign(w, key, f)
  {
    if !Benign(w, key, f) {
      HarmfulPassBreaksSafe(w, key, f, after);
    } else if Writes(w, key, f) {
      WriteKeepsSafe(w, key, f, after);
    } else if key in w.clusters && w.clusters[key].deleting {
      DeletePassKeepsSafe(w, key, f, after);
    } else {
      QuietPassKeepsSafe(w, key, f, after);
    }
  }
}
