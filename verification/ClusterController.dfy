/** The Cluster controller as it works on the API objects step by step. Every method is tied to the
    protocol definitions of ClusterLifecycle. */
module ClusterController {
  import opened Common
  import opened ClusterConfigs
  import opened ClusterLifecycle

  /** Outcomes of the API calls on ClusterConfigs, by object, and of the annotation update. */
  datatype ConfigFaults = ConfigFaults(listFails: bool, getFails: set<Key>, patchFails: set<Key>, annotateFails: bool)

  // ---------------------------------------------------------------------------------------------
  // ClusterConfigs

  /** Whether a name is among the references. */
  method IsReferenced(refs: seq<string>, name: string) returns (found: bool)
    ensures found <==> name in refs
  {
    found := false;
    for i := 0 to |refs|
      invariant name !in refs[..i]
    {
      if refs[i] == name { return true; }
    }
  }

  /** The reference `o` is cut out of the ClusterConfigs in `done`; the others are as they were. */
  ghost predicate PartlyCut(before: Store, now: Store, done: set<Key>, o: OwnerRef) {
    && now.Keys == before.Keys
    && forall k :: k in before ==> now[k] == if k in done then CutFirst(before[k], o) else before[k]
  }

  /** The ClusterConfigs among `items` that the Cluster does not reference. */
  ghost function Unreferenced(items: set<Key>, refs: seq<string>): set<Key> {
    set k | k in items && k.name !in refs
  }

  lemma UnreferencedGrows(items: set<Key>, k: Key, refs: seq<string>)
    ensures Unreferenced(items + {k}, refs) == Unreferenced(items, refs) + (if k.name in refs then {} else {k})
  {}

  function InNamespace(configs: Store, key: Key): set<Key> {
    set k | k in configs && k.ns == key.ns
  }

  /** Cuts an owner reference out of one ClusterConfig, if it is there. */
  method CutOwner(configs: Store, k: Key, o: OwnerRef, cf: ConfigFaults) returns (after: Store, ok: bool)
    requires k in configs
    ensures after == if ok then configs[k := CutFirst(configs[k], o)] else configs
  {
    var orIdx := IndexOf(configs[k], o);
    if orIdx >= 0 {
      if k in cf.patchFails { return configs, false; }
      return configs[k := configs[k][..orIdx] + configs[k][orIdx + 1..]], true;
    }
    return configs, true;
  }

  /** Takes the Cluster's owner reference off every ClusterConfig of its namespace that it does not
      reference, in whatever order the list call returns them. */
  method CutStaleOwners(configs: Store, key: Key, refs: seq<string>, cf: ConfigFaults)
    returns (after: Store, ok: bool, ghost handled: set<Key>)
    ensures handled <= InNamespace(configs, key)
    ensures PartlyCut(configs, after, Unreferenced(handled, refs), ClusterOwner(key.name))
    ensures ok ==> handled == InNamespace(configs, key)
    ensures ok ==> PartlyCut(configs, after, Unreferenced(InNamespace(configs, key), refs), ClusterOwner(key.name))
  {
    after, ok, handled := configs, true, {};
    if cf.listFails { return after, false, handled; }
    var o := ClusterOwner(key.name);
    var items := InNamespace(configs, key);
    var done: set<Key> := {};
    while items - done != {}
      invariant handled == done <= items && ok
      invariant PartlyCut(configs, after, Unreferenced(done, refs), o)
      decreases items - done
    {
      var k :| k in items - done;
      var found := IsReferenced(refs, k.name);
      UnreferencedGrows(done, k, refs);
      if !found {
        after, ok := CutOwner(after, k, o, cf);
        if !ok { return; }
      }
      done := done + {k};
      handled := done;
    }
  }

  /** Adds the Cluster's owner reference to one ClusterConfig, if it is not there. */
  method AddOwner(ghost before: Store, now: Store, key: Key, ref: string, cf: ConfigFaults, ghost done: set<string>)
    returns (after: Store, ok: bool)
    requires PartlyAdded(before, now, key, done)
    ensures PartlyAdded(before, after, key, if ok then done + {ref} else done)
    ensures ok ==> Key(key.ns, ref) in before
  {
    var k, o := Key(key.ns, ref), ClusterOwner(key.name);
    if k in cf.getFails || k !in now { return now, false; }
    after, ok := now, true;
    if IndexOf(now[k], o) < 0 {
      if k in cf.patchFails { return now, false; }
      after := now[k := now[k] + [o]];
    }
    forall k' ensures AddedAt(before, after, key, done + {ref}, k') {
      assert AddedAt(before, now, key, done, k');
    }
  }

  /** Adds the Cluster's owner reference to the referenced ClusterConfigs, in order. */
  method AddOwners(configs: Store, key: Key, refs: seq<string>, cf: ConfigFaults)
    returns (after: Store, ok: bool, ghost done: set<string>)
    ensures PartlyAdded(configs, after, key, done)
    ensures done <= set r | r in refs
    ensures ok ==> (done == set r | r in refs) && forall r :: r in refs ==> Key(key.ns, r) in configs
    ensures ok ==> PartlyAdded(configs, after, key, set r | r in refs)
  {
    after, done := configs, {};
    for i := 0 to |refs|
      invariant AddedUpTo(configs, after, key, refs, i, done)
    {
      after, ok := AddOwner(configs, after, key, refs[i], cf, done);
      if !ok { return; }
      done := done + {refs[i]};
    }
    ok := true;
  }

  /** The first `i` references exist and have been dealt with. */
  ghost predicate AddedUpTo(before: Store, now: Store, key: Key, refs: seq<string>, i: nat, done: set<string>) {
    && i <= |refs| && PartlyAdded(before, now, key, done)
    && (forall r :: r in done ==> r in refs)
    && (forall j :: 0 <= j < i ==> refs[j] in done && Key(key.ns, refs[j]) in before)
  }

  ghost predicate AddedAt(before: Store, now: Store, key: Key, done: set<string>, k: Key) {
    k in before && k in now ==>
      now[k] == if k.ns == key.ns && k.name in done && ClusterOwner(key.name) !in before[k]
                then before[k] + [ClusterOwner(key.name)] else before[k]
  }

  ghost predicate PartlyAdded(before: Store, now: Store, key: Key, done: set<string>) {
    && now.Keys == before.Keys
    && forall k {:trigger AddedAt(before, now, key, done, k)} :: AddedAt(before, now, key, done, k)
  }

  /** Settles the owner references of a Cluster and renews the digest of its reference list. */
  method GetClusterConfigs(configs: Store, key: Key, refs: seq<string>, recorded: Digest, cf: ConfigFaults)
    returns (after: Store, recorded': Digest, ok: bool)
    ensures SettleOutcome(configs, after, key, refs, recorded, ok)
    ensures recorded' == if ok then DigestOf(refs) else recorded
  {
    var changed := DigestOf(refs) != recorded;
    after, recorded', ok := configs, recorded, true;
    ghost var handled: set<Key> := {};
    ghost var added: set<string> := {};
    if changed {
      after, ok, handled := CutStaleOwners(configs, key, refs, cf);
    }
    ghost var middle := after;
    if ok {
      after, ok, added := AddOwners(after, key, refs, cf);
    }
    StagesCompose(configs, middle, after, key, refs, recorded, Unreferenced(handled, refs), added, ok);
    if ok && changed {
      if cf.annotateFails { ok := false; } else { recorded' := DigestOf(refs); }
    }
  }

  lemma StagesCompose(before: Store, middle: Store, after: Store, key: Key, refs: seq<string>, recorded: Digest,
                      cut: set<Key>, added: set<string>, ok: bool)
    requires PartlyCut(before, middle, cut, ClusterOwner(key.name))
    requires cut <= Unreferenced(InNamespace(before, key), refs)
    requires PartlyAdded(middle, after, key, added) && added <= set r | r in refs
    requires DigestOf(refs) == recorded ==> cut == {}
    requires ok ==> added == (set r | r in refs) && (forall r :: r in refs ==> Key(key.ns, r) in before)
    requires ok && DigestOf(refs) != recorded ==> cut == Unreferenced(InNamespace(before, key), refs)
    ensures SettleOutcome(before, after, key, refs, recorded, ok)
    ensures SettleOutcome(before, after, key, refs, recorded, false)
  {
    forall k
      ensures SettledAt(before, after, key, refs, recorded, ok, k)
      ensures SettledAt(before, after, key, refs, recorded, false, k)
    {
      assert AddedAt(middle, after, key, added, k);
    }
  }

  lemma CutIsRelease(before: Store, after: Store, done: set<Key>, key: Key, ok: bool)
    requires done <= InNamespace(before, key) && PartlyCut(before, after, done, ClusterOwner(key.name))
    requires ok ==> done == InNamespace(before, key)
    ensures ReleaseOutcome(before, after, key, ok)
  {
    forall k ensures ReleasedAt(before, after, key, ok, k) {}
  }

  /** Takes the Cluster's owner reference off every ClusterConfig of its namespace. */
  method ReleaseConfigs(configs: Store, key: Key, cf: ConfigFaults) returns (after: Store, ok: bool)
    ensures ReleaseOutcome(configs, after, key, ok)
  {
    after, ok := configs, true;
    CutIsRelease(configs, configs, {}, key, false);
    if cf.listFails { return after, false; }
    var o := ClusterOwner(key.name);
    var items := InNamespace(configs, key);
    var done: set<Key> := {};
    while items - done != {}
      invariant done <= items && ok
      invariant PartlyCut(configs, after, done, o)
      decreases items - done
    {
      var k :| k in items - done;
      after, ok := CutOwner(after, k, o, cf);
      if !ok {
        CutIsRelease(configs, after, done, key, false);
        return;
      }
      done := done + {k};
    }
    CutIsRelease(configs, after, done, key, true);
  }

  // ---------------------------------------------------------------------------------------------
  // Finalizers and Shoots

  /** The finalizers that are not the provider's, in order. */
  method ForeignFinalizers(finalizers: seq<Finalizer>) returns (foreign: seq<Finalizer>)
    ensures foreign == Foreign(finalizers)
  {
    foreign := [];
    for i := 0 to |finalizers|
      invariant foreign == Foreign(finalizers[..i])
    {
      assert finalizers[..i + 1] == finalizers[..i] + [finalizers[i]];
      WithoutConcat(finalizers[..i], [finalizers[i]], ClusterFinalizer);
      if finalizers[i] != ClusterFinalizer {
        foreign := foreign + [finalizers[i]];
      }
    }
    assert finalizers[..|finalizers|] == finalizers;
  }

  /** The create call, or the update call, which is skipped when it would change nothing. */
  method CallGarden(shoots: map<Loc, Shoot>, loc: Loc, key: Key, spec: string, present: bool, written: bool)
    returns (after: map<Loc, Shoot>)
    requires present ==> loc in shoots
    ensures after == WriteShoot(shoots, loc, key, spec, present, written)
  {
    after := shoots;
    if present {
      var s := shoots[loc].(owner := Some(key), spec := spec);
      if s == shoots[loc] {
        assert shoots[loc := s] == shoots;
      } else if written {
        after := shoots[loc := s];
      }
    } else if written && loc !in shoots {
      after := shoots[loc := Shoot(Some(key), spec, false, false)];
    }
  }

  /** Confirms and requests the deletion of a Shoot, unless it is under deletion already. */
  method RequestDeletion(shoots: map<Loc, Shoot>, loc: Loc, f: Faults) returns (after: map<Loc, Shoot>)
    requires loc in shoots
    ensures var s := shoots[loc];
            after == if s.deleting || f.confirmFails then shoots
                     else shoots[loc := s.(confirmed := true, deleting := f.deleted)]
  {
    after := shoots;
    if !shoots[loc].deleting {
      if f.confirmFails { return; }
      after := after[loc := after[loc].(confirmed := true)];
      if f.deleted {
        after := after[loc := after[loc].(deleting := true)];
      }
      assert after == shoots[loc := shoots[loc].(confirmed := true, deleting := f.deleted)];
    }
  }

  /** The Shoot of a Cluster: the recorded one, or the one found by its labels. */
  method GetShoot(shoots: map<Loc, Shoot>, site: Site, key: Key, status: Option<ShootRef>, f: Faults)
      returns (found: Found)
    ensures found == FindShoot(shoots, site, key, status, f)
  {
    if status.Some? {
      var l := RecordedLoc(site, status.value);
      if f.shootGetFails { return Failed; }
      return if l in shoots then At(l) else Absent;
    }
    if f.shootListFails { return Failed; }
    var hits := set l | l in shoots && l.landscape == site.landscape && l.ns == site.ns && shoots[l].owner == Some(key);
    assert hits == LabelledAt(shoots, site, key);
    if |hits| > 1 { return Failed; }
    if hits == {} { return Absent; }
    var l :| l in hits;
    assert hits == {l} by {
      assert |hits - {l}| == 0;
    }
    return At(l);
  }

  // ---------------------------------------------------------------------------------------------
  // The pass

  ghost predicate SameState(w: World, w': World) {
    && w.sites == w'.sites && w.known == w'.known && w.landscapes == w'.landscapes
    && w.clusters == w'.clusters && w.configs == w'.configs && w.shoots == w'.shoots
  }

  /** The create or update branch, from the finalizer to the status write. */
  method CreateOrUpdateShoot(w: World, key: Key, found: Found, f: Faults, cf: ConfigFaults)
      returns (w': World, configsOk: bool)
    requires key in w.clusters && w.clusters[key].profile in w.sites
    requires found.At? ==> found.loc in w.shoots
    ensures SettleOutcome(w.configs, w'.configs, key, w.clusters[key].refs, w.clusters[key].recorded, configsOk)
    ensures SameState(w', CreateOrUpdate(w, key, f.(configsOk := configsOk), w'.configs, found))
  {
    w', configsOk := w, false;
    var c := w.clusters[key];
    SettlingNothing(w.configs, key, c.refs, c.recorded);
    if ClusterFinalizer !in c.finalizers && f.finalizerFails { return; }
    var after;
    c, after, configsOk := PrepareCluster(w.configs, key, c, f, cf);
    var shoots := w.shoots;
    if configsOk && f.rendered.Some? && !f.labelsFail {
      var loc := Spot(w, key, found);
      shoots := CallGarden(shoots, loc, key, f.rendered.value, found.At?, f.written);
      if !f.statusLost {
        c := c.(status := Some(ShootRef(loc.ns, loc.name)));
      }
    }
    w' := w.(clusters := w.clusters[key := c], configs := after, shoots := shoots);
  }

  /** Adds the finalizer and goes through the ClusterConfig stage. */
  method PrepareCluster(configs: Store, key: Key, c: Cluster, f: Faults, cf: ConfigFaults)
      returns (c': Cluster, after: Store, ok: bool)
    ensures SettleOutcome(configs, after, key, c.refs, c.recorded, ok)
    ensures c' == Prepared(c, f.(configsOk := ok))
  {
    c' := c.(finalizers := AddFinalizer(c.finalizers));
    var recorded;
    after, recorded, ok := GetClusterConfigs(configs, key, c.refs, c.recorded, cf);
    c' := c'.(recorded := recorded);
  }

  lemma SettlingNothing(configs: Store, key: Key, refs: seq<string>, recorded: Digest)
    ensures SettleOutcome(configs, configs, key, refs, recorded, false)
  {
    forall k ensures SettledAt(configs, configs, key, refs, recorded, false, k) {}
  }

  /** The delete branch: wait for foreign finalizers, then delete the Shoot, then let go. */
  method DeleteShoot(w: World, key: Key, found: Found, f: Faults, cf: ConfigFaults) returns (w': World, configsOk: bool)
    requires key in w.clusters
    requires found.At? ==> found.loc in w.shoots
    ensures ReleaseOutcome(w.configs, w'.configs, key, configsOk)
    ensures SameState(w', Delete(w, key, f.(configsOk := configsOk), w'.configs, found))
  {
    w', configsOk := w, false;
    CutIsRelease(w.configs, w.configs, {}, key, false);
    var foreign := ForeignFinalizers(w.clusters[key].finalizers);
    if |foreign| > 0 { return; }
    if found.At? {
      var shoots := RequestDeletion(w.shoots, found.loc, f);
      w' := w.(shoots := shoots);
      return;
    }
    var after, ok := ReleaseConfigs(w.configs, key, cf);
    configsOk := ok;
    w' := w.(configs := after);
    if ok && ClusterFinalizer in w.clusters[key].finalizers && !f.finalizerFails {
      w' := w'.(clusters := Stored(w.clusters, key, w.clusters[key].(finalizers := foreign)));
    }
  }

  /** Everything up to the point where creation, update and deletion part: the Cluster, its profile
      and landscape, its Shoot, and the conflict check on an overridden name. */
  method Locate(w: World, key: Key, f: Faults) returns (found: Found)
    ensures !found.Failed? <==> Arrives(w, key, f, Outlook(w, key, f))
    ensures !found.Failed? ==> found == Outlook(w, key, f)
  {
    if f.clusterGetFails || key !in w.clusters { return Failed; }
    var c := w.clusters[key];
    if c.ignored || f.annotationFails { return Failed; }
    if c.profile !in w.sites || c.profile !in w.known { return Failed; }
    var site := w.sites[c.profile];
    if site.landscape !in w.landscapes || !w.landscapes[site.landscape] { return Failed; }
    found := GetShoot(w.shoots, site, key, c.status, f);
    if found.Absent? && c.nameLabel.Some? {
      if f.conflictCheckFails || Target(site, key, c) in w.shoots { return Failed; }
    }
  }

  /** A pass on the state as it finds it. */
  method ReconcileCluster(w: World, key: Key, f: Faults, cf: ConfigFaults) returns (after: World, configsOk: bool)
    ensures IsPass(w, key, f.(configsOk := configsOk), after)
  {
    after, configsOk := w, false;
    var found := Locate(w, key, f);
    if found.Failed? {
      IdlePass(w, key, f);
      return;
    }
    if w.clusters[key].deleting {
      after, configsOk := DeleteLocated(w, key, found, f, cf);
    } else {
      after, configsOk := UpdateLocated(w, key, found, f, cf);
    }
  }

  /** What the protocol says of a pass. */
  ghost predicate IsPass(w: World, key: Key, f: Faults, after: World) {
    ConfigStage(w, key, f, after.configs) && SameState(after, ClusterPass(w, key, f, after.configs))
  }

  method DeleteLocated(w: World, key: Key, found: Found, f: Faults, cf: ConfigFaults)
      returns (after: World, configsOk: bool)
    requires Arrives(w, key, f, Outlook(w, key, f)) && found == Outlook(w, key, f) && w.clusters[key].deleting
    ensures IsPass(w, key, f.(configsOk := configsOk), after)
  {
    after, configsOk := DeleteShoot(w, key, found, f, cf);
    DeletingPass(w, key, found, f, after, configsOk);
  }

  method UpdateLocated(w: World, key: Key, found: Found, f: Faults, cf: ConfigFaults)
      returns (after: World, configsOk: bool)
    requires Arrives(w, key, f, Outlook(w, key, f)) && found == Outlook(w, key, f) && !w.clusters[key].deleting
    ensures IsPass(w, key, f.(configsOk := configsOk), after)
  {
    after, configsOk := CreateOrUpdateShoot(w, key, found, f, cf);
    UpdatingPass(w, key, found, f, after, configsOk);
  }

  lemma DeletingPass(w: World, key: Key, found: Found, f: Faults, after: World, ok: bool)
    requires Arrives(w, key, f, Outlook(w, key, f)) && found == Outlook(w, key, f) && w.clusters[key].deleting
    requires ReleaseOutcome(w.configs, after.configs, key, ok)
    requires SameState(after, Delete(w, key, f.(configsOk := ok), after.configs, found))
    ensures IsPass(w, key, f.(configsOk := ok), after)
  {
    LateOutcome(w, key, f, ok);
  }

  lemma UpdatingPass(w: World, key: Key, found: Found, f: Faults, after: World, ok: bool)
    requires Arrives(w, key, f, Outlook(w, key, f)) && found == Outlook(w, key, f) && !w.clusters[key].deleting
    requires SettleOutcome(w.configs, after.configs, key, w.clusters[key].refs, w.clusters[key].recorded, ok)
    requires SameState(after, CreateOrUpdate(w, key, f.(configsOk := ok), after.configs, found))
    ensures IsPass(w, key, f.(configsOk := ok), after)
  {
    LateOutcome(w, key, f, ok);
  }

  lemma IdlePass(w: World, key: Key, f: Faults)
    requires !Arrives(w, key, f, Outlook(w, key, f))
    ensures IsPass(w, key, f.(configsOk := false), w)
  {
    LateOutcome(w, key, f, false);
    if key in w.clusters {
      SettlingNothing(w.configs, key, w.clusters[key].refs, w.clusters[key].recorded);
      CutIsRelease(w.configs, w.configs, {}, key, false);
    }
  }

  lemma SameStateIsEqual(w: World, w': World)
    requires SameState(w, w')
    ensures w == w'
  {}

  /** The controller and the API servers it works on. */
  class ClusterReconciler {
    var world: World

    constructor (world: World)
      ensures this.world == world
    {
      this.world := world;
    }

    /** One reconcile pass. Whatever its calls answer, it takes exactly one step of the protocol. */
    method Reconcile(key: Key, f: Faults, cf: ConfigFaults) returns (configsOk: bool)
      modifies this
      ensures var step := Pass(key, f.(configsOk := configsOk), world.configs);
              Enabled(old(world), step) && world == Apply(old(world), step)
    {
      var after;
      after, configsOk := ReconcileCluster(world, key, f, cf);
      SameStateIsEqual(after, ClusterPass(world, key, f.(configsOk := configsOk), after.configs));
      world := after;
    }
  }

  /** Whether the ClusterConfig stage goes through plays no part in how a pass gets there. */
  lemma LateOutcome(w: World, key: Key, f: Faults, ok: bool)
    ensures var f' := f.(configsOk := ok);
            && Outlook(w, key, f') == Outlook(w, key, f)
            && (Arrives(w, key, f', Outlook(w, key, f')) <==> Arrives(w, key, f, Outlook(w, key, f)))
  {}
}
