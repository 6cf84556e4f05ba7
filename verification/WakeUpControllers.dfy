/** The Landscape and ProviderConfig controllers as they work on the shared registry and queues, tied to
    the pass definitions of WakeUp. */
module WakeUpControllers {
  import opened Common
  import opened Registry
  import opened WakeUp

  /** The objects on the platform cluster and the queues of reconcile requests. */
  class Platform {
    var landscapes: map<string, LsObject>
    var pcs: map<string, PcObject>
    var clusters: map<Key, string>
    var reconcileCluster: set<Key>
    var reconcileProviderConfig: set<string>
  }

  /** The phase of a Landscape after a pass: ready only without error and without a false condition. */
  datatype Phase = Terminating | Progressing | ReadyPhase

  method LandscapePhaseUpdate(deleting: bool, failed: bool, conditions: seq<bool>) returns (phase: Phase)
    ensures phase == Terminating <==> deleting
    ensures phase == ReadyPhase <==> !deleting && !failed && forall i :: 0 <= i < |conditions| ==> conditions[i]
  {
    if deleting { return Terminating; }
    if failed { return Progressing; }
    var trueCount, falseCount := 0, 0;
    for i := 0 to |conditions|
      invariant trueCount >= 0 && falseCount >= 0
      invariant falseCount == 0 <==> forall j :: 0 <= j < i ==> conditions[j]
    {
      if conditions[i] { trueCount := trueCount + 1; } else { falseCount := falseCount + 1; }
    }
    if trueCount > 0 && falseCount == 0 { return ReadyPhase; }
    else if trueCount > 0 && falseCount > 0 { return Progressing; }
    else if trueCount == 0 && falseCount > 0 { return Progressing; }
    return ReadyPhase;
  }

  class Reconcilers {
    const rc: RuntimeConfiguration
    const platform: Platform

    constructor (rc: RuntimeConfiguration, platform: Platform)
      ensures this.rc == rc && this.platform == platform
    {
      this.rc, this.platform := rc, platform;
    }

    /** The state of both objects, with `seen` beside it. */
    ghost function View(seen: Seen): World
      reads rc, platform
    {
      World(rc.prefix,
            Api(platform.landscapes, platform.pcs, platform.clusters),
            Reg(rc.providerConfigurations, rc.landscapes, rc.profiles),
            Mail(platform.reconcileCluster, platform.reconcileProviderConfig),
            seen)
    }

    /** Sends a request for every Cluster that uses the profile. */
    method NotifyClustersAboutProfileUpdate(name: string, listFails: bool) returns (ok: bool)
      modifies platform`reconcileCluster
      ensures ok == !listFails
      ensures platform.reconcileCluster == old(platform.reconcileCluster)
                + if listFails then {} else ProfileUsers(platform.clusters, ProfileK8sName(rc.prefix, name))
    {
      if listFails { return false; }
      var items := ProfileUsers(platform.clusters, ProfileK8sName(rc.prefix, name));
      var todo := items;
      while todo != {}
        invariant todo <= items
        invariant platform.reconcileCluster == old(platform.reconcileCluster) + (items - todo)
        decreases todo
      {
        var k :| k in todo;
        platform.reconcileCluster := platform.reconcileCluster + {k};
        todo := todo - {k};
      }
      return true;
    }

    /** The create or update branch for a ProviderConfig, up to its profile. */
    method BuildProfile(pc: PcObject, f: PcFaults) returns (res: PcResult)
      ensures res == if pc.spec.landscape !in rc.landscapes then Missing
                     else if pc.spec.project !in rc.landscapes[pc.spec.landscape].projects || !f.cloudProfileNamed
                       then Rejected
                     else if rc.landscapes[pc.spec.landscape].handle.None? then NotKnown
                     else if !f.cloudProfileFound then Rejected
                     else if f.clusterProfileFails then NotKnown
                     else Ready(Profile(pc.spec, rc.landscapes[pc.spec.landscape].projects[pc.spec.project],
                       f.versions))
    {
      if pc.spec.landscape !in rc.landscapes { return Missing; }
      var l := rc.landscapes[pc.spec.landscape];
      if pc.spec.project !in l.projects { return Rejected; }
      if !f.cloudProfileNamed { return Rejected; }
      if l.handle.None? { return NotKnown; }
      if !f.cloudProfileFound { return Rejected; }
      if f.clusterProfileFails { return NotKnown; }
      return Ready(Profile(pc.spec, l.projects[pc.spec.project], f.versions));
    }

    /** Finds out what there is to register, and takes or gives the finalizer. */
    method ReconcileConfigObject(name: string, f: PcFaults, ghost seen: Seen) returns (res: PcResult)
      modifies platform`pcs
      ensures res == ConfigResult(old(View(seen)), name, f)
      ensures platform.pcs == ConfigObjects(old(View(seen)), name, f)
    {
      if f.getFails { return NotKnown; }
      if name !in platform.pcs { return Absent; }
      var pc := platform.pcs[name];
      if !pc.mine || pc.ignored { return Absent; }
      if f.annotationFails { return NotKnown; }
      if pc.deleting {
        if f.profileDeleteFails || (pc.finalizer && f.finalizerFails) { return NotKnown; }
        platform.pcs := platform.pcs - {name};
        return Absent;
      }
      if !pc.finalizer && f.finalizerFails { return NotKnown; }
      res := BuildProfile(pc, f);
      if !pc.finalizer {
        platform.pcs := platform.pcs[name := pc.(finalizer := true)];
      } else {
        assert platform.pcs[name := pc.(finalizer := true)] == platform.pcs;
      }
    }

    /** Renews the registry with the outcome of a pass, and notifies Clusters of a new or changed
        profile. The profile is stored before anybody is notified. */
    method RegisterOutcome(name: string, spec: PcSpec, res: PcResult, f: PcFaults)
      modifies rc`providerConfigurations, rc`profiles, platform`reconcileCluster
      ensures rc.providerConfigurations ==
                match res
                case NotKnown => old(rc.providerConfigurations)
                case Absent => old(rc.providerConfigurations) - {name}
                case Ready(p) => old(rc.providerConfigurations)[name := p.spec]
                case _ => old(rc.providerConfigurations)[name := spec]
      ensures rc.profiles ==
                match res
                case Absent => old(rc.profiles) - {ProfileK8sName(rc.prefix, name)}
                case Ready(p) => old(rc.profiles)[ProfileK8sName(rc.prefix, name) := p]
                case _ => old(rc.profiles)
      ensures platform.reconcileCluster == old(platform.reconcileCluster)
                + if res.Ready? && NotifiesClusters(old(rc.profiles), ProfileK8sName(rc.prefix, name), res.profile)
                  && !f.clusterListFails
                  then ProfileUsers(platform.clusters, ProfileK8sName(rc.prefix, name)) else {}
    {
      match res
      case NotKnown =>
      case Absent =>
        rc.UnsetProviderConfiguration(name);
        rc.SetProfileForProviderConfiguration(name, None);
      case Ready(p) =>
        rc.SetProviderConfiguration(name, p.spec);
        var oldProfile := rc.GetProfileForProviderConfiguration(name);
        rc.SetProfileForProviderConfiguration(name, Some(p));
        if oldProfile.None? || IsProfileUpdated(oldProfile.value, p) {
          var _ := NotifyClustersAboutProfileUpdate(name, f.clusterListFails);
        }
      case _ =>
        rc.SetProviderConfiguration(name, spec);
    }

    /** One pass of the ProviderConfig controller. */
    method ReconcileProviderConfig(name: string, f: PcFaults, ghost seen: Seen) returns (res: PcResult)
      modifies rc, platform
      ensures res == ConfigResult(old(View(seen)), name, f)
      ensures platform.pcs == ConfigPass(old(View(seen)), name, f).api.pcs
      ensures rc.providerConfigurations == ConfigPass(old(View(seen)), name, f).reg.configs
      ensures rc.profiles == ConfigPass(old(View(seen)), name, f).reg.profiles
      ensures platform.reconcileCluster == ConfigPass(old(View(seen)), name, f).mail.clusters
      ensures platform.reconcileProviderConfig == ConfigPass(old(View(seen)), name, f).mail.configs
      ensures rc.landscapes == old(rc.landscapes)
      ensures platform.landscapes == old(platform.landscapes) && platform.clusters == old(platform.clusters)
    {
      platform.reconcileProviderConfig := platform.reconcileProviderConfig - {name};
      var spec := if name in platform.pcs then platform.pcs[name].spec else PcSpec("", "", "");
      res := ReconcileConfigObject(name, f, seen);
      RegisterOutcome(name, spec, res, f);
    }

    /** Whether a registered ProviderConfig refers to the Landscape. */
    method IsReferenced(landscape: string) returns (found: bool)
      ensures found == Referenced(rc.providerConfigurations, landscape)
    {
      var todo := rc.providerConfigurations.Keys;
      while todo != {}
        invariant todo <= rc.providerConfigurations.Keys
        invariant forall n :: n in rc.providerConfigurations && n !in todo ==>
          rc.providerConfigurations[n].landscape != landscape
        decreases todo
      {
        var n :| n in todo;
        if rc.providerConfigurations[n].landscape == landscape { return true; }
        todo := todo - {n};
      }
      return false;
    }

    /** Finds out what entry a Landscape is to have, and takes or gives its finalizer. */
    method ReconcileLandscapeObject(name: string, f: LsFaults, ghost seen: Seen) returns (res: LsResult)
      modifies platform`landscapes
      ensures res == LandscapeResult(old(View(seen)), name, f)
      ensures platform.landscapes == LandscapeObjects(old(View(seen)), name, f)
    {
      if f.getFails { return Unknown; }
      if name !in platform.landscapes { return Gone; }
      var ls := platform.landscapes[name];
      if ls.ignored { return Gone; }
      if f.annotationFails { return Unknown; }
      if !ls.deleting {
        if !ls.finalizer && f.finalizerFails { return Unknown; }
        platform.landscapes := platform.landscapes[name := ls.(finalizer := true)];
        return Have(f.built);
      }
      var used := IsReferenced(name);
      if used { return Have(f.built.(handle := None)); }
      if ls.finalizer && f.finalizerFails { return Unknown; }
      platform.landscapes := platform.landscapes - {name};
      return Gone;
    }

    /** Sends a request for every registered ProviderConfig that refers to the Landscape. */
    method NotifyConfigs(landscape: string)
      modifies platform`reconcileProviderConfig
      ensures platform.reconcileProviderConfig == old(platform.reconcileProviderConfig)
              + Users(rc.providerConfigurations, landscape)
    {
      var todo := rc.providerConfigurations.Keys;
      while todo != {}
        invariant todo <= rc.providerConfigurations.Keys
        invariant platform.reconcileProviderConfig == old(platform.reconcileProviderConfig)
          + (Users(rc.providerConfigurations, landscape) - todo)
        decreases todo
      {
        var n :| n in todo;
        if rc.providerConfigurations[n].landscape == landscape {
          platform.reconcileProviderConfig := platform.reconcileProviderConfig + {n};
        }
        todo := todo - {n};
      }
    }

    /** Puts the outcome into the registry. */
    method RegisterLandscape(name: string, res: LsResult, f: InformerFaults)
      modifies rc`landscapes, rc`running, rc`next
      requires res.Have? ==> res.l.token == rc.next
      ensures rc.landscapes == RegisteredLandscapes(old(rc.landscapes), name, res, f)
      ensures Matches(old(rc.WatchView())) ==> Matches(rc.WatchView())
    {
      match res
      case Unknown =>
      case Gone =>
        OperateKeepsMatchIfAny(rc.WatchView(), Unset(name, f));
        var _ := rc.UnsetLandscape(name, f);
      case Have(l) =>
        OperateKeepsMatchIfAny(rc.WatchView(), Set(name, l.handle, l.available, l.projects, f));
        var _ := rc.SetLandscape(name, l.handle, l.available, l.projects, f);
        RefreshKeepsMatch(rc.WatchView(), name, l);
        rc.UpdateLandscapeResource(name, l.available, l.projects);
    }

    /** One pass of the Landscape controller. */
    method ReconcileLandscape(name: string, f: LsFaults, ghost seen: Seen)
      requires f.built.token == rc.next
      modifies rc, platform
      ensures platform.landscapes == LandscapePass(old(View(seen)), name, f).api.landscapes
      ensures rc.landscapes == LandscapePass(old(View(seen)), name, f).reg.landscapes
      ensures platform.reconcileProviderConfig == LandscapePass(old(View(seen)), name, f).mail.configs
      ensures rc.providerConfigurations == old(rc.providerConfigurations) && rc.profiles == old(rc.profiles)
      ensures platform.pcs == old(platform.pcs) && platform.clusters == old(platform.clusters)
      ensures platform.reconcileCluster == old(platform.reconcileCluster)
      ensures Matches(old(rc.WatchView())) ==> Matches(rc.WatchView())
    {
      var res := ReconcileLandscapeObject(name, f, seen);
      var before := rc.landscapes;
      RegisterLandscape(name, res, f.informer);
      if NotifiesConfigs(before, name, res) {
        NotifyConfigs(name);
      }
    }
  }

  lemma OperateKeepsMatchIfAny(s: WatchState, op: Op)
    ensures Matches(s) ==> Matches(Operate(s, op))
  {
    if Matches(s) { OperateKeepsMatch(s, op); }
  }

  lemma RefreshKeepsMatch(s: WatchState, name: string, l: Landscape)
    ensures Matches(s) ==> Matches(s.(landscapes := Refresh(s.landscapes, name, l)))
  {}
}
