/** The notifications between the Landscape, ProviderConfig and Cluster controllers. A Cluster whose
    profile is unknown is dropped without a retry, and a ProviderConfig without its Landscape waits to
    be told, so every change of the registry has to reach whoever looked at it before. */
module WakeUp {
  import opened Common
  import opened Registry

  datatype LsObject = LsObject(ignored: bool, deleting: bool, finalizer: bool)

  /** A ProviderConfig object. `mine` says whether its provider reference names this provider. */
  datatype PcObject = PcObject(spec: PcSpec, mine: bool, ignored: bool, deleting: bool, finalizer: bool)

  /** The platform cluster; a Cluster is reduced to the name of its profile. */
  datatype Api = Api(landscapes: map<string, LsObject>, pcs: map<string, PcObject>, clusters: map<Key, string>)

  datatype Reg = Reg(configs: map<string, PcSpec>, landscapes: Landscapes, profiles: map<string, Profile>)

  /** Pending reconcile requests: queued notifications and watch events. */
  datatype Mail = Mail(clusters: set<Key>, configs: set<string>)

  /** What a Cluster pass gets out of a profile: the spec behind it and the namespace of the project. */
  datatype Sight = Sight(spec: PcSpec, ns: string)

  /** What the last pass saw: the profile of a Cluster, if it was registered, and the Landscape a
      ProviderConfig was looking for in vain. */
  datatype Seen = Seen(profiles: map<Key, Option<Sight>>, missing: map<string, string>)

  datatype World = World(prefix: string, api: Api, reg: Reg, mail: Mail, seen: Seen)

  // ---------------------------------------------------------------------------------------------
  // Landscape passes

  /** `built` is the entry a create or update pass comes up with, which holds no handle if access to
      the garden cluster fails. */
  datatype LsFaults = LsFaults(getFails: bool, annotationFails: bool, finalizerFails: bool, built: Landscape,
      informer: InformerFaults)

  /** What a pass knows at its end: nothing, because the platform cluster did not answer, that there is
      nothing to register, or the new entry. */
  datatype LsResult = Unknown | Gone | Have(l: Landscape)

  predicate Referenced(configs: map<string, PcSpec>, landscape: string) {
    exists n :: n in configs && configs[n].landscape == landscape
  }

  function LandscapeResult(w: World, name: string, f: LsFaults): LsResult {
    if f.getFails then Unknown
    else if name !in w.api.landscapes || w.api.landscapes[name].ignored then Gone
    else if f.annotationFails then Unknown
    else
      var ls := w.api.landscapes[name];
      if !ls.deleting then (if !ls.finalizer && f.finalizerFails then Unknown else Have(f.built))
      else if Referenced(w.reg.configs, name) then Have(f.built.(handle := None))
      else if ls.finalizer && f.finalizerFails then Unknown
      else Gone
  }

  /** A Landscape object leaves the API when a deletion pass takes its finalizer. */
  function LandscapeObjects(w: World, name: string, f: LsFaults): map<string, LsObject> {
    var res := LandscapeResult(w, name, f);
    if name !in w.api.landscapes || w.api.landscapes[name].ignored then w.api.landscapes
    else if w.api.landscapes[name].deleting then (if res.Gone? then w.api.landscapes - {name} else w.api.landscapes)
    else if res.Have? then w.api.landscapes[name := w.api.landscapes[name].(finalizer := true)]
    else w.api.landscapes
  }

  function Refresh(landscapes: Landscapes, name: string, l: Landscape): Landscapes {
    if name in landscapes then
      landscapes[name := landscapes[name].(available := l.available, projects := l.projects)]
    else landscapes
  }

  function RegisteredLandscapes(landscapes: Landscapes, name: string, res: LsResult, f: InformerFaults): Landscapes {
    match res
    case Unknown => landscapes
    case Gone => UnsetEntry(landscapes, name, f)
    case Have(l) => Refresh(SetEntry(landscapes, name, l, f), name, l)
  }

  /** ProviderConfigs are notified if the entry appears, disappears or changes its availability. */
  predicate NotifiesConfigs(landscapes: Landscapes, name: string, res: LsResult) {
    || (res.Have? && name !in landscapes)
    || (!res.Have? && name in landscapes)
    || (res.Have? && name in landscapes && res.l.available != landscapes[name].available)
  }

  function Users(configs: map<string, PcSpec>, landscape: string): set<string> {
    set n | n in configs && configs[n].landscape == landscape
  }

  function LandscapePass(w: World, name: string, f: LsFaults): World {
    var res := LandscapeResult(w, name, f);
    w.(api := w.api.(landscapes := LandscapeObjects(w, name, f)),
       reg := w.reg.(landscapes := RegisteredLandscapes(w.reg.landscapes, name, res, f.informer)),
       mail := if NotifiesConfigs(w.reg.landscapes, name, res)
               then w.mail.(configs := w.mail.configs + Users(w.reg.configs, name)) else w.mail)
  }

  // ---------------------------------------------------------------------------------------------
  // ProviderConfig passes

  datatype PcFaults = PcFaults(
    getFails: bool,
    annotationFails: bool,
    finalizerFails: bool,
    profileDeleteFails: bool,
    cloudProfileNamed: bool,
    cloudProfileFound: bool,
    clusterProfileFails: bool,
    clusterListFails: bool,
    versions: seq<string>)

  /** Outcome of a pass: nothing known, nothing to register, the Landscape missing, some other reason to
      register the ProviderConfig without renewing its profile, or a profile. */
  datatype PcResult = NotKnown | Absent | Missing | Rejected | Ready(profile: Profile)

  /** A landscape entry without handle makes a pass crash at the CloudProfile lookup, which leaves the
      registry alone just like an unanswered call to the platform cluster. */
  function ConfigResult(w: World, name: string, f: PcFaults): PcResult {
    if f.getFails then NotKnown
    else if name !in w.api.pcs || !w.api.pcs[name].mine || w.api.pcs[name].ignored then Absent
    else if f.annotationFails then NotKnown
    else
      var pc := w.api.pcs[name];
      if pc.deleting then (if f.profileDeleteFails || (pc.finalizer && f.finalizerFails) then NotKnown else Absent)
      else if !pc.finalizer && f.finalizerFails then NotKnown
      else if pc.spec.landscape !in w.reg.landscapes then Missing
      else
        var l := w.reg.landscapes[pc.spec.landscape];
        if pc.spec.project !in l.projects || !f.cloudProfileNamed then Rejected
        else if l.handle.None? then NotKnown
        else if !f.cloudProfileFound then Rejected
        else if f.clusterProfileFails then NotKnown
        else Ready(Profile(pc.spec, l.projects[pc.spec.project], f.versions))
  }

  function ConfigObjects(w: World, name: string, f: PcFaults): map<string, PcObject> {
    var res := ConfigResult(w, name, f);
    if name !in w.api.pcs || !w.api.pcs[name].mine || w.api.pcs[name].ignored then w.api.pcs
    else if w.api.pcs[name].deleting then (if res.Absent? then w.api.pcs - {name} else w.api.pcs)
    else if f.getFails || f.annotationFails || f.finalizerFails then w.api.pcs
    else w.api.pcs[name := w.api.pcs[name].(finalizer := true)]
  }

  predicate IsProfileUpdated(before: Profile, after: Profile) {
    before.spec != after.spec
  }

  /** The Clusters that use a profile. */
  function ProfileUsers(clusters: map<Key, string>, profile: string): set<Key> {
    set k | k in clusters && clusters[k] == profile
  }

  predicate NotifiesClusters(profiles: map<string, Profile>, pKey: string, profile: Profile) {
    pKey !in profiles || IsProfileUpdated(profiles[pKey], profile)
  }

  function RegisterConfig(w: World, name: string, res: PcResult): Reg {
    var pKey := ProfileK8sName(w.prefix, name);
    match res
    case NotKnown => w.reg
    case Absent => w.reg.(configs := w.reg.configs - {name}, profiles := w.reg.profiles - {pKey})
    case Missing => w.reg.(configs := w.reg.configs[name := Spec(w, name)])
    case Rejected => w.reg.(configs := w.reg.configs[name := Spec(w, name)])
    case Ready(p) => w.reg.(configs := w.reg.configs[name := p.spec], profiles := w.reg.profiles[pKey := p])
  }

  function Spec(w: World, name: string): PcSpec {
    if name in w.api.pcs then w.api.pcs[name].spec else PcSpec("", "", "")
  }

  function Notified(w: World, name: string, res: PcResult, f: PcFaults): set<Key> {
    var pKey := ProfileK8sName(w.prefix, name);
    if res.Ready? && NotifiesClusters(w.reg.profiles, pKey, res.profile) && !f.clusterListFails
    then ProfileUsers(w.api.clusters, pKey) else {}
  }

  function ConfigPass(w: World, name: string, f: PcFaults): World {
    var res := ConfigResult(w, name, f);
    w.(api := w.api.(pcs := ConfigObjects(w, name, f)),
       reg := RegisterConfig(w, name, res),
       mail := Mail(w.mail.clusters + Notified(w, name, res, f), w.mail.configs - {name}),
       seen := w.seen.(missing := if res.Missing? then w.seen.missing[name := Spec(w, name).landscape]
                                  else w.seen.missing - {name}))
  }

  // ---------------------------------------------------------------------------------------------
  // Cluster passes and user edits

  function ProfileSight(profiles: map<string, Profile>, p: string): Option<Sight> {
    if p in profiles then Some(Sight(profiles[p].spec, profiles[p].ns)) else None
  }

  function ProfileSpec(profiles: map<string, Profile>, p: string): Option<PcSpec> {
    if p in profiles then Some(profiles[p].spec) else None
  }

  /** A Cluster pass answers its pending request and looks at the profile. */
  function ClusterPass(w: World, key: Key): World {
    if key !in w.api.clusters then w.(mail := w.mail.(clusters := w.mail.clusters - {key})) else
    w.(mail := w.mail.(clusters := w.mail.clusters - {key}),
       seen := w.seen.(profiles := w.seen.profiles[key := ProfileSight(w.reg.profiles, w.api.clusters[key])]))
  }

  datatype Step =
    | LandscapeStep(name: string, lf: LsFaults)
    | ConfigStep(name: string, pf: PcFaults)
    | ClusterStep(key: Key)
    | PutLandscape(name: string, ls: LsObject)
    | PutConfig(name: string, pc: PcObject)
    | PutCluster(key: Key, profile: string)
    | RemoveCluster(key: Key)

  /** The watches of the controllers turn edits into requests. */
  function Apply(w: World, s: Step): World {
    match s
    case LandscapeStep(name, f) => LandscapePass(w, name, f)
    case ConfigStep(name, f) => ConfigPass(w, name, f)
    case ClusterStep(key) => ClusterPass(w, key)
    case PutLandscape(name, ls) => w.(api := w.api.(landscapes := w.api.landscapes[name := ls]))
    case PutConfig(name, pc) =>
      w.(api := w.api.(pcs := w.api.pcs[name := pc]), mail := w.mail.(configs := w.mail.configs + {name}))
    case PutCluster(key, profile) =>
      w.(api := w.api.(clusters := w.api.clusters[key := profile]),
         mail := w.mail.(clusters := w.mail.clusters + {key}))
    case RemoveCluster(key) => w.(api := w.api.(clusters := w.api.clusters - {key}))
  }

  function Run(w: World, steps: seq<Step>): World
    decreases |steps|
  {
    if steps == [] then w else Run(Apply(w, steps[0]), steps[1..])
  }

  // ---------------------------------------------------------------------------------------------
  // No lost wake-up for Clusters

  function LastSight(w: World, key: Key): Option<Sight> {
    if key in w.seen.profiles then w.seen.profiles[key] else None
  }

  function LastSeen(w: World, key: Key): Option<PcSpec> {
    if LastSight(w, key).Some? then Some(LastSight(w, key).value.spec) else None
  }

  /** If the profile of the Cluster is registered with a spec its last pass did not see, it is woken. */
  predicate Woken(w: World, key: Key)
    requires key in w.api.clusters
  {
    var now := ProfileSpec(w.reg.profiles, w.api.clusters[key]);
    now.Some? && LastSeen(w, key) != now ==> key in w.mail.clusters
  }

  ghost predicate ClustersWoken(w: World) {
    forall key :: key in w.api.clusters ==> Woken(w, key)
  }

  /** The Clusters a pass has to wake: those that use its profile, have seen another spec and have no
      request pending. */
  ghost function Sleepers(w: World, name: string, p: Profile): set<Key> {
    set k | k in w.api.clusters && w.api.clusters[k] == ProfileK8sName(w.prefix, name)
            && LastSeen(w, k) != Some(p.spec) && k !in w.mail.clusters
  }

  /** A ProviderConfig pass loses a wake-up if and only if the list call fails while there is somebody
      to wake: the new profile is already stored by then. */
  lemma ConfigPassKeepsWokenIff(w: World, name: string, f: PcFaults)
    requires ClustersWoken(w)
    ensures var res := ConfigResult(w, name, f);
            ClustersWoken(ConfigPass(w, name, f)) <==>
              !(res.Ready? && f.clusterListFails && Sleepers(w, name, res.profile) != {})
  {
    var w' := ConfigPass(w, name, f);
    var res := ConfigResult(w, name, f);
    var pKey := ProfileK8sName(w.prefix, name);
    if res.Ready? && f.clusterListFails && Sleepers(w, name, res.profile) != {} {
      var k :| k in Sleepers(w, name, res.profile);
      assert !Woken(w', k);
    } else {
      forall k | k in w'.api.clusters ensures Woken(w', k) {
        assert Woken(w, k);
        if res.Ready? && w.api.clusters[k] == pKey && k !in w.mail.clusters
            && LastSeen(w, k) != Some(res.profile.spec) {
          assert k in Sleepers(w, name, res.profile);
          assert k in ProfileUsers(w.api.clusters, pKey);
        }
      }
    }
  }

  ghost predicate ListsAnswer(w: World, s: Step) {
    s.ConfigStep? ==>
      var res := ConfigResult(w, s.name, s.pf);
      !(res.Ready? && s.pf.clusterListFails && Sleepers(w, s.name, res.profile) != {})
  }

  lemma StepKeepsWoken(w: World, s: Step)
    requires ClustersWoken(w) && ListsAnswer(w, s)
    ensures ClustersWoken(Apply(w, s))
  {
    var w' := Apply(w, s);
    match s
    case ConfigStep(name, f) => ConfigPassKeepsWokenIff(w, name, f);
    case _ =>
      forall k | k in w'.api.clusters ensures Woken(w', k) {
        if k in w.api.clusters { assert Woken(w, k); }
      }
  }

  ghost predicate AnsweredRun(w: World, steps: seq<Step>)
    decreases |steps|
  {
    steps == [] || (ListsAnswer(w, steps[0]) && AnsweredRun(Apply(w, steps[0]), steps[1..]))
  }

  /** In every run in which the list calls that matter succeed, a Cluster whose last pass saw no profile,
      or one with another spec than the one now registered, has a request pending. */
  lemma {:induction false} NoLostClusterWakeUp(w: World, steps: seq<Step>)
    requires ClustersWoken(w) && AnsweredRun(w, steps)
    ensures ClustersWoken(Run(w, steps))
    decreases |steps|
  {
    if steps != [] {
      StepKeepsWoken(w, steps[0]);
      NoLostClusterWakeUp(Apply(w, steps[0]), steps[1..]);
    }
  }

  // ---------------------------------------------------------------------------------------------
  // Changed namespaces

  /** If the profile of the Cluster is registered with a spec or a namespace that its last pass did not
      see, it is woken. */
  predicate Current(w: World, key: Key)
    requires key in w.api.clusters
  {
    var now := ProfileSight(w.reg.profiles, w.api.clusters[key]);
    now.Some? && LastSight(w, key) != now ==> key in w.mail.clusters
  }

  ghost predicate ClustersCurrent(w: World) {
    forall key :: key in w.api.clusters ==> Current(w, key)
  }

  /** The Clusters that use a profile, have seen another spec or namespace and have no request pending. */
  ghost function Stragglers(w: World, name: string, p: Profile): set<Key> {
    set k | k in w.api.clusters && w.api.clusters[k] == ProfileK8sName(w.prefix, name)
            && LastSight(w, k) != Some(Sight(p.spec, p.ns)) && k !in w.mail.clusters
  }

  /** A ProviderConfig pass that renews the profile without a notification, because the list call fails
      or because the spec is the same as before, while somebody would have to know. */
  ghost predicate LeavesBehind(w: World, s: Step) {
    s.ConfigStep? &&
    var res := ConfigResult(w, s.name, s.pf);
    && res.Ready?
    && (s.pf.clusterListFails || !NotifiesClusters(w.reg.profiles, ProfileK8sName(w.prefix, s.name), res.profile))
    && Stragglers(w, s.name, res.profile) != {}
  }

  lemma LeftBehindStaysAsleep(w: World, name: string, f: PcFaults)
    requires LeavesBehind(w, ConfigStep(name, f))
    ensures !ClustersCurrent(ConfigPass(w, name, f))
  {
    var res := ConfigResult(w, name, f);
    var k :| k in Stragglers(w, name, res.profile);
    assert !Current(ConfigPass(w, name, f), k);
  }

  /** A step leaves every Cluster current if and only if it is not such a pass. In particular, a changed
      namespace behind an unchanged spec is lost on every Cluster without a pending request. */
  lemma StepKeepsCurrentIff(w: World, s: Step)
    requires ClustersCurrent(w)
    ensures ClustersCurrent(Apply(w, s)) <==> !LeavesBehind(w, s)
  {
    var w' := Apply(w, s);
    if LeavesBehind(w, s) {
      LeftBehindStaysAsleep(w, s.name, s.pf);
    } else {
      forall k | k in w'.api.clusters ensures Current(w', k) {
        if k in w.api.clusters { assert Current(w, k); }
        if s.ConfigStep? { NoStraggler(w, s.name, s.pf, k); }
      }
    }
  }

  lemma NoStraggler(w: World, name: string, f: PcFaults, k: Key)
    requires k in w.api.clusters && Current(w, k) && !LeavesBehind(w, ConfigStep(name, f))
    ensures Current(ConfigPass(w, name, f), k)
  {
    var res := ConfigResult(w, name, f);
    if res.Ready? && w.api.clusters[k] == ProfileK8sName(w.prefix, name) {
      assert LastSight(w, k) != Some(Sight(res.profile.spec, res.profile.ns)) && k !in w.mail.clusters
        ==> k in Stragglers(w, name, res.profile);
      assert k in ProfileUsers(w.api.clusters, ProfileK8sName(w.prefix, name));
    }
  }

  ghost predicate NobodyLeftBehind(w: World, steps: seq<Step>)
    decreases |steps|
  {
    steps == [] || (!LeavesBehind(w, steps[0]) && NobodyLeftBehind(Apply(w, steps[0]), steps[1..]))
  }

  /** In every run without such a pass, a Cluster that has not seen the spec and the namespace of its
      registered profile has a request pending. */
  lemma {:induction false} NoLostNamespace(w: World, steps: seq<Step>)
    requires ClustersCurrent(w) && NobodyLeftBehind(w, steps)
    ensures ClustersCurrent(Run(w, steps))
    decreases |steps|
  {
    if steps != [] {
      StepKeepsCurrentIff(w, steps[0]);
      NoLostNamespace(Apply(w, steps[0]), steps[1..]);
    }
  }

  /** A registry and queues at their start, whatever objects there are. */
  lemma EmptyRegistryIsWoken(prefix: string, api: Api)
    ensures var w := World(prefix, api, Reg(map[], map[], map[]), Mail({}, {}), Seen(map[], map[]));
            ClustersWoken(w) && ClustersCurrent(w) && ConfigsWoken(w) && ProfilesHaveConfigs(w) && AllSeen(w)
  {}

  // ---------------------------------------------------------------------------------------------
  // No lost wake-up for ProviderConfigs

  /** A ProviderConfig that looked for a Landscape in vain is registered with it, and once the Landscape
      is registered a request is pending. */
  predicate Reported(w: World, n: string)
    requires n in w.seen.missing
  {
    && n in w.reg.configs && w.reg.configs[n].landscape == w.seen.missing[n]
    && (w.seen.missing[n] in w.reg.landscapes ==> n in w.mail.configs)
  }

  ghost predicate ConfigsWoken(w: World) {
    forall n :: n in w.seen.missing ==> Reported(w, n)
  }

  lemma LandscapePassKeepsConfigsWoken(w: World, name: string, f: LsFaults)
    requires ConfigsWoken(w)
    ensures ConfigsWoken(LandscapePass(w, name, f))
  {
    var w' := LandscapePass(w, name, f);
    forall n | n in w'.seen.missing ensures Reported(w', n) {
      assert Reported(w, n);
      if w.seen.missing[n] in w'.reg.landscapes && w.seen.missing[n] !in w.reg.landscapes {
        assert n in Users(w.reg.configs, name);
      }
    }
  }

  lemma ConfigPassKeepsConfigsWoken(w: World, name: string, f: PcFaults)
    requires ConfigsWoken(w)
    ensures ConfigsWoken(ConfigPass(w, name, f))
  {
    var w' := ConfigPass(w, name, f);
    forall n | n in w'.seen.missing ensures Reported(w', n) {
      if n != name { assert Reported(w, n); }
    }
  }

  lemma StepKeepsConfigsWoken(w: World, s: Step)
    requires ConfigsWoken(w)
    ensures ConfigsWoken(Apply(w, s))
  {
    var w' := Apply(w, s);
    match s
    case LandscapeStep(name, f) => LandscapePassKeepsConfigsWoken(w, name, f);
    case ConfigStep(name, f) => ConfigPassKeepsConfigsWoken(w, name, f);
    case _ =>
      forall n | n in w'.seen.missing ensures Reported(w', n) { assert Reported(w, n); }
  }

  /** In every run, whatever calls fail and even if registrations fail, a ProviderConfig whose last pass
      did not find its Landscape has a request pending as soon as that Landscape is registered. */
  lemma {:induction false} NoLostConfigWakeUp(w: World, steps: seq<Step>)
    requires ConfigsWoken(w)
    ensures ConfigsWoken(Run(w, steps))
    decreases |steps|
  {
    if steps != [] {
      StepKeepsConfigsWoken(w, steps[0]);
      NoLostConfigWakeUp(Apply(w, steps[0]), steps[1..]);
    }
  }

  // ---------------------------------------------------------------------------------------------
  // Consistency of the registry

  /** Every profile belongs to a registered ProviderConfig. */
  ghost predicate ProfilesHaveConfigs(w: World) {
    forall p :: p in w.reg.profiles ==> exists n :: n in w.reg.configs && ProfileK8sName(w.prefix, n) == p
  }

  lemma StepKeepsProfilesHaveConfigs(w: World, s: Step)
    requires ProfilesHaveConfigs(w)
    ensures ProfilesHaveConfigs(Apply(w, s))
  {
    var w' := Apply(w, s);
    if s.ConfigStep? {
      forall p | p in w'.reg.profiles ensures exists n :: n in w'.reg.configs && ProfileK8sName(w.prefix, n) == p {
        if p == ProfileK8sName(w.prefix, s.name) {
          assert s.name in w'.reg.configs || p in w.reg.profiles;
        }
        if p in w.reg.profiles {
          var n :| n in w.reg.configs && ProfileK8sName(w.prefix, n) == p;
          assert n in w'.reg.configs;
        }
      }
    }
  }

  lemma {:induction false} RunKeepsProfilesHaveConfigs(w: World, steps: seq<Step>)
    requires ProfilesHaveConfigs(w)
    ensures ProfilesHaveConfigs(Run(w, steps))
    decreases |steps|
  {
    if steps != [] {
      StepKeepsProfilesHaveConfigs(w, steps[0]);
      RunKeepsProfilesHaveConfigs(Apply(w, steps[0]), steps[1..]);
    }
  }

  // ---------------------------------------------------------------------------------------------
  // The gate on Landscape deletion

  /** A deletion pass takes the finalizer of a Landscape only if no registered ProviderConfig refers to
      it, and does so if nothing fails. */
  lemma LandscapeReleasedIff(w: World, name: string, f: LsFaults)
    requires name in w.api.landscapes && w.api.landscapes[name].deleting && !w.api.landscapes[name].ignored
    requires !f.getFails && !f.annotationFails && !f.finalizerFails
    ensures name !in LandscapePass(w, name, f).api.landscapes <==>
            forall n :: n in w.reg.configs ==> w.reg.configs[n].landscape != name
  {}

  lemma LandscapeNeverReleasedInUse(w: World, name: string, f: LsFaults, n: string)
    requires name in w.api.landscapes && n in w.reg.configs && w.reg.configs[n].landscape == name
    ensures name in LandscapePass(w, name, f).api.landscapes
  {}

  /** The gate sees the same Landscape that the registered profile uses. */
  ghost predicate GateSees(w: World, n: string) {
    var pKey := ProfileK8sName(w.prefix, n);
    pKey in w.reg.profiles ==> n in w.reg.configs && w.reg.configs[n].landscape == w.reg.profiles[pKey].spec.landscape
  }

  /** It stops doing so exactly when a ProviderConfig that already has a profile is registered with a new
      Landscape by a pass that fails before it renews the profile. */
  lemma GateSeesIff(w: World, name: string, f: PcFaults)
    requires GateSees(w, name)
    ensures var res := ConfigResult(w, name, f);
            var pKey := ProfileK8sName(w.prefix, name);
            GateSees(ConfigPass(w, name, f), name) <==>
            !((res.Missing? || res.Rejected?) && pKey in w.reg.profiles
              && Spec(w, name).landscape != w.reg.profiles[pKey].spec.landscape)
  {}

  lemma OthersStaySeen(w: World, name: string, f: PcFaults, n: string)
    requires GateSees(w, n) && n != name
    ensures GateSees(ConfigPass(w, name, f), n)
  {
    if ProfileK8sName(w.prefix, n) == ProfileK8sName(w.prefix, name) {
      ProfileNamesAreInjective(w.prefix, n, name);
    }
  }

  /** As long as the gate sees it, no pass releases the Landscape a registered profile uses. */
  lemma UsedLandscapeIsKept(w: World, n: string, f: LsFaults)
    requires ProfileK8sName(w.prefix, n) in w.reg.profiles && GateSees(w, n)
    requires w.reg.profiles[ProfileK8sName(w.prefix, n)].spec.landscape in w.api.landscapes
    ensures var l := w.reg.profiles[ProfileK8sName(w.prefix, n)].spec.landscape;
            l in LandscapePass(w, l, f).api.landscapes
  {
    LandscapeNeverReleasedInUse(w, w.reg.configs[n].landscape, f, n);
  }

  /** A pass that registers a ProviderConfig with another Landscape than the one its profile uses, and
      does not renew the profile. */
  ghost predicate Diverges(w: World, s: Step) {
    s.ConfigStep? &&
    var res := ConfigResult(w, s.name, s.pf);
    var pKey := ProfileK8sName(w.prefix, s.name);
    && (res.Missing? || res.Rejected?)
    && pKey in w.reg.profiles && Spec(w, s.name).landscape != w.reg.profiles[pKey].spec.landscape
  }

  ghost predicate AllSeen(w: World) {
    forall n :: GateSees(w, n)
  }

  lemma StepKeepsAllSeenIff(w: World, s: Step)
    requires AllSeen(w)
    ensures AllSeen(Apply(w, s)) <==> !Diverges(w, s)
  {
    var w' := Apply(w, s);
    if s.ConfigStep? {
      assert GateSees(w, s.name);
      GateSeesIff(w, s.name, s.pf);
      forall n | n != s.name ensures GateSees(w', n) {
        assert GateSees(w, n);
        OthersStaySeen(w, s.name, s.pf, n);
      }
      assert AllSeen(w') ==> GateSees(w', s.name);
    } else {
      forall n ensures GateSees(w', n) { assert GateSees(w, n); }
    }
  }

  ghost predicate NeverDiverges(w: World, steps: seq<Step>)
    decreases |steps|
  {
    steps == [] || (!Diverges(w, steps[0]) && NeverDiverges(Apply(w, steps[0]), steps[1..]))
  }

  /** A Landscape that a registered profile uses. */
  ghost predicate InUse(w: World, l: string) {
    exists n :: ProfileK8sName(w.prefix, n) in w.reg.profiles
                && w.reg.profiles[ProfileK8sName(w.prefix, n)].spec.landscape == l
  }

  /** In every run without such a pass, whatever else fails, no step releases a Landscape that a
      registered profile uses. */
  lemma {:induction false} UsedLandscapesAreKept(w: World, steps: seq<Step>, i: nat, l: string)
    requires AllSeen(w) && NeverDiverges(w, steps) && i < |steps|
    ensures var before, later := Run(w, steps[..i]), Run(w, steps[..i + 1]);
            && AllSeen(before) && AllSeen(later)
            && (InUse(before, l) && l in before.api.landscapes ==> l in later.api.landscapes)
    decreases |steps|
  {
    var next := Apply(w, steps[0]);
    StepKeepsAllSeenIff(w, steps[0]);
    assert steps[..i + 1][1..] == steps[1..][..i] && steps[..i + 1][0] == steps[0];
    if i == 0 {
      assert Run(w, steps[..1]) == Run(next, []);
      if InUse(w, l) && l in w.api.landscapes { StepKeepsUsed(w, steps[0], l); }
    } else {
      assert steps[..i][1..] == steps[1..][..i - 1] && steps[..i][0] == steps[0];
      UsedLandscapesAreKept(next, steps[1..], i - 1, l);
    }
  }

  lemma StepKeepsUsed(w: World, s: Step, l: string)
    requires AllSeen(w) && InUse(w, l) && l in w.api.landscapes
    ensures l in Apply(w, s).api.landscapes
  {
    if s.LandscapeStep? && s.name == l {
      var n :| ProfileK8sName(w.prefix, n) in w.reg.profiles
               && w.reg.profiles[ProfileK8sName(w.prefix, n)].spec.landscape == l;
      assert GateSees(w, n);
      UsedLandscapeIsKept(w, n, s.lf);
    }
  }
}
