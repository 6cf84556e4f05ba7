/** The protocol between Cluster objects on the platform cluster and Shoots on the garden clusters: the
    state both sides share, the effect of one reconcile pass, and the steps the environment takes. */
module ClusterLifecycle {
  import opened Common
  import opened ClusterConfigs

  /** An entry of the finalizer list: the one of this controller, or somebody else's. */
  datatype Finalizer = ClusterFinalizer | ForeignFinalizer(name: string)

  /** Where the Shoots of a profile live: the landscape and the namespace of the Gardener project. */
  datatype Site = Site(landscape: string, ns: string)

  datatype Loc = Loc(landscape: string, ns: string, name: string)

  /** Name and namespace of a Shoot, as recorded in the provider status of a Cluster. */
  datatype ShootRef = ShootRef(ns: string, name: string)

  /** A Shoot. `owner` is the pair of cluster reference labels, `spec` everything the pass renders,
      `confirmed` the deletion confirmation annotation, `deleting` the deletion timestamp. */
  datatype Shoot = Shoot(owner: Option<Key>, spec: string, confirmed: bool, deleting: bool)

  /** A Cluster. `ignored` is the operation annotation with value "ignore", `nameLabel` the label
      that overrides the Shoot name, `recorded` the hash annotation, `status` the Shoot
      recorded in the provider status. */
  datatype Cluster = Cluster(
    finalizers: seq<Finalizer>,
    deleting: bool,
    ignored: bool,
    profile: string,
    nameLabel: Option<string>,
    refs: seq<string>,
    recorded: Digest,
    status: Option<ShootRef>)

  /** `sites` maps every profile name to its site. `known` are the profiles currently registered;
      `landscapes` are the landscapes currently registered, each with a flag that says whether its
      entry holds a cluster handle. */
  datatype World = World(
    sites: map<string, Site>,
    known: set<string>,
    landscapes: map<string, bool>,
    clusters: map<Key, Cluster>,
    configs: Store,
    shoots: map<Loc, Shoot>)

  /** The outcomes of the API calls of one pass. `annotationFails` is the removal of a "reconcile"
      operation annotation, `rendered` the Shoot spec the pass computes, if it can; `configsOk` tells
      whether the ClusterConfig stage went through; `written` and `deleted` tell whether the Shoot write
      and the Shoot deletion took effect, whatever the caller was answered; `statusLost` that the final
      status write did not take effect. */
  datatype Faults = Faults(
    clusterGetFails: bool,
    annotationFails: bool,
    shootGetFails: bool,
    shootListFails: bool,
    conflictCheckFails: bool,
    finalizerFails: bool,
    configsOk: bool,
    rendered: Option<string>,
    labelsFail: bool,
    written: bool,
    statusLost: bool,
    confirmFails: bool,
    deleted: bool)

  // ---------------------------------------------------------------------------------------------
  // Names and lookup

  /** Stands for the hash of the Cluster's namespace and name. */
  function ShootK8sName(key: Key): string {
    "s-" + key.ns + "/" + key.name
  }

  function ShootName(key: Key, c: Cluster): string {
    if c.nameLabel.Some? && c.nameLabel.value != "" then c.nameLabel.value else ShootK8sName(key)
  }

  function Target(site: Site, key: Key, c: Cluster): Loc {
    Loc(site.landscape, site.ns, ShootName(key, c))
  }

  function RecordedLoc(site: Site, r: ShootRef): Loc {
    Loc(site.landscape, r.ns, r.name)
  }

  /** The Shoots labelled for a Cluster. */
  ghost function Labelled(shoots: map<Loc, Shoot>, key: Key): set<Loc> {
    set l | l in shoots && shoots[l].owner == Some(key)
  }

  ghost function LabelledAt(shoots: map<Loc, Shoot>, site: Site, key: Key): set<Loc> {
    set l | l in Labelled(shoots, key) && l.landscape == site.landscape && l.ns == site.ns
  }

  /** The profile is registered, and so is its landscape, with a cluster handle. */
  predicate Resolves(w: World, c: Cluster) {
    && c.profile in w.sites && c.profile in w.known
    && w.sites[c.profile].landscape in w.landscapes && w.landscapes[w.sites[c.profile].landscape]
  }

  datatype Found = Failed | Absent | At(loc: Loc)

  /** The Shoot that belongs to a Cluster: the recorded one if a name is recorded, whoever it is
      labelled for, and otherwise the only one labelled for the Cluster in the project namespace. */
  ghost function FindShoot(shoots: map<Loc, Shoot>, site: Site, key: Key, status: Option<ShootRef>, f: Faults): Found {
    if status.Some? then
      var l := RecordedLoc(site, status.value);
      if f.shootGetFails then Failed else if l in shoots then At(l) else Absent
    else
      var hits := LabelledAt(shoots, site, key);
      if f.shootListFails || |hits| > 1 then Failed
      else if hits == {} then Absent
      else var l :| l in hits; At(l)
  }

  // ---------------------------------------------------------------------------------------------
  // One pass

  function AddFinalizer(finalizers: seq<Finalizer>): seq<Finalizer> {
    if ClusterFinalizer in finalizers then finalizers else finalizers + [ClusterFinalizer]
  }

  function Foreign(finalizers: seq<Finalizer>): seq<Finalizer> {
    Without(finalizers, ClusterFinalizer)
  }

  /** With an overridden name, a pass that has found no Shoot gives up if the target name is taken. */
  predicate Refused(w: World, key: Key, c: Cluster, f: Faults)
    requires c.profile in w.sites
  {
    c.nameLabel.Some? && (f.conflictCheckFails || Target(w.sites[c.profile], key, c) in w.shoots)
  }

  /** What a pass finds when it gets as far as telling creation, update and deletion apart. */
  ghost predicate Arrives(w: World, key: Key, f: Faults, found: Found) {
    && !f.clusterGetFails && key in w.clusters
    && var c := w.clusters[key];
    && !c.ignored && !f.annotationFails && Resolves(w, c)
    && found == FindShoot(w.shoots, w.sites[c.profile], key, c.status, f)
    && !found.Failed?
    && !(found.Absent? && Refused(w, key, c, f))
  }

  ghost function Outlook(w: World, key: Key, f: Faults): Found {
    if key in w.clusters && w.clusters[key].profile in w.sites
    then FindShoot(w.shoots, w.sites[w.clusters[key].profile], key, w.clusters[key].status, f)
    else Failed
  }

  /** The shoot map after the create or update call. An existing Shoot is relabelled and overwritten;
      a creation takes effect only where the name is free. */
  function WriteShoot(shoots: map<Loc, Shoot>, loc: Loc, key: Key, spec: string, present: bool,
      written: bool): map<Loc, Shoot>
    requires present ==> loc in shoots
  {
    if !written then shoots
    else if present then shoots[loc := shoots[loc].(owner := Some(key), spec := spec)]
    else if loc in shoots then shoots
    else shoots[loc := Shoot(Some(key), spec, false, false)]
  }

  /** Nothing stops the create or update branch before the create or update call. */
  predicate Proceeds(c: Cluster, f: Faults) {
    (ClusterFinalizer in c.finalizers || !f.finalizerFails) && f.configsOk && f.rendered.Some? && !f.labelsFail
  }

  /** The pass goes all the way to the create or update call. */
  ghost predicate Writes(w: World, key: Key, f: Faults) {
    Arrives(w, key, f, Outlook(w, key, f)) && !w.clusters[key].deleting && Proceeds(w.clusters[key], f)
  }

  ghost predicate Creates(w: World, key: Key, f: Faults) {
    Writes(w, key, f) && Outlook(w, key, f).Absent?
  }

  /** The location the create or update branch works on. */
  function Spot(w: World, key: Key, found: Found): Loc
    requires key in w.clusters && w.clusters[key].profile in w.sites
  {
    if found.At? then found.loc else Target(w.sites[w.clusters[key].profile], key, w.clusters[key])
  }

  ghost function WorksOn(w: World, key: Key, f: Faults): Loc
    requires Writes(w, key, f)
  {
    Spot(w, key, Outlook(w, key, f))
  }

  /** A Cluster under deletion that holds no finalizer is gone. */
  function Stored(clusters: map<Key, Cluster>, key: Key, c: Cluster): map<Key, Cluster> {
    if c.deleting && c.finalizers == [] then clusters - {key} else clusters[key := c]
  }

  /** The Cluster once the finalizer is there and the ClusterConfig stage is over. */
  function Prepared(c: Cluster, f: Faults): Cluster {
    var c1 := c.(finalizers := AddFinalizer(c.finalizers));
    if f.configsOk then c1.(recorded := DigestOf(c.refs)) else c1
  }

  function CreateOrUpdate(w: World, key: Key, f: Faults, after: Store, found: Found): World
    requires key in w.clusters && w.clusters[key].profile in w.sites
    requires found.At? ==> found.loc in w.shoots
  {
    var c := w.clusters[key];
    var c' := Prepared(c, f);
    if ClusterFinalizer !in c.finalizers && f.finalizerFails then w
    else if !Proceeds(c, f) then w.(clusters := w.clusters[key := c'], configs := after)
    else
      var loc := Spot(w, key, found);
      w.(clusters := w.clusters[key := if f.statusLost then c' else c'.(status := Some(ShootRef(loc.ns, loc.name)))],
         configs := after,
         shoots := WriteShoot(w.shoots, loc, key, f.rendered.value, found.At?, f.written))
  }

  function Delete(w: World, key: Key, f: Faults, after: Store, found: Found): World
    requires key in w.clusters
    requires found.At? ==> found.loc in w.shoots
  {
    var c := w.clusters[key];
    if Foreign(c.finalizers) != [] then w
    else if found.At? then
      var s := w.shoots[found.loc];
      if s.deleting || f.confirmFails then w
      else w.(shoots := w.shoots[found.loc := s.(confirmed := true, deleting := f.deleted)])
    else if f.configsOk && ClusterFinalizer in c.finalizers && !f.finalizerFails then
      w.(configs := after, clusters := Stored(w.clusters, key, c.(finalizers := [])))
    else w.(configs := after)
  }

  /** The whole pass. `after` is what the ClusterConfig stage leaves behind, if it is reached. */
  ghost function ClusterPass(w: World, key: Key, f: Faults, after: Store): World {
    if !Arrives(w, key, f, Outlook(w, key, f)) then w
    else if w.clusters[key].deleting then Delete(w, key, f, after, Outlook(w, key, f))
    else CreateOrUpdate(w, key, f, after, Outlook(w, key, f))
  }

  /** `after` is a possible outcome of the ClusterConfig stage. */
  ghost predicate ConfigStage(w: World, key: Key, f: Faults, after: Store) {
    key in w.clusters ==>
      var c := w.clusters[key];
      if c.deleting then ReleaseOutcome(w.configs, after, key, f.configsOk)
      else SettleOutcome(w.configs, after, key, c.refs, c.recorded, f.configsOk)
  }

  // ---------------------------------------------------------------------------------------------
  // Steps

  datatype Step =
    | Pass(key: Key, f: Faults, after: Store)
    | CreateCluster(key: Key, c: Cluster)
    | EditCluster(key: Key, c: Cluster)
    | AddConfig(config: Key, owners: seq<OwnerRef>)
    | RemoveConfig(config: Key)
    | ForeignShoot(loc: Loc, s: Shoot)
    | ShootGone(loc: Loc)
    | Register(known: set<string>, landscapes: map<string, bool>)

  /** What users may do to a Cluster: anything, except taking the provider's finalizer away or giving
      it, writing the status or the hash annotation, or undoing a deletion request. A Cluster under
      deletion takes no new finalizers. */
  predicate Editable(c: Cluster, c': Cluster) {
    && c'.status == c.status && c'.recorded == c.recorded
    && (ClusterFinalizer in c'.finalizers <==> ClusterFinalizer in c.finalizers)
    && (c.deleting ==> c'.deleting && forall x :: x in c'.finalizers ==> x in c.finalizers)
  }

  ghost predicate Enabled(w: World, s: Step) {
    match s
    case Pass(key, f, after) => ConfigStage(w, key, f, after)
    case CreateCluster(key, c) =>
      key !in w.clusters && !c.deleting && c.status.None? && c.recorded == NoRefs
    case EditCluster(key, c) => key in w.clusters && Editable(w.clusters[key], c)
    case AddConfig(config, owners) => config !in w.configs && forall n :: ClusterOwner(n) !in owners
    case RemoveConfig(config) => true
    case ForeignShoot(loc, s) => loc !in w.shoots && s.owner.None?
    case ShootGone(loc) => true
    case Register(_, _) => true
  }

  ghost function Apply(w: World, s: Step): World {
    match s
    case Pass(key, f, after) => ClusterPass(w, key, f, after)
    case CreateCluster(key, c) => w.(clusters := w.clusters[key := c])
    case EditCluster(key, c) => w.(clusters := Stored(w.clusters, key, c))
    case AddConfig(config, owners) => w.(configs := w.configs[config := owners])
    case RemoveConfig(config) => w.(configs := w.configs - {config})
    case ForeignShoot(loc, s) => w.(shoots := w.shoots[loc := s])
    case ShootGone(loc) => w.(shoots := w.shoots - {loc})
    case Register(known, landscapes) => w.(known := known, landscapes := landscapes)
  }

  /** The world after a run. */
  ghost function Run(w: World, steps: seq<Step>): World
    decreases |steps|
  {
    if steps == [] then w else Run(Apply(w, steps[0]), steps[1..])
  }

  lemma {:induction false} RunConcat(w: World, a: seq<Step>, b: seq<Step>)
    ensures Run(w, a + b) == Run(Run(w, a), b)
    decreases |a|
  {
    if a == [] {
      assert a + b == b;
    } else {
      assert (a + b)[0] == a[0] && (a + b)[1..] == a[1..] + b;
      RunConcat(Apply(w, a[0]), a[1..], b);
    }
  }
}
