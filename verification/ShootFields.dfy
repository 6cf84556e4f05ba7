/** How a shoot is generated: its own fields, the template of the ProviderConfig, the enforced
    extensions and the ClusterConfigs, layered on top of each other. */
module ShootFields {
  import opened Common
  import opened StableSort
  import opened Versions
  import opened KeyedLists

  /** The keys of annotations and labels. `MetadataKey` stands for the keys with the prefix of
      metadata that is passed from a Cluster to its shoot. */
  datatype MetaKey =
    | MetadataKey(name: string) | OtherKey(name: string)
    | GracePeriod | AuthenticationIssuer | AuthenticationTrusted
    | ClusterName | ClusterNamespace | ProviderName | Environment

  type Meta = map<MetaKey, string>

  /** What an extension holds besides its type. */
  datatype ExtensionSettings = ExtensionSettings(disabled: Option<bool>, providerConfig: Option<string>)

  datatype ExtensionType = OidcService | OtherType(name: string)

  type Extension = Item<ExtensionType, ExtensionSettings>
  type Resource = Item<string, string>

  /** The part of a shoot that is generated. `rest` holds the other fields of the spec by their path. */
  datatype Fields = Fields(
    annotations: Meta, labels: Meta,
    version: Option<Version>, controlPlane: Option<string>, imageUpdate: Option<bool>,
    extensions: seq<Extension>, resources: seq<Resource>,
    rest: map<string, string>)

  datatype ClusterConfig = ClusterConfig(extensions: seq<Extension>, resources: seq<Resource>)

  /** What a shoot is generated from: the metadata and identity of the Cluster, the names of provider
      and environment, the template and the enforced extensions of the profile, and the
      ClusterConfigs in the order of their references. */
  datatype Inputs = Inputs(
    annotations: Meta, labels: Meta, name: string, namespace: string, provider: string, environment: string,
    template: Fields, enforced: Option<seq<Extension>>, configs: seq<ClusterConfig>)

  // ---------------------------------------------------------------------------------------------
  // The layers

  function Passed(meta: Meta): Meta {
    map k | k in meta && k.MetadataKey? :: meta[k]
  }

  function EnforcedAnnotations(inputs: Inputs): Meta {
    Passed(inputs.annotations) + inputs.template.annotations
    + map[GracePeriod := "30", AuthenticationIssuer := "managed", AuthenticationTrusted := "true"]
  }

  function EnforcedLabels(inputs: Inputs): Meta {
    Passed(inputs.labels) + inputs.template.labels
    + map[ClusterName := inputs.name, ClusterNamespace := inputs.namespace,
          ProviderName := inputs.provider, Environment := inputs.environment]
  }

  /** Without a list of enforced extensions the OIDC extension is enforced, with an empty one none. */
  function EnforcedExtensions(enforced: Option<seq<Extension>>): seq<Extension> {
    if enforced.None? then [Item(OidcService, ExtensionSettings(None, None))] else enforced.value
  }

  function ConfigExtensions(configs: seq<ClusterConfig>): seq<Extension> {
    if configs == [] then [] else configs[0].extensions + ConfigExtensions(configs[1..])
  }

  function ConfigResources(configs: seq<ClusterConfig>): seq<Resource> {
    if configs == [] then [] else configs[0].resources + ConfigResources(configs[1..])
  }

  /** A list of the template replaces the list of the shoot, unless it is empty. */
  function Base<T>(template: seq<T>, existing: seq<T>): seq<T> {
    if template != [] then template else existing
  }

  /** A flag of the template replaces the one of the shoot, unless it is not set or false where the
      shoot has one. */
  function MergedFlag(template: Option<bool>, existing: Option<bool>): Option<bool> {
    if template == Some(true) || existing.None? then template else existing
  }

  /** Gardener is kept from updating machine images itself. */
  function FinalFlag(template: Option<bool>, existing: Option<bool>): Option<bool> {
    if MergedFlag(template, existing) == Some(true) then Some(false) else MergedFlag(template, existing)
  }

  function Generated(shoot: Fields, inputs: Inputs): Fields {
    var t := inputs.template;
    Fields(
      shoot.annotations + EnforcedAnnotations(inputs),
      shoot.labels + EnforcedLabels(inputs),
      ComputeK8sVersion(t.version, shoot.version),
      if shoot.controlPlane.Some? then shoot.controlPlane else t.controlPlane,
      FinalFlag(t.imageUpdate, shoot.imageUpdate),
      UpsertAll(Base(t.extensions, shoot.extensions),
                EnforcedExtensions(inputs.enforced) + ConfigExtensions(inputs.configs)),
      UpsertAll(Base(t.resources, shoot.resources), ConfigResources(inputs.configs)),
      shoot.rest + t.rest)
  }

  // ---------------------------------------------------------------------------------------------
  // The code

  /** Merges the enforced entries in as soon as one of them is missing or different. */
  method EnsureMeta(existing: Meta, enforced: Meta) returns (r: Meta)
    ensures r == existing + enforced
  {
    var left := enforced.Keys;
    while left != {}
      invariant left <= enforced.Keys
      invariant forall k :: k in enforced.Keys - left ==> k in existing && existing[k] == enforced[k]
      decreases left
    {
      var k :| k in left;
      if k !in existing || existing[k] != enforced[k] {
        return existing + enforced;
      }
      left := left - {k};
    }
    r := existing;
  }

  /** The extensions and resources of the ClusterConfigs, one config after the other. */
  method ApplyClusterConfigs(extensions: seq<Extension>, resources: seq<Resource>, configs: seq<ClusterConfig>)
      returns (ext: seq<Extension>, res: seq<Resource>)
    ensures ext == UpsertAll(extensions, ConfigExtensions(configs))
    ensures res == UpsertAll(resources, ConfigResources(configs))
  {
    ext, res := extensions, resources;
    for i := 0 to |configs|
      invariant UpsertAll(extensions, ConfigExtensions(configs)) == UpsertAll(ext, ConfigExtensions(configs[i..]))
      invariant UpsertAll(resources, ConfigResources(configs)) == UpsertAll(res, ConfigResources(configs[i..]))
    {
      assert configs[i..][1..] == configs[i + 1..];
      UpsertAllConcat(ext, configs[i].extensions, ConfigExtensions(configs[i + 1..]));
      UpsertAllConcat(res, configs[i].resources, ConfigResources(configs[i + 1..]));
      ext := UpsertEach(ext, configs[i].extensions);
      res := UpsertEach(res, configs[i].resources);
    }
  }

  /** The shoot that a pass works on. */
  class Shoot {
    var annotations: Meta
    var labels: Meta
    var version: Option<Version>
    var controlPlane: Option<string>
    var imageUpdate: Option<bool>
    var extensions: seq<Extension>
    var resources: seq<Resource>
    var rest: map<string, string>

    constructor (f: Fields)
      ensures State() == f
    {
      annotations, labels := f.annotations, f.labels;
      version, controlPlane, imageUpdate := f.version, f.controlPlane, f.imageUpdate;
      extensions, resources, rest := f.extensions, f.resources, f.rest;
    }

    function State(): Fields
      reads this
    {
      Fields(annotations, labels, version, controlPlane, imageUpdate, extensions, resources, rest)
    }

    /** The template overrides what is not empty in it. */
    method MergeTemplate(t: Fields)
      modifies this
      ensures annotations == old(annotations) && labels == old(labels)
      ensures version == if t.version.Some? then t.version else old(version)
      ensures controlPlane == if t.controlPlane.Some? then t.controlPlane else old(controlPlane)
      ensures imageUpdate == MergedFlag(t.imageUpdate, old(imageUpdate))
      ensures extensions == Base(t.extensions, old(extensions))
      ensures resources == Base(t.resources, old(resources))
      ensures rest == old(rest) + t.rest
    {
      if t.version.Some? { version := t.version; }
      if t.controlPlane.Some? { controlPlane := t.controlPlane; }
      imageUpdate := MergedFlag(t.imageUpdate, imageUpdate);
      extensions, resources := Base(t.extensions, extensions), Base(t.resources, resources);
      rest := rest + t.rest;
    }

    method UpdateShootFields(inputs: Inputs)
      modifies this
      ensures State() == Generated(old(State()), inputs)
    {
      var template := inputs.template;
      ghost var base := Base(template.extensions, extensions);
      var oldControlPlane := controlPlane;
      annotations := EnsureMeta(annotations, EnforcedAnnotations(inputs));
      labels := EnsureMeta(labels, EnforcedLabels(inputs));
      var newVersion := ComputeK8sVersion(template.version, version);
      MergeTemplate(template);
      version := newVersion;
      if oldControlPlane.Some? { controlPlane := oldControlPlane; }
      if imageUpdate == Some(true) { imageUpdate := Some(false); }
      extensions := UpsertEach(extensions, EnforcedExtensions(inputs.enforced));
      UpsertAllConcat(base, EnforcedExtensions(inputs.enforced), ConfigExtensions(inputs.configs));
      extensions, resources := ApplyClusterConfigs(extensions, resources, inputs.configs);
    }
  }

  /** Updates a shoot that exists only if the pass has changed it. */
  method UpdateIfChanged(existing: Fields, inputs: Inputs) returns (stored: Fields, issued: bool)
    ensures stored == Generated(existing, inputs)
    ensures issued <==> !UpToDate(existing, inputs)
  {
    var shoot := new Shoot(existing);
    shoot.UpdateShootFields(inputs);
    stored := shoot.State();
    issued := stored != existing;
    UnchangedIffUpToDate(existing, inputs);
  }

  // ---------------------------------------------------------------------------------------------
  // Quiescence

  ghost predicate Has<K, V>(m: map<K, V>, entries: map<K, V>) {
    forall k :: k in entries ==> k in m && m[k] == entries[k]
  }

  /** A shoot that asks for no update. */
  ghost predicate UpToDate(s: Fields, inputs: Inputs) {
    var t := inputs.template;
    var writes := EnforcedExtensions(inputs.enforced) + ConfigExtensions(inputs.configs);
    && Has(s.annotations, EnforcedAnnotations(inputs))
    && Has(s.labels, EnforcedLabels(inputs))
    && (t.version.Some? ==> s.version.Some? && CompareReleases(t.version.value.release, s.version.value.release) <= 0)
    && (s.controlPlane.None? ==> t.controlPlane.None?)
    && s.imageUpdate != Some(true) && (s.imageUpdate.None? ==> t.imageUpdate.None?)
    && (if t.extensions == [] then Reflects(s.extensions, writes)
        else s.extensions == UpsertAll(t.extensions, writes))
    && (if t.resources == [] then Reflects(s.resources, ConfigResources(inputs.configs))
        else s.resources == UpsertAll(t.resources, ConfigResources(inputs.configs)))
    && Has(s.rest, t.rest)
  }

  lemma OverrideUnchangedIff<K, V>(m: map<K, V>, entries: map<K, V>)
    ensures m + entries == m <==> Has(m, entries)
  {}

  lemma VersionKeptIff(configured: Option<Version>, existing: Option<Version>)
    ensures ComputeK8sVersion(configured, existing) == existing <==>
            (configured.Some? ==>
               existing.Some? && CompareReleases(configured.value.release, existing.value.release) <= 0)
  {
    if configured.Some? { ReplacedIsOlder(configured, configured); }
  }

  lemma FlagKeptIff(template: Option<bool>, existing: Option<bool>)
    ensures FinalFlag(template, existing) == existing <==>
            existing != Some(true) && (existing.None? ==> template.None?)
    ensures FinalFlag(template, existing) != Some(true)
  {
    match existing
    case None =>
    case Some(b) => if !b { assert existing == Some(false); }
  }

  /** A pass leaves a shoot as it is exactly if the shoot is up to date. */
  lemma UnchangedIffUpToDate(s: Fields, inputs: Inputs)
    ensures Generated(s, inputs) == s <==> UpToDate(s, inputs)
  {
    var t := inputs.template;
    var writes := EnforcedExtensions(inputs.enforced) + ConfigExtensions(inputs.configs);
    OverrideUnchangedIff(s.annotations, EnforcedAnnotations(inputs));
    OverrideUnchangedIff(s.labels, EnforcedLabels(inputs));
    OverrideUnchangedIff(s.rest, t.rest);
    VersionKeptIff(t.version, s.version);
    UnchangedIff(s.extensions, writes);
    UnchangedIff(s.resources, ConfigResources(inputs.configs));
    FlagKeptIff(t.imageUpdate, s.imageUpdate);
  }

  /** Generating the fields a second time changes nothing, not even the order of a list. */
  lemma GeneratedTwice(s: Fields, inputs: Inputs)
    ensures Generated(Generated(s, inputs), inputs) == Generated(s, inputs)
  {
    var t, g := inputs.template, Generated(s, inputs);
    var again := Generated(g, inputs);
    var writes := EnforcedExtensions(inputs.enforced) + ConfigExtensions(inputs.configs);
    UpsertAllIdempotent(Base(t.extensions, s.extensions), writes);
    UpsertAllIdempotent(Base(t.resources, s.resources), ConfigResources(inputs.configs));
    assert again.extensions == g.extensions && again.resources == g.resources;
    assert again.annotations == g.annotations && again.labels == g.labels && again.rest == g.rest;
    assert again.version == g.version by {
      ReplacedIsOlder(t.version, s.version);
      VersionKeptIff(t.version, g.version);
    }
  }

  /** The number of updates that passes with the given inputs issue. */
  function Updates(s: Fields, runs: seq<Inputs>): nat
    decreases |runs|
  {
    if runs == [] then 0
    else (if Generated(s, runs[0]) == s then 0 else 1) + Updates(Generated(s, runs[0]), runs[1..])
  }

  /** As long as the inputs stay the same, all passes together issue at most one update, and none if
      the shoot is up to date to begin with. */
  lemma {:induction false} AtMostOneUpdate(s: Fields, runs: seq<Inputs>)
    requires forall r :: r in runs ==> r == runs[0]
    ensures Updates(s, runs) <= 1
    ensures runs != [] && UpToDate(s, runs[0]) ==> Updates(s, runs) == 0
    decreases |runs|
  {
    if runs != [] {
      var inputs, rest := runs[0], runs[1..];
      forall r | r in rest ensures r == rest[0] { assert rest[0] in runs && r in runs; }
      AtMostOneUpdate(Generated(s, inputs), rest);
      GeneratedTwice(s, inputs);
      UnchangedIffUpToDate(s, inputs);
      UnchangedIffUpToDate(Generated(s, inputs), inputs);
      assert rest != [] ==> rest[0] in runs;
    }
  }

  // ---------------------------------------------------------------------------------------------
  // Layers as overrides

  /** The settings of an extension type are those of the last layer that mentions it: the ClusterConfigs
      in order, then the enforced extensions, then the template or, if that has none, the shoot. */
  lemma ExtensionIsLastWriter(s: Fields, inputs: Inputs, key: ExtensionType)
    ensures var configs := LastWriter(ConfigExtensions(inputs.configs), key);
            var enforced := LastWriter(EnforcedExtensions(inputs.enforced), key);
            Lookup(Generated(s, inputs).extensions, key)
            == if configs.Some? then configs else if enforced.Some? then enforced
               else Lookup(Base(inputs.template.extensions, s.extensions), key)
  {
    var enforced, configs := EnforcedExtensions(inputs.enforced), ConfigExtensions(inputs.configs);
    LookupAfterUpsertAll(Base(inputs.template.extensions, s.extensions), enforced + configs, key);
    LastWriterConcat(enforced, configs, key);
  }

  lemma ResourceIsLastWriter(s: Fields, inputs: Inputs, key: string)
    ensures var configs := LastWriter(ConfigResources(inputs.configs), key);
            Lookup(Generated(s, inputs).resources, key)
            == if configs.Some? then configs else Lookup(Base(inputs.template.resources, s.resources), key)
  {
    LookupAfterUpsertAll(Base(inputs.template.resources, s.resources), ConfigResources(inputs.configs), key);
  }

  /** Extensions and resources keep their positions, and a type or name is added at most once. */
  lemma PositionsAreKept(s: Fields, inputs: Inputs)
    ensures var g := Generated(s, inputs);
            var types := Keys(Base(inputs.template.extensions, s.extensions));
            var names := Keys(Base(inputs.template.resources, s.resources));
            && types <= Keys(g.extensions) && names <= Keys(g.resources)
            && NoDuplicates(Keys(g.extensions)[|types|..]) && NoDuplicates(Keys(g.resources)[|names|..])
            && (forall k :: k in Keys(g.extensions)[|types|..] ==> k !in types)
            && (forall k :: k in Keys(g.resources)[|names|..] ==> k !in names)
  {
    var writes := EnforcedExtensions(inputs.enforced) + ConfigExtensions(inputs.configs);
    NewKeysFollow(Base(inputs.template.extensions, s.extensions), writes);
    NewKeysFollow(Base(inputs.template.resources, s.resources), ConfigResources(inputs.configs));
  }

  lemma {:induction false} NewKeysFollow<K(!new), V(!new)>(list: seq<Item<K, V>>, writes: seq<Item<K, V>>)
    ensures var before, after := Keys(list), Keys(UpsertAll(list, writes));
            before <= after && NoDuplicates(after[|before|..]) && forall k :: k in after[|before|..] ==> k !in before
  {
    var before, after := Keys(list), Keys(UpsertAll(list, writes));
    UpsertAllKeys(list, writes);
    NewKeysOnce(before, writes);
    assert after[|before|..] == NewKeys(before, writes);
  }

  // ---------------------------------------------------------------------------------------------
  // What no run of passes takes away

  function GeneratedBy(s: Fields, runs: seq<Inputs>): Fields
    decreases |runs|
  {
    if runs == [] then s else GeneratedBy(Generated(s, runs[0]), runs[1..])
  }

  ghost predicate Preserves(before: Fields, after: Fields) {
    && before.annotations.Keys <= after.annotations.Keys && before.labels.Keys <= after.labels.Keys
    && before.rest.Keys <= after.rest.Keys
    && (before.version.Some? ==> after.version.Some? && Ahead(before.version, after.version) <= 0)
    && (before.controlPlane.Some? ==> after.controlPlane == before.controlPlane)
    && (before.imageUpdate.Some? ==> after.imageUpdate.Some?)
  }

  /** Labels that name a Cluster, its provider and its environment. */
  ghost predicate NamesCluster(labels: Meta, c: Inputs) {
    Has(labels, map[ClusterName := c.name, ClusterNamespace := c.namespace,
                    ProviderName := c.provider, Environment := c.environment])
  }

  /** Whatever becomes of the template, the ClusterConfigs and the metadata of the Cluster, the passes
      never lower the version, change a control plane configuration or drop an annotation, a label
      or another field, and the shoot's labels name the last Cluster it was generated for. */
  lemma PassesPreserve(s: Fields, runs: seq<Inputs>)
    ensures var r := GeneratedBy(s, runs);
            && Preserves(s, r)
            && (runs != [] ==> r.imageUpdate != Some(true) && NamesCluster(r.labels, runs[|runs| - 1]))
  {
    RunPreserves(s, runs);
    if runs != [] {
      var earlier, last := runs[..|runs| - 1], runs[|runs| - 1];
      assert runs == earlier + [last];
      GeneratedByLast(s, earlier, last);
      PassPreserves(GeneratedBy(s, earlier), last);
    }
  }

  lemma {:induction false} RunPreserves(s: Fields, runs: seq<Inputs>)
    ensures Preserves(s, GeneratedBy(s, runs))
    decreases |runs|
  {
    if runs == [] {
      ReplacedIsOlder(s.version, s.version);
    } else {
      var next := Generated(s, runs[0]);
      PassPreserves(s, runs[0]);
      RunPreserves(next, runs[1..]);
      PreservesChains(s, next, GeneratedBy(s, runs));
    }
  }

  lemma {:induction false} GeneratedByLast(s: Fields, runs: seq<Inputs>, last: Inputs)
    ensures GeneratedBy(s, runs + [last]) == Generated(GeneratedBy(s, runs), last)
    decreases |runs|
  {
    var all := runs + [last];
    if runs == [] {
      assert all[1..] == [];
      assert GeneratedBy(s, all) == GeneratedBy(Generated(s, last), []);
    } else {
      assert all[1..] == runs[1..] + [last];
      GeneratedByLast(Generated(s, runs[0]), runs[1..], last);
    }
  }

  lemma PassPreserves(s: Fields, inputs: Inputs)
    ensures var g := Generated(s, inputs);
            Preserves(s, g) && g.imageUpdate != Some(true) && NamesCluster(g.labels, inputs)
  {
    ReplacedIsOlder(inputs.template.version, s.version);
    FlagKeptIff(inputs.template.imageUpdate, s.imageUpdate);
  }

  lemma PreservesChains(a: Fields, b: Fields, c: Fields)
    requires Preserves(a, b) && Preserves(b, c)
    ensures Preserves(a, c)
  {
    if a.version.Some? { AheadChains(a.version, b.version, c.version); }
  }
}
