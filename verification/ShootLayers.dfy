/** What a generated shoot has in the end, layer by layer: the values that are enforced whatever else is said,
    and who wins where several layers speak. */
module ShootLayers {
  import opened Common
  import opened Versions
  import opened KeyedLists
  import opened ShootFields

  // ---------------------------------------------------------------------------------------------
  // Last writers

  /** Position `i` is the last one with its key. */
  ghost predicate IsLast<K(!new), V>(writes: seq<Item<K, V>>, i: nat) {
    i < |writes| && forall j :: i < j < |writes| ==> writes[j].key != writes[i].key
  }

  ghost predicate Mentions<K(!new), V>(writes: seq<Item<K, V>>, key: K) {
    exists i :: 0 <= i < |writes| && writes[i].key == key
  }

  lemma {:induction false} LastIsLastWriter<K(!new), V(!new)>(writes: seq<Item<K, V>>, i: nat)
    requires IsLast(writes, i)
    ensures LastWriter(writes, writes[i].key) == Some(writes[i].value)
    decreases |writes|
  {
    var rest := writes[1..];
    if i > 0 {
      forall j | i - 1 < j < |rest| ensures rest[j].key != rest[i - 1].key { assert rest[j] == writes[j + 1]; }
      LastIsLastWriter(rest, i - 1);
    } else {
      NotMentioned(rest, writes[0].key);
    }
  }

  lemma {:induction false} NotMentioned<K(!new), V(!new)>(writes: seq<Item<K, V>>, key: K)
    requires !Mentions(writes, key)
    ensures LastWriter(writes, key) == None
    decreases |writes|
  {
    if writes != [] {
      assert writes[0].key != key;
      forall j | 0 <= j < |writes| - 1 ensures writes[1..][j].key != key { assert writes[1..][j] == writes[j + 1]; }
      NotMentioned(writes[1..], key);
    }
  }

  // ---------------------------------------------------------------------------------------------
  // ClusterConfigs

  ghost predicate ConfigsMention(configs: seq<ClusterConfig>, key: ExtensionType) {
    exists i :: 0 <= i < |configs| && Mentions(configs[i].extensions, key)
  }

  ghost predicate ConfigsMentionResource(configs: seq<ClusterConfig>, key: string) {
    exists i :: 0 <= i < |configs| && Mentions(configs[i].resources, key)
  }

  lemma {:induction false} NoConfigWrites(configs: seq<ClusterConfig>, key: ExtensionType)
    requires !ConfigsMention(configs, key)
    ensures LastWriter(ConfigExtensions(configs), key) == None
    decreases |configs|
  {
    if configs != [] {
      assert !Mentions(configs[0].extensions, key);
      forall j | 0 <= j < |configs| - 1 ensures !Mentions(configs[1..][j].extensions, key) {
        assert configs[1..][j] == configs[j + 1];
      }
      NotMentioned(configs[0].extensions, key);
      NoConfigWrites(configs[1..], key);
      LastWriterConcat(configs[0].extensions, ConfigExtensions(configs[1..]), key);
    }
  }

  lemma {:induction false} NoConfigWritesResource(configs: seq<ClusterConfig>, key: string)
    requires !ConfigsMentionResource(configs, key)
    ensures LastWriter(ConfigResources(configs), key) == None
    decreases |configs|
  {
    if configs != [] {
      assert !Mentions(configs[0].resources, key);
      forall j | 0 <= j < |configs| - 1 ensures !Mentions(configs[1..][j].resources, key) {
        assert configs[1..][j] == configs[j + 1];
      }
      NotMentioned(configs[0].resources, key);
      NoConfigWritesResource(configs[1..], key);
      LastWriterConcat(configs[0].resources, ConfigResources(configs[1..]), key);
    }
  }

  lemma {:induction false} ConfigWritesLast(configs: seq<ClusterConfig>, c: nat, i: nat)
    requires c < |configs| && IsLast(configs[c].extensions, i)
    requires !ConfigsMention(configs[c + 1..], configs[c].extensions[i].key)
    ensures LastWriter(ConfigExtensions(configs), configs[c].extensions[i].key) == Some(configs[c].extensions[i].value)
    decreases |configs|
  {
    var e := configs[c].extensions[i];
    LastWriterConcat(configs[0].extensions, ConfigExtensions(configs[1..]), e.key);
    if c == 0 {
      LastIsLastWriter(configs[0].extensions, i);
      NoConfigWrites(configs[1..], e.key);
    } else {
      assert configs[1..][c - 1] == configs[c] && configs[1..][c..] == configs[c + 1..];
      ConfigWritesLast(configs[1..], c - 1, i);
    }
  }

  lemma {:induction false} ConfigWritesResourceLast(configs: seq<ClusterConfig>, c: nat, i: nat)
    requires c < |configs| && IsLast(configs[c].resources, i)
    requires !ConfigsMentionResource(configs[c + 1..], configs[c].resources[i].key)
    ensures LastWriter(ConfigResources(configs), configs[c].resources[i].key) == Some(configs[c].resources[i].value)
    decreases |configs|
  {
    var e := configs[c].resources[i];
    LastWriterConcat(configs[0].resources, ConfigResources(configs[1..]), e.key);
    if c == 0 {
      LastIsLastWriter(configs[0].resources, i);
      NoConfigWritesResource(configs[1..], e.key);
    } else {
      assert configs[1..][c - 1] == configs[c] && configs[1..][c..] == configs[c + 1..];
      ConfigWritesResourceLast(configs[1..], c - 1, i);
    }
  }

  // ---------------------------------------------------------------------------------------------
  // Extensions and resources

  /** Without a list of enforced extensions a shoot has the OIDC extension in its default form, unless a
      ClusterConfig says otherwise. */
  lemma OidcIsEnforcedByDefault(s: Fields, inputs: Inputs)
    requires inputs.enforced == None && !ConfigsMention(inputs.configs, OidcService)
    ensures Lookup(Generated(s, inputs).extensions, OidcService) == Some(ExtensionSettings(None, None))
  {
    var oidc: Extension := Item(OidcService, ExtensionSettings(None, None));
    ExtensionIsLastWriter(s, inputs, OidcService);
    NoConfigWrites(inputs.configs, OidcService);
    LastIsLastWriter([oidc], 0);
  }

  /** With such a list each of its types has the settings that are listed last for it, unless a ClusterConfig
      says otherwise. */
  lemma EnforcedListCounts(s: Fields, inputs: Inputs, i: nat)
    requires inputs.enforced.Some? && IsLast(inputs.enforced.value, i)
    requires !ConfigsMention(inputs.configs, inputs.enforced.value[i].key)
    ensures var e := inputs.enforced.value[i];
            Lookup(Generated(s, inputs).extensions, e.key) == Some(e.value)
  {
    var key := inputs.enforced.value[i].key;
    ExtensionIsLastWriter(s, inputs, key);
    NoConfigWrites(inputs.configs, key);
    LastIsLastWriter(inputs.enforced.value, i);
  }

  /** A ClusterConfig has the last word on the types it mentions, unless a later one mentions them too. */
  lemma LastConfigCounts(s: Fields, inputs: Inputs, c: nat, i: nat)
    requires c < |inputs.configs| && IsLast(inputs.configs[c].extensions, i)
    requires !ConfigsMention(inputs.configs[c + 1..], inputs.configs[c].extensions[i].key)
    ensures var e := inputs.configs[c].extensions[i];
            Lookup(Generated(s, inputs).extensions, e.key) == Some(e.value)
  {
    ExtensionIsLastWriter(s, inputs, inputs.configs[c].extensions[i].key);
    ConfigWritesLast(inputs.configs, c, i);
  }

  lemma LastConfigCountsForResource(s: Fields, inputs: Inputs, c: nat, i: nat)
    requires c < |inputs.configs| && IsLast(inputs.configs[c].resources, i)
    requires !ConfigsMentionResource(inputs.configs[c + 1..], inputs.configs[c].resources[i].key)
    ensures var e := inputs.configs[c].resources[i];
            Lookup(Generated(s, inputs).resources, e.key) == Some(e.value)
  {
    ResourceIsLastWriter(s, inputs, inputs.configs[c].resources[i].key);
    ConfigWritesResourceLast(inputs.configs, c, i);
  }

  /** Types that are neither enforced nor mentioned by a ClusterConfig are as in the template or, if that lists
      no extension at all, as they were. */
  lemma OtherExtensionsAreKept(s: Fields, inputs: Inputs, key: ExtensionType)
    requires !ConfigsMention(inputs.configs, key)
    requires if inputs.enforced.None? then key != OidcService else !Mentions(inputs.enforced.value, key)
    ensures Lookup(Generated(s, inputs).extensions, key)
            == if inputs.template.extensions != [] then Lookup(inputs.template.extensions, key)
               else Lookup(s.extensions, key)
  {
    var oidc: Extension := Item(OidcService, ExtensionSettings(None, None));
    ExtensionIsLastWriter(s, inputs, key);
    NoConfigWrites(inputs.configs, key);
    NotMentioned(if inputs.enforced.None? then [oidc] else inputs.enforced.value, key);
  }

  /** With an empty list and no ClusterConfigs nothing is added at all. */
  lemma EmptyListEnforcesNothing(s: Fields, inputs: Inputs)
    requires inputs.enforced == Some([]) && inputs.configs == []
    ensures Generated(s, inputs).extensions
            == if inputs.template.extensions != [] then inputs.template.extensions else s.extensions
    ensures Generated(s, inputs).resources
            == if inputs.template.resources != [] then inputs.template.resources else s.resources
  {}

  // ---------------------------------------------------------------------------------------------
  // Metadata and other fields

  /** The value of a key in the highest of three layers that has it: the template, the metadata that the Cluster
      passes on, the shoot. */
  function Layered(key: MetaKey, template: Meta, cluster: Meta, shoot: Meta): Option<string> {
    if key in template then Some(template[key])
    else if key.MetadataKey? && key in cluster then Some(cluster[key])
    else if key in shoot then Some(shoot[key])
    else None
  }

  function Value<K, V>(m: map<K, V>, key: K): Option<V> {
    if key in m then Some(m[key]) else None
  }

  lemma Overridden<K, V>(m: map<K, V>, entries: map<K, V>, key: K)
    ensures Value(m + entries, key) == if key in entries then Some(entries[key]) else Value(m, key)
  {}

  /** What three layers under fixed entries come to. */
  lemma FixedOverLayers(key: MetaKey, template: Meta, cluster: Meta, shoot: Meta, fixed: Meta)
    ensures Value(shoot + (Passed(cluster) + template + fixed), key)
            == if key in fixed then Some(fixed[key]) else Layered(key, template, cluster, shoot)
  {
    Overridden(shoot, Passed(cluster) + template + fixed, key);
    Overridden(Passed(cluster) + template, fixed, key);
    Overridden(Passed(cluster), template, key);
  }

  /** Three annotations are fixed, whatever template, Cluster and shoot say; for all others the template beats
      the Cluster, which beats the shoot. */
  lemma AnnotationsAreLayered(s: Fields, inputs: Inputs, key: MetaKey)
    ensures Value(Generated(s, inputs).annotations, key)
            == match key
               case GracePeriod => Some("30")
               case AuthenticationIssuer => Some("managed")
               case AuthenticationTrusted => Some("true")
               case _ => Layered(key, inputs.template.annotations, inputs.annotations, s.annotations)
  {
    var fixed: Meta := map[GracePeriod := "30", AuthenticationIssuer := "managed", AuthenticationTrusted := "true"];
    FixedOverLayers(key, inputs.template.annotations, inputs.annotations, s.annotations, fixed);
    assert EnforcedAnnotations(inputs) == Passed(inputs.annotations) + inputs.template.annotations + fixed;
  }

  /** Four labels are fixed, and the others are layered in the same way. */
  lemma LabelsAreLayered(s: Fields, inputs: Inputs, key: MetaKey)
    ensures Value(Generated(s, inputs).labels, key)
            == match key
               case ClusterName => Some(inputs.name)
               case ClusterNamespace => Some(inputs.namespace)
               case ProviderName => Some(inputs.provider)
               case Environment => Some(inputs.environment)
               case _ => Layered(key, inputs.template.labels, inputs.labels, s.labels)
  {
    var fixed: Meta := map[ClusterName := inputs.name, ClusterNamespace := inputs.namespace,
                           ProviderName := inputs.provider, Environment := inputs.environment];
    FixedOverLayers(key, inputs.template.labels, inputs.labels, s.labels, fixed);
    assert EnforcedLabels(inputs) == Passed(inputs.labels) + inputs.template.labels + fixed;
  }

  /** The template overrides the other fields it sets, but neither an existing control plane configuration nor
      a version that is not lower, and machine image updates are off wherever the flag is set. */
  lemma OtherFieldsAreLayered(s: Fields, inputs: Inputs, path: string)
    ensures var g, t := Generated(s, inputs), inputs.template;
            && Value(g.rest, path) == (if path in t.rest then Some(t.rest[path]) else Value(s.rest, path))
            && g.controlPlane == (if s.controlPlane.Some? then s.controlPlane else t.controlPlane)
            && g.imageUpdate == (if s.imageUpdate.None? && t.imageUpdate.None? then None else Some(false))
            && g.version
               == if s.version.None? || (t.version.Some? && Lower(s.version.value.release, t.version.value.release))
                  then t.version else s.version
  {
    FlagIsOff(inputs.template.imageUpdate, s.imageUpdate);
    if s.version.Some? && inputs.template.version.Some? {
      ReleasesCompareIff(inputs.template.version.value.release, s.version.value.release);
    }
  }

  lemma FlagIsOff(template: Option<bool>, existing: Option<bool>)
    ensures FinalFlag(template, existing) == if existing.None? && template.None? then None else Some(false)
  {
    FlagKeptIff(template, existing);
    var r := FinalFlag(template, existing);
    if r.Some? { assert r.value != true; }
  }
}
