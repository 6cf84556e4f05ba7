/** What the passes of the ProviderConfig and Landscape controllers come to in the registry and the queues, said
    over the objects and entries alone. */
module Registrations {
  import opened Common
  import opened Registry
  import opened WakeUp

  // ---------------------------------------------------------------------------------------------
  // ProviderConfigs

  /** The ProviderConfig is there, belongs to this provider, is not ignored and is not under deletion. */
  predicate LiveConfig(w: World, name: string) {
    name in w.api.pcs && w.api.pcs[name].mine && !w.api.pcs[name].ignored && !w.api.pcs[name].deleting
  }

  /** The calls of a pass over a ProviderConfig answer, and a Landscape it is about has a cluster handle. */
  predicate ConfigCallsAnswer(w: World, name: string, f: PcFaults) {
    && !f.getFails && !f.annotationFails && !f.finalizerFails && !f.profileDeleteFails && !f.clusterProfileFails
    && (LiveConfig(w, name) && w.api.pcs[name].spec.landscape in w.reg.landscapes ==>
          w.reg.landscapes[w.api.pcs[name].spec.landscape].handle.Some?)
  }

  /** The Landscape is registered with the project, and the CloudProfile is named and found. */
  predicate FindsEverything(w: World, name: string, f: PcFaults)
    requires LiveConfig(w, name)
  {
    var spec := w.api.pcs[name].spec;
    && spec.landscape in w.reg.landscapes && spec.project in w.reg.landscapes[spec.landscape].projects
    && f.cloudProfileNamed && f.cloudProfileFound
  }

  /** A pass whose calls answer leaves a ProviderConfig registered, with its current spec, exactly if it is live,
      and otherwise leaves neither an entry nor a profile. Objects under deletion leave the API, live ones hold
      the finalizer. */
  lemma LiveConfigsAreRegistered(w: World, name: string, f: PcFaults)
    requires ConfigCallsAnswer(w, name, f)
    ensures var w' := ConfigPass(w, name, f);
            && (name in w'.reg.configs <==> LiveConfig(w', name))
            && (LiveConfig(w', name) ==> w'.reg.configs[name] == w'.api.pcs[name].spec && w'.api.pcs[name].finalizer)
            && (LiveConfig(w', name) <==> LiveConfig(w, name))
            && (LiveConfig(w, name) ==> w'.api.pcs[name].spec == w.api.pcs[name].spec)
            && (!LiveConfig(w', name) ==> w.prefix + name !in w'.reg.profiles)
            && (name in w.api.pcs && w.api.pcs[name].mine && !w.api.pcs[name].ignored && w.api.pcs[name].deleting ==>
                  name !in w'.api.pcs)
  {}

  /** It renews the profile of a live ProviderConfig exactly if it finds everything, from the spec of the object,
      the namespace of the project and the versions of the CloudProfile, and otherwise leaves it as it was. */
  lemma ProfilesAreRenewed(w: World, name: string, f: PcFaults)
    requires ConfigCallsAnswer(w, name, f) && LiveConfig(w, name)
    ensures var w', spec, p := ConfigPass(w, name, f), w.api.pcs[name].spec, w.prefix + name;
            if FindsEverything(w, name, f) then
              var namespace := w.reg.landscapes[spec.landscape].projects[spec.project];
              p in w'.reg.profiles && w'.reg.profiles[p] == Profile(spec, namespace, f.versions)
            else
              && (p in w'.reg.profiles <==> p in w.reg.profiles)
              && (p in w.reg.profiles ==> w'.reg.profiles[p] == w.reg.profiles[p])
  {}

  /** A pass touches no other ProviderConfig, no other profile and no Landscape. */
  lemma OtherConfigsAreKept(w: World, name: string, f: PcFaults, n: string)
    requires n != name
    ensures var w' := ConfigPass(w, name, f);
            && w'.reg.landscapes == w.reg.landscapes && w'.api.landscapes == w.api.landscapes
            && w'.api.clusters == w.api.clusters
            && (n in w'.reg.configs <==> n in w.reg.configs)
            && (n in w.reg.configs ==> w'.reg.configs[n] == w.reg.configs[n])
            && (n in w'.api.pcs <==> n in w.api.pcs) && (n in w.api.pcs ==> w'.api.pcs[n] == w.api.pcs[n])
            && (w.prefix + n in w'.reg.profiles <==> w.prefix + n in w.reg.profiles)
            && (w.prefix + n in w.reg.profiles ==> w'.reg.profiles[w.prefix + n] == w.reg.profiles[w.prefix + n])
  {
    assert w.prefix + n != w.prefix + name by {
      if w.prefix + n == w.prefix + name { ProfileNamesAreInjective(w.prefix, n, name); }
    }
  }

  /** Where the platform cluster does not answer, the registry stays as it was, and so does an object that has a
      finalizer. */
  lemma UnansweredPassKeepsRegistry(w: World, name: string, f: PcFaults)
    requires || f.getFails
             || (name in w.api.pcs && w.api.pcs[name].mine && !w.api.pcs[name].ignored
                 && (f.annotationFails || (f.finalizerFails && (w.api.pcs[name].finalizer == w.api.pcs[name].deleting))
                     || (f.profileDeleteFails && w.api.pcs[name].deleting)))
    ensures var w' := ConfigPass(w, name, f);
            && w'.reg == w.reg && w'.mail.clusters == w.mail.clusters
            && (name in w.api.pcs ==> name in w'.api.pcs)
            && (name in w.api.pcs && w.api.pcs[name].finalizer ==> w'.api.pcs[name] == w.api.pcs[name])
  {}

  /** Clusters are woken by a pass exactly if it renews the profile, which was not registered or had another spec,
      and the list call answers; then all Clusters are that use the profile. */
  lemma ClustersAreNotified(w: World, name: string, f: PcFaults)
    requires ConfigCallsAnswer(w, name, f)
    ensures var p := w.prefix + name;
            var users := set k | k in w.api.clusters && w.api.clusters[k] == p;
            var renewed := LiveConfig(w, name) && FindsEverything(w, name, f)
                           && (p in w.reg.profiles ==> w.reg.profiles[p].spec != w.api.pcs[name].spec);
            ConfigPass(w, name, f).mail.clusters
            == if renewed && !f.clusterListFails then w.mail.clusters + users else w.mail.clusters
  {}

  // ---------------------------------------------------------------------------------------------
  // Landscapes

  predicate LandscapeCallsAnswer(f: LsFaults) {
    && !f.getFails && !f.annotationFails && !f.finalizerFails
    && !f.informer.removeFails && !f.informer.getFails
  }

  /** Some registered ProviderConfig refers to the Landscape. */
  ghost predicate IsUsed(w: World, name: string) {
    exists n :: n in w.reg.configs && w.reg.configs[n].landscape == name
  }

  /** A pass whose calls answer leaves a Landscape registered exactly if its object is there, is not ignored, and
      is not under deletion or still used: with the entry that was built, in the latter case without a handle. */
  lemma LandscapesAreRegistered(w: World, name: string, f: LsFaults)
    requires LandscapeCallsAnswer(f)
    ensures var w' := LandscapePass(w, name, f);
            var there := name in w.api.landscapes && !w.api.landscapes[name].ignored;
            && (name in w'.reg.landscapes <==> there && (!w.api.landscapes[name].deleting || IsUsed(w, name)))
            && (there && !w.api.landscapes[name].deleting ==>
                  w'.reg.landscapes[name] == f.built && name in w'.api.landscapes && w'.api.landscapes[name].finalizer)
            && (there && w.api.landscapes[name].deleting && IsUsed(w, name) ==>
                  w'.reg.landscapes[name] == f.built.(handle := None) && name in w'.api.landscapes)
            && (there && w.api.landscapes[name].deleting && !IsUsed(w, name) ==> name !in w'.api.landscapes)
            && (forall n :: n != name ==>
                  && (n in w'.reg.landscapes <==> n in w.reg.landscapes)
                  && (n in w.reg.landscapes ==> w'.reg.landscapes[n] == w.reg.landscapes[n]))
            && w'.reg.configs == w.reg.configs && w'.reg.profiles == w.reg.profiles
  {}

  /** Where the informer of the old entry cannot be removed, the entry of a Landscape that is not under deletion keeps
      its handle, and learns the new availability and projects all the same. */
  lemma StuckEntryIsRefreshed(w: World, name: string, f: LsFaults)
    requires !f.getFails && !f.annotationFails && !f.finalizerFails && f.informer.removeFails
    requires name in w.api.landscapes && !w.api.landscapes[name].ignored && !w.api.landscapes[name].deleting
    requires name in w.reg.landscapes && w.reg.landscapes[name].handle.Some?
    ensures var w' := LandscapePass(w, name, f);
            && name in w'.reg.landscapes
            && var entry := w'.reg.landscapes[name];
            && entry.handle == w.reg.landscapes[name].handle
            && entry.available == f.built.available && entry.projects == f.built.projects
  {}

  /** Whether a Landscape is registered, and if so, whether it is available. */
  function Availability(landscapes: Landscapes, name: string): Option<bool> {
    if name in landscapes then Some(landscapes[name].available) else None
  }

  /** ProviderConfigs are woken by a pass exactly if an entry appears, disappears or changes its availability;
      then all registered ones are that refer to the Landscape. */
  lemma ConfigsAreNotified(w: World, name: string, f: LsFaults)
    requires LandscapeCallsAnswer(f)
    ensures var w' := LandscapePass(w, name, f);
            var users := set n | n in w.reg.configs && w.reg.configs[n].landscape == name;
            && w'.mail.clusters == w.mail.clusters
            && w'.mail.configs
               == if Availability(w'.reg.landscapes, name) != Availability(w.reg.landscapes, name)
                  then w.mail.configs + users else w.mail.configs
  {}

  /** Where the platform cluster does not answer, objects and registry stay as they were. The ProviderConfigs of
      a registered Landscape are woken all the same, as if its entry had disappeared. */
  lemma UnansweredLandscapePassKeepsRegistry(w: World, name: string, f: LsFaults)
    requires || f.getFails
             || (name in w.api.landscapes && !w.api.landscapes[name].ignored && f.annotationFails)
    ensures var w' := LandscapePass(w, name, f);
            var users := set n | n in w.reg.configs && w.reg.configs[n].landscape == name;
            && w'.api == w.api && w'.reg == w.reg && w'.mail.clusters == w.mail.clusters
            && w'.mail.configs == if name in w.reg.landscapes then w.mail.configs + users else w.mail.configs
  {}
}
