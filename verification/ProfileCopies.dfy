/** Profiles on the heap: what the registry hands out and takes in are deep copies, so nobody else can
    change what it holds. */
module ProfileCopies {

  datatype K8sVersion = K8sVersion(version: string, deprecated: bool)

  /** What a profile says, as opposed to the objects it consists of. */
  datatype Content = Content(project: string, versions: seq<K8sVersion>, template: string)

  class ProviderConfig {
    var template: string

    constructor (template: string)
      ensures this.template == template
    {
      this.template := template;
    }
  }

  class Profile {
    var project: string
    var versions: array<K8sVersion>
    var config: ProviderConfig

    constructor (project: string, versions: array<K8sVersion>, config: ProviderConfig)
      ensures this.project == project && this.versions == versions && this.config == config
    {
      this.project, this.versions, this.config := project, versions, config;
    }

    /** The objects a profile consists of. */
    ghost function Parts(): set<object>
      reads this
    {
      {this, versions, config}
    }

    ghost function View(): Content
      reads this, versions, config
    {
      Content(project, versions[..], config.template)
    }

    method DeepCopy() returns (copy: Profile)
      ensures fresh(copy.Parts()) && copy.View() == View()
    {
      var vs := new K8sVersion[versions.Length](_ => K8sVersion("", false));
      for i := 0 to versions.Length
        invariant vs[..i] == versions[..i]
      {
        vs[i] := versions[i];
        assert vs[..i + 1] == vs[..i] + [vs[i]];
      }
      assert vs[..] == versions[..];
      var c := new ProviderConfig(config.template);
      copy := new Profile(project, vs, c);
    }
  }

  class ProfileRegistry {
    ghost var contents: map<string, Content>
    ghost var parts: set<object>
    var profiles: map<string, Profile>

    /** `contents` is what the registered profiles say, and `parts` what they consist of. */
    ghost predicate Valid()
      reads this, parts
    {
      && this !in parts
      && profiles.Keys == contents.Keys
      && (forall n :: n in profiles ==> profiles[n] in parts && profiles[n].Parts() <= parts)
      && (forall n :: n in profiles ==> profiles[n].View() == contents[n])
    }

    constructor ()
      ensures Valid() && contents == map[] && fresh(parts)
    {
      profiles, contents, parts := map[], map[], {};
    }

    /** Registers a copy of a profile. */
    method SetProfile(name: string, profile: Profile)
      requires Valid()
      modifies this
      ensures Valid() && contents == old(contents)[name := profile.View()]
      ensures fresh(parts - old(parts))
    {
      var copy := profile.DeepCopy();
      profiles := profiles[name := copy];
      contents := contents[name := copy.View()];
      parts := parts + copy.Parts();
    }

    /** Hands out a copy of a profile, if there is one. */
    method GetProfile(name: string) returns (profile: Profile?)
      requires Valid()
      ensures profile == null <==> name !in contents
      ensures profile != null ==> fresh(profile.Parts()) && profile.View() == contents[name]
    {
      if name !in profiles { return null; }
      profile := profiles[name].DeepCopy();
    }
  }

  /** Whoever writes only to objects that are not part of the registry leaves it valid, with the contents
      it had: the profile it was given, and the ones it handed out, can be changed at will. */
  twostate lemma OutsideWritesDoNotReachIn(registry: ProfileRegistry)
    requires old(registry.Valid())
    requires unchanged(registry) && forall o :: o in old(registry.parts) ==> unchanged(o)
    ensures registry.Valid() && registry.contents == old(registry.contents)
  {}

  /** A caller that changes everything about a profile it was handed out. */
  method ChangeCopy(registry: ProfileRegistry, name: string, project: string, template: string, version: K8sVersion)
      returns (profile: Profile?)
    requires registry.Valid()
    ensures registry.Valid() && registry.contents == old(registry.contents)
    ensures profile != null ==> profile.project == project && profile.config.template == template
  {
    profile := registry.GetProfile(name);
    if profile != null {
      profile.project := project;
      profile.config.template := template;
      for i := 0 to profile.versions.Length
        invariant registry.Valid() && registry.contents == old(registry.contents)
        invariant fresh(profile.Parts()) && profile.project == project && profile.config.template == template
        modifies profile.versions
      {
        profile.versions[i] := version;
      }
    }
  }
}
