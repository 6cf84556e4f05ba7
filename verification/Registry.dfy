/** The in-memory registry the four controllers share: ProviderConfigs, landscapes with their Shoot
    watches, and profiles. */
module Registry {
  import opened Common

  /** The part of a ProviderConfig spec the registry is asked about, and the rest of it. */
  datatype PcSpec = PcSpec(landscape: string, project: string, template: string)

  datatype Profile = Profile(spec: PcSpec, ns: string, versions: seq<string>)

  /** A registered landscape: its cluster handle, if there is one, the token that stops its watch, its
      availability and the namespaces of its projects. */
  datatype Landscape = Landscape(handle: Option<nat>, token: nat, available: bool, projects: map<string, string>)

  datatype Watch = Watch(name: string, handle: nat)

  type Landscapes = map<string, Landscape>

  /** How the informer calls of a registration turn out. */
  datatype InformerFaults = InformerFaults(removeFails: bool, getFails: bool)

  /** The old entry holds a handle, and its informer cannot be removed. */
  predicate Stuck(landscapes: Landscapes, name: string, f: InformerFaults) {
    name in landscapes && landscapes[name].handle.Some? && f.removeFails
  }

  function UnsetEntry(landscapes: Landscapes, name: string, f: InformerFaults): Landscapes {
    if Stuck(landscapes, name, f) then landscapes else landscapes - {name}
  }

  predicate Registers(landscapes: Landscapes, name: string, l: Landscape, f: InformerFaults) {
    !Stuck(landscapes, name, f) && (l.handle.None? || !f.getFails)
  }

  function SetEntry(landscapes: Landscapes, name: string, l: Landscape, f: InformerFaults): Landscapes {
    if Registers(landscapes, name, l, f) then landscapes[name := l] else UnsetEntry(landscapes, name, f)
  }

  // ---------------------------------------------------------------------------------------------
  // Watches

  /** Running watches, by token. */
  type Watches = map<nat, Watch>

  /** The watch of an entry with a handle is stopped first, whether or not the rest succeeds. */
  function StopWatch(landscapes: Landscapes, running: Watches, name: string): Watches {
    if name in landscapes && landscapes[name].handle.Some? then running - {landscapes[name].token} else running
  }

  function StartWatch(landscapes: Landscapes, running: Watches, name: string, l: Landscape,
      f: InformerFaults): Watches {
    var stopped := StopWatch(landscapes, running, name);
    if Registers(landscapes, name, l, f) && l.handle.Some? then
      stopped[l.token := Watch(name, l.handle.value)]
    else stopped
  }

  /** Every running watch is the one of the landscape registered under its name, and tokens are fresh. */
  ghost predicate WatchesMatch(landscapes: Landscapes, running: Watches, next: nat) {
    && (forall t :: t in running ==>
          && running[t].name in landscapes
          && landscapes[running[t].name].token == t
          && landscapes[running[t].name].handle == Some(running[t].handle))
    && (forall n :: n in landscapes ==> landscapes[n].token < next)
    && (forall n, n' :: n in landscapes && n' in landscapes && landscapes[n].token == landscapes[n'].token ==> n == n')
  }

  /** Every registered landscape with a handle is watched. */
  ghost predicate AllWatched(landscapes: Landscapes, running: Watches) {
    forall n :: n in landscapes && landscapes[n].handle.Some? ==> landscapes[n].token in running
  }

  datatype Op =
    | Set(name: string, handle: Option<nat>, available: bool, projects: map<string, string>, f: InformerFaults)
    | Unset(name: string, f: InformerFaults)

  datatype WatchState = WatchState(landscapes: Landscapes, running: Watches, next: nat)

  ghost predicate Matches(s: WatchState) {
    WatchesMatch(s.landscapes, s.running, s.next)
  }

  function Operate(s: WatchState, op: Op): WatchState {
    match op
    case Set(name, handle, available, projects, f) =>
      var l := Landscape(handle, s.next, available, projects);
      WatchState(SetEntry(s.landscapes, name, l, f), StartWatch(s.landscapes, s.running, name, l, f), s.next + 1)
    case Unset(name, f) =>
      WatchState(UnsetEntry(s.landscapes, name, f), StopWatch(s.landscapes, s.running, name), s.next)
  }

  function OperateAll(s: WatchState, ops: seq<Op>): WatchState
    decreases |ops|
  {
    if ops == [] then s else OperateAll(Operate(s, ops[0]), ops[1..])
  }

  ghost predicate Unwatched(running: Watches, name: string) {
    forall t :: t in running ==> running[t].name != name
  }

  /** Stopping the watch of an entry, whether or not the entry goes too. */
  lemma StoppingKeepsMatch(landscapes: Landscapes, running: Watches, next: nat, name: string, drop: bool)
    requires WatchesMatch(landscapes, running, next)
    ensures var stopped := StopWatch(landscapes, running, name);
            && Unwatched(stopped, name)
            && WatchesMatch(if drop then landscapes - {name} else landscapes, stopped, next)
  {
    var stopped := StopWatch(landscapes, running, name);
    forall t | t in stopped ensures t in running && running[t].name != name {
      assert landscapes[running[t].name].token == t;
    }
  }

  lemma AddingKeepsMatch(landscapes: Landscapes, running: Watches, name: string, l: Landscape)
    requires WatchesMatch(landscapes, running, l.token) && Unwatched(running, name)
    ensures WatchesMatch(landscapes[name := l],
                         if l.handle.Some? then running[l.token := Watch(name, l.handle.value)] else running,
                         l.token + 1)
  {
    var entries := landscapes[name := l];
    forall n | n in entries ensures n == name || (n in landscapes && entries[n] == landscapes[n]) {}
    forall t | t in running ensures t != l.token && entries[running[t].name] == landscapes[running[t].name] {}
  }

  lemma OperateKeepsMatch(s: WatchState, op: Op)
    requires Matches(s)
    ensures Matches(Operate(s, op))
  {
    var drop := !Stuck(s.landscapes, op.name, op.f);
    StoppingKeepsMatch(s.landscapes, s.running, s.next, op.name, drop);
    match op
    case Unset(_, _) =>
    case Set(name, handle, available, projects, f) =>
      var l := Landscape(handle, s.next, available, projects);
      if Registers(s.landscapes, name, l, f) {
        AddingKeepsMatch(s.landscapes - {name}, StopWatch(s.landscapes, s.running, name), name, l);
        assert (s.landscapes - {name})[name := l] == s.landscapes[name := l];
      }
  }

  /** Over every sequence of registrations and removals, whatever informer calls fail, at most one watch
      runs per landscape name, and it watches the cluster registered under that name. */
  lemma {:induction false} OneWatchPerLandscape(ops: seq<Op>, s: WatchState, t: nat, t': nat)
    requires Matches(s)
    ensures Matches(OperateAll(s, ops))
    ensures var now := OperateAll(s, ops);
            t in now.running && t' in now.running && now.running[t].name == now.running[t'].name ==> t == t'
    decreases |ops|
  {
    if ops != [] {
      OperateKeepsMatch(s, ops[0]);
      OneWatchPerLandscape(ops[1..], Operate(s, ops[0]), t, t');
    }
  }

  /** If all landscapes were watched before an operation, they are watched after it if and only if it
      does not get stuck on an informer that cannot be removed. */
  lemma AllWatchedIff(s: WatchState, op: Op)
    requires Matches(s) && AllWatched(s.landscapes, s.running)
    ensures var s' := Operate(s, op);
            AllWatched(s'.landscapes, s'.running) <==> !Stuck(s.landscapes, op.name, op.f)
  {
    var s' := Operate(s, op);
    if Stuck(s.landscapes, op.name, op.f) {
      assert op.name in s'.landscapes && s'.landscapes[op.name].token !in s'.running;
    } else {
      forall n | n in s'.landscapes && s'.landscapes[n].handle.Some? ensures s'.landscapes[n].token in s'.running {
        if n != op.name { assert s.landscapes[n].token in s.running; }
      }
    }
  }

  ghost predicate NoneStuck(s: WatchState, ops: seq<Op>)
    decreases |ops|
  {
    ops == [] || (!Stuck(s.landscapes, ops[0].name, ops[0].f) && NoneStuck(Operate(s, ops[0]), ops[1..]))
  }

  /** As long as every informer can be removed, exactly the registered landscapes with a handle are
      watched, even if new informers cannot be had. */
  lemma {:induction false} WatchesAreExact(ops: seq<Op>, s: WatchState, n: string)
    requires Matches(s) && AllWatched(s.landscapes, s.running) && NoneStuck(s, ops)
    ensures var now := OperateAll(s, ops);
            IsWatched(now, n) <==> n in now.landscapes && now.landscapes[n].handle.Some?
    decreases |ops|
  {
    if ops != [] {
      OperateKeepsMatch(s, ops[0]);
      AllWatchedIff(s, ops[0]);
      WatchesAreExact(ops[1..], Operate(s, ops[0]), n);
    } else if n in s.landscapes && s.landscapes[n].handle.Some? {
      var t := s.landscapes[n].token;
      assert t in s.running;
      assert s.landscapes[s.running[t].name].token == s.landscapes[n].token;
    }
  }

  ghost predicate IsWatched(s: WatchState, name: string) {
    exists t :: t in s.running && s.running[t].name == name
  }

  lemma OtherOpKeeps(s: WatchState, op: Op, name: string)
    requires Matches(s) && op.name != name
    ensures var s' := Operate(s, op);
            && (name in s'.landscapes <==> name in s.landscapes)
            && (IsWatched(s', name) <==> IsWatched(s, name))
  {
    var s' := Operate(s, op);
    forall t | t in s.running && s.running[t].name == name ensures t in s'.running && s'.running[t] == s.running[t] {
      assert s.landscapes[name].token == t;
    }
    forall t | t in s'.running && s'.running[t].name == name ensures t in s.running && s.running[t] == s'.running[t] {}
  }

  /** Whether the operation succeeds in registering a landscape with a handle. */
  predicate StartsAnew(s: WatchState, op: Op) {
    op.Set? && op.handle.Some?
    && Registers(s.landscapes, op.name, Landscape(op.handle, s.next, op.available, op.projects), op.f)
  }

  /** Whether the name is registered after the operation, be it anew or as a stuck old entry. */
  predicate Leaves(s: WatchState, op: Op) {
    || Stuck(s.landscapes, op.name, op.f)
    || (op.Set? && Registers(s.landscapes, op.name, Landscape(op.handle, s.next, op.available, op.projects), op.f))
  }

  lemma OperationDecides(s: WatchState, op: Op)
    requires Matches(s)
    ensures IsWatched(Operate(s, op), op.name) <==> StartsAnew(s, op)
    ensures op.name in Operate(s, op).landscapes <==> Leaves(s, op)
  {
    var s' := Operate(s, op);
    StoppingKeepsMatch(s.landscapes, s.running, s.next, op.name, false);
    if StartsAnew(s, op) {
      assert s.next in s'.running && s'.running[s.next].name == op.name;
    }
  }

  /** What an operation comes to, said over the entries alone. An old entry with a handle whose informer cannot be
      removed stays as it is, without a watch. Otherwise a removal drops the entry; a registration replaces it, and
      starts a watch on the new handle if there is one, unless the new informer cannot be had, which drops it. */
  lemma OperationOutcome(s: WatchState, op: Op)
    requires Matches(s)
    ensures var s', old_ := Operate(s, op), s.landscapes;
            if op.name in old_ && old_[op.name].handle.Some? && op.f.removeFails then
              op.name in s'.landscapes && s'.landscapes[op.name] == old_[op.name] && !IsWatched(s', op.name)
            else if op.Unset? || (op.handle.Some? && op.f.getFails) then
              op.name !in s'.landscapes && !IsWatched(s', op.name)
            else
              && op.name in s'.landscapes && s'.landscapes[op.name].handle == op.handle
              && s'.landscapes[op.name].available == op.available && s'.landscapes[op.name].projects == op.projects
              && (IsWatched(s', op.name) <==> op.handle.Some?)
    ensures forall n :: n != op.name ==>
              && (n in Operate(s, op).landscapes <==> n in s.landscapes)
              && (n in s.landscapes ==> Operate(s, op).landscapes[n] == s.landscapes[n])
  {
    OperationDecides(s, op);
  }

  /** Over every sequence of operations the last one on a name decides: afterwards the landscape is
      watched if and only if that one was a successful registration with a handle, and it is registered
      if and only if it was a successful registration or got stuck on the old entry. So a registration
      that fails always loses the watch of a landscape that was watched, loses its entry too unless that
      is stuck, and only the next successful registration restores them. */
  lemma {:induction false} LastOperationDecides(s: WatchState, op: Op, later: seq<Op>)
    requires Matches(s) && forall o :: o in later ==> o.name != op.name
    ensures var now := OperateAll(s, [op] + later);
            && (IsWatched(now, op.name) <==> StartsAnew(s, op))
            && (op.name in now.landscapes <==> Leaves(s, op))
  {
    OperationDecides(s, op);
    OperateKeepsMatch(s, op);
    OthersKeep(Operate(s, op), later, op.name);
    assert ([op] + later)[1..] == later;
  }

  lemma {:induction false} OthersKeep(s: WatchState, ops: seq<Op>, name: string)
    requires Matches(s) && forall o :: o in ops ==> o.name != name
    ensures var now := OperateAll(s, ops);
            && (name in now.landscapes <==> name in s.landscapes)
            && (IsWatched(now, name) <==> IsWatched(s, name))
    decreases |ops|
  {
    if ops != [] {
      assert ops[0] in ops;
      OtherOpKeeps(s, ops[0], name);
      OperateKeepsMatch(s, ops[0]);
      OthersKeep(Operate(s, ops[0]), ops[1..], name);
    }
  }

  /** The registry at its start. */
  function NoLandscapes(): WatchState {
    WatchState(map[], map[], 0)
  }

  lemma StartMatches()
    ensures Matches(NoLandscapes()) && AllWatched(NoLandscapes().landscapes, NoLandscapes().running)
  {}

  /** A landscape that has been registered and watched is lost by an attempt to register it anew for which
      no informer can be had, and is back, under a new watch, once an attempt succeeds. */
  lemma FailedSetLosesLandscape(name: string, projects: map<string, string>)
    ensures var fine, failing := InformerFaults(false, false), InformerFaults(false, true);
            var first, second := Set(name, Some(0), true, projects, fine), Set(name, Some(1), true, projects, failing);
            var third := Set(name, Some(1), true, projects, fine);
            var s1 := OperateAll(NoLandscapes(), [first]);
            var s2 := OperateAll(NoLandscapes(), [first, second]);
            var s3 := OperateAll(NoLandscapes(), [first, second, third]);
            && name in s1.landscapes && IsWatched(s1, name)
            && name !in s2.landscapes && !IsWatched(s2, name)
            && name in s3.landscapes && IsWatched(s3, name)
  {
    var fine, failing := InformerFaults(false, false), InformerFaults(false, true);
    var first, second := Set(name, Some(0), true, projects, fine), Set(name, Some(1), true, projects, failing);
    var third := Set(name, Some(1), true, projects, fine);
    var s1 := Operate(NoLandscapes(), first);
    var s2 := Operate(s1, second);
    StartMatches();
    OperateKeepsMatch(NoLandscapes(), first);
    OperateKeepsMatch(s1, second);
    OperationDecides(NoLandscapes(), first);
    OperationDecides(s1, second);
    OperationDecides(s2, third);
    assert [first][1..] == [] && [first, second][1..] == [second] && [second][1..] == [];
    assert [first, second, third][1..] == [second, third] && [second, third][1..] == [third] && [third][1..] == [];
    assert OperateAll(s1, [second]) == s2 && OperateAll(s2, [third]) == Operate(s2, third);
  }

  // ---------------------------------------------------------------------------------------------
  // Names

  /** `prefix` is the environment and the provider name, each followed by a dot. */
  function ProfileK8sName(prefix: string, providerConfig: string): string {
    prefix + providerConfig
  }

  lemma ProfileNamesAreInjective(prefix: string, a: string, b: string)
    requires ProfileK8sName(prefix, a) == ProfileK8sName(prefix, b)
    ensures a == b
  {
    assert a == (prefix + a)[|prefix|..];
    assert b == (prefix + b)[|prefix|..];
  }

  // ---------------------------------------------------------------------------------------------
  // The registry object

  class RuntimeConfiguration {
    const prefix: string
    var providerConfigurations: map<string, PcSpec>
    var landscapes: Landscapes
    var profiles: map<string, Profile>
    var running: Watches
    var next: nat

    constructor (prefix: string)
      ensures this.prefix == prefix && providerConfigurations == map[] && landscapes == map[] && profiles == map[]
      ensures running == map[] && next == 0
    {
      this.prefix := prefix;
      providerConfigurations, landscapes, profiles, running, next := map[], map[], map[], map[], 0;
    }

    ghost function WatchView(): WatchState
      reads this
    {
      WatchState(landscapes, running, next)
    }

    method SetProviderConfiguration(name: string, spec: PcSpec)
      modifies this`providerConfigurations
      ensures providerConfigurations == old(providerConfigurations)[name := spec]
    {
      providerConfigurations := providerConfigurations[name := spec];
    }

    method UnsetProviderConfiguration(name: string)
      modifies this`providerConfigurations
      ensures providerConfigurations == old(providerConfigurations) - {name}
    {
      providerConfigurations := providerConfigurations - {name};
    }

    method SetProfileForProviderConfiguration(name: string, profile: Option<Profile>)
      modifies this`profiles
      ensures profiles == if profile.Some? then old(profiles)[ProfileK8sName(prefix, name) := profile.value]
                          else old(profiles) - {ProfileK8sName(prefix, name)}
    {
      var pKey := ProfileK8sName(prefix, name);
      if profile.None? {
        profiles := profiles - {pKey};
        return;
      }
      profiles := profiles[pKey := profile.value];
    }

    method GetProfileForProviderConfiguration(name: string) returns (profile: Option<Profile>)
      ensures profile.Some? <==> ProfileK8sName(prefix, name) in profiles
      ensures profile.Some? ==> profile.value == profiles[ProfileK8sName(prefix, name)]
    {
      var pKey := ProfileK8sName(prefix, name);
      profile := if pKey in profiles then Some(profiles[pKey]) else None;
    }

    /** Stops the watch of a landscape and drops the entry, unless its informer cannot be removed. */
    method UnsetLandscape(name: string, f: InformerFaults) returns (ok: bool)
      modifies this`landscapes, this`running
      ensures ok == !Stuck(old(landscapes), name, f)
      ensures landscapes == UnsetEntry(old(landscapes), name, f)
      ensures running == StopWatch(old(landscapes), old(running), name)
    {
      if name in landscapes && landscapes[name].handle.Some? {
        running := running - {landscapes[name].token};
        if f.removeFails { return false; }
      }
      landscapes := landscapes - {name};
      return true;
    }

    /** Replaces the entry of a landscape and starts its watch. */
    method SetLandscape(name: string, handle: Option<nat>, available: bool, projects: map<string, string>,
        f: InformerFaults)
      returns (ok: bool)
      modifies this`landscapes, this`running, this`next
      ensures WatchView() == Operate(old(WatchView()), Set(name, handle, available, projects, f))
      ensures ok == Registers(old(landscapes), name, Landscape(handle, old(next), available, projects), f)
    {
      var l := Landscape(handle, next, available, projects);
      next := next + 1;
      ok := UnsetLandscape(name, f);
      if !ok { return; }
      if handle.Some? {
        if f.getFails { return false; }
        running := running[l.token := Watch(name, handle.value)];
      }
      landscapes := landscapes[name := l];
      assert landscapes == old(landscapes)[name := l];
    }

    /** Renews what a registered landscape knows about its resource. */
    method UpdateLandscapeResource(name: string, available: bool, projects: map<string, string>)
      modifies this`landscapes
      ensures landscapes == if name in old(landscapes)
                            then old(landscapes)[name :=
                              old(landscapes)[name].(available := available, projects := projects)]
                            else old(landscapes)
    {
      if name in landscapes {
        landscapes := landscapes[name := landscapes[name].(available := available, projects := projects)];
      }
    }
  }
}
