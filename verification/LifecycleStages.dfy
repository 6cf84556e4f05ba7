/** The current lifecycle stage of a Kubernetes version: found by sorting the stages by start time and
    scanning them, specified directly on the unsorted list. */
module LifecycleStages {
  import opened Common
  import opened StableSort

  datatype Classification = Preview | Supported | Deprecated | Expired

  datatype Stage = Stage(classification: Classification, start: Option<int>)

  // ---------------------------------------------------------------------------------------------
  // Direct definition

  predicate Started(s: Stage, now: int) {
    s.start.Some? && s.start.value <= now
  }

  /** The latest start time that has passed. */
  function LatestStart(stages: seq<Stage>, now: int): (t: Option<int>)
    ensures t.Some? ==> t.value <= now && exists s :: s in stages && s.start == t
    ensures t.Some? ==> forall s :: s in stages && Started(s, now) ==> s.start.value <= t.value
    ensures t.None? ==> forall s :: s in stages ==> !Started(s, now)
  {
    if stages == [] then None
    else
      var rest := LatestStart(stages[1..], now);
      var s := stages[0];
      assert stages == [s] + stages[1..];
      if Started(s, now) && (rest.None? || s.start.value >= rest.value) then s.start else rest
  }

  /** The stages with a given start time, or those without one, in order. */
  function WithStart(stages: seq<Stage>, t: Option<int>): (r: seq<Stage>)
    ensures r == [] <==> forall s :: s in stages ==> s.start != t
    ensures forall s :: s in r ==> s in stages && s.start == t
  {
    if stages == [] then []
    else
      assert stages == [stages[0]] + stages[1..];
      if stages[0].start == t then [stages[0]] + WithStart(stages[1..], t) else WithStart(stages[1..], t)
  }

  /** Among the started stages the first one with the latest start time, otherwise the last stage
      without a start time, otherwise none. */
  function CurrentStage(stages: seq<Stage>, now: int): Option<Stage> {
    var t := LatestStart(stages, now);
    if t.Some? then
      assert exists s :: s in stages && s.start == t;
      Some(WithStart(stages, t)[0])
    else
      var timeless := WithStart(stages, None);
      if timeless == [] then None else Some(timeless[|timeless| - 1])
  }

  // ---------------------------------------------------------------------------------------------
  // Sort and scan

  /** Stages without a start time come first. */
  predicate StartsNoLater(a: Stage, b: Stage) {
    a.start.None? || (b.start.Some? && a.start.value <= b.start.value)
  }

  /** Finds the current stage. The start time of a stage is only looked at where there is one. */
  method DetermineCurrentLifecycleStage(lifecycle: seq<Stage>, now: int) returns (current: Option<Stage>)
    ensures current == CurrentStage(lifecycle, now)
  {
    current := None;
    if |lifecycle| == 0 { return; }
    var sorted := Sort(StartsNoLater, lifecycle);
    SortSorts(StartsNoLater, lifecycle);
    var i := 0;
    while i < |sorted|
      invariant Scanned(sorted, i, now, current)
    {
      var stage := sorted[i];
      if stage.start.Some? && stage.start.value > now { break; }
      if i > 0 { ScanNext(sorted, i, now, current); }
      if current.None? {
        current := Some(stage);
      } else if current.value.start.None? || stage.start.value > current.value.start.value {
        current := Some(stage);
      }
      if i == 0 { ScanFirst(sorted, now); }
      i := i + 1;
    }
    ScanFindsCurrent(lifecycle, sorted, i, now, current);
  }

  /** How far the scan has come. */
  ghost predicate Scanned(sorted: seq<Stage>, i: nat, now: int, current: Option<Stage>) {
    && i <= |sorted|
    && (forall j :: 0 <= j < i ==> sorted[j].start.None? || sorted[j].start.value <= now)
    && if i == 0 then current == None else IsScanResult(sorted[..i], current)
  }

  lemma ScanFirst(sorted: seq<Stage>, now: int)
    requires sorted != [] && (sorted[0].start.None? || sorted[0].start.value <= now)
    ensures Scanned(sorted, 1, now, Some(sorted[0]))
  {
    assert sorted[..1] == [sorted[0]];
    assert WithStart([], sorted[0].start) == [];
  }

  lemma ScanNext(sorted: seq<Stage>, i: nat, now: int, before: Option<Stage>)
    requires 0 < i < |sorted| && Sorted(StartsNoLater, sorted) && Scanned(sorted, i, now, before)
    requires sorted[i].start.None? || sorted[i].start.value <= now
    ensures before.Some? && (before.value.start.Some? ==> sorted[i].start.Some?)
    ensures var b, stage := before.value, sorted[i];
            Scanned(sorted, i + 1, now,
                    if b.start.None? || stage.start.value > b.start.value then Some(stage) else before)
  {
    var seen := sorted[..i + 1];
    assert seen == sorted[..i] + [sorted[i]];
    assert Sorted(StartsNoLater, seen) by {
      forall j, k | 0 <= j < k < |seen| ensures StartsNoLater(seen[j], seen[k]) {
        assert StartsNoLater(sorted[j], sorted[k]);
      }
    }
    ScanStep(sorted[..i], sorted[i], before.value);
  }

  /** The scan remembers, of what it has seen, the first stage that starts when the last one does, or
      the last stage if none has a start time. */
  ghost predicate IsScanResult(seen: seq<Stage>, current: Option<Stage>)
    requires seen != []
  {
    var last := seen[|seen| - 1];
    && current.Some? && current.value.start == last.start
    && (last.start.None? ==> current.value == last)
    && (last.start.Some? ==> WithStart(seen, last.start) != [] && WithStart(seen, last.start)[0] == current.value)
  }

  lemma WithStartConcat(a: seq<Stage>, b: seq<Stage>, t: Option<int>)
    ensures WithStart(a + b, t) == WithStart(a, t) + WithStart(b, t)
  {
    if a == [] {
      assert a + b == b;
    } else {
      assert (a + b)[1..] == a[1..] + b;
      WithStartConcat(a[1..], b, t);
    }
  }

  lemma ScanStep(seen: seq<Stage>, stage: Stage, before: Stage)
    requires seen != [] && IsScanResult(seen, Some(before)) && Sorted(StartsNoLater, seen + [stage])
    ensures before.start.Some? ==> stage.start.Some?
    ensures var current := if before.start.None? || stage.start.value > before.start.value then stage else before;
            IsScanResult(seen + [stage], Some(current))
  {
    var all := seen + [stage];
    var last := seen[|seen| - 1];
    assert StartsNoLater(all[|seen| - 1], all[|seen|]);
    WithStartConcat(seen, [stage], stage.start);
    if stage.start.Some? && (before.start.None? || stage.start.value > before.start.value) {
      forall s | s in seen ensures s.start != stage.start {
        var j :| 0 <= j < |seen| && seen[j] == s;
        assert j == |seen| - 1 || StartsNoLater(all[j], all[|seen| - 1]);
      }
    }
  }

  /** Sorting keeps the stages of each start time in order. */
  lemma {:induction false} SortKeepsWithStart(stages: seq<Stage>, t: Option<int>)
    ensures WithStart(Sort(StartsNoLater, stages), t) == WithStart(stages, t)
  {
    var x := Stage(Supported, t);
    SortKeepsPeers(StartsNoLater, x, stages);
    PeersShareStart(stages, x);
    PeersShareStart(Sort(StartsNoLater, stages), x);
  }

  lemma PeersShareStart(stages: seq<Stage>, x: Stage)
    ensures Peers(StartsNoLater, x, stages) == WithStart(stages, x.start)
  {}

  /** Where the scan stops, what it has seen and remembered is the current stage. */
  lemma ScanFindsCurrent(lifecycle: seq<Stage>, sorted: seq<Stage>, i: nat, now: int, current: Option<Stage>)
    requires sorted == Sort(StartsNoLater, lifecycle) && Sorted(StartsNoLater, sorted)
    requires Scanned(sorted, i, now, current)
    requires i < |sorted| ==> sorted[i].start.Some? && sorted[i].start.value > now
    ensures current == CurrentStage(lifecycle, now)
  {
    var seen := sorted[..i];
    assert i > 0 ==> seen[|seen| - 1] == sorted[i - 1];
    StopsAtLatest(lifecycle, sorted, i, now);
    var t := LatestStart(lifecycle, now);
    SortKeepsWithStart(lifecycle, t);
    SeenHasAll(sorted, i, now, t);
    SeenDecides(lifecycle, seen, now, current);
  }

  lemma StopsAtLatest(lifecycle: seq<Stage>, sorted: seq<Stage>, i: nat, now: int)
    requires sorted == Sort(StartsNoLater, lifecycle) && Sorted(StartsNoLater, sorted) && i <= |sorted|
    requires forall j :: 0 <= j < i ==> sorted[j].start.None? || sorted[j].start.value <= now
    requires i < |sorted| ==> sorted[i].start.Some? && sorted[i].start.value > now
    ensures LatestStart(lifecycle, now) == if i == 0 then None else sorted[i - 1].start
  {
    forall s ensures s in lifecycle <==> s in sorted { SameMembers(lifecycle, s); }
    AheadIsLater(sorted, i, now);
    ScanFindsLatest(lifecycle, sorted, i, now);
  }

  lemma SeenHasAll(sorted: seq<Stage>, i: nat, now: int, t: Option<int>)
    requires Sorted(StartsNoLater, sorted) && i <= |sorted| && (t.Some? ==> t.value <= now)
    requires i < |sorted| ==> sorted[i].start.Some? && sorted[i].start.value > now
    ensures WithStart(sorted[..i], t) == WithStart(sorted, t)
  {
    AheadIsLater(sorted, i, now);
    assert sorted == sorted[..i] + sorted[i..];
    WithStartConcat(sorted[..i], sorted[i..], t);
    assert WithStart(sorted[i..], t) == [];
  }

  lemma SeenDecides(lifecycle: seq<Stage>, seen: seq<Stage>, now: int, current: Option<Stage>)
    requires LatestStart(lifecycle, now) == if seen == [] then None else seen[|seen| - 1].start
    requires var t := LatestStart(lifecycle, now); WithStart(lifecycle, t) == WithStart(seen, t)
    requires if seen == [] then current == None else IsScanResult(seen, current)
    ensures current == CurrentStage(lifecycle, now)
  {
    if seen != [] && seen[|seen| - 1].start.None? {
      LastWithoutStart(seen);
    }
  }

  lemma AheadIsLater(sorted: seq<Stage>, i: nat, now: int)
    requires Sorted(StartsNoLater, sorted) && i <= |sorted|
    requires i < |sorted| ==> sorted[i].start.Some? && sorted[i].start.value > now
    ensures forall j :: i <= j < |sorted| ==> sorted[j].start.Some? && sorted[j].start.value > now
    ensures forall s :: s in sorted[i..] ==> s.start.Some? && s.start.value > now
  {
    forall j | i <= j < |sorted| ensures sorted[j].start.Some? && sorted[j].start.value > now {
      assert j == i || StartsNoLater(sorted[i], sorted[j]);
    }
  }

  lemma SameMembers(lifecycle: seq<Stage>, s: Stage)
    ensures s in lifecycle <==> s in Sort(StartsNoLater, lifecycle)
  {
    assert s in lifecycle <==> s in multiset(lifecycle);
    assert s in Sort(StartsNoLater, lifecycle) <==> s in multiset(Sort(StartsNoLater, lifecycle));
  }

  /** Where the scan stops, the last stage it has seen has the latest start time that has passed. */
  lemma ScanFindsLatest(lifecycle: seq<Stage>, sorted: seq<Stage>, i: nat, now: int)
    requires Sorted(StartsNoLater, sorted) && i <= |sorted|
    requires forall s :: s in lifecycle <==> s in sorted
    requires forall j :: 0 <= j < i ==> sorted[j].start.None? || sorted[j].start.value <= now
    requires forall j :: i <= j < |sorted| ==> sorted[j].start.Some? && sorted[j].start.value > now
    ensures LatestStart(lifecycle, now) == if i == 0 then None else sorted[i - 1].start
  {
    forall s | s in lifecycle && Started(s, now) ensures i > 0 && StartsNoLater(s, sorted[i - 1]) {
      var j :| 0 <= j < |sorted| && sorted[j] == s;
      assert j == i - 1 || StartsNoLater(sorted[j], sorted[i - 1]);
    }
    if i > 0 {
      assert sorted[i - 1] in lifecycle;
    }
  }

  lemma LastWithoutStart(seen: seq<Stage>)
    requires seen != [] && seen[|seen| - 1].start.None?
    ensures var r := WithStart(seen, None); r != [] && r[|r| - 1] == seen[|seen| - 1]
  {
    var n := |seen| - 1;
    assert seen == seen[..n] + [seen[n]];
    WithStartConcat(seen[..n], [seen[n]], None);
  }

  // ---------------------------------------------------------------------------------------------
  // The definition spelled out

  lemma {:induction false} FirstWithStart(stages: seq<Stage>, t: Option<int>) returns (i: nat)
    requires WithStart(stages, t) != []
    ensures i < |stages| && stages[i] == WithStart(stages, t)[0] && stages[i].start == t
    ensures forall j :: 0 <= j < i ==> stages[j].start != t
  {
    if stages[0].start == t {
      i := 0;
    } else {
      var k := FirstWithStart(stages[1..], t);
      forall j | 0 <= j < k + 1 ensures stages[j].start != t {
        if j > 0 { assert stages[j] == stages[1..][j - 1]; }
      }
      i := k + 1;
    }
  }

  lemma {:induction false} FinalWithStart(stages: seq<Stage>, t: Option<int>) returns (i: nat)
    requires WithStart(stages, t) != []
    ensures var r := WithStart(stages, t); i < |stages| && stages[i] == r[|r| - 1] && stages[i].start == t
    ensures forall j :: i < j < |stages| ==> stages[j].start != t
  {
    var rest := stages[1..];
    if WithStart(rest, t) == [] {
      i := 0;
      forall j | 0 < j < |stages| ensures stages[j].start != t {
        assert stages[j] == rest[j - 1] && rest[j - 1] in rest;
      }
    } else {
      var k := FinalWithStart(rest, t);
      forall j | k + 1 < j < |stages| ensures stages[j].start != t {
        assert stages[j] == rest[j - 1];
      }
      i := k + 1;
    }
  }

  /** The stage at `i` has started, no stage starts later among those that have, and none before `i` as late. */
  ghost predicate StartedLast(stages: seq<Stage>, now: int, i: nat) {
    && i < |stages| && stages[i].start.Some? && stages[i].start.value <= now
    && forall j :: 0 <= j < |stages| && stages[j].start.Some? && stages[j].start.value <= now ==>
         stages[j].start.value <= stages[i].start.value
         && (j < i ==> stages[j].start.value < stages[i].start.value)
  }

  /** The stage at `i` is the last one without a start time, and no stage has started. */
  ghost predicate LastTimeless(stages: seq<Stage>, now: int, i: nat) {
    && i < |stages| && stages[i].start.None?
    && forall j :: 0 <= j < |stages| ==> (stages[j].start.Some? ==> stages[j].start.value > now)
                                         && (j > i ==> stages[j].start.Some?)
  }

  /** Position by position, what the current stage is. */
  lemma CurrentStageIsThere(stages: seq<Stage>, now: int)
    ensures var current := CurrentStage(stages, now);
            if current.Some?
            then exists i: nat :: i < |stages| && stages[i] == current.value
                   && (StartedLast(stages, now, i) || LastTimeless(stages, now, i))
            else forall j :: 0 <= j < |stages| ==> stages[j].start.Some? && stages[j].start.value > now
  {
    var t := LatestStart(stages, now);
    if t.Some? {
      var i := FirstWithStart(stages, t);
      forall j | 0 <= j < |stages| && stages[j].start.Some? && stages[j].start.value <= now
        ensures stages[j].start.value <= t.value && (j < i ==> stages[j].start.value < t.value)
      {
        assert stages[j] in stages && Started(stages[j], now);
      }
      assert StartedLast(stages, now, i);
    } else {
      forall j | 0 <= j < |stages| && stages[j].start.Some? ensures stages[j].start.value > now {
        assert stages[j] in stages && !Started(stages[j], now);
      }
      if WithStart(stages, None) != [] {
        var i := FinalWithStart(stages, None);
        assert LastTimeless(stages, now, i);
      } else {
        forall j | 0 <= j < |stages| ensures stages[j].start.Some? { assert stages[j] in stages; }
      }
    }
  }
}
