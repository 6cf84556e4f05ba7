/** Kubernetes versions: precedence, the version a shoot gets, and the versions a profile offers. */
module Versions {
  import opened Common
  import opened StableSort
  import opened LifecycleStages

  // ---------------------------------------------------------------------------------------------
  // Precedence (section 11 of Semantic Versioning 2.0.0)

  /** A pre-release identifier. */
  datatype Ident = Numeric(value: nat) | Alphanumeric(text: string)

  datatype Release = Release(major: nat, minor: nat, patch: nat, pre: seq<Ident>)

  /** A parsed version: the string as written, and the release it denotes. The omitted parts of a
      partial version such as "1.32" are zero, and build metadata does not count. */
  datatype Version = Version(original: string, release: Release)

  function CompareInts(a: int, b: int): int { if a < b then -1 else if a > b then 1 else 0 }

  function CompareChars(a: char, b: char): int { CompareInts(a as int, b as int) }

  /** Compares element by element; of a list and a longer one that begins with it, the longer one is
      greater. */
  function CompareLists<T>(cmp: (T, T) -> int, a: seq<T>, b: seq<T>): int {
    if a == [] || b == [] then CompareInts(|a|, |b|)
    else if cmp(a[0], b[0]) != 0 then cmp(a[0], b[0])
    else CompareLists(cmp, a[1..], b[1..])
  }

  /** Numbers compare numerically, text in ASCII order, and numbers come before text. */
  function CompareIdents(a: Ident, b: Ident): int {
    match (a, b)
    case (Numeric(m), Numeric(n)) => CompareInts(m, n)
    case (Numeric(_), Alphanumeric(_)) => -1
    case (Alphanumeric(_), Numeric(_)) => 1
    case (Alphanumeric(s), Alphanumeric(t)) => CompareLists(CompareChars, s, t)
  }

  /** A release without pre-release identifiers comes after its pre-releases. */
  function CompareReleases(a: Release, b: Release): int {
    if a.major != b.major then CompareInts(a.major, b.major)
    else if a.minor != b.minor then CompareInts(a.minor, b.minor)
    else if a.patch != b.patch then CompareInts(a.patch, b.patch)
    else if a.pre == [] || b.pre == [] then CompareInts(|b.pre|, |a.pre|)
    else CompareLists(CompareIdents, a.pre, b.pre)
  }

  /** What makes a comparison function the comparison of a total order. */
  ghost predicate TotalOrder<T(!new)>(cmp: (T, T) -> int) {
    && (forall a, b :: cmp(a, b) == -cmp(b, a))
    && (forall a, b :: cmp(a, b) == 0 ==> a == b)
    && (forall a, b, c :: cmp(a, b) <= 0 && cmp(b, c) <= 0 ==> cmp(a, c) <= 0)
  }

  lemma {:induction false} ListsAntisymmetric<T(!new)>(cmp: (T, T) -> int, a: seq<T>, b: seq<T>)
    requires TotalOrder(cmp)
    ensures CompareLists(cmp, a, b) == -CompareLists(cmp, b, a)
    ensures CompareLists(cmp, a, b) == 0 ==> a == b
  {
    if a != [] && b != [] {
      ListsAntisymmetric(cmp, a[1..], b[1..]);
      assert a == [a[0]] + a[1..] && b == [b[0]] + b[1..];
    }
  }

  lemma {:induction false} ListsTransitive<T(!new)>(cmp: (T, T) -> int, a: seq<T>, b: seq<T>, c: seq<T>)
    requires TotalOrder(cmp)
    requires CompareLists(cmp, a, b) <= 0 && CompareLists(cmp, b, c) <= 0
    ensures CompareLists(cmp, a, c) <= 0
  {
    if a != [] && b != [] && c != [] {
      var x, y, z := a[0], b[0], c[0];
      assert cmp(x, z) <= 0;
      if cmp(x, z) == 0 {
        assert cmp(y, x) <= 0 && cmp(x, y) <= 0;
        ListsTransitive(cmp, a[1..], b[1..], c[1..]);
      }
    }
  }

  lemma ListsTotalOrder<T(!new)>(cmp: (T, T) -> int)
    requires TotalOrder(cmp)
    ensures forall a, b :: CompareLists(cmp, a, b) == -CompareLists(cmp, b, a)
    ensures forall a, b :: CompareLists(cmp, a, b) == 0 ==> a == b
    ensures forall a, b, c :: CompareLists(cmp, a, b) <= 0 && CompareLists(cmp, b, c) <= 0 ==>
              CompareLists(cmp, a, c) <= 0
  {
    forall a, b
      ensures CompareLists(cmp, a, b) == -CompareLists(cmp, b, a) && (CompareLists(cmp, a, b) == 0 ==> a == b)
    {
      ListsAntisymmetric(cmp, a, b);
    }
    forall a, b, c | CompareLists(cmp, a, b) <= 0 && CompareLists(cmp, b, c) <= 0
      ensures CompareLists(cmp, a, c) <= 0
    {
      ListsTransitive(cmp, a, b, c);
    }
  }

  lemma IdentsTotalOrder()
    ensures TotalOrder(CompareIdents)
  {
    ListsTotalOrder(CompareChars);
  }

  /** Precedence is a total order on releases. */
  lemma ReleasesTotalOrder()
    ensures TotalOrder(CompareReleases)
  {
    IdentsTotalOrder();
    ListsTotalOrder(CompareIdents);
  }

  // ---------------------------------------------------------------------------------------------
  // What precedence means

  predicate CharLower(a: char, b: char) { a < b }

  /** The lists agree up to some point, where the first one ends or has the lower element. */
  ghost predicate ListLower<T(!new)>(lower: (T, T) -> bool, a: seq<T>, b: seq<T>) {
    exists i: nat :: DiffersAt(lower, a, b, i)
  }

  ghost predicate DiffersAt<T(!new)>(lower: (T, T) -> bool, a: seq<T>, b: seq<T>, i: nat) {
    && i <= |a| && i < |b| && a[..i] == b[..i]
    && (i == |a| || lower(a[i], b[i]))
  }

  /** Numbers are lower by value, texts by their first differing character, and numbers than texts. */
  ghost predicate IdentLower(a: Ident, b: Ident) {
    match (a, b)
    case (Numeric(m), Numeric(n)) => m < n
    case (Numeric(_), Alphanumeric(_)) => true
    case (Alphanumeric(_), Numeric(_)) => false
    case (Alphanumeric(s), Alphanumeric(t)) => ListLower(CharLower, s, t)
  }

  /** Lower precedence after section 11 of Semantic Versioning 2.0.0. */
  ghost predicate Lower(a: Release, b: Release) {
    || a.major < b.major
    || (a.major == b.major && a.minor < b.minor)
    || (a.major == b.major && a.minor == b.minor && a.patch < b.patch)
    || (a.major == b.major && a.minor == b.minor && a.patch == b.patch
        && a.pre != [] && (b.pre == [] || ListLower(IdentLower, a.pre, b.pre)))
  }

  lemma {:induction false} ListLowerStep<T(!new)>(lower: (T, T) -> bool, a: seq<T>, b: seq<T>)
    requires a != [] && b != [] && !lower(a[0], b[0])
    ensures ListLower(lower, a, b) <==> a[0] == b[0] && ListLower(lower, a[1..], b[1..])
  {
    if ListLower(lower, a, b) {
      var i: nat :| DiffersAt(lower, a, b, i);
      assert i > 0 && a[..i][0] == b[..i][0];
      assert a[1..][..i - 1] == a[..i][1..] == b[..i][1..] == b[1..][..i - 1];
      assert DiffersAt(lower, a[1..], b[1..], i - 1);
    }
    if a[0] == b[0] && ListLower(lower, a[1..], b[1..]) {
      var i: nat :| DiffersAt(lower, a[1..], b[1..], i);
      assert a[..i + 1] == [a[0]] + a[1..][..i] && b[..i + 1] == [b[0]] + b[1..][..i];
      assert DiffersAt(lower, a, b, i + 1);
    }
  }

  lemma {:induction false} ListsCompareIff<T(!new)>(cmp: (T, T) -> int, lower: (T, T) -> bool, a: seq<T>, b: seq<T>)
    requires forall x, y :: cmp(x, y) < 0 <==> lower(x, y)
    requires forall x, y :: cmp(x, y) == 0 <==> x == y
    ensures CompareLists(cmp, a, b) < 0 <==> ListLower(lower, a, b)
  {
    if a == [] {
      if b != [] { assert DiffersAt(lower, a, b, 0); }
    } else if b != [] {
      if lower(a[0], b[0]) {
        assert DiffersAt(lower, a, b, 0);
      } else {
        ListLowerStep(lower, a, b);
        if a[0] == b[0] { ListsCompareIff(cmp, lower, a[1..], b[1..]); }
      }
    }
  }

  lemma EqualListsCompareEqual<T(!new)>(cmp: (T, T) -> int, a: seq<T>)
    requires forall x :: cmp(x, x) == 0
    ensures CompareLists(cmp, a, a) == 0
  {}

  lemma IdentsCompareIff(a: Ident, b: Ident)
    ensures CompareIdents(a, b) < 0 <==> IdentLower(a, b)
    ensures CompareIdents(a, b) == 0 <==> a == b
  {
    IdentsTotalOrder();
    match (a, b)
    case (Alphanumeric(s), Alphanumeric(t)) =>
      ListsCompareIff(CompareChars, CharLower, s, t);
      EqualListsCompareEqual(CompareChars, s);
    case _ =>
  }

  /** Comparing releases finds exactly this order. */
  lemma ReleasesCompareIff(a: Release, b: Release)
    ensures CompareReleases(a, b) < 0 <==> Lower(a, b)
    ensures CompareReleases(a, b) > 0 <==> Lower(b, a)
    ensures CompareReleases(a, b) == 0 <==> a == b
  {
    ReleasesTotalOrder();
    assert CompareReleases(a, b) == -CompareReleases(b, a);
    assert CompareReleases(a, a) == -CompareReleases(a, a);
    ReleaseLowerIff(a, b);
    ReleaseLowerIff(b, a);
  }

  lemma ReleaseLowerIff(a: Release, b: Release)
    ensures CompareReleases(a, b) < 0 <==> Lower(a, b)
  {
    forall x, y
      ensures CompareIdents(x, y) < 0 <==> IdentLower(x, y)
      ensures CompareIdents(x, y) == 0 <==> x == y
    {
      IdentsCompareIff(x, y);
    }
    ListsCompareIff(CompareIdents, IdentLower, a.pre, b.pre);
  }

  // ---------------------------------------------------------------------------------------------
  // The version of a shoot

  /** The configured version replaces the existing one only if it is greater. */
  function ComputeK8sVersion(configured: Option<Version>, existing: Option<Version>): Option<Version> {
    if existing.None? then configured
    else if configured.Some? && CompareReleases(configured.value.release, existing.value.release) > 0 then configured
    else existing
  }

  /** The version of a shoot after reconciling it with each of the configured versions in turn. */
  function VersionAfter(configured: seq<Option<Version>>, existing: Option<Version>): Option<Version>
    decreases |configured|
  {
    if configured == [] then existing
    else VersionAfter(configured[1..], ComputeK8sVersion(configured[0], existing))
  }

  /** How one version of a history compares with another. */
  function Ahead(a: Option<Version>, b: Option<Version>): int
    requires a.Some? && b.Some?
  {
    CompareReleases(a.value.release, b.value.release)
  }

  /** Position `i` of a history holds the first version of the highest precedence. */
  ghost predicate FirstMaximum(history: seq<Option<Version>>, i: nat) {
    && i < |history| && history[i].Some?
    && (forall j :: 0 <= j < |history| && history[j].Some? ==> Ahead(history[j], history[i]) <= 0)
    && (forall j :: 0 <= j < i && history[j].Some? ==> Ahead(history[j], history[i]) < 0)
  }

  lemma AheadChains(a: Option<Version>, b: Option<Version>, c: Option<Version>)
    requires a.Some? && b.Some? && c.Some? && Ahead(a, b) <= 0 && Ahead(b, c) <= 0
    ensures Ahead(a, c) <= 0
    ensures Ahead(a, b) < 0 || Ahead(b, c) < 0 ==> Ahead(a, c) < 0
  {
    ReleasesTotalOrder();
    var x, y, z := a.value.release, b.value.release, c.value.release;
    if CompareReleases(x, z) == 0 {
      assert x == z && CompareReleases(x, y) == -CompareReleases(y, x);
    }
  }

  lemma ReplacedIsOlder(configured: Option<Version>, existing: Option<Version>)
    ensures var next := ComputeK8sVersion(configured, existing);
            && (existing.Some? ==> next.Some? && Ahead(existing, next) <= 0)
            && (existing.Some? && next != existing ==> Ahead(existing, next) < 0)
            && (configured.Some? ==> next.Some? && Ahead(configured, next) <= 0)
  {
    ReleasesTotalOrder();
    if existing.Some? && configured.Some? {
      var x, y := configured.value.release, existing.value.release;
      assert CompareReleases(x, y) == -CompareReleases(y, x);
      assert CompareReleases(x, x) == -CompareReleases(x, x) && CompareReleases(y, y) == -CompareReleases(y, y);
    } else if configured.Some? {
      var x := configured.value.release;
      assert CompareReleases(x, x) == -CompareReleases(x, x);
    } else if existing.Some? {
      var y := existing.value.release;
      assert CompareReleases(y, y) == -CompareReleases(y, y);
    }
  }

  lemma {:induction false} HistoryMaximum(configured: seq<Option<Version>>, existing: Option<Version>)
      returns (i: nat)
    ensures i <= |configured|
    ensures VersionAfter(configured, existing) == ([existing] + configured)[i]
    ensures VersionAfter(configured, existing).Some? ==> FirstMaximum([existing] + configured, i)
    ensures VersionAfter(configured, existing).None? ==>
              existing.None? && forall c :: c in configured ==> c.None?
    decreases |configured|
  {
    i := 0;
    if configured == [] {
      ReplacedIsOlder(existing, existing);
    } else {
      var next := ComputeK8sVersion(configured[0], existing);
      var k := HistoryMaximum(configured[1..], next);
      assert configured == [configured[0]] + configured[1..];
      i := if k > 0 then k + 1 else if next == existing then 0 else 1;
      if VersionAfter(configured, existing).Some? { ShiftMaximum(configured, existing, k, i); }
    }
  }

  lemma ShiftMaximum(configured: seq<Option<Version>>, existing: Option<Version>, k: nat, i: nat)
    requires configured != []
    requires FirstMaximum([ComputeK8sVersion(configured[0], existing)] + configured[1..], k)
    requires i == if k > 0 then k + 1 else if ComputeK8sVersion(configured[0], existing) == existing then 0 else 1
    ensures FirstMaximum([existing] + configured, i)
  {
    var next := ComputeK8sVersion(configured[0], existing);
    var later, history := [next] + configured[1..], [existing] + configured;
    ReplacedIsOlder(configured[0], existing);
    assert history[i] == later[k];
    forall j | 0 <= j < |history| && history[j].Some?
      ensures Ahead(history[j], later[k]) <= 0
      ensures j < i ==> Ahead(history[j], later[k]) < 0
    {
      if j >= 2 {
        assert history[j] == later[j - 1];
      } else {
        assert next == later[0];
        AheadChains(history[j], next, later[k]);
      }
    }
  }

  /** However often the configured version changes, the shoot has the first version of the highest
      precedence among the one it started with and the configured ones. */
  lemma VersionIsMaximum(configured: seq<Option<Version>>, existing: Option<Version>)
    ensures var r := VersionAfter(configured, existing);
            var history := [existing] + configured;
            if r.None? then forall v :: v in history ==> v.None?
            else exists i: nat :: i < |history| && history[i] == r
                   && (forall j :: 0 <= j < |history| && history[j].Some? ==>
                         !Lower(r.value.release, history[j].value.release))
                   && (forall j :: 0 <= j < i && history[j].Some? ==>
                         Lower(history[j].value.release, r.value.release))
  {
    var i := HistoryMaximum(configured, existing);
    var r, history := VersionAfter(configured, existing), [existing] + configured;
    if r.Some? {
      assert FirstMaximum(history, i) && history[i] == r;
      forall j | 0 <= j < |history| && history[j].Some?
        ensures !Lower(r.value.release, history[j].value.release)
        ensures j < i ==> Lower(history[j].value.release, r.value.release)
      {
        assert Ahead(history[j], history[i]) <= 0 && (j < i ==> Ahead(history[j], history[i]) < 0);
        ReleasesCompareIff(history[j].value.release, r.value.release);
      }
    }
  }

  lemma {:induction false} VersionAfterConcat(a: seq<Option<Version>>, b: seq<Option<Version>>,
      existing: Option<Version>)
    ensures VersionAfter(a + b, existing) == VersionAfter(b, VersionAfter(a, existing))
    decreases |a|
  {
    if a == [] {
      assert a + b == b;
    } else {
      assert (a + b)[1..] == a[1..] + b;
      VersionAfterConcat(a[1..], b, ComputeK8sVersion(a[0], existing));
    }
  }

  /** The version never goes down from one point of a history to a later one. */
  lemma VersionNeverGoesDown(earlier: seq<Option<Version>>, later: seq<Option<Version>>, existing: Option<Version>)
    requires VersionAfter(earlier, existing).Some?
    ensures var before, after := VersionAfter(earlier, existing), VersionAfter(earlier + later, existing);
            after.Some? && !Lower(after.value.release, before.value.release)
  {
    var before, after := VersionAfter(earlier, existing), VersionAfter(earlier + later, existing);
    VersionAfterConcat(earlier, later, existing);
    var i := HistoryMaximum(later, before);
    assert ([before] + later)[0] == before;
    assert Ahead(before, ([before] + later)[i]) <= 0;
    ReleasesCompareIff(before.value.release, after.value.release);
  }

  /** A configured version without a patch number replaces an existing version of the same minor
      exactly if that one is a pre-release of patch zero. */
  lemma PartialVersionReplacesIff(configured: Version, existing: Version)
    requires configured.release.patch == 0 && configured.release.pre == []
    requires configured.release.major == existing.release.major
    requires configured.release.minor == existing.release.minor
    requires configured != existing
    ensures ComputeK8sVersion(Some(configured), Some(existing)) == Some(configured)
            <==> existing.release.patch == 0 && existing.release.pre != []
  {}

  // ---------------------------------------------------------------------------------------------
  // The versions a profile offers

  /** A version of a CloudProfile: a classification in the old format, lifecycle stages in the new. */
  datatype CloudVersion = CloudVersion(version: Version, classification: Option<Classification>, lifecycle: seq<Stage>)

  datatype K8sVersion = K8sVersion(version: Version, deprecated: bool)

  /** The classification that counts, if the version is classified at all. */
  function Effective(v: CloudVersion, now: int): Option<Classification> {
    if v.classification.Some? then v.classification
    else if v.lifecycle == [] then None
    else
      var stage := CurrentStage(v.lifecycle, now);
      if stage.None? then Some(Supported) else Some(stage.value.classification)
  }

  predicate Offered(v: CloudVersion, now: int) {
    Effective(v, now) in {Some(Supported), Some(Deprecated)}
  }

  function Offer(v: CloudVersion, now: int): K8sVersion {
    K8sVersion(v.version, Effective(v, now) == Some(Deprecated))
  }

  /** The offered versions, in the order of the CloudProfile. */
  function Offers(versions: seq<CloudVersion>, now: int): (r: seq<K8sVersion>)
    ensures forall k :: k in r <==> exists v :: v in versions && Offered(v, now) && Offer(v, now) == k
  {
    if versions == [] then []
    else
      assert versions == [versions[0]] + versions[1..];
      (if Offered(versions[0], now) then [Offer(versions[0], now)] else []) + Offers(versions[1..], now)
  }

  lemma OffersStep(versions: seq<CloudVersion>, i: nat, now: int)
    requires i < |versions|
    ensures Offers(versions[..i + 1], now)
            == Offers(versions[..i], now) + if Offered(versions[i], now) then [Offer(versions[i], now)] else []
    decreases i
  {
    if i > 0 {
      assert versions[..i + 1][1..] == versions[1..][..i];
      assert versions[..i][1..] == versions[1..][..i - 1];
      OffersStep(versions[1..], i - 1, now);
    }
  }

  predicate NoOlder(a: K8sVersion, b: K8sVersion) {
    CompareReleases(a.version.release, b.version.release) >= 0
  }

  lemma NoOlderIsPreorder()
    ensures TotalPreorder(NoOlder)
  {
    ReleasesTotalOrder();
    forall a, b, c | NoOlder(a, b) && NoOlder(b, c) ensures NoOlder(a, c) {
      var x, y, z := a.version.release, b.version.release, c.version.release;
      assert CompareReleases(z, y) <= 0 && CompareReleases(y, x) <= 0;
      assert CompareReleases(z, x) <= 0;
      assert CompareReleases(x, z) == -CompareReleases(z, x);
    }
    forall a, b ensures NoOlder(a, b) || NoOlder(b, a) {
      var x, y := a.version.release, b.version.release;
      assert CompareReleases(x, y) == -CompareReleases(y, x);
    }
  }

  /** Collects the versions a profile supports and puts the newest on top. */
  method ExtractSupportedVersions(versions: seq<CloudVersion>, now: int) returns (supported: seq<K8sVersion>)
    ensures supported == Sort(NoOlder, Offers(versions, now))
  {
    supported := [];
    for i := 0 to |versions|
      invariant supported == Offers(versions[..i], now)
    {
      var v := versions[i];
      if v.classification.Some? {
        var c := v.classification.value;
        if c == Supported || c == Deprecated {
          supported := supported + [K8sVersion(v.version, c == Deprecated)];
        }
      } else if |v.lifecycle| > 0 {
        var stage := DetermineCurrentLifecycleStage(v.lifecycle, now);
        if stage.None? {
          supported := supported + [K8sVersion(v.version, false)];
        } else {
          match stage.value.classification
          case Deprecated => supported := supported + [K8sVersion(v.version, true)];
          case Supported => supported := supported + [K8sVersion(v.version, false)];
          case Preview => {}
          case Expired => {}
        }
      }
      OffersStep(versions, i, now);
    }
    assert versions[..|versions|] == versions;
    supported := Sort(NoOlder, supported);
  }

  /** Whether a version of a CloudProfile is supported, and whether it is deprecated: by its classification
      if it has one, otherwise by the lifecycle stage that has started last, and as supported if it has
      lifecycle stages but none has started. */
  ghost predicate Counts(v: CloudVersion, now: int, deprecated: bool) {
    || v.classification == Some(if deprecated then Deprecated else Supported)
    || (v.classification.None? && v.lifecycle != []
        && match CurrentStage(v.lifecycle, now)
           case None => !deprecated
           case Some(stage) => stage.classification == if deprecated then Deprecated else Supported)
  }

  lemma OfferCounts(v: CloudVersion, now: int)
    ensures Offered(v, now) <==> Counts(v, now, true) || Counts(v, now, false)
    ensures Counts(v, now, true) ==> !Counts(v, now, false) && Offer(v, now) == K8sVersion(v.version, true)
    ensures Counts(v, now, false) ==> Offer(v, now) == K8sVersion(v.version, false)
  {}

  /** The offers come in the order of the entries. */
  lemma {:induction false} OffersConcat(a: seq<CloudVersion>, b: seq<CloudVersion>, now: int)
    ensures Offers(a + b, now) == Offers(a, now) + Offers(b, now)
    decreases |a|
  {
    if a == [] {
      assert a + b == b;
    } else {
      var all := a + b;
      var first := if Offered(a[0], now) then [Offer(a[0], now)] else [];
      assert all[1..] == a[1..] + b && all[0] == a[0];
      OffersConcat(a[1..], b, now);
      assert Offers(all, now) == first + (Offers(a[1..], now) + Offers(b, now));
      assert first + (Offers(a[1..], now) + Offers(b, now)) == (first + Offers(a[1..], now)) + Offers(b, now);
    }
  }

  /** Each entry that counts gives one offer with its flag, and the others give none. */
  lemma OffersOfOne(v: CloudVersion, now: int)
    ensures Offers([v], now)
            == if Counts(v, now, true) then [K8sVersion(v.version, true)]
               else if Counts(v, now, false) then [K8sVersion(v.version, false)] else []
    ensures Offers([], now) == []
  {
    OfferCounts(v, now);
    assert [v][1..] == [];
    assert Offers([v], now) == (if Offered(v, now) then [Offer(v, now)] else []) + Offers([], now);
  }

  /** A profile offers each supported or deprecated version as often as the CloudProfile lists it and
      no other version, newest first, versions of equal precedence in the order of the CloudProfile. */
  lemma SupportedVersionsAreExact(versions: seq<CloudVersion>, now: int)
    ensures var r := Sort(NoOlder, Offers(versions, now));
            && multiset(r) == multiset(Offers(versions, now))
            && (forall k :: k in r <==>
                  exists v :: v in versions && v.version == k.version && Counts(v, now, k.deprecated))
            && (forall i, j :: 0 <= i < j < |r| ==> !Lower(r[i].version.release, r[j].version.release))
            && (forall k :: Peers(NoOlder, k, r) == Peers(NoOlder, k, Offers(versions, now)))
    ensures forall k, l: K8sVersion :: NoOlder(k, l) && NoOlder(l, k) <==> k.version.release == l.version.release
  {
    NoOlderIsPreorder();
    var offers := Offers(versions, now);
    var r := Sort(NoOlder, offers);
    SortSorts(NoOlder, offers);
    forall i, j | 0 <= i < j < |r| ensures !Lower(r[i].version.release, r[j].version.release) {
      assert NoOlder(r[i], r[j]);
      ReleasesCompareIff(r[i].version.release, r[j].version.release);
    }
    forall k ensures k in r <==> exists v :: v in versions && v.version == k.version && Counts(v, now, k.deprecated) {
      assert k in r <==> k in multiset(r);
      OffersCount(versions, now, k);
    }
    forall k ensures Peers(NoOlder, k, r) == Peers(NoOlder, k, offers) {
      SortKeepsPeers(NoOlder, k, offers);
    }
    forall k, l: K8sVersion ensures NoOlder(k, l) && NoOlder(l, k) <==> k.version.release == l.version.release {
      ReleasesCompareIff(k.version.release, l.version.release);
      ReleasesCompareIff(l.version.release, k.version.release);
    }
  }

  lemma OffersCount(versions: seq<CloudVersion>, now: int, k: K8sVersion)
    ensures k in Offers(versions, now) <==>
              exists v :: v in versions && v.version == k.version && Counts(v, now, k.deprecated)
  {
    forall v ensures Offered(v, now) && Offer(v, now) == k <==> v.version == k.version && Counts(v, now, k.deprecated) {
      OfferCounts(v, now);
    }
  }
}
