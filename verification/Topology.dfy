/**
  Topology consensus: the counting loops over the sites' Patroni observations, and the set
  specification they are meant to compute.
*/
module Topology {
  import opened Common
  import opened Names
  import U = UpgradePhases

  const FRESHNESS := 120

  datatype Report = Report(site: string, primary: string, observedAt: Option<int>, standbys: seq<string>)

  /** Which observers an instance waits for in its present phase. */
  datatype Mode = Suspended | SeedOnly | PrimaryOnly(from: string) | AllDataSites(sites: seq<string>)

  /** The hub's choice of observers from the annotations of the instance. */
  function ModeOf(seeding: bool, tag: U.Tag, dataSites: seq<string>): Mode {
    if tag.Some? && tag.value.phase in {U.Stop, U.Snapshot, U.UpgradePrimary, U.StanzaUpgrade, U.Rollback} then Suspended
    else if tag.Some? && tag.value.phase == U.StartPrimary then PrimaryOnly(tag.value.primary)
    else if seeding then SeedOnly
    else AllDataSites(dataSites)
  }

  /**
    The hub suspends observation exactly while the agents keep every member stopped, and waits for
    the primary's site alone while they keep every other member stopped, except in RollbackStart:
    there it waits for all data sites although only the primary is running.
  */
  lemma ObserversMatchRunningMembers(tag: U.Tag, dataSites: seq<string>, other: string)
    requires tag.Some? ==> other != tag.value.primary
    ensures ModeOf(false, tag, dataSites).Suspended? <==> tag.Some? && U.MemberStopped(tag, tag.value.primary)
    ensures !ModeOf(false, tag, dataSites).AllDataSites? <==>
            U.MemberStopped(tag, other) && tag.value.phase != U.RollbackStart
  {
  }

  datatype Verdict = Verdict(ready: bool, primary: string, standbys: seq<string>)

  predicate Recent(r: Report, now: int) {
    r.primary != "" && r.observedAt.Some? && now - r.observedAt.value <= FRESHNESS
  }

  predicate Counts(r: Report, mode: Mode, now: int) {
    (mode.PrimaryOnly? ==> BelongsToSite(mode.from, r.site)) && Recent(r, now)
  }

  function Required(mode: Mode): nat { if mode.AllDataSites? then |mode.sites| else 1 }

  /** The fresh reports, in the order of the status list. */
  function Observed(reports: seq<Report>, mode: Mode, now: int): (o: seq<Report>)
    ensures forall r :: r in o <==> r in reports && Counts(r, mode, now)
  {
    if reports == [] then []
    else
      var n := |reports| - 1;
      assert reports == reports[..n] + [reports[n]];
      Observed(reports[..n], mode, now) + if Counts(reports[n], mode, now) then [reports[n]] else []
  }

  /** All standby entries of the reports together. */
  function Entries(o: seq<Report>): multiset<string> {
    if o == [] then multiset{} else Entries(o[..|o| - 1]) + multiset(o[|o| - 1].standbys)
  }

  predicate OnePrimary(o: seq<Report>) {
    o != [] && forall i :: 0 <= i < |o| ==> o[i].primary == o[0].primary
  }

  function Primaries(o: seq<Report>): set<string> { set i | 0 <= i < |o| :: o[i].primary }

  /** What the loops compute: enough reports, one primary, and the standbys counted once per report. */
  ghost predicate Aggregates(reports: seq<Report>, mode: Mode, now: int, v: Verdict) {
    var o := Observed(reports, mode, now);
    && (v.ready <==> !mode.Suspended? && |o| == Required(mode) && OnePrimary(o))
    && (!v.ready ==> v.primary == "" && v.standbys == [])
    && (v.ready ==>
          && v.primary == o[0].primary
          && Sorted(v.standbys) && Distinct(v.standbys)
          && forall x :: x in v.standbys <==> x in Entries(o) && Entries(o)[x] == Required(mode))
  }

  /** A counter map that agrees with a multiset. */
  ghost predicate CountsOf(counts: map<string, nat>, entries: multiset<string>) {
    forall x :: (x in counts <==> x in entries) && (x in counts ==> counts[x] == entries[x])
  }

  method Increment(counts: map<string, nat>, x: string, ghost entries: multiset<string>) returns (after: map<string, nat>)
    requires CountsOf(counts, entries)
    ensures CountsOf(after, entries + multiset{x})
  {
    after := counts[x := (if x in counts then counts[x] else 0) + 1];
  }

  method CountStandbys(o: seq<Report>) returns (counts: map<string, nat>)
    ensures CountsOf(counts, Entries(o))
  {
    counts := map[];
    for i := 0 to |o|
      invariant CountsOf(counts, Entries(o[..i]))
    {
      var list := o[i].standbys;
      for j := 0 to |list|
        invariant CountsOf(counts, Entries(o[..i]) + multiset(list[..j]))
      {
        assert list[..j + 1] == list[..j] + [list[j]];
        counts := Increment(counts, list[j], Entries(o[..i]) + multiset(list[..j]));
      }
      assert list[..|list|] == list && o[..i + 1][..i] == o[..i];
    }
    assert o[..|o|] == o;
  }

  /** The names with exactly this count, sorted. */
  method Select(counts: map<string, nat>, wanted: nat) returns (names: seq<string>)
    ensures Sorted(names) && Distinct(names)
    ensures forall x :: x in names <==> x in counts && counts[x] == wanted
  {
    var found := [];
    var rest := counts.Keys;
    while rest != {}
      invariant rest <= counts.Keys && Distinct(found)
      invariant forall x :: x in found <==> x in counts.Keys - rest && counts[x] == wanted
    {
      var x :| x in rest;
      if counts[x] == wanted {
        found := found + [x];
      }
      rest := rest - {x};
    }
    names := Sort(found);
    SortedPermutation(found, names);
    assert forall x :: x in names <==> x in Elements(names);
    assert forall x :: x in found <==> x in Elements(found);
  }

  method AggregateTopology(reports: seq<Report>, mode: Mode, now: int) returns (v: Verdict)
    ensures Aggregates(reports, mode, now, v)
  {
    if mode.Suspended? {
      return Verdict(false, "", []);
    }
    var observed: seq<Report> := [];
    var primaries: set<string> := {};
    for k := 0 to |reports|
      invariant observed == Observed(reports[..k], mode, now)
      invariant primaries == Primaries(observed)
    {
      assert reports[..k + 1][..k] == reports[..k];
      if Counts(reports[k], mode, now) {
        PrimariesGrow(observed, reports[k]);
        observed := observed + [reports[k]];
        primaries := primaries + {reports[k].primary};
      }
    }
    assert reports[..|reports|] == reports;
    if |observed| != Required(mode) {
      return Verdict(false, "", []);
    }
    OnePrimaryCounts(observed);
    if |primaries| != 1 {
      return Verdict(false, "", []);
    }
    var counts := CountStandbys(observed);
    var standbys := Select(counts, Required(mode));
    return Verdict(true, observed[0].primary, standbys);
  }

  lemma PrimariesGrow(o: seq<Report>, r: Report)
    ensures Primaries(o + [r]) == Primaries(o) + {r.primary}
  {
    var after := o + [r];
    forall p | p in Primaries(o) ensures p in Primaries(after) {
      var i :| 0 <= i < |o| && o[i].primary == p;
      assert after[i].primary == p;
    }
    assert after[|o|].primary == r.primary;
  }

  lemma OnePrimaryCounts(o: seq<Report>)
    ensures |Primaries(o)| == 1 <==> OnePrimary(o)
  {
    var primaries := Primaries(o);
    if |primaries| == 1 {
      assert o[0].primary in primaries;
      assert |primaries - {o[0].primary}| == 0;
      assert forall i :: 0 <= i < |o| && o[i].primary != o[0].primary ==> o[i].primary in primaries - {o[0].primary};
    }
    if OnePrimary(o) {
      assert o[0].primary in primaries;
      assert primaries == {o[0].primary};
    }
  }

  // ------------------------------------------------------------------------------------
  // The set specification
  // ------------------------------------------------------------------------------------

  /** Every report lists the standby. */
  predicate InAll(o: seq<Report>, x: string) { forall i :: 0 <= i < |o| ==> x in o[i].standbys }

  lemma {:induction false} EntriesBound(o: seq<Report>, x: string)
    requires forall r :: r in o ==> Distinct(r.standbys)
    ensures Entries(o)[x] <= |o|
    ensures Entries(o)[x] == |o| <==> InAll(o, x)
  {
    if o != [] {
      var n := |o| - 1;
      EntriesBound(o[..n], x);
      assert o[n] in o;
      DistinctIsOnce(o[n].standbys, x);
      assert x in multiset(o[n].standbys) <==> x in o[n].standbys;
    }
  }

  /** The published standbys are the sorted intersection of the duplicate-free reported lists. */
  lemma StandbysAreIntersection(reports: seq<Report>, mode: Mode, now: int, v: Verdict)
    requires Aggregates(reports, mode, now, v) && v.ready
    requires forall r :: r in reports ==> Distinct(r.standbys)
    ensures
      var o := Observed(reports, mode, now);
      && Sorted(v.standbys) && Distinct(v.standbys)
      && forall x :: x in v.standbys <==> InAll(o, x)
  {
    var o := Observed(reports, mode, now);
    forall x ensures x in v.standbys <==> InAll(o, x) {
      EntriesBound(o, x);
      assert Entries(o)[x] == |o| ==> x in Entries(o);
    }
  }

  function SiteNames(o: seq<Report>): set<string> { set i | 0 <= i < |o| :: o[i].site }

  predicate Reports(reports: seq<Report>, site: string, now: int) {
    exists i :: 0 <= i < |reports| && reports[i].site == site && Recent(reports[i], now)
  }

  /** Every required site has a fresh report, and the fresh reports of the required sites name one primary. */
  predicate Consensus(reports: seq<Report>, required: set<string>, now: int) {
    && required != {}
    && (forall s :: s in required ==> Reports(reports, s, now))
    && (forall i, j :: 0 <= i < |reports| && 0 <= j < |reports| && Recent(reports[i], now) && Recent(reports[j], now) &&
                       reports[i].site in required && reports[j].site in required ==>
          reports[i].primary == reports[j].primary)
  }

  /** The sites an instance has to wait for: the seed, the site of the primary, or all data sites. */
  predicate Requires(mode: Mode, required: set<string>) {
    match mode
    case Suspended => false
    case SeedOnly => |required| == 1
    case PrimaryOnly(from) => |required| == 1 && forall s :: s in required ==> BelongsToSite(from, s)
    case AllDataSites(sites) => Distinct(sites) && required == Elements(sites)
  }

  /** Only required sites are counted. */
  predicate OnlyRequired(reports: seq<Report>, mode: Mode, required: set<string>, now: int) {
    SiteNames(Observed(reports, mode, now)) <= required
  }

  predicate DistinctSites(o: seq<Report>) {
    forall i, j :: 0 <= i < j < |o| ==> o[i].site != o[j].site
  }

  lemma NamesGrow(o: seq<Report>, r: Report)
    ensures SiteNames(o + [r]) == SiteNames(o) + {r.site}
  {
    var after := o + [r];
    forall x | x in SiteNames(o) ensures x in SiteNames(after) {
      var i :| 0 <= i < |o| && o[i].site == x;
      assert after[i].site == x;
    }
    assert after[|o|].site == r.site;
  }

  lemma {:induction false} NamesCount(o: seq<Report>)
    requires DistinctSites(o)
    ensures |SiteNames(o)| == |o|
  {
    if o != [] {
      var n := |o| - 1;
      NamesCount(o[..n]);
      NamesGrow(o[..n], o[n]);
      assert o == o[..n] + [o[n]];
      assert o[n].site !in SiteNames(o[..n]);
    }
  }

  lemma {:induction false} ElementsCount(s: seq<string>)
    requires Distinct(s)
    ensures |Elements(s)| == |s|
  {
    if s != [] {
      ElementsCount(s[1..]);
      TailElements(s);
      assert s[0] in Elements(s);
    }
  }

  lemma {:induction false} ObservedDistinct(reports: seq<Report>, mode: Mode, now: int)
    requires DistinctSites(reports)
    ensures DistinctSites(Observed(reports, mode, now))
  {
    if reports != [] {
      var n := |reports| - 1;
      ObservedDistinct(reports[..n], mode, now);
      var o := Observed(reports[..n], mode, now);
      forall i | 0 <= i < |o| ensures o[i].site != reports[n].site {
        assert o[i] in reports[..n];
      }
    }
  }

  lemma RequiredAreCounted(reports: seq<Report>, mode: Mode, required: set<string>, now: int, i: nat)
    requires Requires(mode, required) && i < |reports| && reports[i].site in required && Recent(reports[i], now)
    ensures reports[i] in Observed(reports, mode, now) && reports[i].site in SiteNames(Observed(reports, mode, now))
  {
    var o := Observed(reports, mode, now);
    assert reports[i] in o;
    var k :| 0 <= k < |o| && o[k] == reports[i];
    assert o[k].site in SiteNames(o);
  }

  lemma ConsensusIsObserved(reports: seq<Report>, mode: Mode, required: set<string>, now: int)
    requires Requires(mode, required) && Consensus(reports, required, now)
    ensures required <= SiteNames(Observed(reports, mode, now))
  {
    forall s | s in required ensures s in SiteNames(Observed(reports, mode, now)) {
      assert Reports(reports, s, now);
      var i :| 0 <= i < |reports| && reports[i].site == s && Recent(reports[i], now);
      RequiredAreCounted(reports, mode, required, now, i);
    }
  }

  lemma RequiredCount(mode: Mode, required: set<string>)
    requires Requires(mode, required)
    ensures |required| == Required(mode)
  {
    if mode.AllDataSites? {
      ElementsCount(mode.sites);
    }
  }

  lemma ObservedFromRequired(reports: seq<Report>, mode: Mode, required: set<string>, now: int)
    requires Requires(mode, required) && OnlyRequired(reports, mode, required, now) && OnePrimary(Observed(reports, mode, now))
    requires required <= SiteNames(Observed(reports, mode, now))
    ensures Consensus(reports, required, now)
  {
    var o := Observed(reports, mode, now);
    assert o[0].site in SiteNames(o);
    forall s | s in required ensures Reports(reports, s, now) {
      var k :| 0 <= k < |o| && o[k].site == s;
      assert o[k] in reports;
      var i :| 0 <= i < |reports| && reports[i] == o[k];
      assert reports[i].site == s && Recent(reports[i], now);
    }
    forall i | 0 <= i < |reports| && reports[i].site in required && Recent(reports[i], now)
      ensures reports[i].primary == o[0].primary
    {
      RequiredAreCounted(reports, mode, required, now, i);
      var k :| 0 <= k < |o| && o[k] == reports[i];
    }
  }

  lemma ConsensusIsOnePrimary(reports: seq<Report>, mode: Mode, required: set<string>, now: int)
    requires Requires(mode, required) && OnlyRequired(reports, mode, required, now) && Consensus(reports, required, now)
    ensures OnePrimary(Observed(reports, mode, now))
  {
    var o := Observed(reports, mode, now);
    ConsensusIsObserved(reports, mode, required, now);
    var s :| s in required;
    assert s in SiteNames(o) && o != [];
    forall k | 0 <= k < |o| ensures o[k].primary == o[0].primary {
      assert o[k] in reports && o[0] in reports && o[k].site in SiteNames(o) && o[0].site in SiteNames(o);
      var i :| 0 <= i < |reports| && reports[i] == o[k];
      var j :| 0 <= j < |reports| && reports[j] == o[0];
      assert Recent(reports[i], now) && Recent(reports[j], now);
    }
  }

  /**
    In every mode, TopologyReady is true exactly when the required sites have consensus, as long as
    no other site is counted. Once another site is counted the two are never true together: ready
    is then always wrong, and consensus always goes unseen.
  */
  lemma ReadyIsConsensusExactly(reports: seq<Report>, mode: Mode, required: set<string>, now: int, v: Verdict)
    requires DistinctSites(reports) && Requires(mode, required) && Aggregates(reports, mode, now, v)
    ensures
      if OnlyRequired(reports, mode, required, now) then v.ready <==> Consensus(reports, required, now)
      else !(v.ready && Consensus(reports, required, now))
  {
    var o := Observed(reports, mode, now);
    ObservedDistinct(reports, mode, now);
    NamesCount(o);
    RequiredCount(mode, required);
    if Consensus(reports, required, now) {
      ConsensusIsObserved(reports, mode, required, now);
      SubsetSize(required, SiteNames(o));
      if OnlyRequired(reports, mode, required, now) {
        assert SiteNames(o) == required;
        ConsensusIsOnePrimary(reports, mode, required, now);
      }
    }
    if v.ready && OnlyRequired(reports, mode, required, now) {
      SubsetSize(SiteNames(o), required);
      ObservedFromRequired(reports, mode, required, now);
    }
  }

  /** The published primary is a name that every counted report gives, and readiness determines the whole verdict. */
  lemma VerdictIsNamed(reports: seq<Report>, mode: Mode, now: int, v: Verdict, w: Verdict)
    requires Aggregates(reports, mode, now, v) && Aggregates(reports, mode, now, w)
    ensures v == w
    ensures v.ready ==> v.primary != "" && forall i :: 0 <= i < |reports| && Counts(reports[i], mode, now) ==> reports[i].primary == v.primary
  {
    var o := Observed(reports, mode, now);
    if v.ready {
      assert o[0] in reports;
      forall i | 0 <= i < |reports| && Counts(reports[i], mode, now) ensures reports[i].primary == v.primary {
        assert reports[i] in o;
      }
      assert Elements(v.standbys) == Elements(w.standbys) by {
        forall x ensures x in v.standbys <==> x in w.standbys {
        }
      }
      SortedListingIsUnique(v.standbys, w.standbys);
    }
  }

  /** A report that names a primary counts from the moment it is made for two minutes, and any other never. */
  lemma ReportsLastTwoMinutes(r: Report, sites: seq<string>, now: int)
    ensures Counts(r, AllDataSites(sites), now) <==>
            match r.observedAt
            case None => false
            case Some(made) => r.primary != "" && now <= made + 2 * 60
  {
  }

  // ------------------------------------------------------------------------------------
  // Whose reports are counted
  // ------------------------------------------------------------------------------------

  lemma {:induction false} ObservedSites(reports: seq<Report>, mode: Mode, now: int, site: string)
    ensures site in SiteNames(Observed(reports, mode, now)) <==>
            exists i :: 0 <= i < |reports| && reports[i].site == site && Counts(reports[i], mode, now)
  {
    var o := Observed(reports, mode, now);
    if site in SiteNames(o) {
      var k :| 0 <= k < |o| && o[k].site == site;
      assert o[k] in reports;
      var i :| 0 <= i < |reports| && reports[i] == o[k];
    }
    if i :| 0 <= i < |reports| && reports[i].site == site && Counts(reports[i], mode, now) {
      assert reports[i] in o;
      var k :| 0 <= k < |o| && o[k] == reports[i];
      assert o[k].site in SiteNames(o);
    }
  }

  /** While the primary alone runs, another site is counted exactly when the primary's site name extends its name. */
  lemma PrimaryOnlyCountsExactly(reports: seq<Report>, site: string, ordinal: string, now: int)
    requires Decimal(ordinal)
    ensures OnlyRequired(reports, PrimaryOnly(PostgresMember(site, ordinal)), {site}, now) <==>
            forall i :: 0 <= i < |reports| && Recent(reports[i], now) ==> !(reports[i].site + "-" <= site)
  {
    var mode := PrimaryOnly(PostgresMember(site, ordinal));
    var names := SiteNames(Observed(reports, mode, now));
    forall i | 0 <= i < |reports| && Recent(reports[i], now)
      ensures reports[i].site in names <==> reports[i].site == site || reports[i].site + "-" <= site
    {
      ObservedSites(reports, mode, now, reports[i].site);
      BelongsExactly(site, ordinal, reports[i].site);
      if j :| 0 <= j < |reports| && reports[j].site == reports[i].site && Counts(reports[j], mode, now) {
        assert BelongsToSite(mode.from, reports[i].site);
      }
    }
    forall s | s in names
      ensures exists i :: 0 <= i < |reports| && reports[i].site == s && Recent(reports[i], now)
    {
      ObservedSites(reports, mode, now, s);
    }
  }

  /** While a restore is seeding, any other fresh report counts instead of the seed's. */
  lemma SeedOnlyCountsExactly(reports: seq<Report>, seed: string, now: int)
    ensures OnlyRequired(reports, SeedOnly, {seed}, now) <==>
            forall i :: 0 <= i < |reports| && Recent(reports[i], now) ==> reports[i].site == seed
  {
    forall i | 0 <= i < |reports| && Recent(reports[i], now)
      ensures reports[i].site in SiteNames(Observed(reports, SeedOnly, now))
    {
      ObservedSites(reports, SeedOnly, now, reports[i].site);
    }
    forall s | s in SiteNames(Observed(reports, SeedOnly, now))
      ensures exists i :: 0 <= i < |reports| && reports[i].site == s && Recent(reports[i], now)
    {
      ObservedSites(reports, SeedOnly, now, s);
    }
  }

  /** The agent's rule: a site observes the topology only while it expects PostgreSQL to run. */
  predicate ExpectsPostgres(isData: bool, site: string, seed: Option<string>, tag: U.Tag) {
    isData &&
    if tag.Some? && tag.value.phase in {U.Stop, U.Snapshot, U.UpgradePrimary, U.StanzaUpgrade, U.Rollback} then false
    else if tag.Some? && tag.value.phase in {U.StartPrimary, U.RollbackStart, U.RestoreWrites} then
      BelongsToSite(tag.value.primary, site)
    else seed.None? || site == seed.value
  }

  /**
    Under one plan the sites that observe are among those the hub counts, and are exactly those except
    in RollbackStart and RestoreWrites, where the hub waits for all data sites although the primary's
    site alone observes. So a report from elsewhere was made under an older plan.
  */
  lemma ObserversAreCounted(isData: bool, site: string, seed: Option<string>, tag: U.Tag, dataSites: seq<string>)
    requires isData <==> site in dataSites
    requires seed.Some? ==> tag.None?
    ensures
      var mode := ModeOf(seed.Some?, tag, dataSites);
      var counted := match mode
        case Suspended => false
        case SeedOnly => isData && site == seed.value
        case PrimaryOnly(from) => isData && BelongsToSite(from, site)
        case AllDataSites(_) => isData;
      && (ExpectsPostgres(isData, site, seed, tag) ==> counted)
      && (tag.None? || (tag.value.phase != U.RollbackStart && tag.value.phase != U.RestoreWrites) ==>
            (ExpectsPostgres(isData, site, seed, tag) <==> counted))
      && (tag.Some? && (tag.value.phase == U.RollbackStart || tag.value.phase == U.RestoreWrites) ==>
            (ExpectsPostgres(isData, site, seed, tag) <==> isData && BelongsToSite(tag.value.primary, site)))
  {
  }

  // ------------------------------------------------------------------------------------
  // Failing cases
  // ------------------------------------------------------------------------------------

  /** Two sites have a fresh report and one has none; `second` has the place of the silent one. */
  function OneSilent(first: string, silent: string, second: string, now: int): seq<Report> {
    [Report(first, "postgres-p-0", Some(now), []), Report(silent, "postgres-p-0", None, []),
     Report(second, "postgres-p-0", Some(now), [])]
  }

  lemma OneSilentObserved(first: string, silent: string, second: string, mode: Mode, now: int)
    requires mode.AllDataSites?
    ensures
      var reports := OneSilent(first, silent, second, now);
      Observed(reports, mode, now) == [reports[0], reports[2]]
  {
    var reports := OneSilent(first, silent, second, now);
    assert reports[..2] == [reports[0], reports[1]] && reports[..2][..1] == [reports[0]] && reports[..1][..0] == [];
    assert Observed([reports[0]], mode, now) == [reports[0]];
    assert Observed([reports[0], reports[1]], mode, now) == [reports[0]];
  }

  /**
    A data site that is turned into a witness keeps its report for two minutes. With three data sites,
    one of them silent, the topology is not ready; turning one of the others into a witness makes it
    ready at once, although a required site has still reported nothing.
  */
  lemma ForeignObserverCounts(now: int, before: Verdict, after: Verdict)
    requires Aggregates(OneSilent("a", "b", "w", now), AllDataSites(["a", "b", "w"]), now, before)
    requires Aggregates(OneSilent("a", "b", "w", now), AllDataSites(["a", "b"]), now, after)
    ensures !before.ready && after.ready
    ensures !Consensus(OneSilent("a", "b", "w", now), {"a", "b"}, now)
  {
    OneSilentObserved("a", "b", "w", AllDataSites(["a", "b", "w"]), now);
    OneSilentObserved("a", "b", "w", AllDataSites(["a", "b"]), now);
    var reports := OneSilent("a", "b", "w", now);
    assert !Reports(reports, "b", now);
  }

  /** One fresh report and one silent site. */
  function OtherReports(other: string, silent: string, now: int): seq<Report> {
    [Report(other, "postgres-p-0", Some(now), []), Report(silent, "", None, [])]
  }

  lemma OtherObserved(other: string, silent: string, mode: Mode, now: int)
    requires Counts(OtherReports(other, silent, now)[0], mode, now)
    ensures Observed(OtherReports(other, silent, now), mode, now) == [OtherReports(other, silent, now)[0]]
  {
    var reports := OtherReports(other, silent, now);
    assert reports[..1] == [reports[0]] && reports[..1][..0] == [];
    assert Observed([reports[0]], mode, now) == [reports[0]];
  }

  /** A site other than the seed reports, the seed does not, and the restore target counts as ready. */
  lemma OtherSiteStandsInForSeed(seed: string, other: string, now: int, v: Verdict)
    requires seed != other && Aggregates(OtherReports(other, seed, now), SeedOnly, now, v)
    ensures v.ready && !Consensus(OtherReports(other, seed, now), {seed}, now)
  {
    OtherObserved(other, seed, SeedOnly, now);
    assert !Reports(OtherReports(other, seed, now), seed, now);
  }

  /** Site "a" reports, site "a-b" of the primary does not, and the started primary counts as observed. */
  lemma ShorterNameStandsInForPrimary(now: int, v: Verdict)
    requires Aggregates(OtherReports("a", "a-b", now), PrimaryOnly(PostgresMember("a-b", "0")), now, v)
    ensures v.ready && !Consensus(OtherReports("a", "a-b", now), {"a-b"}, now)
  {
    assert Decimal("0");
    BelongsExactly("a-b", "0", "a");
    assert "a" + "-" <= "a-b";
    OtherObserved("a", "a-b", PrimaryOnly(PostgresMember("a-b", "0")), now);
    assert "a" != "a-b" by { assert |"a"| != |"a-b"|; }
    assert !Reports(OtherReports("a", "a-b", now), "a-b", now);
  }
}
