/** Probe events become the daily qualification summary of a node. */
module ProbeSummary {
  import opened Records

  type Probes = map<string, Observation<Probe>>

  datatype Tally = Tally(
    valid: int,
    up: int,
    finalizedMeasurable: int,
    finalizedWithin: int,
    chainMeasurable: int,
    chainWithin: int,
    regions: int)

  // ---- What the acceptance rule guarantees about one probe ----

  /** The measurement part of the acceptance rule for incoming probe events. */
  predicate Acceptable(p: Probe) {
    && (p.up ==> p.finalizedLag.Some? && p.chainLag.Some? && p.sourceHeight.Some? && p.peerHeight.Some?)
    && (p.finalizedLag.Some? ==> p.finalizedLag.value >= 0)
    && (p.chainLag.Some? ==> p.chainLag.value >= 0)
    && (p.sourceHeight.Some? ==> p.sourceHeight.value >= 0)
    && (p.peerHeight.Some? ==> p.peerHeight.value >= 0)
  }

  predicate LagMeasured(p: Probe, lag: Option<int>) {
    p.up && lag.Some?
  }

  predicate LagWithin(p: Probe, lag: Option<int>, max: int) {
    LagMeasured(p, lag) && lag.value <= max
  }

  /** The properties of a probe that the summary counts. */
  datatype Trait =
    | Any | Up
    | FinalizedMeasured | FinalizedWithin(max: int)
    | ChainMeasured | ChainWithin(max: int)

  predicate Shows(t: Trait, p: Probe) {
    match t
    case Any => true
    case Up => p.up
    case FinalizedMeasured => LagMeasured(p, p.finalizedLag)
    case FinalizedWithin(max) => LagWithin(p, p.finalizedLag, max)
    case ChainMeasured => LagMeasured(p, p.chainLag)
    case ChainWithin(max) => LagWithin(p, p.chainLag, max)
  }

  // ---- The recount: what a summary says about the stored probes ----

  /** The references of the probes of a node whose time text starts with the date. */
  ghost function OfDay(probes: Probes, nodeId: string, date: int): set<string> {
    set id | id in probes && probes[id].nodeId == nodeId && TextDate(probes[id].observedAt) == date
  }

  ghost function Having(probes: Probes, ids: set<string>, test: Trait): set<string> {
    set id | id in ids && id in probes && Shows(test, probes[id].what)
  }

  ghost function RegionsOf(probes: Probes, ids: set<string>): set<string> {
    set id | id in ids && id in probes :: probes[id].what.regionId
  }

  ghost function TallyOf(policy: Policy, probes: Probes, ids: set<string>): Tally {
    Tally(
      |Having(probes, ids, Any)|,
      |Having(probes, ids, Up)|,
      |Having(probes, ids, FinalizedMeasured)|,
      |Having(probes, ids, FinalizedWithin(policy.finalizedLagMax))|,
      |Having(probes, ids, ChainMeasured)|,
      |Having(probes, ids, ChainWithin(policy.chainLagMax))|,
      |RegionsOf(probes, ids)|)
  }

  /** The summary that a recount of the stored probes of the day gives. */
  ghost function SummaryOf(policy: Policy, probes: Probes, nodeId: string, date: int): Summary {
    Grade(policy, nodeId, date, TallyOf(policy, probes, OfDay(probes, nodeId, date)))
  }

  // ---- Grading a tally ----

  function Ratio(numerator: int, denominator: int): real {
    if denominator <= 0 then 0.0 else numerator as real / denominator as real
  }

  function InsufficientReason(t: Tally): Reason {
    if t.valid == 0 then NoValidProbes
    else if t.regions < 2 then InsufficientProbeRegions
    else if t.finalizedMeasurable == 0 then MissingFinalizedLagEvidence
    else if t.chainMeasurable == 0 then MissingChainLagEvidence
    else NoReason
  }

  function Grade(policy: Policy, nodeId: string, date: int, t: Tally): Summary {
    var availability := Ratio(t.up, t.valid);
    var finalized := Ratio(t.finalizedWithin, t.finalizedMeasurable);
    var chain := Ratio(t.chainWithin, t.chainMeasurable);
    var availabilityPassed := t.valid > 0 && availability >= 0.99;
    var finalizedPassed := t.finalizedMeasurable > 0 && finalized >= 0.95;
    var chainPassed := t.chainMeasurable > 0 && chain >= 0.95;
    var multiRegion := t.regions >= 2;
    var reason := InsufficientReason(t);
    Summary(
      nodeId, date, policy.version, policy.finalizedLagMax, policy.chainLagMax,
      t.valid, t.up, availability,
      t.finalizedMeasurable, t.finalizedWithin, finalized,
      t.chainMeasurable, t.chainWithin, chain, t.regions,
      availabilityPassed, finalizedPassed, chainPassed, multiRegion,
      reason == NoReason && availabilityPassed && finalizedPassed && chainPassed && multiRegion,
      reason)
  }

  // ---- The counting loop ----

  ghost function Refs(events: seq<Observation<Probe>>): set<string> {
    set e | e in events :: e.ref
  }

  /** `events` lists the probes stored under `ids`, each once. */
  ghost predicate Lists(events: seq<Observation<Probe>>, probes: Probes, ids: set<string>) {
    && (forall e :: e in events ==> e.ref in ids && e.ref in probes && probes[e.ref] == e)
    && (forall i, j :: 0 <= i < j < |events| ==> events[i].ref != events[j].ref)
    && Refs(events) == ids
  }

  lemma HavingGrows(probes: Probes, ids: set<string>, id: string, test: Trait)
    requires id !in ids && id in probes
    ensures |Having(probes, ids + {id}, test)| == |Having(probes, ids, test)| + if Shows(test, probes[id].what) then 1 else 0
  {
    hide Shows;
    var before := Having(probes, ids, test);
    assert Having(probes, ids + {id}, test) == if Shows(test, probes[id].what) then before + {id} else before;
  }

  /** The counts (apart from the regions) after counting one more probe. */
  ghost function Counting(policy: Policy, t: Tally, p: Probe): Tally {
    t.(valid := t.valid + 1,
      up := t.up + (if p.up then 1 else 0),
      finalizedMeasurable := t.finalizedMeasurable + (if LagMeasured(p, p.finalizedLag) then 1 else 0),
      finalizedWithin := t.finalizedWithin + (if LagWithin(p, p.finalizedLag, policy.finalizedLagMax) then 1 else 0),
      chainMeasurable := t.chainMeasurable + (if LagMeasured(p, p.chainLag) then 1 else 0),
      chainWithin := t.chainWithin + (if LagWithin(p, p.chainLag, policy.chainLagMax) then 1 else 0))
  }

  /** Counting along a list of events. */
  ghost function CountAlong(policy: Policy, events: seq<Observation<Probe>>): Tally {
    if events == [] then Tally(0, 0, 0, 0, 0, 0, 0)
    else Counting(policy, CountAlong(policy, events[..|events| - 1]), events[|events| - 1].what)
  }

  ghost function RegionsIn(events: seq<Observation<Probe>>): set<string> {
    set e | e in events :: e.what.regionId
  }

  /** Counting one more stored probe. */
  lemma TallyGrows(policy: Policy, probes: Probes, ids: set<string>, id: string)
    requires id !in ids && id in probes
    ensures TallyOf(policy, probes, ids + {id})
         == Counting(policy, TallyOf(policy, probes, ids), probes[id].what).(regions := |RegionsOf(probes, ids + {id})|)
  {
    HavingGrows(probes, ids, id, Any);
    HavingGrows(probes, ids, id, Up);
    HavingGrows(probes, ids, id, FinalizedMeasured);
    HavingGrows(probes, ids, id, FinalizedWithin(policy.finalizedLagMax));
    HavingGrows(probes, ids, id, ChainMeasured);
    HavingGrows(probes, ids, id, ChainWithin(policy.chainLagMax));
  }

  lemma TallyOfNone(policy: Policy, probes: Probes)
    ensures TallyOf(policy, probes, {}) == Tally(0, 0, 0, 0, 0, 0, 0)
  {
    assert forall test :: Having(probes, {}, test) == {};
    assert RegionsOf(probes, {}) == {};
  }

  lemma RefsSplit(events: seq<Observation<Probe>>)
    requires events != []
    ensures Refs(events) == Refs(events[..|events| - 1]) + {events[|events| - 1].ref}
  {
    assert events == events[..|events| - 1] + [events[|events| - 1]];
  }

  /** Counting along the list counts the stored probes, whatever the order of the list. */
  lemma {:induction false} CountAlongCounts(policy: Policy, probes: Probes, events: seq<Observation<Probe>>, ids: set<string>)
    requires Lists(events, probes, ids)
    ensures TallyOf(policy, probes, ids) == CountAlong(policy, events).(regions := |RegionsOf(probes, ids)|)
  {
    if events == [] {
      TallyOfNone(policy, probes);
    } else {
      var front, last := events[..|events| - 1], events[|events| - 1];
      RefsSplit(events);
      assert last.ref !in Refs(front);
      CountAlongCounts(policy, probes, front, Refs(front));
      TallyGrows(policy, probes, Refs(front), last.ref);
    }
  }

  lemma RegionsInCollects(events: seq<Observation<Probe>>, probes: Probes, ids: set<string>)
    requires Lists(events, probes, ids)
    ensures RegionsIn(events) == RegionsOf(probes, ids)
  {
    forall r | r in RegionsOf(probes, ids)
      ensures r in RegionsIn(events)
    {
      var id :| id in ids && id in probes && probes[id].what.regionId == r;
      assert id in Refs(events);
    }
  }

  /** One pass over the events of the day, in any order, computes the recount. */
  method ComputeDailySummary(policy: Policy, ghost probes: Probes, events: seq<Observation<Probe>>, nodeId: string, date: int)
    returns (summary: Summary)
    requires Lists(events, probes, OfDay(probes, nodeId, date))
    ensures summary == SummaryOf(policy, probes, nodeId, date)
  {
    var tally := CountEvents(policy, events);
    CountAlongCounts(policy, probes, events, OfDay(probes, nodeId, date));
    RegionsInCollects(events, probes, OfDay(probes, nodeId, date));
    summary := Grade(policy, nodeId, date, tally);
  }

  method CountEvents(policy: Policy, events: seq<Observation<Probe>>) returns (tally: Tally)
    ensures tally == CountAlong(policy, events).(regions := |RegionsIn(events)|)
  {
    var regionSet: set<string> := {};
    var up, finalizedMeasurable, finalizedWithin, chainMeasurable, chainWithin := 0, 0, 0, 0, 0;
    for i := 0 to |events|
      invariant regionSet == RegionsIn(events[..i])
      invariant Tally(i, up, finalizedMeasurable, finalizedWithin, chainMeasurable, chainWithin, 0)
             == CountAlong(policy, events[..i])
    {
      var event := events[i];
      assert events[..i + 1][..i] == events[..i];
      regionSet := regionSet + {event.what.regionId};
      if event.what.up {
        up := up + 1;
      }
      if event.what.up && event.what.finalizedLag.Some? {
        finalizedMeasurable := finalizedMeasurable + 1;
        if event.what.finalizedLag.value <= policy.finalizedLagMax {
          finalizedWithin := finalizedWithin + 1;
        }
      }
      if event.what.up && event.what.chainLag.Some? {
        chainMeasurable := chainMeasurable + 1;
        if event.what.chainLag.value <= policy.chainLagMax {
          chainWithin := chainWithin + 1;
        }
      }
    }
    assert events[..|events|] == events;
    tally := Tally(|events|, up, finalizedMeasurable, finalizedWithin, chainMeasurable, chainWithin, |regionSet|);
  }

  // ---- What the numbers of a summary say ----

  lemma RatioBounds(k: int, n: int)
    requires 0 <= k <= n
    ensures 0.0 <= Ratio(k, n) <= 1.0
    ensures n > 0 ==> (Ratio(k, n) >= 0.99 <==> 100 * k >= 99 * n)
    ensures n > 0 ==> (Ratio(k, n) >= 0.95 <==> 100 * k >= 95 * n)
  {
    if n > 0 {
      QuotientAtLeast(k as real, n as real, 0.0);
      QuotientAtLeast(k as real, n as real, 0.99);
      QuotientAtLeast(k as real, n as real, 0.95);
      QuotientAtMostOne(k as real, n as real);
    }
  }

  lemma QuotientAtLeast(a: real, x: real, c: real)
    requires x > 0.0
    ensures a / x >= c <==> a >= c * x
  {
    var q := a / x;
    assert q * x == a;
    if q >= c {
      assert (q - c) * x >= 0.0;
    } else {
      assert (c - q) * x > 0.0;
    }
  }

  lemma QuotientAtMostOne(a: real, x: real)
    requires x > 0.0 && a <= x
    ensures a / x <= 1.0
  {
    QuotientAtLeast(a, x, 1.0);
    assert a / x > 1.0 ==> a == x;
  }

  ghost predicate AllAcceptable(probes: Probes) {
    forall id :: id in probes ==> Acceptable(probes[id].what)
  }

  lemma SubsetCounts(probes: Probes, ids: set<string>, narrow: Trait, wide: Trait)
    requires forall id :: id in ids && id in probes && Shows(narrow, probes[id].what) ==> Shows(wide, probes[id].what)
    ensures |Having(probes, ids, narrow)| <= |Having(probes, ids, wide)|
  {
    var rest := Having(probes, ids, wide) - Having(probes, ids, narrow);
    assert Having(probes, ids, wide) == Having(probes, ids, narrow) + rest;
  }

  /** The counts of each lag kind are ordered, and missing chain-lag evidence is never the reason. */
  predicate CountsOrdered(s: Summary) {
    && 0 <= s.finalizedWithin <= s.finalizedMeasurable == s.up <= s.valid
    && 0 <= s.chainWithin <= s.chainMeasurable == s.up <= s.valid
    && s.insufficient in {NoReason, NoValidProbes, InsufficientProbeRegions, MissingFinalizedLagEvidence}
    && ColumnsAddUp(s)
  }

  /** The ratios are those of the counts, each gate is its threshold in whole numbers, and what is missing
      is named in this order. */
  predicate ColumnsAddUp(s: Summary) {
    && (s.valid > 0 ==> s.availabilityRatio == s.up as real / s.valid as real)
    && (s.up > 0 ==> s.finalizedRatio == s.finalizedWithin as real / s.up as real && s.chainRatio == s.chainWithin as real / s.up as real)
    && (s.availabilityPassed <==> s.valid > 0 && 100 * s.up >= 99 * s.valid)
    && (s.finalizedPassed <==> s.up > 0 && 100 * s.finalizedWithin >= 95 * s.up)
    && (s.chainPassed <==> s.up > 0 && 100 * s.chainWithin >= 95 * s.up)
    && (s.multiRegionPassed <==> s.regions >= 2)
    && (s.evidencePassed <==> s.availabilityPassed && s.finalizedPassed && s.chainPassed && s.multiRegionPassed)
    && s.insufficient == (
         if s.valid == 0 then NoValidProbes else if s.regions < 2 then InsufficientProbeRegions
         else if s.up == 0 then MissingFinalizedLagEvidence else NoReason)
  }

  /** Over accepted probes both lags are measured exactly when the node is up, so the counts are
      ordered and the fourth insufficiency reason cannot occur. */
  lemma SummaryCountsOrdered(policy: Policy, probes: Probes, nodeId: string, date: int)
    requires AllAcceptable(probes)
    ensures CountsOrdered(SummaryOf(policy, probes, nodeId, date))
    ensures SummaryOf(policy, probes, nodeId, date).valid == |OfDay(probes, nodeId, date)|
  {
    hide Having, RegionsOf;
    CountsInOrder(policy, probes, OfDay(probes, nodeId, date));
    var t := TallyOf(policy, probes, OfDay(probes, nodeId, date));
    RatioBounds(t.up, t.valid);
    RatioBounds(t.finalizedWithin, t.finalizedMeasurable);
    RatioBounds(t.chainWithin, t.chainMeasurable);
  }

  lemma CountsInOrder(policy: Policy, probes: Probes, ids: set<string>)
    requires AllAcceptable(probes) && ids <= probes.Keys
    ensures var t := TallyOf(policy, probes, ids);
      && 0 <= t.finalizedWithin <= t.finalizedMeasurable == t.up <= t.valid
      && 0 <= t.chainWithin <= t.chainMeasurable == t.up <= t.valid
      && t.valid == |ids| && t.regions >= 0
  {
    assert Having(probes, ids, Any) == ids;
    assert Having(probes, ids, FinalizedMeasured) == Having(probes, ids, Up);
    assert Having(probes, ids, ChainMeasured) == Having(probes, ids, Up);
    SubsetCounts(probes, ids, Up, Any);
    SubsetCounts(probes, ids, FinalizedWithin(policy.finalizedLagMax), FinalizedMeasured);
    SubsetCounts(probes, ids, ChainWithin(policy.chainLagMax), ChainMeasured);
  }

  /** The evidence gate in whole numbers: at least 99 % of all probes up, at least 95 % of the
      measured lags within their limit, and two regions. */
  lemma EvidencePassedInNumbers(policy: Policy, probes: Probes, nodeId: string, date: int)
    requires AllAcceptable(probes)
    ensures var s := SummaryOf(policy, probes, nodeId, date);
      s.evidencePassed <==>
        && s.up > 0 && s.regions >= 2
        && 100 * s.up >= 99 * s.valid
        && 100 * s.finalizedWithin >= 95 * s.up
        && 100 * s.chainWithin >= 95 * s.up
  {
    var s := SummaryOf(policy, probes, nodeId, date);
    SummaryCountsOrdered(policy, probes, nodeId, date);
    RatioBounds(s.up, s.valid);
    RatioBounds(s.finalizedWithin, s.finalizedMeasurable);
    RatioBounds(s.chainWithin, s.chainMeasurable);
  }

  lemma RatiosShown(policy: Policy, probes: Probes, nodeId: string, date: int)
    ensures var s := SummaryOf(policy, probes, nodeId, date);
      && s.nodeId == nodeId && s.date == date && s.policyVersion == policy.version
      && s.availabilityRatio == Ratio(s.up, s.valid)
      && s.finalizedRatio == Ratio(s.finalizedWithin, s.finalizedMeasurable) && s.chainRatio == Ratio(s.chainWithin, s.chainMeasurable)
  {
  }

  /** A probe of the node whose time text names the date. */
  predicate ProbeOfDay(e: Observation<Probe>, nodeId: string, date: int) {
    e.nodeId == nodeId && e.observedAt.local / 86_400 == date
  }

  /** Every column of a summary counts stored probes: all of the day, those that are up, those that are up
      and measured a lag, those whose lag is within its own limit, and their regions. */
  lemma ColumnsCountProbes(policy: Policy, probes: Probes, nodeId: string, date: int)
    ensures var s := SummaryOf(policy, probes, nodeId, date);
      && s.valid == |set id | id in probes && ProbeOfDay(probes[id], nodeId, date)|
      && s.up == |set id | id in probes && ProbeOfDay(probes[id], nodeId, date) && probes[id].what.up|
      && s.finalizedMeasurable == |set id | id in probes && ProbeOfDay(probes[id], nodeId, date) && probes[id].what.up && probes[id].what.finalizedLag.Some?|
      && s.chainMeasurable == |set id | id in probes && ProbeOfDay(probes[id], nodeId, date) && probes[id].what.up && probes[id].what.chainLag.Some?|
      && s.regions == |set id | id in probes && ProbeOfDay(probes[id], nodeId, date) :: probes[id].what.regionId|
      && s.finalizedLagMax == policy.finalizedLagMax && s.chainLagMax == policy.chainLagMax
  {
    var ids := OfDay(probes, nodeId, date);
    assert Having(probes, ids, Any) == set id | id in probes && ProbeOfDay(probes[id], nodeId, date);
    assert Having(probes, ids, Up) == set id | id in probes && ProbeOfDay(probes[id], nodeId, date) && probes[id].what.up;
    assert Having(probes, ids, FinalizedMeasured)
        == set id | id in probes && ProbeOfDay(probes[id], nodeId, date) && probes[id].what.up && probes[id].what.finalizedLag.Some?;
    assert Having(probes, ids, ChainMeasured)
        == set id | id in probes && ProbeOfDay(probes[id], nodeId, date) && probes[id].what.up && probes[id].what.chainLag.Some?;
    assert RegionsOf(probes, ids) == set id | id in probes && ProbeOfDay(probes[id], nodeId, date) :: probes[id].what.regionId;
  }

  lemma LagColumnsCountProbes(policy: Policy, probes: Probes, nodeId: string, date: int)
    ensures var s := SummaryOf(policy, probes, nodeId, date);
      && s.finalizedWithin == |set id | id in probes && ProbeOfDay(probes[id], nodeId, date) && probes[id].what.up
           && probes[id].what.finalizedLag.Some? && probes[id].what.finalizedLag.value <= policy.finalizedLagMax|
      && s.chainWithin == |set id | id in probes && ProbeOfDay(probes[id], nodeId, date) && probes[id].what.up
           && probes[id].what.chainLag.Some? && probes[id].what.chainLag.value <= policy.chainLagMax|
  {
    var ids := OfDay(probes, nodeId, date);
    assert Having(probes, ids, FinalizedWithin(policy.finalizedLagMax)) == set id | id in probes && ProbeOfDay(probes[id], nodeId, date)
      && probes[id].what.up && probes[id].what.finalizedLag.Some? && probes[id].what.finalizedLag.value <= policy.finalizedLagMax;
    assert Having(probes, ids, ChainWithin(policy.chainLagMax)) == set id | id in probes && ProbeOfDay(probes[id], nodeId, date)
      && probes[id].what.up && probes[id].what.chainLag.Some? && probes[id].what.chainLag.value <= policy.chainLagMax;
  }

  /** A further probe that is up and within both limits never turns passed evidence into failed. */
  lemma GoodProbeKeepsEvidence(policy: Policy, probes: Probes, e: Observation<Probe>, date: int)
    requires AllAcceptable(probes) && Acceptable(e.what) && e.ref !in probes
    requires TextDate(e.observedAt) == date
    requires LagWithin(e.what, e.what.finalizedLag, policy.finalizedLagMax)
    requires LagWithin(e.what, e.what.chainLag, policy.chainLagMax)
    requires SummaryOf(policy, probes, e.nodeId, date).evidencePassed
    ensures SummaryOf(policy, probes[e.ref := e], e.nodeId, date).evidencePassed
  {
    var after := probes[e.ref := e];
    var ids := OfDay(probes, e.nodeId, date);
    TallyOfDayGrows(policy, probes, e);
    EvidencePassedInNumbers(policy, probes, e.nodeId, date);
    EvidencePassedInNumbers(policy, after, e.nodeId, date);
    SetGrows(RegionsOf(probes, ids), e.what.regionId);
  }

  lemma SetGrows(regions: set<string>, region: string)
    ensures |regions| <= |regions + {region}|
  {
    if region in regions {
      assert regions + {region} == regions;
    }
  }

  /** Storing a probe adds exactly that probe to the recount of its node and text date. */
  lemma TallyOfDayGrows(policy: Policy, probes: Probes, e: Observation<Probe>)
    requires e.ref !in probes
    ensures var after := probes[e.ref := e];
      var date := TextDate(e.observedAt);
      var ids := OfDay(probes, e.nodeId, date);
      && OfDay(after, e.nodeId, date) == ids + {e.ref}
      && TallyOf(policy, after, ids + {e.ref})
      == Counting(policy, TallyOf(policy, probes, ids), e.what).(regions := |RegionsOf(probes, ids) + {e.what.regionId}|)
  {
    var after := probes[e.ref := e];
    var ids := OfDay(probes, e.nodeId, TextDate(e.observedAt));
    OfDayGrows(probes, e);
    SameTally(policy, probes, e, ids);
    TallyGrows(policy, after, ids, e.ref);
  }

  lemma OfDayGrows(probes: Probes, e: Observation<Probe>)
    requires e.ref !in probes
    ensures var after, date := probes[e.ref := e], TextDate(e.observedAt);
      var ids := OfDay(probes, e.nodeId, date);
      && OfDay(after, e.nodeId, date) == ids + {e.ref}
      && RegionsOf(after, ids + {e.ref}) == RegionsOf(probes, ids) + {e.what.regionId}
  {
  }

  /** Storing a probe does not change how the probes stored before are counted. */
  lemma SameTally(policy: Policy, probes: Probes, e: Observation<Probe>, ids: set<string>)
    requires e.ref !in probes && ids <= probes.Keys
    ensures TallyOf(policy, probes[e.ref := e], ids) == TallyOf(policy, probes, ids)
  {
    var after := probes[e.ref := e];
    assert forall test :: Having(after, ids, test) == Having(probes, ids, test);
    assert RegionsOf(after, ids) == RegionsOf(probes, ids);
  }

  /** The recount of any other node or date does not notice a stored probe. */
  lemma OtherSummariesUnchanged(policy: Policy, probes: Probes, e: Observation<Probe>, nodeId: string, date: int)
    requires e.ref !in probes
    requires nodeId != e.nodeId || date != TextDate(e.observedAt)
    ensures SummaryOf(policy, probes[e.ref := e], nodeId, date) == SummaryOf(policy, probes, nodeId, date)
  {
    var after := probes[e.ref := e];
    var ids := OfDay(probes, nodeId, date);
    assert OfDay(after, nodeId, date) == ids;
    SameTally(policy, probes, e, ids);
  }

  /** Storing a probe always changes the recount of its node and text date: a summary kept from
      before is stale. */
  lemma StoredProbeChangesSummary(policy: Policy, probes: Probes, e: Observation<Probe>)
    requires e.ref !in probes
    ensures SummaryOf(policy, probes[e.ref := e], e.nodeId, TextDate(e.observedAt)).valid
         == SummaryOf(policy, probes, e.nodeId, TextDate(e.observedAt)).valid + 1
  {
    TallyOfDayGrows(policy, probes, e);
  }
}
