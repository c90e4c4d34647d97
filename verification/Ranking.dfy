/** Ranking of the qualified nodes of a date: the decentralization score, the six-level comparison
    and the ranked rows. */
module RankingRules {
  import opened Orders
  import opened Records
  import opened Counting
  import opened Texts
  import opened Qualification

  // ---- Decentralization score ----

  /** The latest placement evidence found for a node, if any. */
  type Look = Option<Observation<Placement>>

  function InCountry(country: string): Look -> bool {
    (e: Look) => e.Some? && e.value.what.countryCode != "" && e.value.what.countryCode == country
  }

  function OnInfra(key: string): Look -> bool {
    (e: Look) => e.Some? && InfraOf(e.value.what) == key
  }

  function InfraOf(p: Placement): string {
    InfraKey(p.asn, p.providerId, p.infrastructureId)
  }

  /** The points for one node, given how often its country and infrastructure were counted. */
  function PlacementScore(counted: seq<Look>, e: Look): real {
    if e.None? then 0.0
    else
      var p := e.value.what;
      (if p.countryCode != "" && Count(counted, InCountry(p.countryCode)) == 1 then 20.0 else 0.0) +
      (if p.asn > 0 && !Blank(p.providerId) && Count(counted, OnInfra(InfraOf(p))) == 1 then 10.0 else 0.0)
  }

  function Tallied(m: map<string, int>, k: string): int {
    if k in m then m[k] else 0
  }

  /** Two passes over the ranked nodes: count countries and infrastructures, then score. The two
      passes look the evidence up separately. */
  method ComputeDecentralizationScores(counted: seq<Look>, scored: seq<Look>) returns (scores: seq<real>)
    ensures |scores| == |scored|
    ensures forall i :: 0 <= i < |scored| ==> scores[i] == PlacementScore(counted, scored[i])
  {
    var countries, infra := CountPlacements(counted);
    scores := [];
    for i := 0 to |scored|
      invariant |scores| == i
      invariant forall j :: 0 <= j < i ==> scores[j] == PlacementScore(counted, scored[j])
    {
      var score := 0.0;
      if scored[i].Some? {
        var p := scored[i].value.what;
        if p.countryCode != "" && Tallied(countries, p.countryCode) == 1 {
          score := score + 15.0;
          score := score + 5.0;
        }
        if p.asn > 0 && !Blank(p.providerId) && Tallied(infra, InfraOf(p)) == 1 {
          score := score + 10.0;
        }
      }
      scores := scores + [score];
    }
  }

  method CountPlacements(counted: seq<Look>) returns (countries: map<string, int>, infra: map<string, int>)
    ensures forall c :: Tallied(countries, c) == Count(counted, InCountry(c))
    ensures forall k :: Tallied(infra, k) == Count(counted, OnInfra(k))
  {
    countries, infra := map[], map[];
    for i := 0 to |counted|
      invariant forall c :: Tallied(countries, c) == Count(counted[..i], InCountry(c))
      invariant forall k :: Tallied(infra, k) == Count(counted[..i], OnInfra(k))
    {
      assert counted[..i + 1][..i] == counted[..i];
      if counted[i].Some? {
        var p := counted[i].value.what;
        if p.countryCode != "" {
          countries := countries[p.countryCode := Tallied(countries, p.countryCode) + 1];
        }
        infra := infra[InfraOf(p) := Tallied(infra, InfraOf(p)) + 1];
      }
    }
    assert counted[..|counted|] == counted;
  }

  predicate Level(d: real) {
    d == 0.0 || d == 10.0 || d == 20.0 || d == 30.0
  }

  /** A count of one at a passing position means that no other position passes. */
  lemma CountOneMeansAlone<T>(xs: seq<T>, i: nat, test: T -> bool)
    requires i < |xs| && test(xs[i])
    ensures Count(xs, test) == 1 <==> forall j :: 0 <= j < |xs| && j != i ==> !test(xs[j])
  {
    CountCounts(xs, test);
    var all := Passing(xs, test);
    if forall j :: 0 <= j < |xs| && j != i ==> !test(xs[j]) {
      assert all == {i};
    }
    if j :| 0 <= j < |xs| && j != i && test(xs[j]) {
      assert {i, j} <= all;
      assert |all - {i, j}| == |all| - |{i, j}|;
    }
  }

  predicate SameInfrastructure(p: Placement, q: Placement) {
    p.asn == q.asn && p.providerId == q.providerId && p.infrastructureId == q.infrastructureId
  }

  /** Counted as one infrastructure: provider and infrastructure may split differently at a bar. */
  predicate CountedAsOne(p: Placement, q: Placement) {
    p.asn == q.asn && p.providerId + "|" + p.infrastructureId == q.providerId + "|" + q.infrastructureId
  }

  lemma CountedAsOneIff(p: Placement, q: Placement)
    ensures InfraOf(p) == InfraOf(q) <==> CountedAsOne(p, q)
    ensures SameInfrastructure(p, q) ==> CountedAsOne(p, q)
    ensures '|' !in p.providerId && '|' !in q.providerId ==> (CountedAsOne(p, q) <==> SameInfrastructure(p, q))
  {
    InfraKeyEqualIff(p.asn, p.providerId, p.infrastructureId, q.asn, q.providerId, q.infrastructureId);
    if '|' !in p.providerId && '|' !in q.providerId {
      InfraKeyInjective(p.asn, p.providerId, p.infrastructureId, q.asn, q.providerId, q.infrastructureId);
    }
  }

  /** Another node with evidence shares the country of the i-th. */
  ghost predicate CountryShared(looks: seq<Look>, i: nat)
    requires i < |looks| && looks[i].Some?
  {
    exists j :: 0 <= j < |looks| && j != i && looks[j].Some? && looks[j].value.what.countryCode == looks[i].value.what.countryCode
  }

  /** Another node with evidence is on the infrastructure of the i-th. */
  ghost predicate InfraShared(looks: seq<Look>, i: nat)
    requires i < |looks| && looks[i].Some?
  {
    exists j :: 0 <= j < |looks| && j != i && looks[j].Some? && SameInfrastructure(looks[j].value.what, looks[i].value.what)
  }

  /** Another node with evidence is counted on the infrastructure of the i-th. */
  ghost predicate InfraCountedTwice(looks: seq<Look>, i: nat)
    requires i < |looks| && looks[i].Some?
  {
    exists j :: 0 <= j < |looks| && j != i && looks[j].Some? && CountedAsOne(looks[j].value.what, looks[i].value.what)
  }

  /** The evidence names an infrastructure that can earn points. */
  predicate NamesInfrastructure(p: Placement) {
    p.asn > 0 && !Blank(p.providerId)
  }

  /** The points of the i-th node, stated pairwise: 20 when no other ranked node with evidence is in the
      country, 10 when none is on the same infrastructure. */
  ghost function PairwiseScore(looks: seq<Look>, i: nat): real
    requires i < |looks|
  {
    if looks[i].None? then 0.0
    else
      var p := looks[i].value.what;
      (if p.countryCode != "" && !CountryShared(looks, i) then 20.0 else 0.0) +
      (if NamesInfrastructure(p) && !InfraShared(looks, i) then 10.0 else 0.0)
  }

  /** No bar makes the i-th node lose points: if another node is counted on its infrastructure, some
      other node really is on it. */
  ghost predicate BarsHarmless(looks: seq<Look>, i: nat)
    requires i < |looks|
  {
    looks[i].Some? && NamesInfrastructure(looks[i].value.what) && InfraCountedTwice(looks, i) ==> InfraShared(looks, i)
  }

  lemma CountryAlone(looks: seq<Look>, i: nat)
    requires i < |looks| && looks[i].Some? && looks[i].value.what.countryCode != ""
    ensures Count(looks, InCountry(looks[i].value.what.countryCode)) == 1 <==> !CountryShared(looks, i)
  {
    CountOneMeansAlone(looks, i, InCountry(looks[i].value.what.countryCode));
  }

  lemma InfraAlone(looks: seq<Look>, i: nat)
    requires i < |looks| && looks[i].Some?
    ensures Count(looks, OnInfra(InfraOf(looks[i].value.what))) == 1 <==> !InfraCountedTwice(looks, i)
  {
    hide CountedAsOne, InfraOf;
    var p := looks[i].value.what;
    CountOneMeansAlone(looks, i, OnInfra(InfraOf(p)));
    forall j | 0 <= j < |looks| && looks[j].Some?
      ensures InfraOf(looks[j].value.what) == InfraOf(p) <==> CountedAsOne(looks[j].value.what, p)
    {
      CountedAsOneIff(looks[j].value.what, p);
    }
  }

  /** When both passes find the same evidence, the points are pairwise exactly when no bar in a provider
      id makes the node lose points. */
  lemma ScoresArePairwiseIff(looks: seq<Look>, i: nat)
    requires i < |looks|
    ensures PlacementScore(looks, looks[i]) == PairwiseScore(looks, i) <==> BarsHarmless(looks, i)
  {
    hide Count, CountryShared, InfraShared, InfraCountedTwice, InCountry, OnInfra, InfraOf, Blank;
    if looks[i].Some? {
      if looks[i].value.what.countryCode != "" {
        CountryAlone(looks, i);
      }
      InfraAlone(looks, i);
      SharedIsCounted(looks, i);
    }
  }

  lemma SharedIsCounted(looks: seq<Look>, i: nat)
    requires i < |looks| && looks[i].Some?
    ensures InfraShared(looks, i) ==> InfraCountedTwice(looks, i)
  {
    hide CountedAsOne, SameInfrastructure;
    if InfraShared(looks, i) {
      var j :| 0 <= j < |looks| && j != i && looks[j].Some? && SameInfrastructure(looks[j].value.what, looks[i].value.what);
      CountedAsOneIff(looks[j].value.what, looks[i].value.what);
    }
  }

  /** Without bars in provider ids nobody loses points. */
  lemma NoBarsNoHarm(looks: seq<Look>, i: nat)
    requires i < |looks|
    requires forall j :: 0 <= j < |looks| && looks[j].Some? ==> '|' !in looks[j].value.what.providerId
    ensures BarsHarmless(looks, i)
  {
    hide CountedAsOne, SameInfrastructure;
    if looks[i].Some? && InfraCountedTwice(looks, i) {
      var j :| 0 <= j < |looks| && j != i && looks[j].Some? && CountedAsOne(looks[j].value.what, looks[i].value.what);
      CountedAsOneIff(looks[j].value.what, looks[i].value.what);
    }
  }

  /** In particular, without bars in provider ids the points are pairwise. */
  lemma ScoresArePairwise(looks: seq<Look>, i: nat)
    requires i < |looks|
    requires forall j :: 0 <= j < |looks| && looks[j].Some? ==> '|' !in looks[j].value.what.providerId
    ensures PlacementScore(looks, looks[i]) == PairwiseScore(looks, i)
  {
    hide PlacementScore, PairwiseScore, BarsHarmless;
    NoBarsNoHarm(looks, i);
    ScoresArePairwiseIff(looks, i);
  }

  // ---- The comparison ----

  function TotalScore(base: real, decentralization: real): real {
    Clamp(0.7 * base + 0.3 * decentralization)
  }

  predicate RegistrationLess(left: Option<int>, right: Option<int>) {
    match (left, right)
    case (Some(l), Some(r)) => l < r
    case (Some(_), None) => true
    case _ => false
  }

  /** What the comparison reads of a node. */
  datatype Entry = Entry(base: Base, decentralization: real, registeredAt: Option<int>)

  /** The comparison as the portal writes it: nested, from the total score down to the node id. */
  predicate RankBefore(a: Entry, b: Entry) {
    var leftTotal := TotalScore(a.base.total, a.decentralization);
    var rightTotal := TotalScore(b.base.total, b.decentralization);
    if leftTotal == rightTotal then
      if a.base.total == b.base.total then
        if a.base.finalization == b.base.finalization then
          if a.base.availability == b.base.availability then
            if RegistrationLess(a.registeredAt, b.registeredAt) then true
            else if RegistrationLess(b.registeredAt, a.registeredAt) then false
            else TextLess(a.base.nodeId, b.base.nodeId)
          else a.base.availability > b.base.availability
        else a.base.finalization > b.base.finalization
      else a.base.total > b.base.total
    else leftTotal > rightTotal
  }

  /** Registered earlier, or registered where the other is not. */
  predicate EarlierRegistration(a: Entry, b: Entry) {
    a.registeredAt.Some? && (b.registeredAt.None? || a.registeredAt.value < b.registeredAt.value)
  }

  /** Of two nodes with equal totals: the larger finalization score, then the larger availability score, then the
      earlier registration, and at last the node id that comes first as a text. */
  ghost predicate TieBreak(a: Entry, b: Entry) {
    || a.base.finalization > b.base.finalization
    || (a.base.finalization == b.base.finalization &&
         (a.base.availability > b.base.availability
          || (a.base.availability == b.base.availability &&
               (EarlierRegistration(a, b) || (a.registeredAt == b.registeredAt && TextBefore(a.base.nodeId, b.base.nodeId))))))
  }

  /** Columns of the lower levels of the comparison. */
  function TieKey(e: Entry): Key {
    [Down(e.base.finalization), Down(e.base.availability)] + RegistrationKey(e.registeredAt) + [Text(e.base.nodeId)]
  }

  function RegistrationKey(t: Option<int>): Key {
    if t.Some? then [Num(0), Num(t.value)] else [Num(1), Num(0)]
  }

  function RankKey(e: Entry): Key {
    [Down(TotalScore(e.base.total, e.decentralization)), Down(e.base.total)] + TieKey(e)
  }

  lemma TieKeyLess(a: Entry, b: Entry)
    ensures KeyLess(TieKey(a), TieKey(b)) <==> TieBreak(a, b)
  {
    hide TextBefore;
    var (ra, rb) := (RegistrationKey(a.registeredAt) + [Text(a.base.nodeId)], RegistrationKey(b.registeredAt) + [Text(b.base.nodeId)]);
    LastResortLess(a, b);
    TextLessIff(a.base.nodeId, b.base.nodeId);
    KeyLessStep(Down(a.base.availability), ra, Down(b.base.availability), rb);
    KeyLessStep(Down(a.base.finalization), [Down(a.base.availability)] + ra, Down(b.base.finalization), [Down(b.base.availability)] + rb);
    assert TieKey(a) == [Down(a.base.finalization)] + ([Down(a.base.availability)] + ra);
    assert TieKey(b) == [Down(b.base.finalization)] + ([Down(b.base.availability)] + rb);
  }

  lemma LastResortLess(a: Entry, b: Entry)
    ensures KeyLess(RegistrationKey(a.registeredAt) + [Text(a.base.nodeId)], RegistrationKey(b.registeredAt) + [Text(b.base.nodeId)]) <==>
      if RegistrationLess(a.registeredAt, b.registeredAt) then true
      else if RegistrationLess(b.registeredAt, a.registeredAt) then false
      else TextLess(a.base.nodeId, b.base.nodeId)
  {
    var (ra, rb) := (RegistrationKey(a.registeredAt), RegistrationKey(b.registeredAt));
    var (na, nb) := ([Text(a.base.nodeId)], [Text(b.base.nodeId)]);
    KeyLessStep(na[0], [], nb[0], []);
    assert na == [na[0]] + [] && nb == [nb[0]] + [];
    TextLessTotal(a.base.nodeId, b.base.nodeId);
    KeyLessStep(ra[1], na, rb[1], nb);
    KeyLessStep(ra[0], [ra[1]] + na, rb[0], [rb[1]] + nb);
    assert ra + na == [ra[0]] + ([ra[1]] + na) && rb + nb == [rb[0]] + ([rb[1]] + nb);
  }

  /** The nested comparison is the lexicographic order of the columns: the larger total, then the larger base
      score, then what breaks ties. */
  lemma RankBeforeIsLexicographic(a: Entry, b: Entry)
    ensures RankBefore(a, b) <==> KeyLess(RankKey(a), RankKey(b))
    ensures var (ta, tb) := (TotalScore(a.base.total, a.decentralization), TotalScore(b.base.total, b.decentralization));
      RankBefore(a, b) <==> ta > tb || (ta == tb && (a.base.total > b.base.total || (a.base.total == b.base.total && TieBreak(a, b))))
  {
    hide TextBefore;
    TieKeyLess(a, b);
    TextLessIff(a.base.nodeId, b.base.nodeId);
    var (ta, tb) := (Down(TotalScore(a.base.total, a.decentralization)), Down(TotalScore(b.base.total, b.decentralization)));
    KeyLessStep(Down(a.base.total), TieKey(a), Down(b.base.total), TieKey(b));
    KeyLessStep(ta, [Down(a.base.total)] + TieKey(a), tb, [Down(b.base.total)] + TieKey(b));
    assert RankKey(a) == [ta] + ([Down(a.base.total)] + TieKey(a));
    assert RankKey(b) == [tb] + ([Down(b.base.total)] + TieKey(b));
  }

  /** Even with equal scores and with or without registration times, two nodes never tie: the
      comparison is a strict total order on entries of distinct nodes. */
  lemma RankBeforeStrictTotal(a: Entry, b: Entry, c: Entry)
    ensures !(RankBefore(a, b) && RankBefore(b, a))
    ensures a.base.nodeId != b.base.nodeId ==> RankBefore(a, b) || RankBefore(b, a)
    ensures RankBefore(a, b) && RankBefore(b, c) ==> RankBefore(a, c)
  {
    RankBeforeIsLexicographic(a, b);
    RankBeforeIsLexicographic(b, a);
    RankBeforeIsLexicographic(b, c);
    RankBeforeIsLexicographic(a, c);
    KeyLessTotal(RankKey(a), RankKey(b));
    if RankKey(a) == RankKey(b) {
      RankKeySeparates(a, b);
    }
    if RankBefore(a, b) && RankBefore(b, c) {
      KeyLessTransitive(RankKey(a), RankKey(b), RankKey(c));
    }
  }

  lemma RankKeySeparates(a: Entry, b: Entry)
    requires RankKey(a) == RankKey(b)
    ensures a.base.nodeId == b.base.nodeId
  {
    assert RankKey(a)[6] == Text(a.base.nodeId) && RankKey(b)[6] == Text(b.base.nodeId);
  }

  // ---- Score dominance ----

  predicate Rankable(e: Entry) {
    InScoreWindow(e.base) && Level(e.decentralization)
  }

  /** More decentralization points, then the larger base score, then what breaks ties. */
  ghost predicate DominanceBefore(a: Entry, b: Entry) {
    || a.decentralization > b.decentralization
    || (a.decentralization == b.decentralization &&
         (a.base.total > b.base.total || (a.base.total == b.base.total && TieBreak(a, b))))
  }

  /** Sorting by total score is sorting by decentralization first: one step of decentralization
      outweighs every difference in base score, and the total-score clamp never acts. */
  lemma DecentralizationDominates(a: Entry, b: Entry)
    requires Rankable(a) && Rankable(b)
    ensures RankBefore(a, b) <==> DominanceBefore(a, b)
    ensures 47.74 <= TotalScore(a.base.total, a.decentralization) <= 58.0
    ensures TotalScore(a.base.total, a.decentralization) == 0.7 * a.base.total + 0.3 * a.decentralization
  {
    hide TieBreak, RankBefore;
    TotalsCompare(a, b);
    TotalsCompare(b, a);
    RankBeforeIsLexicographic(a, b);
  }

  /** A higher decentralization level gives a higher total; at equal levels the base score decides. */
  lemma TotalsCompare(a: Entry, b: Entry)
    requires Rankable(a) && Rankable(b)
    ensures var (ta, tb) := (TotalScore(a.base.total, a.decentralization), TotalScore(b.base.total, b.decentralization));
      && 47.74 <= ta <= 58.0 && ta == 0.7 * a.base.total + 0.3 * a.decentralization
      && (a.decentralization > b.decentralization ==> ta > tb)
      && (a.decentralization == b.decentralization ==> (ta > tb <==> a.base.total > b.base.total))
  {
  }

  /** The documented order: by total score, then finalization, availability and earlier registration.
      The document says nothing of nodes that tie in all of these; here the node id decides. */
  ghost predicate DocumentedBefore(a: Entry, b: Entry) {
    var (ta, tb) := (TotalScore(a.base.total, a.decentralization), TotalScore(b.base.total, b.decentralization));
    ta > tb || (ta == tb && TieBreak(a, b))
  }

  /** Ranked nodes come in the documented order: where their totals tie, so do their base scores, so the
      comparison of base scores that the portal puts first never decides. */
  lemma OrderAsDocumented(a: Entry, b: Entry)
    requires Rankable(a) && Rankable(b)
    ensures RankBefore(a, b) <==> DocumentedBefore(a, b)
  {
    hide TieBreak, RankBefore;
    TotalsCompare(a, b);
    TotalsCompare(b, a);
    RankBeforeIsLexicographic(a, b);
  }

  // ---- The comparison in numbers ----

  /** Between nodes that tie in every score, the one that registered earlier comes first, one without
      registration comes last, and where that ties too the smaller node id comes first. */
  lemma TiesInNumbers(a: Entry, b: Entry)
    requires a.decentralization == b.decentralization && a.base.total == b.base.total
    requires a.base.finalization == b.base.finalization && a.base.availability == b.base.availability
    ensures RankBefore(a, b) <==>
      EarlierRegistration(a, b) || (a.registeredAt == b.registeredAt && TextBefore(a.base.nodeId, b.base.nodeId))
  {
    TextLessIff(a.base.nodeId, b.base.nodeId);
  }

  /** The first difference decides: more decentralization points, then the higher base score, then
      finalization, then availability. */
  lemma ScoresInNumbers(a: Entry, b: Entry)
    requires Rankable(a) && Rankable(b) && RankBefore(a, b)
    ensures a.decentralization >= b.decentralization
    ensures a.decentralization == b.decentralization ==> a.base.total >= b.base.total
    ensures a.decentralization == b.decentralization && a.base.total == b.base.total ==> a.base.finalization >= b.base.finalization
    ensures a.decentralization == b.decentralization && a.base.total == b.base.total && a.base.finalization == b.base.finalization
      ==> a.base.availability >= b.base.availability
  {
    TotalsCompare(a, b);
    TotalsCompare(b, a);
  }

  // ---- Ranked rows ----

  type Registrations = map<string, Option<int>>

  function EntryOf(r: Base, scores: map<string, real>, registered: Registrations): Entry {
    Entry(r,
      if r.nodeId in scores then scores[r.nodeId] else 0.0,
      if r.nodeId in registered then registered[r.nodeId] else None)
  }

  /** The key the records of a date are sorted by. */
  function RecordKey(scores: map<string, real>, registered: Registrations): Base -> Key {
    (r: Base) => RankKey(EntryOf(r, scores, registered))
  }

  ghost predicate DistinctNodes(records: set<Base>) {
    forall a, b :: a in records && b in records && a.nodeId == b.nodeId ==> a == b
  }

  /** The ranked order of the records: the only sorted one. */
  ghost function RankedOrder(records: set<Base>, scores: map<string, real>, registered: Registrations): seq<Base> {
    Arrange(records, RecordKey(scores, registered))
  }

  lemma RecordKeySeparates(records: set<Base>, scores: map<string, real>, registered: Registrations, a: Base, b: Base)
    requires DistinctNodes(records) && a in records && b in records
    requires RecordKey(scores, registered)(a) == RecordKey(scores, registered)(b)
    ensures a == b
  {
    RankKeySeparates(EntryOf(a, scores, registered), EntryOf(b, scores, registered));
  }

  /** Sorting the records gives the ranked order whatever order they were listed in. */
  lemma RankedOrderUnique(xs: seq<Base>, listed: seq<Base>, records: set<Base>, scores: map<string, real>, registered: Registrations)
    requires DistinctNodes(records) && Enumerates(listed, records)
    requires multiset(xs) == multiset(listed) && Sorted(xs, RecordKey(scores, registered))
    ensures xs == RankedOrder(records, scores, registered)
  {
    forall a, b | a in records && b in records && RecordKey(scores, registered)(a) == RecordKey(scores, registered)(b)
      ensures a == b
    {
      RecordKeySeparates(records, scores, registered, a, b);
    }
    ArrangeUnique(xs, listed, records, RecordKey(scores, registered));
  }

  /** The ranked order depends only on the scores and registration times of the ranked nodes. */
  lemma RankedOrderDependsOnRanked(records: set<Base>, s1: map<string, real>, r1: Registrations, s2: map<string, real>, r2: Registrations)
    requires DistinctNodes(records)
    requires forall b :: b in records ==> EntryOf(b, s1, r1) == EntryOf(b, s2, r2)
    ensures RankedOrder(records, s1, r1) == RankedOrder(records, s2, r2)
  {
    var xs := RankedOrder(records, s1, r1);
    assert Sorted(xs, RecordKey(s2, r2)) by {
      forall i, j | 0 <= i < j < |xs|
        ensures !KeyLess(RecordKey(s2, r2)(xs[j]), RecordKey(s2, r2)(xs[i]))
      {
        assert !KeyLess(RecordKey(s1, r1)(xs[j]), RecordKey(s1, r1)(xs[i]));
      }
    }
    RankedOrderUnique(xs, xs, records, s2, r2);
  }

  /** Every ranked node comes before every lower one in the portal's own comparison. */
  lemma RankedOrderObeysComparison(records: set<Base>, scores: map<string, real>, registered: Registrations, i: nat, j: nat)
    requires DistinctNodes(records)
    requires i < j < |RankedOrder(records, scores, registered)|
    ensures var order := RankedOrder(records, scores, registered);
      RankBefore(EntryOf(order[i], scores, registered), EntryOf(order[j], scores, registered))
  {
    var order := RankedOrder(records, scores, registered);
    var (a, b) := (EntryOf(order[i], scores, registered), EntryOf(order[j], scores, registered));
    assert !KeyLess(RecordKey(scores, registered)(order[j]), RecordKey(scores, registered)(order[i]));
    RankBeforeIsLexicographic(b, a);
    RankBeforeStrictTotal(a, b, b);
  }

  function RankRow(r: Base, rank: int, scores: map<string, real>, group: string): Ranking {
    var d := if r.nodeId in scores then scores[r.nodeId] else 0.0;
    Ranking(r.nodeId, r.date, r.policyVersion, rank, r, d, TotalScore(r.total, d), group)
  }

  function RankRows(order: seq<Base>, scores: map<string, real>, groups: seq<string>): (rows: seq<Ranking>)
    requires |groups| == |order|
  {
    seq(|order|, i requires 0 <= i < |order| => RankRow(order[i], i + 1, scores, groups[i]))
  }

  /** Ranks are exactly 1..n, one row per node, all of one date. */
  ghost predicate RankedList(rows: seq<Ranking>, date: int) {
    && (forall i :: 0 <= i < |rows| ==> rows[i].rank == i + 1 && rows[i].date == date)
    && (forall i, j :: 0 <= i < j < |rows| ==> rows[i].nodeId != rows[j].nodeId)
  }

  lemma RankRowsAreRanked(records: set<Base>, scores: map<string, real>, registered: Registrations, groups: seq<string>, date: int)
    requires DistinctNodes(records) && |groups| == |RankedOrder(records, scores, registered)|
    requires forall r :: r in records ==> r.date == date
    ensures RankedList(RankRows(RankedOrder(records, scores, registered), scores, groups), date)
  {
    var order := RankedOrder(records, scores, registered);
    assert Enumerates(order, records);
  }
}
