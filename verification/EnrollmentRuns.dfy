/** Enrollments over whole runs: every challenge is good for one enrollment. */
module EnrollmentRuns {
  import opened Records
  import opened Texts
  import opened PortalState
  import opened Snapshots
  import opened Portal
  import opened Views
  import opened Reachable
  import opened PortalRuns
  import opened Accounts
  import opened HeartbeatRuns

  predicate IsUsed(challenges: map<string, Challenge>, id: string) {
    id in challenges && challenges[id].usedAt.Some?
  }

  /** The challenges a node has used up. */
  ghost function UsedBy(challenges: map<string, Challenge>, n: string): set<string> {
    set id | id in challenges && challenges[id].usedAt.Some? && challenges[id].nodeId == n
  }

  predicate RegisteredIffEnrolled(node: Node) {
    node.registeredAt.Some? <==> node.generation > 0
  }

  /** A node's generation counts its used challenges, and it is registered once it has enrolled. */
  ghost predicate Accounted(s: State) {
    forall n :: n in s.nodes ==> s.nodes[n].generation == |UsedBy(s.challenges, n)| && RegisteredIffEnrolled(s.nodes[n])
  }

  // ---- Single steps ----

  lemma EnrollmentCounted(c: Config, s: State, r: EnrollRequest, now: nat)
    requires EnrollError(s, r, now).None? && Accounted(s)
    ensures Accounted(WithEnrollment(c, s, r, now))
  {
    var t := WithEnrollment(c, s, r, now);
    forall n | n in t.nodes
      ensures t.nodes[n].generation == |UsedBy(t.challenges, n)| && RegisteredIffEnrolled(t.nodes[n])
    {
      UsedAfterEnrollment(c, s, r, now, n);
      assert RegisteredIffEnrolled(s.nodes[n]);
    }
  }

  lemma UsedAfterEnrollment(c: Config, s: State, r: EnrollRequest, now: nat, n: string)
    requires EnrollError(s, r, now).None?
    ensures |UsedBy(WithEnrollment(c, s, r, now).challenges, n)| == |UsedBy(s.challenges, n)| + if n == r.nodeId then 1 else 0
  {
    var t := WithEnrollment(c, s, r, now);
    assert UsedBy(t.challenges, n) == if n == r.nodeId then UsedBy(s.challenges, n) + {r.challengeId} else UsedBy(s.challenges, n);
  }

  /** Issuing a challenge keeps the accounts exactly when its id is not that of a used one: when the
      node was not issued another challenge, since used, in the same nanosecond. */
  lemma IssueKeepsAccountsIff(c: Config, seed: map<string, Node>, s: State, nodeId: string, now: nat)
    requires WellFormed(seed, s) && Accounted(s) && IssueError(s, nodeId).None?
    ensures Accounted(WithChallenge(c, s, nodeId, now)) <==> !IsUsed(s.challenges, ChallengeId(nodeId, now))
  {
    hide EvidenceOk, DerivedOk, LogsOk, RegisteredIffEnrolled;
    var id := ChallengeId(nodeId, now);
    var t := WithChallenge(c, s, nodeId, now);
    if IsUsed(s.challenges, id) {
      ChallengeHasKey(seed, s, id);
      var n := s.challenges[id].nodeId;
      assert UsedBy(t.challenges, n) == UsedBy(s.challenges, n) - {id};
      assert n in t.nodes && t.nodes[n] == s.nodes[n];
    } else {
      assert forall n :: UsedBy(t.challenges, n) == UsedBy(s.challenges, n);
    }
  }

  // ---- Runs ----

  /** No challenge is issued under the id of a used one. */
  ghost predicate NewIssue(sys: Sys, e: Event) {
    e.q.Issue? ==> !IsUsed(sys.mem.challenges, ChallengeId(e.q.nodeId, e.env.now))
  }

  ghost predicate NewIssues(c: Config, seed: map<string, Node>, run: seq<Event>) {
    run != [] ==> NewIssues(c, seed, run[..|run| - 1]) && NewIssue(After(c, seed, run[..|run| - 1]), run[|run| - 1])
  }

  function AcknowledgedIds(log: seq<Enrollment>): seq<string> {
    if log == [] then []
    else AcknowledgedIds(log[..|log| - 1]) + if log[|log| - 1].acknowledged then [log[|log| - 1].challengeId] else []
  }

  lemma AcknowledgedIdsAppend(log: seq<Enrollment>, x: Enrollment)
    ensures AcknowledgedIds(log + [x]) == if x.acknowledged then AcknowledgedIds(log) + [x.challengeId] else AcknowledgedIds(log)
  {
    assert (log + [x])[..|log|] == log;
  }

  ghost predicate UsedKept(early: map<string, Challenge>, late: map<string, Challenge>) {
    forall id :: IsUsed(early, id) ==> IsUsed(late, id)
  }

  ghost predicate AllUsed(ids: seq<string>, challenges: map<string, Challenge>) {
    forall i :: 0 <= i < |ids| ==> IsUsed(challenges, ids[i])
  }

  ghost predicate Distinct(ids: seq<string>) {
    forall i, j :: 0 <= i < j < |ids| ==> ids[i] != ids[j]
  }

  ghost predicate EnrollmentsOk(seed: map<string, Node>, sys: Sys) {
    && StoresAccounted(sys.mem, Back(seed, sys.disk))
    && AllUsed(AcknowledgedIds(sys.enrolled), Back(seed, sys.disk).challenges)
    && Distinct(AcknowledgedIds(sys.enrolled))
  }

  /** An accepted event keeps the accounts and forgets no used challenge. */
  lemma NotedAccounted(c: Config, seed: map<string, Node>, sys: Sys, e: Event)
    requires StateOk(c, seed, sys.mem) && Accounted(sys.mem) && NewIssue(sys, e)
    requires RequestError(c, sys.mem, e.q, e.env.now).None?
    ensures Accounted(Noted(c, sys.mem, e.q, e.env.now))
    ensures UsedKept(sys.mem.challenges, Noted(c, sys.mem, e.q, e.env.now).challenges)
  {
    hide ViewsOk, WellFormed, CheckError, ProbeError, EvidenceError, TelemetryError;
    match e.q
    case Issue(nodeId) => IssueKeepsAccountsIff(c, seed, sys.mem, nodeId, e.env.now);
    case Enroll(r) => EnrollmentCounted(c, sys.mem, r, e.env.now);
    case _ =>
  }

  lemma SameAccountsAccounted(s: State, t: State)
    requires SameAccounts(s, t) && Accounted(s)
    ensures Accounted(t)
  {
  }

  lemma UsedLater(ids: seq<string>, early: map<string, Challenge>, late: map<string, Challenge>)
    requires AllUsed(ids, early) && UsedKept(early, late)
    ensures AllUsed(ids, late)
  {
    hide IsUsed;
  }

  lemma UsedGrows(ids: seq<string>, id: string, known: map<string, Challenge>, before: map<string, Challenge>, after: map<string, Challenge>)
    requires AllUsed(ids, known) && UsedKept(known, before) && UsedKept(before, after)
    requires Distinct(ids) && !IsUsed(before, id) && IsUsed(after, id)
    ensures AllUsed(ids + [id], after) && Distinct(ids + [id])
  {
    hide IsUsed;
  }

  lemma UsedKeptTransitive(a: map<string, Challenge>, b: map<string, Challenge>, d: map<string, Challenge>)
    ensures UsedKept(a, b) && UsedKept(b, d) ==> UsedKept(a, d)
    ensures UsedKept(a, a)
  {
    hide IsUsed;
  }

  ghost predicate StoresAccounted(mem: State, back: State) {
    Accounted(mem) && Accounted(back) && UsedKept(back.challenges, mem.challenges)
  }

  /** Both stores stay in account, and neither forgets a used challenge. */
  lemma StoresStayAccounted(c: Config, seed: map<string, Node>, sys: Sys, e: Event, after: Sys, reply: Reply)
    requires SysOk(c, seed, sys) && NewIssue(sys, e)
    requires StoresAccounted(sys.mem, Back(seed, sys.disk)) && AccountsHandled(c, seed, sys, e, after, reply)
    ensures StoresAccounted(after.mem, Back(seed, after.disk))
    ensures UsedKept(Back(seed, sys.disk).challenges, Back(seed, after.disk).challenges)
  {
    hide SysOk, RequestError, Noted, Back, Accounted, NewIssue, UsedKept;
    var back, later := Back(seed, sys.disk), Back(seed, after.disk);
    UsedKeptTransitive(back.challenges, back.challenges, back.challenges);
    UsedKeptTransitive(back.challenges, sys.mem.challenges, after.mem.challenges);
    UsedKeptTransitive(after.mem.challenges, after.mem.challenges, after.mem.challenges);
    if RequestError(c, sys.mem, e.q, e.env.now).None? && !e.q.Restart? {
      MemOk(c, seed, sys);
      NotedAccounted(c, seed, sys, e);
      SameAccountsAccounted(Noted(c, sys.mem, e.q, e.env.now), after.mem);
      if after.disk != sys.disk {
        SameAccountsAccounted(Noted(c, sys.mem, e.q, e.env.now), later);
      }
    }
  }

  lemma EnrollmentStep(c: Config, seed: map<string, Node>, sys: Sys, e: Event)
    requires SeedOk(seed) && SysOk(c, seed, sys) && Possible(c, sys, e) && NewIssue(sys, e)
    requires EnrollmentsOk(seed, sys)
    ensures EnrollmentsOk(seed, Step(c, seed, sys, e.q, e.env))
  {
    hide SysOk, Possible, Handle, RequestError, Noted, Back, Accounted, NewIssue, EnrollError, AllUsed, UsedKept, Distinct;
    var (after, reply) := Handle(c, seed, sys, e.q, e.env);
    HandlesAccounts(c, seed, sys, e);
    StoresStayAccounted(c, seed, sys, e, after, reply);
    UsedLater(AcknowledgedIds(sys.enrolled), Back(seed, sys.disk).challenges, Back(seed, after.disk).challenges);
    if RequestError(c, sys.mem, e.q, e.env.now).None? && e.q.Enroll? {
      EnrollmentLogged(c, seed, sys, e.q.enroll, e.env, after, reply);
    }
  }

  lemma EnrollmentLogged(c: Config, seed: map<string, Node>, sys: Sys, r: EnrollRequest, env: Env, after: Sys, reply: Reply)
    requires EnrollmentsOk(seed, sys) && AccountsHandled(c, seed, sys, Event(Enroll(r), env), after, reply)
    requires RequestError(c, sys.mem, Enroll(r), env.now).None?
    requires UsedKept(Back(seed, sys.disk).challenges, Back(seed, after.disk).challenges)
    ensures var ids := AcknowledgedIds(after.enrolled + [Enrollment(r.nodeId, r.challengeId, reply.Done?)]);
      AllUsed(ids, Back(seed, after.disk).challenges) && Distinct(ids)
  {
    hide RequestError, Noted, Back, Accounted, EnrollError, AllUsed, UsedKept, Distinct, AcknowledgedIds, IsUsed;
    var ids := AcknowledgedIds(sys.enrolled);
    AcknowledgedIdsAppend(sys.enrolled, Enrollment(r.nodeId, r.challengeId, reply.Done?));
    UsedLater(ids, Back(seed, sys.disk).challenges, Back(seed, after.disk).challenges);
    if reply.Done? {
      EnrolledIsNew(c, sys.mem, r, env.now);
      UsedGrows(ids, r.challengeId, Back(seed, sys.disk).challenges, sys.mem.challenges, Back(seed, after.disk).challenges);
    }
  }

  lemma EnrolledIsNew(c: Config, s: State, r: EnrollRequest, now: nat)
    requires RequestError(c, s, Enroll(r), now).None?
    ensures !IsUsed(s.challenges, r.challengeId) && IsUsed(Noted(c, s, Enroll(r), now).challenges, r.challengeId)
    ensures UsedKept(s.challenges, Noted(c, s, Enroll(r), now).challenges)
  {
  }

  lemma {:induction false} EnrollmentRun(c: Config, seed: map<string, Node>, run: seq<Event>)
    requires SeedOk(seed) && Lawful(c, seed, run) && NewIssues(c, seed, run)
    ensures EnrollmentsOk(seed, After(c, seed, run))
  {
    hide SysOk, Possible, Step, SeedOk, EnrollmentsOk, NewIssue;
    if run == [] {
      StartEnrollments(seed);
    } else {
      var front := run[..|run| - 1];
      EnrollmentRun(c, seed, front);
      RunOk(c, seed, front);
      EnrollmentStep(c, seed, After(c, seed, front), run[|run| - 1]);
    }
  }

  lemma StartEnrollments(seed: map<string, Node>)
    requires SeedOk(seed)
    ensures EnrollmentsOk(seed, Start(seed))
  {
    assert forall n :: UsedBy(map[], n) == {};
  }

  /** In every run in which no used challenge is issued again, with lost saves and restarts anywhere:
      no challenge has two acknowledged enrollments; each node's generation is the number of its used
      challenges; and a node is registered exactly when it has enrolled. */
  lemma EnrollmentAccounting(c: Config, seed: map<string, Node>, run: seq<Event>)
    requires SeedOk(seed) && Lawful(c, seed, run) && NewIssues(c, seed, run)
    ensures var sys := After(c, seed, run);
      && (forall i, j :: 0 <= i < j < |AcknowledgedIds(sys.enrolled)| ==> AcknowledgedIds(sys.enrolled)[i] != AcknowledgedIds(sys.enrolled)[j])
      && forall n :: n in sys.mem.nodes ==>
           && sys.mem.nodes[n].generation == |UsedBy(sys.mem.challenges, n)|
           && (sys.mem.nodes[n].registeredAt.Some? <==> sys.mem.nodes[n].generation > 0)
  {
    hide After, Lawful, NewIssues, Back, AcknowledgedIds, UsedBy;
    EnrollmentRun(c, seed, run);
    var sys := After(c, seed, run);
    assert forall n :: n in sys.mem.nodes ==> RegisteredIffEnrolled(sys.mem.nodes[n]);
  }

  // ---- Registration times ----

  lemma RegistrationsStepKept(c: Config, seed: map<string, Node>, sys: Sys, e: Event)
    requires SeedOk(seed) && SysOk(c, seed, sys) && Possible(c, sys, e)
    requires e.q.Restart? ==> Saved(seed, sys)
    ensures RegistrationsKept(sys.mem.nodes, Step(c, seed, sys, e.q, e.env).mem.nodes)
  {
    hide SysOk, Possible, Handle, RequestError, Noted, Back, StateOk, Saved;
    HandlesAccounts(c, seed, sys, e);
    NoNodeChanged(sys.mem.nodes);
    if RequestError(c, sys.mem, e.q, e.env.now).None? {
      if e.q.Restart? {
        CleanComesBack(c, seed, sys);
      } else {
        MemOk(c, seed, sys);
        MemWellFormed(c, seed, sys.mem);
        NotedWellFormed(c, seed, sys.mem, e.q, e.env.now);
      }
    }
  }

  lemma MemWellFormed(c: Config, seed: map<string, Node>, s: State)
    requires StateOk(c, seed, s)
    ensures WellFormed(seed, s)
  {
    hide WellFormed, ViewsOk;
  }

  lemma KeptTransitively(a: map<string, Node>, b: map<string, Node>, d: map<string, Node>)
    requires RegistrationsKept(a, b) && RegistrationsKept(b, d)
    ensures RegistrationsKept(a, d)
  {
    forall n | n in a && a[n].registeredAt.Some?
      ensures n in d && d[n].registeredAt == a[n].registeredAt
    {
      assert n in b && b[n].registeredAt == a[n].registeredAt;
    }
  }

  /** Once set, the registration time of a node never changes again, however the run goes on, as long as
      it restarts only from a current save. */
  lemma {:induction false} RegistrationNeverChanges(c: Config, seed: map<string, Node>, run: seq<Event>, more: seq<Event>)
    requires SeedOk(seed) && Lawful(c, seed, run + more) && CleanRestarts(c, seed, run + more)
    ensures forall n :: n in After(c, seed, run).mem.nodes && After(c, seed, run).mem.nodes[n].registeredAt.Some? ==>
      n in After(c, seed, run + more).mem.nodes
      && After(c, seed, run + more).mem.nodes[n].registeredAt == After(c, seed, run).mem.nodes[n].registeredAt
    decreases |more|
  {
    hide SysOk, Possible, Step, SeedOk, Saved;
    if more == [] {
      assert run + more == run;
    } else {
      var m := |more| - 1;
      assert (run + more)[..|run + more| - 1] == run + more[..m];
      RegistrationNeverChanges(c, seed, run, more[..m]);
      RunOk(c, seed, run + more[..m]);
      RegistrationsStepKept(c, seed, After(c, seed, run + more[..m]), more[m]);
      KeptTransitively(After(c, seed, run).mem.nodes, After(c, seed, run + more[..m]).mem.nodes, After(c, seed, run + more).mem.nodes);
    }
  }

  // ---- Saved registration times, in all runs ----

  ghost predicate RegistrationsInOrder(seed: map<string, Node>, sys: Sys) {
    RegistrationsKept(Back(seed, sys.disk).nodes, sys.mem.nodes)
  }

  /** No step loses a saved registration: not from the save, and not from memory. */
  lemma SavedRegistrationsStep(c: Config, seed: map<string, Node>, sys: Sys, e: Event)
    requires SeedOk(seed) && SysOk(c, seed, sys) && Possible(c, sys, e) && RegistrationsInOrder(seed, sys)
    ensures var t := Step(c, seed, sys, e.q, e.env);
      RegistrationsInOrder(seed, t) && RegistrationsKept(Back(seed, sys.disk).nodes, Back(seed, t.disk).nodes)
  {
    hide SysOk, Possible, Handle, RequestError, Noted, Back, StateOk, RegistrationsKept;
    HandlesAccounts(c, seed, sys, e);
    NoNodeChanged(sys.mem.nodes);
    NoNodeChanged(Back(seed, sys.disk).nodes);
    if RequestError(c, sys.mem, e.q, e.env.now).None? && !e.q.Restart? {
      MemOk(c, seed, sys);
      MemWellFormed(c, seed, sys.mem);
      NotedWellFormed(c, seed, sys.mem, e.q, e.env.now);
      var noted := Noted(c, sys.mem, e.q, e.env.now);
      NoNodeChanged(noted.nodes);
      KeptTransitively(Back(seed, sys.disk).nodes, sys.mem.nodes, noted.nodes);
    }
  }

  lemma {:induction false} SavedRegistrationsRun(c: Config, seed: map<string, Node>, run: seq<Event>)
    requires SeedOk(seed) && Lawful(c, seed, run)
    ensures RegistrationsInOrder(seed, After(c, seed, run))
  {
    hide SysOk, Possible, Step, SeedOk, RegistrationsInOrder;
    if run == [] {
      StartRegistrations(seed);
    } else {
      var front := run[..|run| - 1];
      SavedRegistrationsRun(c, seed, front);
      RunOk(c, seed, front);
      SavedRegistrationsStep(c, seed, After(c, seed, front), run[|run| - 1]);
    }
  }

  lemma StartRegistrations(seed: map<string, Node>)
    ensures RegistrationsInOrder(seed, Start(seed))
  {
    NoNodeChanged(seed);
  }

  lemma {:induction false} SavedRegistrationsStay(c: Config, seed: map<string, Node>, run: seq<Event>, more: seq<Event>)
    requires SeedOk(seed) && Lawful(c, seed, run + more)
    ensures RegistrationsKept(Back(seed, After(c, seed, run).disk).nodes, Back(seed, After(c, seed, run + more).disk).nodes)
    decreases |more|
  {
    hide SysOk, Possible, Step, SeedOk, Back, RegistrationsKept, RegistrationsInOrder;
    if more == [] {
      assert run + more == run;
      NoNodeChanged(Back(seed, After(c, seed, run).disk).nodes);
    } else {
      var m := |more| - 1;
      assert (run + more)[..|run + more| - 1] == run + more[..m];
      SavedRegistrationsStay(c, seed, run, more[..m]);
      RunOk(c, seed, run + more[..m]);
      SavedRegistrationsRun(c, seed, run + more[..m]);
      SavedRegistrationsStep(c, seed, After(c, seed, run + more[..m]), more[m]);
      KeptTransitively(Back(seed, After(c, seed, run).disk).nodes, Back(seed, After(c, seed, run + more[..m]).disk).nodes,
        Back(seed, After(c, seed, run + more).disk).nodes);
    }
  }

  /** A registration time in the last save never changes again, in memory or on disk, however the run goes
      on: with lost saves and restarts anywhere. */
  lemma SavedRegistrationNeverChanges(c: Config, seed: map<string, Node>, run: seq<Event>, more: seq<Event>, n: string)
    requires SeedOk(seed) && Lawful(c, seed, run + more)
    requires var saved := Back(seed, After(c, seed, run).disk).nodes; n in saved && saved[n].registeredAt.Some?
    ensures var saved, t := Back(seed, After(c, seed, run).disk).nodes, After(c, seed, run + more);
      && n in t.mem.nodes && t.mem.nodes[n].registeredAt == saved[n].registeredAt
      && n in Back(seed, t.disk).nodes && Back(seed, t.disk).nodes[n].registeredAt == saved[n].registeredAt
  {
    hide After, Lawful, Back;
    SavedRegistrationsStay(c, seed, run, more);
    SavedRegistrationsRun(c, seed, run + more);
  }

  /** A first registration, accepted from a saved store, survives a restart if and only if it was saved. */
  lemma RegistrationSurvivesIff(c: Config, seed: map<string, Node>, sys: Sys, r: EnrollRequest, env: Env)
    requires SeedOk(seed) && SysOk(c, seed, sys) && Saved(seed, sys)
    requires EnrollError(sys.mem, r, env.now).None? && sys.mem.nodes[r.nodeId].registeredAt.None?
    ensures var back := RestartStep(seed, Step(c, seed, sys, Enroll(r), env)).mem;
      r.nodeId in back.nodes && (back.nodes[r.nodeId].registeredAt.Some? <==> env.saves)
  {
    hide SysOk, Saved, Back, RestartStep, SnapshotOf, Handle, NodesOk;
    var t := Step(c, seed, sys, Enroll(r), env);
    CleanComesBack(c, seed, sys);
    StepOk(c, seed, sys, Event(Enroll(r), env)) by { EnrollPossible(c, sys, r, env); }
    RestartComesBack(c, seed, t);
    EnrollSaves(c, seed, sys, r, env);
    if env.saves {
      MemOk(c, seed, t);
      SaveComesBack(c, seed, t.mem);
    }
  }

  lemma EnrollPossible(c: Config, sys: Sys, r: EnrollRequest, env: Env)
    ensures Possible(c, sys, Event(Enroll(r), env))
  {
    hide EnrollError;
  }

  /** An enrollment raises no alerts: one save, or none. */
  lemma EnrollSaves(c: Config, seed: map<string, Node>, sys: Sys, r: EnrollRequest, env: Env)
    requires EnrollError(sys.mem, r, env.now).None?
    ensures var t := Step(c, seed, sys, Enroll(r), env);
      && t.mem == WithEnrollment(c, sys.mem, r, env.now)
      && t.disk == if env.saves then Some(SnapshotOf(t.mem)) else sys.disk
  {
    hide SnapshotOf, SummaryAlerts, FlagsStep, ScanStep, ArtifactStep;
  }

  // ---- All accepted enrollments, in runs that restart only from a current save ----

  function ChallengeIds(log: seq<Enrollment>): seq<string> {
    seq(|log|, i requires 0 <= i < |log| => log[i].challengeId)
  }

  ghost predicate AllEnrollmentsOk(sys: Sys) {
    AllUsed(ChallengeIds(sys.enrolled), sys.mem.challenges) && Distinct(ChallengeIds(sys.enrolled))
  }

  lemma AllEnrollmentsStep(c: Config, seed: map<string, Node>, sys: Sys, e: Event)
    requires SeedOk(seed) && SysOk(c, seed, sys) && Possible(c, sys, e) && NewIssue(sys, e)
    requires e.q.Restart? ==> Saved(seed, sys)
    requires Accounted(sys.mem) && AllEnrollmentsOk(sys)
    ensures AllEnrollmentsOk(Step(c, seed, sys, e.q, e.env))
  {
    hide SysOk, Possible, Handle, RequestError, Noted, Back, Accounted, NewIssue, EnrollError, AllUsed, UsedKept, Distinct, Saved, IsUsed, ChallengeIds;
    var (after, reply) := Handle(c, seed, sys, e.q, e.env);
    HandlesAccounts(c, seed, sys, e);
    if RequestError(c, sys.mem, e.q, e.env.now).None? {
      if e.q.Restart? {
        CleanComesBack(c, seed, sys);
      } else {
        MemOk(c, seed, sys);
        NotedAccounted(c, seed, sys, e);
        UsedLater(ChallengeIds(sys.enrolled), sys.mem.challenges, after.mem.challenges);
        if e.q.Enroll? {
          var r := e.q.enroll;
          EnrolledIsNew(c, sys.mem, r, e.env.now);
          UsedKeptTransitive(sys.mem.challenges, sys.mem.challenges, sys.mem.challenges);
          UsedGrows(ChallengeIds(sys.enrolled), r.challengeId, sys.mem.challenges, sys.mem.challenges, after.mem.challenges);
          OneMoreId(sys.enrolled, Enrollment(r.nodeId, r.challengeId, reply.Done?));
        }
      }
    }
  }

  lemma OneMoreId(log: seq<Enrollment>, x: Enrollment)
    ensures ChallengeIds(log + [x]) == ChallengeIds(log) + [x.challengeId]
  {
  }

  lemma {:induction false} AllEnrollmentsRun(c: Config, seed: map<string, Node>, run: seq<Event>)
    requires SeedOk(seed) && Lawful(c, seed, run) && NewIssues(c, seed, run) && CleanRestarts(c, seed, run)
    ensures AllEnrollmentsOk(After(c, seed, run))
  {
    hide SysOk, Possible, Step, SeedOk, EnrollmentsOk, NewIssue, AllEnrollmentsOk, Saved;
    if run == [] {
      NoEnrollmentsYet(seed);
    } else {
      var front := run[..|run| - 1];
      AllEnrollmentsRun(c, seed, front);
      EnrollmentRun(c, seed, front);
      MemAccounted(seed, After(c, seed, front));
      RunOk(c, seed, front);
      AllEnrollmentsStep(c, seed, After(c, seed, front), run[|run| - 1]);
    }
  }

  lemma NoEnrollmentsYet(seed: map<string, Node>)
    ensures AllEnrollmentsOk(Start(seed))
  {
  }

  lemma MemAccounted(seed: map<string, Node>, sys: Sys)
    requires EnrollmentsOk(seed, sys)
    ensures Accounted(sys.mem)
  {
    hide Accounted, Back, AcknowledgedIds;
  }

  /** In every run that restarts only from a current save and issues no used challenge again, no challenge
      is good for two enrollments, acknowledged or not. */
  lemma ChallengesEnrollOnce(c: Config, seed: map<string, Node>, run: seq<Event>)
    requires SeedOk(seed) && Lawful(c, seed, run) && NewIssues(c, seed, run) && CleanRestarts(c, seed, run)
    ensures var log := After(c, seed, run).enrolled;
      forall i, j :: 0 <= i < j < |log| ==> log[i].challengeId != log[j].challengeId
  {
    hide After, Lawful, NewIssues, CleanRestarts;
    AllEnrollmentsRun(c, seed, run);
    var log := After(c, seed, run).enrolled;
    assert forall i :: 0 <= i < |log| ==> ChallengeIds(log)[i] == log[i].challengeId;
  }
}
