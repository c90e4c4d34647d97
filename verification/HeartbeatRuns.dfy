/** Heartbeats over whole runs: no sequence number of a generation counts twice. */
module HeartbeatRuns {
  import opened Records
  import opened PortalState
  import opened Snapshots
  import opened ProbeSummary
  import opened Portal
  import opened Views
  import opened Reachable
  import opened PortalRuns
  import opened Accounts

  /** Generation first, then sequence number. */
  predicate EarlierMark(g1: int, s1: int, g2: int, s2: int) {
    g1 < g2 || (g1 == g2 && s1 < s2)
  }

  predicate NodeAtMost(a: Node, b: Node) {
    a == b || EarlierMark(a.generation, a.lastSequence, b.generation, b.lastSequence)
    || (a.generation == b.generation && a.lastSequence == b.lastSequence)
  }

  predicate Covered(a: Acceptance, nodes: map<string, Node>) {
    a.nodeId in nodes
    && (EarlierMark(a.generation, a.sequence, nodes[a.nodeId].generation, nodes[a.nodeId].lastSequence)
        || (a.generation == nodes[a.nodeId].generation && a.sequence == nodes[a.nodeId].lastSequence))
  }

  predicate Ordered(a: Acceptance, b: Acceptance) {
    a.nodeId == b.nodeId ==> EarlierMark(a.generation, a.sequence, b.generation, b.sequence)
  }

  /** No node is behind what a restart would come back to. */
  ghost predicate NotBehind(early: map<string, Node>, late: map<string, Node>) {
    forall n :: n in early ==> n in late && NodeAtMost(early[n], late[n])
  }

  lemma NotBehindTransitive(a: map<string, Node>, b: map<string, Node>, d: map<string, Node>)
    requires NotBehind(a, b) && NotBehind(b, d)
    ensures NotBehind(a, d)
  {
    forall n | n in a
      ensures n in d && NodeAtMost(a[n], d[n])
    {
      assert NodeAtMost(b[n], d[n]);
    }
  }

  /** A step other than a restart never takes a node back. */
  lemma NotedNotBehind(c: Config, s: State, q: Request, now: nat)
    requires RequestError(c, s, q, now).None?
    ensures NotBehind(s.nodes, Noted(c, s, q, now).nodes)
  {
  }

  ghost predicate AllCovered(log: seq<Acceptance>, nodes: map<string, Node>) {
    forall i :: 0 <= i < |log| ==> Covered(log[i], nodes)
  }

  lemma CoveredLater(log: seq<Acceptance>, early: map<string, Node>, late: map<string, Node>)
    requires AllCovered(log, early) && NotBehind(early, late)
    ensures AllCovered(log, late)
  {
    forall i | 0 <= i < |log|
      ensures Covered(log[i], late)
    {
      assert Covered(log[i], early) && NodeAtMost(early[log[i].nodeId], late[log[i].nodeId]);
    }
  }

  ghost predicate StrictlyOrdered(log: seq<Acceptance>) {
    forall i, j :: 0 <= i < j < |log| ==> Ordered(log[i], log[j])
  }

  function Entry(r: HeartbeatRequest, acknowledged: bool): Acceptance {
    Acceptance(r.nodeId, r.generation, r.sequence, acknowledged)
  }

  /** An accepted heartbeat lies beyond everything covered before it, and is covered after it. */
  lemma AcceptedIsNext(c: Config, s: State, r: HeartbeatRequest, now: nat, log: seq<Acceptance>, known: map<string, Node>, acknowledged: bool)
    requires HeartbeatError(c, s, r, now).None?
    requires StrictlyOrdered(log) && AllCovered(log, known) && NotBehind(known, s.nodes)
    ensures StrictlyOrdered(log + [Entry(r, acknowledged)])
    ensures AllCovered(log + [Entry(r, acknowledged)], WithHeartbeat(c, s, r).nodes)
  {
    CoveredLater(log, known, s.nodes);
    var longer := log + [Entry(r, acknowledged)];
    forall i, j | 0 <= i < j < |longer|
      ensures Ordered(longer[i], longer[j])
    {
      assert Covered(log[i], s.nodes);
    }
    var q := Beat(r);
    NotedNotBehind(c, s, q, now);
    CoveredLater(log, s.nodes, WithHeartbeat(c, s, r).nodes);
  }

  // ---- Acknowledged heartbeats, in all runs ----

  /** The acknowledged ones of a log. */
  function Acknowledged(log: seq<Acceptance>): seq<Acceptance> {
    if log == [] then []
    else Acknowledged(log[..|log| - 1]) + if log[|log| - 1].acknowledged then [log[|log| - 1]] else []
  }

  lemma AcknowledgedAppend(log: seq<Acceptance>, a: Acceptance)
    ensures Acknowledged(log + [a]) == if a.acknowledged then Acknowledged(log) + [a] else Acknowledged(log)
  {
    assert (log + [a])[..|log|] == log;
  }

  ghost predicate AcknowledgedOk(seed: map<string, Node>, sys: Sys) {
    && NotBehind(Back(seed, sys.disk).nodes, sys.mem.nodes)
    && AllCovered(Acknowledged(sys.accepted), Back(seed, sys.disk).nodes)
    && StrictlyOrdered(Acknowledged(sys.accepted))
  }

  lemma HandledNotBehind(c: Config, seed: map<string, Node>, sys: Sys, e: Event, after: Sys, reply: Reply)
    requires AccountsHandled(c, seed, sys, e, after, reply) && NotBehind(Back(seed, sys.disk).nodes, sys.mem.nodes)
    ensures NotBehind(Back(seed, after.disk).nodes, after.mem.nodes)
    ensures NotBehind(Back(seed, sys.disk).nodes, Back(seed, after.disk).nodes)
  {
    hide NodeAtMost, Back, Noted, RequestError;
    NothingBehindItself(Back(seed, sys.disk).nodes);
    NothingBehindItself(sys.mem.nodes);
    NothingBehindItself(after.mem.nodes);
    if RequestError(c, sys.mem, e.q, e.env.now).None? && !e.q.Restart? {
      NotedNotBehind(c, sys.mem, e.q, e.env.now);
      NotBehindTransitive(Back(seed, sys.disk).nodes, sys.mem.nodes, after.mem.nodes);
    }
  }

  lemma NothingBehindItself(nodes: map<string, Node>)
    ensures NotBehind(nodes, nodes)
  {
  }

  lemma AcknowledgedStep(c: Config, seed: map<string, Node>, sys: Sys, e: Event)
    requires SeedOk(seed) && SysOk(c, seed, sys) && Possible(c, sys, e)
    requires AcknowledgedOk(seed, sys)
    ensures AcknowledgedOk(seed, Step(c, seed, sys, e.q, e.env))
  {
    hide SysOk, Possible, Handle, RequestError, Noted, Back, NotBehind, AllCovered, StrictlyOrdered, HeartbeatError, AccountsHandled;
    var (after, reply) := Handle(c, seed, sys, e.q, e.env);
    HandlesAccounts(c, seed, sys, e);
    HandledNotBehind(c, seed, sys, e, after, reply);
    CoveredLater(Acknowledged(sys.accepted), Back(seed, sys.disk).nodes, Back(seed, after.disk).nodes);
    HandledLog(c, seed, sys, e, after, reply);
    if e.q.Beat? && RequestError(c, sys.mem, e.q, e.env.now).None? {
      BeatAcknowledged(c, seed, sys, e, after, reply);
    }
  }

  lemma HandledLog(c: Config, seed: map<string, Node>, sys: Sys, e: Event, after: Sys, reply: Reply)
    requires AccountsHandled(c, seed, sys, e, after, reply)
    ensures after.accepted == sys.accepted
  {
  }

  lemma BeatAcknowledged(c: Config, seed: map<string, Node>, sys: Sys, e: Event, after: Sys, reply: Reply)
    requires AccountsHandled(c, seed, sys, e, after, reply) && AcknowledgedOk(seed, sys)
    requires e.q.Beat? && RequestError(c, sys.mem, e.q, e.env.now).None?
    requires AllCovered(Acknowledged(sys.accepted), Back(seed, after.disk).nodes)
    ensures var log := sys.accepted + [Entry(e.q.beat, reply.Done?)];
      AllCovered(Acknowledged(log), Back(seed, after.disk).nodes) && StrictlyOrdered(Acknowledged(log))
  {
    hide Back, NotBehind, AllCovered, StrictlyOrdered, HeartbeatError;
    var r := e.q.beat;
    BeatError(c, sys.mem, r, e.env.now);
    AcknowledgedAppend(sys.accepted, Entry(r, reply.Done?));
    if reply.Done? {
      AcceptedIsNext(c, sys.mem, r, e.env.now, Acknowledged(sys.accepted), Back(seed, sys.disk).nodes, true);
    }
  }

  lemma BeatError(c: Config, s: State, r: HeartbeatRequest, now: nat)
    ensures RequestError(c, s, Beat(r), now) == HeartbeatError(c, s, r, now)
    ensures HeartbeatError(c, s, r, now).None? ==> Noted(c, s, Beat(r), now) == WithHeartbeat(c, s, r)
  {
  }

  lemma {:induction false} AcknowledgedRun(c: Config, seed: map<string, Node>, run: seq<Event>)
    requires SeedOk(seed) && Lawful(c, seed, run)
    ensures AcknowledgedOk(seed, After(c, seed, run))
  {
    hide SysOk, Possible, Step, SeedOk, AcknowledgedOk;
    if run == [] {
      StartAcknowledged(seed);
    } else {
      var front := run[..|run| - 1];
      AcknowledgedRun(c, seed, front);
      RunOk(c, seed, front);
      AcknowledgedStep(c, seed, After(c, seed, front), run[|run| - 1]);
    }
  }

  lemma StartAcknowledged(seed: map<string, Node>)
    ensures AcknowledgedOk(seed, Start(seed))
  {
    hide Loadable, Loaded, NodeAtMost;
    NothingBehindItself(seed);
  }

  /** In every run, with lost saves and restarts anywhere: the heartbeats that a node had acknowledged
      are strictly increasing in generation and sequence number, so none is acknowledged twice. */
  lemma AcknowledgedAtMostOnce(c: Config, seed: map<string, Node>, run: seq<Event>)
    requires SeedOk(seed) && Lawful(c, seed, run)
    ensures var log := Acknowledged(After(c, seed, run).accepted);
      forall i, j :: 0 <= i < j < |log| && log[i].nodeId == log[j].nodeId ==>
        EarlierMark(log[i].generation, log[i].sequence, log[j].generation, log[j].sequence)
  {
    hide After, Lawful, Back, NotBehind, AllCovered, Acknowledged;
    AcknowledgedRun(c, seed, run);
    var log := Acknowledged(After(c, seed, run).accepted);
    assert forall i, j :: 0 <= i < j < |log| ==> Ordered(log[i], log[j]);
  }

  // ---- All accepted heartbeats, in runs that restart only from a current save ----

  ghost predicate CleanRestarts(c: Config, seed: map<string, Node>, run: seq<Event>) {
    run != [] ==>
      && CleanRestarts(c, seed, run[..|run| - 1])
      && (run[|run| - 1].q.Restart? ==> Saved(seed, After(c, seed, run[..|run| - 1])))
  }

  /** The last sequence number is that of the latest heartbeat accepted in the current generation. */
  ghost predicate LastIsAccepted(log: seq<Acceptance>, node: Node) {
    if exists i :: 0 <= i < |log| && InGeneration(log[i], node)
    then exists i :: 0 <= i < |log| && InGeneration(log[i], node) && log[i].sequence == node.lastSequence
    else node.lastSequence == 0
  }

  predicate InGeneration(a: Acceptance, node: Node) {
    a.nodeId == node.nodeId && a.generation == node.generation
  }

  ghost predicate AcceptedOk(sys: Sys) {
    && AllCovered(sys.accepted, sys.mem.nodes)
    && StrictlyOrdered(sys.accepted)
    && forall n :: n in sys.mem.nodes ==> LastIsAccepted(sys.accepted, sys.mem.nodes[n])
  }

  lemma LastAfterEnrollment(log: seq<Acceptance>, nodes: map<string, Node>, node: Node, after: Node)
    requires AllCovered(log, nodes) && node.nodeId in nodes && nodes[node.nodeId] == node
    requires after.nodeId == node.nodeId && after.generation == node.generation + 1 && after.lastSequence == 0
    ensures LastIsAccepted(log, after)
  {
    forall i | 0 <= i < |log|
      ensures !InGeneration(log[i], after)
    {
      assert Covered(log[i], nodes);
    }
  }

  lemma LastAfterHeartbeat(log: seq<Acceptance>, a: Acceptance, node: Node)
    requires InGeneration(a, node) && a.sequence == node.lastSequence
    ensures LastIsAccepted(log + [a], node)
  {
    assert (log + [a])[|log|] == a;
  }

  lemma LastUnaffected(log: seq<Acceptance>, a: Acceptance, node: Node)
    requires a.nodeId != node.nodeId && LastIsAccepted(log, node)
    ensures LastIsAccepted(log + [a], node)
  {
    var longer := log + [a];
    assert forall i :: 0 <= i < |log| ==> longer[i] == log[i];
  }

  /** Enrollment starts a new generation with nothing accepted in it. */
  lemma EnrollKeepsAccepted(c: Config, seed: map<string, Node>, s: State, r: EnrollRequest, now: nat, log: seq<Acceptance>)
    requires EnrollError(s, r, now).None? && NodesOk(seed, s.nodes)
    requires AllCovered(log, s.nodes) && forall n :: n in s.nodes ==> LastIsAccepted(log, s.nodes[n])
    ensures forall n :: n in s.nodes ==> LastIsAccepted(log, WithEnrollment(c, s, r, now).nodes[n])
  {
    hide LastIsAccepted, AllCovered;
    LastAfterEnrollment(log, s.nodes, s.nodes[r.nodeId], WithEnrollment(c, s, r, now).nodes[r.nodeId]);
  }

  lemma BeatKeepsAccepted(c: Config, seed: map<string, Node>, s: State, r: HeartbeatRequest, now: nat, log: seq<Acceptance>, a: Acceptance)
    requires HeartbeatError(c, s, r, now).None? && NodesOk(seed, s.nodes)
    requires a.nodeId == r.nodeId && a.generation == r.generation && a.sequence == r.sequence
    requires forall n :: n in s.nodes ==> LastIsAccepted(log, s.nodes[n])
    ensures forall n :: n in s.nodes ==> LastIsAccepted(log + [a], WithHeartbeat(c, s, r).nodes[n])
  {
    hide LastIsAccepted;
    forall n | n in s.nodes
      ensures LastIsAccepted(log + [a], WithHeartbeat(c, s, r).nodes[n])
    {
      if n == r.nodeId {
        LastAfterHeartbeat(log, a, WithHeartbeat(c, s, r).nodes[n]);
      } else {
        LastUnaffected(log, a, s.nodes[n]);
      }
    }
  }

  lemma AcceptedNoted(c: Config, seed: map<string, Node>, sys: Sys, q: Request, now: nat, after: Sys, acknowledged: bool)
    requires RequestError(c, sys.mem, q, now).None? && NodesOk(seed, sys.mem.nodes) && AcceptedOk(sys)
    requires after.mem.nodes == Noted(c, sys.mem, q, now).nodes
    requires after.accepted == if q.Beat? then sys.accepted + [Entry(q.beat, acknowledged)] else sys.accepted
    ensures AcceptedOk(after)
  {
    hide LastIsAccepted, NodesOk, HeartbeatError, AllCovered, StrictlyOrdered, EnrollError, CheckError, ProbeError, EvidenceError, TelemetryError;
    NothingBehindItself(sys.mem.nodes);
    NotedNotBehind(c, sys.mem, q, now);
    CoveredLater(sys.accepted, sys.mem.nodes, Noted(c, sys.mem, q, now).nodes);
    match q
    case Beat(r) =>
      AcceptedIsNext(c, sys.mem, r, now, sys.accepted, sys.mem.nodes, acknowledged);
      BeatKeepsAccepted(c, seed, sys.mem, r, now, sys.accepted, Entry(r, acknowledged));
      NotedKeys(c, sys.mem, q, now);
    case Enroll(r) =>
      EnrollKeepsAccepted(c, seed, sys.mem, r, now, sys.accepted);
      NotedKeys(c, sys.mem, q, now);
    case _ =>
  }

  lemma NotedKeys(c: Config, s: State, q: Request, now: nat)
    requires RequestError(c, s, q, now).None?
    ensures Noted(c, s, q, now).nodes.Keys == s.nodes.Keys
  {
  }

  lemma AcceptedStep(c: Config, seed: map<string, Node>, sys: Sys, e: Event)
    requires SeedOk(seed) && SysOk(c, seed, sys) && Possible(c, sys, e)
    requires e.q.Restart? ==> Saved(seed, sys)
    requires AcceptedOk(sys)
    ensures AcceptedOk(Step(c, seed, sys, e.q, e.env))
  {
    hide SysOk, Possible, Handle, RequestError, Noted, Back, AcceptedOk, Saved, NodesOk;
    var (after, reply) := Handle(c, seed, sys, e.q, e.env);
    HandlesAccounts(c, seed, sys, e);
    if RequestError(c, sys.mem, e.q, e.env.now).None? {
      if e.q.Restart? {
        CleanComesBack(c, seed, sys);
        SameAccepted(sys, after);
      } else {
        MemOk(c, seed, sys);
        MemNodesOk(c, seed, sys.mem);
        AcceptedNoted(c, seed, sys, e.q, e.env.now, Logged(after, e.q, reply), reply.Done?);
      }
    }
  }

  lemma MemNodesOk(c: Config, seed: map<string, Node>, s: State)
    requires StateOk(c, seed, s)
    ensures NodesOk(seed, s.nodes)
  {
    hide StateOk, NodesOk;
    NodesStayOk(c, seed, s);
  }

  lemma SameAccepted(sys: Sys, after: Sys)
    requires AcceptedOk(sys) && after.accepted == sys.accepted && after.mem.nodes == sys.mem.nodes
    ensures AcceptedOk(after)
  {
  }

  lemma {:induction false} AcceptedRun(c: Config, seed: map<string, Node>, run: seq<Event>)
    requires SeedOk(seed) && Lawful(c, seed, run) && CleanRestarts(c, seed, run)
    ensures AcceptedOk(After(c, seed, run))
  {
    hide SysOk, Possible, Step, SeedOk, AcceptedOk, Saved;
    if run == [] {
      StartAccepted(seed);
    } else {
      var front := run[..|run| - 1];
      AcceptedRun(c, seed, front);
      RunOk(c, seed, front);
      AcceptedStep(c, seed, After(c, seed, front), run[|run| - 1]);
    }
  }

  lemma StartAccepted(seed: map<string, Node>)
    requires SeedOk(seed)
    ensures AcceptedOk(Start(seed))
  {
  }

  /** In every run that restarts only from a current save, across any number of enrollments: no
      heartbeat is accepted twice, acknowledged or not, and a node's last sequence number is the
      greatest accepted in its generation, or zero. */
  lemma AcceptedAtMostOnce(c: Config, seed: map<string, Node>, run: seq<Event>)
    requires SeedOk(seed) && Lawful(c, seed, run) && CleanRestarts(c, seed, run)
    ensures var sys := After(c, seed, run);
      && (forall i, j :: 0 <= i < j < |sys.accepted| && sys.accepted[i].nodeId == sys.accepted[j].nodeId ==>
           EarlierMark(sys.accepted[i].generation, sys.accepted[i].sequence, sys.accepted[j].generation, sys.accepted[j].sequence))
      && forall n :: n in sys.mem.nodes ==>
           && LastIsAccepted(sys.accepted, sys.mem.nodes[n])
           && forall i :: 0 <= i < |sys.accepted| && InGeneration(sys.accepted[i], sys.mem.nodes[n]) ==>
                sys.accepted[i].sequence <= sys.mem.nodes[n].lastSequence
  {
    hide After, Lawful, LastIsAccepted, SysOk, NodesOk, Saved, CleanRestarts;
    AcceptedRun(c, seed, run);
    RunOk(c, seed, run);
    var sys := After(c, seed, run);
    GreatestAccepted(c, seed, sys);
    assert forall i, j :: 0 <= i < j < |sys.accepted| ==> Ordered(sys.accepted[i], sys.accepted[j]);
  }

  lemma GreatestAccepted(c: Config, seed: map<string, Node>, sys: Sys)
    requires SysOk(c, seed, sys) && AllCovered(sys.accepted, sys.mem.nodes)
    ensures forall n, i :: n in sys.mem.nodes && 0 <= i < |sys.accepted| && InGeneration(sys.accepted[i], sys.mem.nodes[n]) ==>
      sys.accepted[i].sequence <= sys.mem.nodes[n].lastSequence
  {
    hide SysOk;
    MemOk(c, seed, sys);
    MemNodesOk(c, seed, sys.mem);
    forall n, i | n in sys.mem.nodes && 0 <= i < |sys.accepted| && InGeneration(sys.accepted[i], sys.mem.nodes[n])
      ensures sys.accepted[i].sequence <= sys.mem.nodes[n].lastSequence
    {
      assert Covered(sys.accepted[i], sys.mem.nodes);
    }
  }

  // ---- What an unsaved acceptance costs ----

  /** A notification attempt outside the cooldown is recorded, sent or not, and saved. */
  predicate AttemptSaved(s: State, nodeId: string, code: string, now: int, io: Io) {
    !CoolingDown(s, nodeId, code, now) && io.saves
  }

  /** One of the alerts about a summary is attempted and saved. */
  ghost predicate AlertSaved(s: State, summary: Summary, env: Env) {
    || (summary.valid > 0 && !summary.availabilityPassed && AttemptSaved(s, summary.nodeId, NODE_OUTAGE, env.now, env.io(0)))
    || (summary.finalizedMeasurable > 0 && !summary.finalizedPassed && AttemptSaved(s, summary.nodeId, FINALIZED_LAG, env.now, env.io(1)))
  }

  lemma NotifyDisk(c: Config, seed: map<string, Node>, sys: Sys, nodeId: string, code: string, at: Stamp, now: int, io: Io, other: string)
    requires SysOk(c, seed, sys) && nodeId in seed && other != code
    ensures var t := Notify(c, sys, nodeId, code, at, now, io).0;
      && SysOk(c, seed, t) && SameAccounts(t.mem, sys.mem)
      && CoolingDown(t.mem, nodeId, other, now) == CoolingDown(sys.mem, nodeId, other, now)
      && if AttemptSaved(sys.mem, nodeId, code, now, io) then SameAccounts(Back(seed, t.disk), sys.mem) else t.disk == sys.disk
  {
    hide SysOk, SnapshotOf, Loadable, Loaded, Back, RecipientOf;
    NotifyOk(c, seed, sys, nodeId, code, at, now, io);
    var t := Notify(c, sys, nodeId, code, at, now, io).0;
    MemOk(c, seed, t);
    SaveComesBack(c, seed, t.mem);
  }

  lemma SummaryAlertsDisk(c: Config, seed: map<string, Node>, sys: Sys, summary: Summary, env: Env)
    requires SysOk(c, seed, sys) && summary.nodeId in seed
    ensures var t := SummaryAlerts(c, sys, summary, env);
      && SysOk(c, seed, t) && SameAccounts(t.mem, sys.mem)
      && if AlertSaved(sys.mem, summary, env) then SameAccounts(Back(seed, t.disk), sys.mem) else t.disk == sys.disk
  {
    hide SysOk, Back, Notify, CoolingDown;
    var n := summary.nodeId;
    CodesDiffer();
    NotifyDisk(c, seed, sys, n, NODE_OUTAGE, Printed(env.now), env.now, env.io(0), FINALIZED_LAG);
    NotifyDisk(c, seed, sys, n, FINALIZED_LAG, Printed(env.now), env.now, env.io(1), NODE_OUTAGE);
    var first := Notify(c, sys, n, NODE_OUTAGE, Printed(env.now), env.now, env.io(0)).0;
    NotifyDisk(c, seed, first, n, FINALIZED_LAG, Printed(env.now), env.now, env.io(1), NODE_OUTAGE);
  }

  lemma CodesDiffer()
    ensures NODE_OUTAGE != FINALIZED_LAG
  {
    assert NODE_OUTAGE[0] != FINALIZED_LAG[0];
  }

  /** The handler of a heartbeat saves at its end, or through one of the alerts it raises. */
  ghost predicate BeatSaved(c: Config, s: State, r: HeartbeatRequest, env: Env) {
    env.saves || AlertSaved(s, SummaryOf(c.policy, s.probes, r.nodeId, DateOf(r.at)), env)
  }

  /** The disk after an accepted heartbeat: what the handler or an alert saved, or as before. */
  lemma BeatDisk(c: Config, seed: map<string, Node>, sys: Sys, r: HeartbeatRequest, env: Env, t: Sys, noted: State)
    requires r.nodeId in sys.mem.nodes && r.at.At? && noted == WithHeartbeat(c, sys.mem, r)
    requires SeedOk(seed) && SysOk(c, seed, sys) && Possible(c, sys, Event(Beat(r), env))
    requires HeartbeatError(c, sys.mem, r, env.now).None?
    requires t == Step(c, seed, sys, Beat(r), env)
    ensures if BeatSaved(c, sys.mem, r, env) then SameAccounts(Back(seed, t.disk), noted) else t.disk == sys.disk
  {
    hide SysOk, Possible, Back, SummaryOf, SummaryAlerts, Settled, Step, HeartbeatError, AlertSaved, SnapshotOf, SeedOk;
    var e := Event(Beat(r), env);
    BeatError(c, sys.mem, r, env.now);
    var settled := Settled(c, sys.mem, Beat(r), env);
    var summary := SummaryOf(c.policy, sys.mem.probes, r.nodeId, DateOf(r.at));
    SettledContinues(c, seed, sys, e);
    BeatKnown(c, seed, sys, r, env.now);
    BeatSettles(c, sys.mem, r, env, noted);
    BeatAlerts(c, seed, sys, r, env, t);
    SummaryAlertsDisk(c, seed, sys.(mem := settled), summary, env);
    var alerted := SummaryAlerts(c, sys.(mem := settled), summary, env);
    MemOk(c, seed, alerted);
    SaveComesBack(c, seed, alerted.mem);
    SameAlertSaved(sys.mem, settled, summary, env);
  }

  lemma BeatKnown(c: Config, seed: map<string, Node>, sys: Sys, r: HeartbeatRequest, now: nat)
    requires SysOk(c, seed, sys) && HeartbeatError(c, sys.mem, r, now).None?
    ensures r.nodeId in seed
  {
    hide SysOk;
    MemOk(c, seed, sys);
    MemNodesOk(c, seed, sys.mem);
  }

  lemma SameAlertSaved(s: State, t: State, summary: Summary, env: Env)
    requires s.alertStates == t.alertStates
    ensures AlertSaved(s, summary, env) <==> AlertSaved(t, summary, env)
  {
  }

  lemma BeatSettles(c: Config, s: State, r: HeartbeatRequest, env: Env, noted: State)
    requires r.nodeId in s.nodes && r.at.At? && noted == WithHeartbeat(c, s, r)
    requires RequestError(c, s, Beat(r), env.now).None? && HeartbeatError(c, s, r, env.now).None?
    ensures var settled := Settled(c, s, Beat(r), env);
      settled.alertStates == s.alertStates && SameAccounts(settled, noted)
    ensures SummaryOf(c.policy, s.probes, r.nodeId, DateOf(r.at)).nodeId == r.nodeId
  {
    hide SummaryOf, ArtifactStep, HeartbeatError;
    SummaryNamesItsDay(c.policy, s.probes, r.nodeId, DateOf(r.at));
  }

  lemma BeatAlerts(c: Config, seed: map<string, Node>, sys: Sys, r: HeartbeatRequest, env: Env, t: Sys)
    requires RequestError(c, sys.mem, Beat(r), env.now).None? && HeartbeatError(c, sys.mem, r, env.now).None?
    requires t == Step(c, seed, sys, Beat(r), env)
    ensures t.disk == Persist(
      SummaryAlerts(c, sys.(mem := Settled(c, sys.mem, Beat(r), env)), SummaryOf(c.policy, sys.mem.probes, r.nodeId, DateOf(r.at)), env),
      env.saves).disk
  {
    hide SummaryOf, SummaryAlerts, ArtifactStep, SnapshotOf, HeartbeatError, FlagsStep, ScanStep;
  }

  /** An accepted heartbeat, sent again unchanged after a restart, is accepted again if and only if neither
      the handler nor an alert of the first time was saved. */
  lemma ReplayAcceptedIff(c: Config, seed: map<string, Node>, sys: Sys, r: HeartbeatRequest, env: Env)
    requires SeedOk(seed) && SysOk(c, seed, sys) && Saved(seed, sys) && Possible(c, sys, Event(Beat(r), env))
    requires HeartbeatError(c, sys.mem, r, env.now).None?
    ensures HeartbeatError(c, RestartStep(seed, Step(c, seed, sys, Beat(r), env)).mem, r, env.now).None?
      <==> !BeatSaved(c, sys.mem, r, env)
  {
    hide SysOk, Possible, Step, Back, Saved, RestartStep, BeatSaved;
    var t := Step(c, seed, sys, Beat(r), env);
    BeatDisk(c, seed, sys, r, env, t, WithHeartbeat(c, sys.mem, r));
    CleanComesBack(c, seed, sys);
    StepOk(c, seed, sys, Event(Beat(r), env));
    RestartComesBack(c, seed, t);
  }

  lemma RestartComesBack(c: Config, seed: map<string, Node>, sys: Sys)
    requires SysOk(c, seed, sys)
    ensures RestartStep(seed, sys).mem == Back(seed, sys.disk)
  {
    hide Loaded, Loadable, SnapshotOf, StateOk;
  }
}
