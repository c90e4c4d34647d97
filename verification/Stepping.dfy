/** What holds through the alerts and saves of a step: properties closed under one notification, one
    stored telemetry record and one save are closed under whole handlers. */
module Stepping {
  import opened Records
  import opened Tables
  import opened ProbeSummary
  import opened PortalState
  import opened Snapshots
  import opened Portal

  type Invariant = Sys -> bool

  ghost predicate ClosedUnderNotify(c: Config, nodes: set<string>, inv: Invariant) {
    forall sys, nodeId, code, at, now: nat, io ::
      inv(sys) && nodeId in nodes ==> inv(Notify(c, sys, nodeId, code, at, now, io).0)
  }

  ghost predicate ClosedUnderTelemetry(nodes: set<string>, inv: Invariant) {
    forall sys, t: Telemetry :: inv(sys) && t.nodeId in nodes ==> inv(sys.(mem := WithTelemetry(sys.mem, t)))
  }

  ghost predicate ClosedUnderSave(inv: Invariant) {
    forall sys :: inv(sys) ==> inv(Persist(sys, true))
  }

  ghost predicate Closed(c: Config, nodes: set<string>, inv: Invariant) {
    ClosedUnderNotify(c, nodes, inv) && ClosedUnderTelemetry(nodes, inv) && ClosedUnderSave(inv)
  }

  lemma FlagKeeps(c: Config, nodes: set<string>, inv: Invariant, sys: Sys, t: Telemetry, at: Stamp, now: nat, io: Io)
    requires Closed(c, nodes, inv) && inv(sys) && t.nodeId in nodes
    ensures inv(sys.(mem := WithTelemetry(sys.mem, t)))
    ensures inv(Notify(c, sys.(mem := WithTelemetry(sys.mem, t)), t.nodeId, t.code, at, now, io).0)
  {
    hide Notify, WithTelemetry;
  }

  lemma {:induction false} FlagsKeep(c: Config, nodes: set<string>, inv: Invariant, sys: Sys, nodeId: string, at: Stamp, flags: seq<string>, n: nat, env: Env)
    requires Closed(c, nodes, inv) && inv(sys) && nodeId in nodes && n <= |flags|
    ensures inv(FlagsStep(c, sys, nodeId, at, flags, n, env).0)
  {
    hide Notify, WithTelemetry, Closed;
    if n > 0 {
      FlagsKeep(c, nodes, inv, sys, nodeId, at, flags, n - 1, env);
      var before := FlagsStep(c, sys, nodeId, at, flags, n - 1, env).0;
      FlagKeeps(c, nodes, inv, before, Telemetry(nodeId, at, flags[n - 1]), at, env.now, env.io(n - 1));
    }
  }

  lemma {:induction false} ScanKeeps(c: Config, known: set<string>, inv: Invariant, sys: Sys, nodes: seq<Node>, n: nat, env: Env)
    requires Closed(c, known, inv) && inv(sys) && n <= |nodes|
    requires forall i :: 0 <= i < |nodes| ==> nodes[i].nodeId in known
    ensures inv(ScanStep(c, sys, nodes, n, env))
  {
    hide Notify, WithTelemetry;
    if n > 0 {
      ScanKeeps(c, known, inv, sys, nodes, n - 1, env);
    }
  }

  lemma ListedNodesKnown(seed: map<string, Node>, nodes: map<string, Node>)
    requires NodesOk(seed, nodes)
    ensures forall i :: 0 <= i < |Sorting(nodes, NodeOrder)| ==> Sorting(nodes, NodeOrder)[i].nodeId in seed.Keys
  {
    var listed := Sorting(nodes, NodeOrder);
    forall i | 0 <= i < |listed|
      ensures listed[i].nodeId in seed.Keys
    {
      assert listed[i] in nodes.Values;
    }
  }

  lemma SummaryAlertsKeep(c: Config, nodes: set<string>, inv: Invariant, sys: Sys, summary: Summary, env: Env)
    requires ClosedUnderNotify(c, nodes, inv) && inv(sys) && summary.nodeId in nodes
    ensures inv(SummaryAlerts(c, sys, summary, env))
  {
    hide Notify;
  }

  /** The node that a request is about. */
  function AboutNode(q: Request): Option<string> {
    match q
    case Issue(nodeId) => Some(nodeId)
    case Enroll(r) => Some(r.nodeId)
    case Beat(r) => Some(r.nodeId)
    case SendCheck(r) => Some(r.nodeId)
    case SendTelemetry(r) => Some(r.nodeId)
    case SendProbe(r) => Some(r.nodeId)
    case SendEvidence(r) => Some(r.header.nodeId)
    case _ => None
  }

  lemma AlertsKeep(c: Config, seed: map<string, Node>, inv: Invariant, sys: Sys, q: Request, env: Env)
    requires Closed(c, seed.Keys, inv) && inv(sys) && NodesOk(seed, sys.mem.nodes)
    requires AboutNode(q).Some? ==> AboutNode(q).value in seed
    ensures inv(Alerts(c, sys, q, env).0)
  {
    hide Notify, WithTelemetry, Sorting, SummaryAlerts, ScanStep, FlagsStep, Closed, TallyOf, NodesOk;
    if q.SendTelemetry? {
      if q.telemetry.at.At? && q.telemetry.flags.Some? {
        FlagsKeep(c, seed.Keys, inv, sys, q.telemetry.nodeId, q.telemetry.at.t, q.telemetry.flags.value, |q.telemetry.flags.value|, env);
      }
    } else if q.Scan? {
      ListedNodesKnown(seed, sys.mem.nodes);
      var nodes := Sorting(sys.mem.nodes, NodeOrder);
      ScanKeeps(c, seed.Keys, inv, sys, nodes, |nodes|, env);
    } else {
      match RebuildOf(q)
      case Artifacts(nodeId, date) =>
        ClosedParts(c, seed.Keys, inv);
        SummaryAlertsKeep(c, seed.Keys, inv, sys, SummaryOf(c.policy, sys.mem.probes, nodeId, date), env);
      case _ =>
    }
  }

  lemma ClosedParts(c: Config, nodes: set<string>, inv: Invariant)
    requires Closed(c, nodes, inv)
    ensures ClosedUnderNotify(c, nodes, inv) && ClosedUnderSave(inv)
  {
  }

  lemma AcceptedNodeKnown(c: Config, seed: map<string, Node>, s: State, q: Request, now: nat)
    requires RequestError(c, s, q, now).None? && AboutNode(q).Some? && NodesOk(seed, s.nodes)
    ensures AboutNode(q).value in seed
  {
  }

  /** A closed property that holds once the event is noted and rebuilt holds after the alerts and the
      save. */
  lemma SettledToHandled(c: Config, seed: map<string, Node>, inv: Invariant, sys: Sys, q: Request, env: Env)
    requires Closed(c, seed.Keys, inv) && NodesOk(seed, sys.mem.nodes)
    requires RequestError(c, sys.mem, q, env.now).None? && !q.Restart?
    requires inv(sys.(mem := Settled(c, sys.mem, q, env))) && NodesOk(seed, Settled(c, sys.mem, q, env).nodes)
    ensures inv(Handle(c, seed, sys, q, env).0)
  {
    hide Settled, RequestError, Alerts, Closed, Persist, NodesOk;
    var settled := sys.(mem := Settled(c, sys.mem, q, env));
    if AboutNode(q).Some? {
      AcceptedNodeKnown(c, seed, sys.mem, q, env.now);
    }
    AlertsKeep(c, seed, inv, settled, q, env);
    ClosedParts(c, seed.Keys, inv);
    PersistKeeps(inv, Alerts(c, settled, q, env).0, env.saves);
  }

  /** A closed property survives a handler if it survives noting the event with its rebuild, or the
      restart. */
  lemma HandleKeeps(c: Config, seed: map<string, Node>, inv: Invariant, sys: Sys, q: Request, env: Env)
    requires Closed(c, seed.Keys, inv) && inv(sys) && NodesOk(seed, sys.mem.nodes)
    requires RequestError(c, sys.mem, q, env.now).None? && !q.Restart? ==>
      inv(sys.(mem := Settled(c, sys.mem, q, env))) && NodesOk(seed, Settled(c, sys.mem, q, env).nodes)
    requires q.Restart? ==> inv(RestartStep(seed, sys))
    ensures inv(Handle(c, seed, sys, q, env).0)
  {
    hide Settled, RequestError, Alerts, RestartStep, Closed, Persist, NodesOk;
    if RequestError(c, sys.mem, q, env.now).None? && !q.Restart? {
      SettledToHandled(c, seed, inv, sys, q, env);
    }
  }

  lemma PersistKeeps(inv: Invariant, sys: Sys, saves: bool)
    requires ClosedUnderSave(inv) && inv(sys)
    ensures inv(Persist(sys, saves))
  {
    hide SnapshotOf;
  }
}
