/** Nodes, challenges and events over whole runs: which of them a step can change, and what a restart
    comes back to. */
module Accounts {
  import opened Records
  import opened PortalState
  import opened Snapshots
  import opened Portal
  import opened Stepping
  import opened Views
  import opened Reachable
  import opened PortalRuns

  /** The store that a restart would come back to. */
  ghost function Back(seed: map<string, Node>, disk: Option<Snapshot>): State {
    if disk.Some? && Loadable(seed, disk.value) then Loaded(seed, disk.value) else Fresh(seed)
  }

  /** The same nodes and challenges, the same checks, probes and evidence, and the same heartbeats in any
      order: what only accepted requests change. */
  ghost predicate SameAccounts(s: State, t: State) {
    && s.nodes == t.nodes && s.challenges == t.challenges
    && s.checks == t.checks && s.probes == t.probes && s.evidence == t.evidence
    && multiset(s.heartbeats) == multiset(t.heartbeats)
  }

  /** Every change is saved: a restart comes back to the same store. */
  ghost predicate Saved(seed: map<string, Node>, sys: Sys) {
    if sys.disk.None? then sys.mem == Fresh(seed) else sys.disk.value == SnapshotOf(sys.mem)
  }

  lemma SaveComesBack(c: Config, seed: map<string, Node>, s: State)
    requires StateOk(c, seed, s)
    ensures Back(seed, Some(SnapshotOf(s))) == Reloaded(s)
  {
    hide WellFormed, ViewsOk, SnapshotOf, Loaded, Loadable, Reloaded;
    SnapshotRoundTrip(seed, s);
  }

  lemma CleanComesBack(c: Config, seed: map<string, Node>, sys: Sys)
    requires SysOk(c, seed, sys) && Saved(seed, sys)
    ensures SameAccounts(Back(seed, sys.disk), sys.mem)
    ensures Back(seed, sys.disk).deliveries == sys.mem.deliveries && Back(seed, sys.disk).alertStates == sys.mem.alertStates
  {
    hide StateOk, SnapshotOf, Loaded, Loadable, SavedOk;
    if sys.disk.Some? {
      SaveComesBack(c, seed, sys.mem);
    }
  }

  // ---- From a settled store, alerts and saves change no account ----

  ghost predicate Continues(c: Config, seed: map<string, Node>, from: Sys, sys: Sys) {
    && SysOk(c, seed, sys)
    && SameAccounts(sys.mem, from.mem)
    && sys.accepted == from.accepted && sys.enrolled == from.enrolled
    && (sys.disk == from.disk || SameAccounts(Back(seed, sys.disk), from.mem))
  }

  ghost function Continuing(c: Config, seed: map<string, Node>, from: Sys): Invariant {
    sys => Continues(c, seed, from, sys)
  }

  lemma PersistContinues(c: Config, seed: map<string, Node>, from: Sys, sys: Sys, saves: bool)
    requires Continues(c, seed, from, sys)
    ensures Continues(c, seed, from, Persist(sys, saves))
  {
    hide SysOk, SnapshotOf, Loadable, Loaded, Back;
    PersistOk(c, seed, sys, saves);
    MemOk(c, seed, sys);
    SaveComesBack(c, seed, sys.mem);
  }

  lemma MemOk(c: Config, seed: map<string, Node>, sys: Sys)
    requires SysOk(c, seed, sys)
    ensures StateOk(c, seed, sys.mem)
  {
    hide StateOk, SavedOk;
  }

  lemma NotifyContinues(c: Config, seed: map<string, Node>, from: Sys, sys: Sys, nodeId: string, code: string, at: Stamp, now: int, io: Io)
    requires Continues(c, seed, from, sys) && nodeId in seed
    ensures Continues(c, seed, from, Notify(c, sys, nodeId, code, at, now, io).0)
  {
    hide SysOk, SnapshotOf, Loadable, Loaded, Back, RecipientOf, CoolingDown;
    NotifyOk(c, seed, sys, nodeId, code, at, now, io);
    var t := Notify(c, sys, nodeId, code, at, now, io).0;
    MemOk(c, seed, t);
    SaveComesBack(c, seed, t.mem);
  }

  lemma TelemetryContinues(c: Config, seed: map<string, Node>, from: Sys, sys: Sys, t: Telemetry)
    requires Continues(c, seed, from, sys) && t.nodeId in seed
    ensures Continues(c, seed, from, sys.(mem := WithTelemetry(sys.mem, t)))
  {
    hide SysOk, SnapshotOf, Loadable, Loaded, Back;
    TelemetryKeepsOrder(c, seed, sys, t);
  }

  lemma ContinuingClosed(c: Config, seed: map<string, Node>, from: Sys)
    ensures Closed(c, seed.Keys, Continuing(c, seed, from))
  {
    hide Continues, Notify, WithTelemetry, Persist;
    var inv := Continuing(c, seed, from);
    forall sys, nodeId, code, at, now: nat, io | inv(sys) && nodeId in seed.Keys
      ensures inv(Notify(c, sys, nodeId, code, at, now, io).0)
    {
      NotifyContinues(c, seed, from, sys, nodeId, code, at, now, io);
    }
    forall sys: Sys, t: Telemetry | inv(sys) && t.nodeId in seed.Keys
      ensures inv(sys.(mem := WithTelemetry(sys.mem, t)))
    {
      TelemetryContinues(c, seed, from, sys, t);
    }
    forall sys | inv(sys)
      ensures inv(Persist(sys, true))
    {
      PersistContinues(c, seed, from, sys, true);
    }
  }

  // ---- One step ----

  /** The accounts after an accepted event. */
  lemma SettledAccounts(c: Config, s: State, q: Request, env: Env)
    requires RequestError(c, s, q, env.now).None?
    ensures SameAccounts(Settled(c, s, q, env), Noted(c, s, q, env.now))
  {
    hide Noted, RequestError, RebuildOf, Rebuilt;
    OnlyDerivedChanges(c, Noted(c, s, q, env.now), RebuildOf(q), env);
  }

  /** What a handler can do to the accounts, in memory and on disk. */
  ghost predicate AccountsHandled(c: Config, seed: map<string, Node>, sys: Sys, e: Event, after: Sys, reply: Reply) {
    && after.accepted == sys.accepted && after.enrolled == sys.enrolled
    && if RequestError(c, sys.mem, e.q, e.env.now).Some? then after == sys && reply.Refused?
       else if e.q.Restart? then after.mem == Back(seed, sys.disk) && after.disk == sys.disk && after.sent == sys.sent
       else
         var noted := Noted(c, sys.mem, e.q, e.env.now);
         && SameAccounts(after.mem, noted)
         && (after.disk == sys.disk || SameAccounts(Back(seed, after.disk), noted))
         && (reply.Done? && !e.q.Scan? ==> SameAccounts(Back(seed, after.disk), noted))
  }

  lemma HandlesAccounts(c: Config, seed: map<string, Node>, sys: Sys, e: Event)
    requires SeedOk(seed) && SysOk(c, seed, sys) && Possible(c, sys, e)
    ensures AccountsHandled(c, seed, sys, e, Handle(c, seed, sys, e.q, e.env).0, Handle(c, seed, sys, e.q, e.env).1)
  {
    hide SysOk, Settled, RequestError, Noted, LooksFound, NodesOk, Handle, Continues, Back, RestartStep;
    if RequestError(c, sys.mem, e.q, e.env.now).Some? {
      RefusedDoesNothing(c, seed, sys, e.q, e.env);
    } else if e.q.Restart? {
      RestartHandled(c, seed, sys, e.q, e.env);
    } else {
      var from := sys.(mem := Settled(c, sys.mem, e.q, e.env));
      SettledContinues(c, seed, sys, e);
      ContinuingClosed(c, seed, from);
      SettledToHandled(c, seed, Continuing(c, seed, from), sys, e.q, e.env);
      HandledContinues(c, seed, sys, from, e);
    }
  }

  lemma RefusedDoesNothing(c: Config, seed: map<string, Node>, sys: Sys, q: Request, env: Env)
    requires RequestError(c, sys.mem, q, env.now).Some?
    ensures Handle(c, seed, sys, q, env) == (sys, Refused(RequestError(c, sys.mem, q, env.now).value))
  {
    hide RequestError, Alerts;
  }

  lemma RestartHandled(c: Config, seed: map<string, Node>, sys: Sys, q: Request, env: Env)
    requires SysOk(c, seed, sys) && q.Restart?
    ensures Handle(c, seed, sys, q, env).0 == sys.(mem := Back(seed, sys.disk))
  {
    hide Loaded, Loadable, SnapshotOf, StateOk;
  }

  lemma SettledContinues(c: Config, seed: map<string, Node>, sys: Sys, e: Event)
    requires SeedOk(seed) && SysOk(c, seed, sys) && Possible(c, sys, e)
    requires RequestError(c, sys.mem, e.q, e.env.now).None? && !e.q.Restart?
    ensures var from := sys.(mem := Settled(c, sys.mem, e.q, e.env));
      && Continues(c, seed, from, from)
      && SameAccounts(from.mem, Noted(c, sys.mem, e.q, e.env.now))
      && NodesOk(seed, sys.mem.nodes) && NodesOk(seed, from.mem.nodes)
  {
    hide StateOk, SavedOk, Settled, RequestError, Noted, LooksFound, NodesOk, Loaded, Loadable;
    SettledOk(c, seed, sys.mem, e.q, e.env);
    SettledAccounts(c, sys.mem, e.q, e.env);
    NodesStayOk(c, seed, sys.mem);
    NodesStayOk(c, seed, Settled(c, sys.mem, e.q, e.env));
  }

  lemma HandledContinues(c: Config, seed: map<string, Node>, sys: Sys, from: Sys, e: Event)
    requires RequestError(c, sys.mem, e.q, e.env.now).None? && !e.q.Restart?
    requires from == sys.(mem := Settled(c, sys.mem, e.q, e.env))
    requires SameAccounts(from.mem, Noted(c, sys.mem, e.q, e.env.now))
    requires Continues(c, seed, from, Handle(c, seed, sys, e.q, e.env).0)
    ensures AccountsHandled(c, seed, sys, e, Handle(c, seed, sys, e.q, e.env).0, Handle(c, seed, sys, e.q, e.env).1)
  {
    hide SysOk, Settled, RequestError, Noted, Alerts, Back, SnapshotOf;
    var (after, reply) := Handle(c, seed, sys, e.q, e.env);
    if reply.Done? && !e.q.Scan? {
      assert after.disk == Some(SnapshotOf(after.mem));
      MemOk(c, seed, after);
      SaveComesBack(c, seed, after.mem);
    }
  }
}
