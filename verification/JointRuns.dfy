/** The portal as it runs and one of its agents, over the channel: what the link model says holds of the
    real store, whatever else the portal does meanwhile. */
module JointRuns {
  import opened Records
  import opened PortalState
  import opened Portal
  import opened PortalRuns
  import opened Accounts
  import Link = HeartbeatLink

  /** What the store remembers of a node. */
  function MarkOf(s: State, n: string): Link.Mark {
    if n in s.nodes then Link.Mark(s.nodes[n].generation, s.nodes[n].lastSequence) else Link.Mark(0, 0)
  }

  function MessageOf(r: HeartbeatRequest): Link.Message {
    Link.Message(r.generation, r.sequence)
  }

  /** The portal accepts this request as a heartbeat of the node. */
  predicate AcceptsBeat(c: Config, s: State, n: string, e: Event) {
    e.q.Beat? && e.q.beat.nodeId == n && HeartbeatError(c, s, e.q.beat, e.env.now).None?
  }

  predicate AcceptsEnrollment(c: Config, s: State, n: string, e: Event) {
    e.q.Enroll? && e.q.enroll.nodeId == n && EnrollError(s, e.q.enroll, e.env.now).None?
  }

  // ---- One step of the portal is a step of the link, or none ----

  /** The link step that a portal step amounts to for a node. */
  ghost function LinkStep(c: Config, seed: map<string, Node>, sys: Sys, n: string, e: Event, heard: bool): Option<Link.Step> {
    var (after, reply) := Handle(c, seed, sys, e.q, e.env);
    var disk := MarkOf(Back(seed, after.disk), n);
    if AcceptsBeat(c, sys.mem, n, e) then
      Some(Link.Deliver(MessageOf(e.q.beat), disk == MarkOf(after.mem, n), reply.Done?, heard))
    else if AcceptsEnrollment(c, sys.mem, n, e) then Some(Link.NewGeneration(disk == MarkOf(after.mem, n)))
    else if e.q.Restart? then Some(Link.PortalRestart)
    else if disk != MarkOf(Back(seed, sys.disk), n) then Some(Link.Save)
    else None
  }

  /** Node marks under the requests that do not concern the node. */
  lemma OtherMarksStay(c: Config, s: State, n: string, e: Event)
    requires RequestError(c, s, e.q, e.env.now).None? && !e.q.Restart?
    requires !AcceptsBeat(c, s, n, e) && !AcceptsEnrollment(c, s, n, e)
    ensures MarkOf(Noted(c, s, e.q, e.env.now), n) == MarkOf(s, n)
  {
    hide CheckError, ProbeError, EvidenceError, TelemetryError;
  }

  lemma BeatMark(c: Config, s: State, n: string, e: Event)
    requires AcceptsBeat(c, s, n, e)
    ensures RequestError(c, s, e.q, e.env.now).None?
    ensures Link.Accepts(MarkOf(s, n), MessageOf(e.q.beat))
    ensures MarkOf(Noted(c, s, e.q, e.env.now), n) == Link.Mark(MarkOf(s, n).generation, e.q.beat.sequence)
  {
    Link.PortalAcceptsAsLinked(c, s, e.q.beat, e.env.now);
  }

  lemma EnrollmentMark(c: Config, s: State, n: string, e: Event)
    requires AcceptsEnrollment(c, s, n, e)
    ensures RequestError(c, s, e.q, e.env.now).None?
    ensures MarkOf(Noted(c, s, e.q, e.env.now), n) == Link.Mark(MarkOf(s, n).generation + 1, 0)
  {
    Link.PortalEnrollsAsLinked(c, s, e.q.enroll, e.env.now);
  }

  lemma SameAccountsSameMark(s: State, t: State, n: string)
    requires SameAccounts(s, t)
    ensures MarkOf(s, n) == MarkOf(t, n)
  {
  }

  ghost predicate MarksAgree(seed: map<string, Node>, sys: Sys, n: string, l: Link.Link) {
    l.mem == MarkOf(sys.mem, n) && l.disk == MarkOf(Back(seed, sys.disk), n)
  }

  /** What the portal did to the node's marks, in memory and on disk. */
  lemma MarksHandled(c: Config, seed: map<string, Node>, sys: Sys, n: string, e: Event)
    requires SeedOk(seed) && SysOk(c, seed, sys) && Possible(c, sys, e)
    ensures var (after, reply) := Handle(c, seed, sys, e.q, e.env);
      var (mem, disk) := (MarkOf(after.mem, n), MarkOf(Back(seed, after.disk), n));
      var (oldMem, oldDisk) := (MarkOf(sys.mem, n), MarkOf(Back(seed, sys.disk), n));
      if RequestError(c, sys.mem, e.q, e.env.now).Some? then mem == oldMem && disk == oldDisk
      else if e.q.Restart? then mem == oldDisk && disk == oldDisk
      else
        var noted := MarkOf(Noted(c, sys.mem, e.q, e.env.now), n);
        mem == noted && (disk == oldDisk || disk == noted) && (reply.Done? && !e.q.Scan? ==> disk == noted)
  {
    hide SysOk, Possible, Handle, RequestError, Noted, Back, MarkOf;
    var (after, reply) := Handle(c, seed, sys, e.q, e.env);
    HandlesAccounts(c, seed, sys, e);
    if RequestError(c, sys.mem, e.q, e.env.now).None? && !e.q.Restart? {
      var noted := Noted(c, sys.mem, e.q, e.env.now);
      SameAccountsSameMark(after.mem, noted, n);
      if after.disk != sys.disk {
        SameAccountsSameMark(Back(seed, after.disk), noted, n);
      }
      if reply.Done? && !e.q.Scan? {
        SameAccountsSameMark(Back(seed, after.disk), noted, n);
      }
    }
  }

  /** For the node's marks, one step of the portal is the link step, or changes nothing. */
  lemma StepIsLinkStep(c: Config, seed: map<string, Node>, sys: Sys, n: string, e: Event, heard: bool, l: Link.Link)
    requires SeedOk(seed) && SysOk(c, seed, sys) && Possible(c, sys, e) && MarksAgree(seed, sys, n, l)
    requires AcceptsBeat(c, sys.mem, n, e) ==> MessageOf(e.q.beat) in l.sent
    requires heard ==> AcceptsBeat(c, sys.mem, n, e) && l.waiting == Some(MessageOf(e.q.beat)) && l.reply.None?
    ensures var step, after := LinkStep(c, seed, sys, n, e, heard), Handle(c, seed, sys, e.q, e.env).0;
      if step.Some? then Link.Enabled(l, step.value) && MarksAgree(seed, after, n, Link.Next(l, step.value))
      else MarksAgree(seed, after, n, l)
  {
    hide SysOk, Possible, Handle, RequestError, Noted, Back, MarkOf, AcceptsBeat, AcceptsEnrollment, SeedOk;
    MarksHandled(c, seed, sys, n, e);
    if AcceptsBeat(c, sys.mem, n, e) {
      BeatMark(c, sys.mem, n, e);
      BeatIsNoRestart(c, sys.mem, n, e);
    } else if AcceptsEnrollment(c, sys.mem, n, e) {
      EnrollmentMark(c, sys.mem, n, e);
      BeatIsNoRestart(c, sys.mem, n, e);
    } else if RequestError(c, sys.mem, e.q, e.env.now).None? && !e.q.Restart? {
      OtherMarksStay(c, sys.mem, n, e);
    } else if e.q.Restart? {
      RestartAccepted(c, sys.mem, e);
    }
  }

  lemma BeatIsNoRestart(c: Config, s: State, n: string, e: Event)
    requires AcceptsBeat(c, s, n, e) || AcceptsEnrollment(c, s, n, e)
    ensures !e.q.Restart? && !e.q.Scan?
    ensures AcceptsBeat(c, s, n, e) ==> !AcceptsEnrollment(c, s, n, e)
  {
  }

  lemma RestartAccepted(c: Config, s: State, e: Event)
    requires e.q.Restart?
    ensures RequestError(c, s, e.q, e.env.now).None?
  {
  }

  // ---- Joint runs ----

  /** The agent moves, or the portal handles an event; `heard` if the event is the very request that the
      agent awaits a reply to.  An error reply and no reply are the same to the agent. */
  datatype Move = AgentMove(step: Link.Step) | PortalMove(e: Event, heard: bool)

  datatype Joint = Joint(sys: Sys, link: Link.Link)

  /** The link's marks are read off the portal; a heard acceptance sends the outcome back. */
  ghost function JointNext(c: Config, seed: map<string, Node>, n: string, j: Joint, x: Move): Joint {
    match x
    case AgentMove(step) => j.(link := Link.Next(j.link, step))
    case PortalMove(e, heard) =>
      var after := Step(c, seed, j.sys, e.q, e.env);
      Joint(after, j.link.(
        mem := MarkOf(after.mem, n),
        disk := MarkOf(Back(seed, after.disk), n),
        reply := if heard then Some(Handle(c, seed, j.sys, e.q, e.env).1.Done?) else j.link.reply))
  }

  /** Agents only send, receive, give up or are reconfigured; the portal accepts as the node's heartbeats
      only what the agent has sent, since nobody else can sign. */
  ghost predicate JointPossible(c: Config, n: string, j: Joint, x: Move) {
    match x
    case AgentMove(step) => (step.Send? || step.Receive? || step.GiveUp? || step.Reconfigure?) && Link.Enabled(j.link, step)
    case PortalMove(e, heard) =>
      && Possible(c, j.sys, e)
      && (AcceptsBeat(c, j.sys.mem, n, e) ==> MessageOf(e.q.beat) in j.link.sent)
      && (heard ==> AcceptsBeat(c, j.sys.mem, n, e) && j.link.waiting == Some(MessageOf(e.q.beat)) && j.link.reply.None?)
  }

  ghost function JointAfter(c: Config, seed: map<string, Node>, n: string, j: Joint, moves: seq<Move>): Joint {
    if moves == [] then j else JointNext(c, seed, n, JointAfter(c, seed, n, j, moves[..|moves| - 1]), moves[|moves| - 1])
  }

  ghost predicate JointLawful(c: Config, seed: map<string, Node>, n: string, j: Joint, moves: seq<Move>) {
    moves != [] ==>
      && JointLawful(c, seed, n, j, moves[..|moves| - 1])
      && JointPossible(c, n, JointAfter(c, seed, n, j, moves[..|moves| - 1]), moves[|moves| - 1])
  }

  ghost predicate InStep(c: Config, seed: map<string, Node>, n: string, j: Joint) {
    SysOk(c, seed, j.sys) && MarksAgree(seed, j.sys, n, j.link)
  }

  /** The link step of a move, if it is one. */
  ghost function MoveStep(c: Config, seed: map<string, Node>, n: string, j: Joint, x: Move): Option<Link.Step> {
    match x
    case AgentMove(step) => Some(step)
    case PortalMove(e, heard) => LinkStep(c, seed, j.sys, n, e, heard)
  }

  /** Every move is a step of the link, or leaves it as it is. */
  lemma MoveIsLinkStep(c: Config, seed: map<string, Node>, n: string, j: Joint, x: Move)
    requires SeedOk(seed) && InStep(c, seed, n, j) && JointPossible(c, n, j, x)
    ensures InStep(c, seed, n, JointNext(c, seed, n, j, x))
    ensures var step := MoveStep(c, seed, n, j, x);
      if step.Some? then Link.Enabled(j.link, step.value) && JointNext(c, seed, n, j, x).link == Link.Next(j.link, step.value)
      else JointNext(c, seed, n, j, x).link == j.link
  {
    hide SysOk, Possible, Handle, Back, MarkOf, AcceptsBeat, AcceptsEnrollment, MessageOf, SeedOk, LinkStep;
    match x
    case AgentMove(step) =>
    case PortalMove(e, heard) =>
      StepOk(c, seed, j.sys, e);
      StepIsLinkStep(c, seed, j.sys, n, e, heard, j.link);
      StepKeepsStores(c, seed, j.sys, e);
      if AcceptsBeat(c, j.sys.mem, n, e) {
        BeatMark(c, j.sys.mem, n, e);
      }
      HeardOnly(c, seed, j.sys, n, e, heard, j.link);
  }

  lemma StepKeepsStores(c: Config, seed: map<string, Node>, sys: Sys, e: Event)
    ensures Step(c, seed, sys, e.q, e.env).mem == Handle(c, seed, sys, e.q, e.env).0.mem
    ensures Step(c, seed, sys, e.q, e.env).disk == Handle(c, seed, sys, e.q, e.env).0.disk
  {
    hide Handle, RequestError;
  }

  /** Apart from the marks, a portal step only answers a heard request. */
  lemma HeardOnly(c: Config, seed: map<string, Node>, sys: Sys, n: string, e: Event, heard: bool, l: Link.Link)
    requires heard ==> AcceptsBeat(c, sys.mem, n, e)
    requires AcceptsBeat(c, sys.mem, n, e) ==> Link.Accepts(l.mem, MessageOf(e.q.beat))
    ensures var step := LinkStep(c, seed, sys, n, e, heard);
      if step.Some? then
        var t := Link.Next(l, step.value);
        t == l.(mem := t.mem, disk := t.disk, reply := if heard then Some(Handle(c, seed, sys, e.q, e.env).1.Done?) else l.reply)
      else !heard
  {
    hide Handle, Back, MarkOf, AcceptsBeat, AcceptsEnrollment, MessageOf;
  }

  // ---- Joint runs are link runs ----

  lemma ExecuteOneMore(l: Link.Link, steps: seq<Link.Step>, step: Link.Step)
    ensures Link.Execute(l, steps + [step]) == Link.Next(Link.Execute(l, steps), step)
    ensures Link.Legal(l, steps + [step]) <==> Link.Legal(l, steps) && Link.Enabled(Link.Execute(l, steps), step)
  {
    hide Link.Next, Link.Enabled;
    assert (steps + [step])[..|steps|] == steps;
  }

  /** No move is an accepted enrollment of the node. */
  ghost predicate NoEnrollment(c: Config, seed: map<string, Node>, n: string, j: Joint, moves: seq<Move>) {
    moves != [] ==>
      var before := JointAfter(c, seed, n, j, moves[..|moves| - 1]);
      && NoEnrollment(c, seed, n, j, moves[..|moves| - 1])
      && (moves[|moves| - 1].PortalMove? ==> !AcceptsEnrollment(c, before.sys.mem, n, moves[|moves| - 1].e))
  }

  lemma MoveWithoutEnrollment(c: Config, seed: map<string, Node>, n: string, j: Joint, x: Move)
    requires JointPossible(c, n, j, x) && (x.PortalMove? ==> !AcceptsEnrollment(c, j.sys.mem, n, x.e))
    ensures var step := MoveStep(c, seed, n, j, x); step.Some? ==> !step.value.NewGeneration?
  {
    hide Handle, Back, MarkOf, AcceptsBeat, AcceptsEnrollment, MessageOf, Possible;
  }

  /** What a run of the portal and an agent does to the link is a legal run of the link, without a new
      generation if the node does not enroll. */
  lemma {:induction false} JointRunIsLinkRun(c: Config, seed: map<string, Node>, n: string, j: Joint, moves: seq<Move>) returns (steps: seq<Link.Step>)
    requires SeedOk(seed) && InStep(c, seed, n, j) && JointLawful(c, seed, n, j, moves)
    ensures InStep(c, seed, n, JointAfter(c, seed, n, j, moves))
    ensures Link.Legal(j.link, steps) && Link.Execute(j.link, steps) == JointAfter(c, seed, n, j, moves).link
    ensures NoEnrollment(c, seed, n, j, moves) ==> Link.WithoutEnrollment(steps)
  {
    hide InStep, JointPossible, JointNext, SeedOk, Link.Next, Link.Enabled, MoveStep, AcceptsEnrollment;
    steps := [];
    if moves != [] {
      var front, x := moves[..|moves| - 1], moves[|moves| - 1];
      steps := JointRunIsLinkRun(c, seed, n, j, front);
      var before := JointAfter(c, seed, n, j, front);
      MoveIsLinkStep(c, seed, n, before, x);
      var step := MoveStep(c, seed, n, before, x);
      if step.Some? {
        ExecuteOneMore(j.link, steps, step.value);
        if NoEnrollment(c, seed, n, j, moves) {
          MoveWithoutEnrollment(c, seed, n, before, x);
        }
        steps := steps + [step.value];
      }
    }
  }

  // ---- What follows for the store ----

  /** In every run of the portal and an agent, whatever is delayed, repeated, lost, re-enrolled or
      restarted: the store is at most one ahead of the agent, and so is the last save. */
  lemma StoreAtMostOneAhead(c: Config, seed: map<string, Node>, n: string, j: Joint, moves: seq<Move>)
    requires SeedOk(seed) && InStep(c, seed, n, j) && JointLawful(c, seed, n, j, moves) && Link.NotAhead(j.link)
    ensures var t := JointAfter(c, seed, n, j, moves);
      MarkOf(t.sys.mem, n).last <= t.link.last + 1 && MarkOf(Back(seed, t.sys.disk), n).last <= t.link.last + 1
  {
    hide JointAfter, JointLawful, SysOk, Back, MarkOf, Link.Execute, Link.Legal, NoEnrollment;
    var steps := JointRunIsLinkRun(c, seed, n, j, moves);
    Link.PortalAtMostOneAhead(j.link, steps);
  }

  /** From agent and store in step, and until the node enrolls again: agent <= save <= store <= agent + 1,
      in every run. */
  lemma StoreCoupled(c: Config, seed: map<string, Node>, n: string, j: Joint, moves: seq<Move>)
    requires SeedOk(seed) && InStep(c, seed, n, j) && JointLawful(c, seed, n, j, moves)
    requires Link.Coupled(j.link) && NoEnrollment(c, seed, n, j, moves)
    ensures var t := JointAfter(c, seed, n, j, moves);
      t.link.last <= MarkOf(Back(seed, t.sys.disk), n).last <= MarkOf(t.sys.mem, n).last <= t.link.last + 1
  {
    hide JointAfter, JointLawful, SysOk, Back, MarkOf, Link.Execute, Link.Legal, Link.NotAhead;
    var steps := JointRunIsLinkRun(c, seed, n, j, moves);
    Link.CoupledWithinGeneration(j.link, steps);
  }

  /** A saved enrollment of a node whose agent has never sent anything starts in step. */
  lemma FirstEnrollmentCouples(c: Config, seed: map<string, Node>, n: string, sys: Sys)
    requires SysOk(c, seed, sys)
    requires n in sys.mem.nodes && sys.mem.nodes[n].generation == 1 && sys.mem.nodes[n].lastSequence == 0
    requires MarkOf(Back(seed, sys.disk), n) == MarkOf(sys.mem, n)
    ensures var j := Joint(sys, Link.FreshLink(1)); InStep(c, seed, n, j) && Link.Coupled(j.link)
  {
    hide SysOk, Back;
    Link.FreshIsCoupled(1);
  }

  /** The portal has saved a heartbeat whose acknowledgement the agent missed: from then on, until the node
      enrolls again, the node's mark never moves and no heartbeat of it is accepted, whatever the agent
      sends, the channel does and the portal handles or restarts. */
  lemma StuckStore(c: Config, seed: map<string, Node>, n: string, j: Joint, moves: seq<Move>)
    requires SeedOk(seed) && InStep(c, seed, n, j) && JointLawful(c, seed, n, j, moves)
    requires Link.Stuck(j.link) && NoEnrollment(c, seed, n, j, moves)
    ensures var t := JointAfter(c, seed, n, j, moves);
      && MarkOf(t.sys.mem, n) == MarkOf(j.sys.mem, n) && t.link.last == j.link.last
      && forall e, heard :: JointPossible(c, n, t, PortalMove(e, heard)) ==> !AcceptsBeat(c, t.sys.mem, n, e)
  {
    hide JointAfter, JointLawful, SysOk, Back, MarkOf, Link.Execute, Link.Legal, Link.NotAhead, Possible, MessageOf, AcceptsBeat;
    var steps := JointRunIsLinkRun(c, seed, n, j, moves);
    Link.StuckUntilEnrollment(j.link, steps);
    var t := JointAfter(c, seed, n, j, moves);
    forall e, heard | JointPossible(c, n, t, PortalMove(e, heard))
      ensures !AcceptsBeat(c, t.sys.mem, n, e)
    {
      if AcceptsBeat(c, t.sys.mem, n, e) {
        BeatMark(c, t.sys.mem, n, e);
        assert false;
      }
    }
  }

  lemma MoveAppended(c: Config, seed: map<string, Node>, n: string, j: Joint, moves: seq<Move>, x: Move)
    requires JointLawful(c, seed, n, j, moves) && JointPossible(c, n, JointAfter(c, seed, n, j, moves), x)
    ensures JointLawful(c, seed, n, j, moves + [x])
    ensures JointAfter(c, seed, n, j, moves + [x]) == JointNext(c, seed, n, JointAfter(c, seed, n, j, moves), x)
    ensures NoEnrollment(c, seed, n, j, moves)
         && (x.PortalMove? ==> !AcceptsEnrollment(c, JointAfter(c, seed, n, j, moves).sys.mem, n, x.e))
         ==> NoEnrollment(c, seed, n, j, moves + [x])
  {
    hide JointNext, JointPossible, AcceptsEnrollment;
    assert (moves + [x])[..|moves|] == moves;
  }

  /** A run gets there from any state in step in which the portal is not ahead: the agent sends its next
      heartbeat, the portal accepts and saves it, and the reply is lost. */
  lemma LostReplyReachesStuck(c: Config, seed: map<string, Node>, n: string, j: Joint, e: Event)
    requires SeedOk(seed) && InStep(c, seed, n, j) && Link.Coupled(j.link)
    requires j.link.waiting.None? && MarkOf(j.sys.mem, n).last == j.link.last
    requires Possible(c, j.sys, e) && AcceptsBeat(c, j.sys.mem, n, e) && e.env.saves
    requires MessageOf(e.q.beat) == Link.Message(j.link.configured, j.link.last + 1)
    ensures var moves := [AgentMove(Link.Send), PortalMove(e, true), AgentMove(Link.GiveUp)];
      && JointLawful(c, seed, n, j, moves) && NoEnrollment(c, seed, n, j, moves)
      && InStep(c, seed, n, JointAfter(c, seed, n, j, moves)) && Link.Stuck(JointAfter(c, seed, n, j, moves).link)
  {
    hide SysOk, Possible, AcceptsBeat, AcceptsEnrollment, SeedOk, JointNext, JointPossible, JointAfter, JointLawful, NoEnrollment, Link.Next, Link.NotAhead, MarksAgree, MarkOf;
    var j1 := JointNext(c, seed, n, j, AgentMove(Link.Send));
    var j2 := JointNext(c, seed, n, j1, PortalMove(e, true));
    NextIsSent(c, seed, n, j, e);
    MoveIsLinkStep(c, seed, n, j, AgentMove(Link.Send));
    MoveIsLinkStep(c, seed, n, j1, PortalMove(e, true));
    NextIsCounted(c, seed, n, j1, e);
    MoveIsLinkStep(c, seed, n, j2, AgentMove(Link.GiveUp));
    BeatIsNoRestart(c, j.sys.mem, n, e);
    var one, two := [AgentMove(Link.Send)], [AgentMove(Link.Send), PortalMove(e, true)];
    NothingMoved(c, seed, n, j);
    MoveAppended(c, seed, n, j, [], AgentMove(Link.Send));
    assert [] + one == one;
    MoveAppended(c, seed, n, j, one, PortalMove(e, true));
    assert one + [PortalMove(e, true)] == two;
    MoveAppended(c, seed, n, j, two, AgentMove(Link.GiveUp));
    assert two + [AgentMove(Link.GiveUp)] == [AgentMove(Link.Send), PortalMove(e, true), AgentMove(Link.GiveUp)];
  }

  lemma NothingMoved(c: Config, seed: map<string, Node>, n: string, j: Joint)
    ensures JointLawful(c, seed, n, j, []) && JointAfter(c, seed, n, j, []) == j && NoEnrollment(c, seed, n, j, [])
  {
  }

  lemma NextIsSent(c: Config, seed: map<string, Node>, n: string, j: Joint, e: Event)
    requires Link.Coupled(j.link) && j.link.waiting.None?
    requires Possible(c, j.sys, e) && AcceptsBeat(c, j.sys.mem, n, e)
    requires MessageOf(e.q.beat) == Link.Message(j.link.configured, j.link.last + 1)
    ensures var j1 := JointNext(c, seed, n, j, AgentMove(Link.Send));
      && JointPossible(c, n, j, AgentMove(Link.Send)) && JointPossible(c, n, j1, PortalMove(e, true))
      && j1.sys == j.sys && Link.NotAhead(j1.link) && j1.link.last == j.link.last
  {
    hide Possible, AcceptsBeat, MarkOf, Back;
  }

  lemma BeatReply(c: Config, seed: map<string, Node>, sys: Sys, n: string, e: Event)
    requires AcceptsBeat(c, sys.mem, n, e) && e.env.saves
    ensures Handle(c, seed, sys, e.q, e.env).1.Done? && RequestError(c, sys.mem, e.q, e.env.now).None? && !e.q.Restart? && !e.q.Scan?
  {
    hide Settled, Persist, SummaryAlerts, HeartbeatError;
  }

  lemma NextIsCounted(c: Config, seed: map<string, Node>, n: string, j: Joint, e: Event)
    requires SeedOk(seed) && InStep(c, seed, n, j) && Link.NotAhead(j.link)
    requires JointPossible(c, n, j, PortalMove(e, true)) && AcceptsBeat(c, j.sys.mem, n, e) && e.env.saves
    requires e.q.beat.sequence == j.link.last + 1
    ensures var j2 := JointNext(c, seed, n, j, PortalMove(e, true));
      JointPossible(c, n, j2, AgentMove(Link.GiveUp)) && Link.Stuck(JointNext(c, seed, n, j2, AgentMove(Link.GiveUp)).link)
  {
    hide SysOk, Possible, AcceptsBeat, AcceptsEnrollment, SeedOk, Handle, RequestError, Noted, Back, MarkOf, Step;
    BeatReply(c, seed, j.sys, n, e);
    MarksHandled(c, seed, j.sys, n, e);
    BeatMark(c, j.sys.mem, n, e);
    StepKeepsStores(c, seed, j.sys, e);
  }

  // ---- Runs of the portal alone ----

  /** The portal's part of a joint run. */
  function PortalEvents(moves: seq<Move>): seq<Event> {
    if moves == [] then []
    else PortalEvents(moves[..|moves| - 1]) + if moves[|moves| - 1].PortalMove? then [moves[|moves| - 1].e] else []
  }

  /** A joint run from the first start is a lawful run of the portal, so everything that holds of those
      holds of it. */
  lemma {:induction false} JointRunIsPortalRun(c: Config, seed: map<string, Node>, n: string, l: Link.Link, moves: seq<Move>)
    requires JointLawful(c, seed, n, Joint(Start(seed), l), moves)
    ensures Lawful(c, seed, PortalEvents(moves))
    ensures JointAfter(c, seed, n, Joint(Start(seed), l), moves).sys == After(c, seed, PortalEvents(moves))
  {
    hide Step, Possible, Start, MarkOf, Back, Handle, Link.Next, Link.Enabled;
    if moves != [] {
      var front, x := moves[..|moves| - 1], moves[|moves| - 1];
      JointRunIsPortalRun(c, seed, n, l, front);
      if x.PortalMove? {
        assert (PortalEvents(front) + [x.e])[..|PortalEvents(front)|] == PortalEvents(front);
      } else {
        assert PortalEvents(front) + [] == PortalEvents(front);
      }
    }
  }

  /** In every run of the portal from its first start, with an agent that starts fresh: the store is at
      most one ahead of the agent. */
  lemma StoreNeverFarAhead(c: Config, seed: map<string, Node>, n: string, configured: int, moves: seq<Move>)
    requires SeedOk(seed) && JointLawful(c, seed, n, Joint(Start(seed), FreshAgent(configured)), moves)
    ensures var t := JointAfter(c, seed, n, Joint(Start(seed), FreshAgent(configured)), moves);
      && t.sys == After(c, seed, PortalEvents(moves))
      && MarkOf(t.sys.mem, n).last <= t.link.last + 1
  {
    hide JointAfter, JointLawful, SysOk, SeedOk, After, Lawful, PortalEvents, Link.NotAhead;
    StartOk(c, seed);
    StartMarks(seed, n);
    FreshNotAhead(configured);
    JointRunIsPortalRun(c, seed, n, FreshAgent(configured), moves);
    StoreAtMostOneAhead(c, seed, n, Joint(Start(seed), FreshAgent(configured)), moves);
  }

  function FreshAgent(configured: int): Link.Link {
    Link.Link(0, configured, None, None, {}, Link.Mark(0, 0), Link.Mark(0, 0))
  }

  lemma FreshNotAhead(configured: int)
    ensures Link.NotAhead(FreshAgent(configured))
  {
  }

  lemma StartMarks(seed: map<string, Node>, n: string)
    requires SeedOk(seed)
    ensures forall configured :: MarksAgree(seed, Start(seed), n, FreshAgent(configured))
  {
  }
}
