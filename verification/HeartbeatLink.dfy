/** The agent and the portal over a channel that delays, repeats and loses requests and replies. */
module HeartbeatLink {
  import opened Records
  import opened Portal
  import opened PortalState
  import AgentMachine

  datatype Message = Message(generation: int, sequence: int)

  /** What the portal remembers of a node. */
  datatype Mark = Mark(generation: int, last: int)

  /** `last` is the number in the agent's file and `configured` the generation in its configuration;
      `waiting` is the request it awaits a reply to and `reply` what is on its way back; `sent` is
      everything the channel may still deliver. */
  datatype Link = Link(
    last: int,
    configured: int,
    waiting: Option<Message>,
    reply: Option<bool>,
    sent: set<Message>,
    mem: Mark,
    disk: Mark)

  datatype Step =
    | Send
    | Deliver(m: Message, saved: bool, acknowledged: bool, heard: bool)  // heard: the agent awaits this very request
    | Receive(saves: bool)
    | GiveUp
    | Reconfigure(generation: int)
    | NewGeneration(saved: bool)
    | Save
    | PortalRestart

  predicate Accepts(p: Mark, m: Message) {
    m.generation == p.generation && m.sequence > p.last
  }

  predicate Enabled(l: Link, s: Step) {
    match s
    case Send => l.waiting.None?
    case Deliver(m, saved, acknowledged, heard) =>
      m in l.sent && (acknowledged ==> saved) && (heard ==> l.waiting == Some(m) && l.reply.None?)
    case Receive(_) => l.reply.Some?
    case _ => true
  }

  function Next(l: Link, s: Step): Link {
    match s
    case Send =>
      var m := Message(l.configured, l.last + 1);
      l.(waiting := Some(m), reply := None, sent := l.sent + {m})
    case Deliver(m, saved, acknowledged, heard) =>
      if Accepts(l.mem, m) then
        var mark := Mark(l.mem.generation, m.sequence);
        l.(mem := mark, disk := if saved then mark else l.disk, reply := if heard then Some(acknowledged) else l.reply)
      else l.(reply := if heard then Some(false) else l.reply)
    case Receive(saves) =>
      l.(last := if l.reply == Some(true) && saves then l.last + 1 else l.last, waiting := None, reply := None)
    case GiveUp => l.(waiting := None, reply := None)
    case Reconfigure(generation) => l.(configured := generation, waiting := None, reply := None)
    case NewGeneration(saved) =>
      var mark := Mark(l.mem.generation + 1, 0);
      l.(mem := mark, disk := if saved then mark else l.disk)
    case Save => l.(disk := l.mem)
    case PortalRestart => l.(mem := l.disk)
  }

  function Execute(l: Link, steps: seq<Step>): Link {
    if steps == [] then l else Next(Execute(l, steps[..|steps| - 1]), steps[|steps| - 1])
  }

  predicate Legal(l: Link, steps: seq<Step>) {
    steps != [] ==>
      Legal(l, steps[..|steps| - 1]) && Enabled(Execute(l, steps[..|steps| - 1]), steps[|steps| - 1])
  }

  predicate WithoutEnrollment(steps: seq<Step>) {
    forall i :: 0 <= i < |steps| ==> !steps[i].NewGeneration?
  }

  // ---- The portal's half is the portal's ----

  /** For a heartbeat that is authentic and in time, the portal's checks come down to generation and
      sequence number. */
  lemma PortalAcceptsAsLinked(c: Config, s: State, r: HeartbeatRequest, now: nat)
    requires r.nodeId in s.nodes && s.nodes[r.nodeId].publicKey != "" && r.fingerprint == s.nodes[r.nodeId].fingerprint
    requires TimestampOk(c, r.at, now) && r.signed
    ensures var node := s.nodes[r.nodeId];
      && (HeartbeatError(c, s, r, now).None? <==> Accepts(Mark(node.generation, node.lastSequence), Message(r.generation, r.sequence)))
      && (HeartbeatError(c, s, r, now).None? ==>
           var after := WithHeartbeat(c, s, r).nodes[r.nodeId];
           Mark(after.generation, after.lastSequence) == Mark(node.generation, r.sequence))
  {
  }

  lemma PortalEnrollsAsLinked(c: Config, s: State, r: EnrollRequest, now: nat)
    requires EnrollError(s, r, now).None?
    ensures var after := WithEnrollment(c, s, r, now).nodes[r.nodeId];
      Mark(after.generation, after.lastSequence) == Mark(s.nodes[r.nodeId].generation + 1, 0)
  {
  }

  /** The agent's half is the agent's: the number it sends is one more than the saved one, and its file
      follows what it receives, or that it gives up. */
  lemma AgentBeatsAsLinked(l: Link, st: AgentMachine.AgentState, fingerprint: string, a: AgentMachine.Answers, t: Link)
    requires AgentMachine.Sends(st, fingerprint, a) && l.waiting.None? && l.last == st.sequence
    requires t.last == l.last && t.waiting == Next(l, Send).waiting
    requires a.posts ==> t.reply == Some(true)
    ensures t.waiting == Some(Message(l.configured, st.sequence + 1))
    ensures AgentMachine.AfterBeat(st, fingerprint, a).sequence
         == Next(t, if a.posts then Receive(a.saves) else GiveUp).last
  {
  }

  // ---- The upper bound, always ----

  /** Nothing in the channel or the portal is more than one ahead of the agent. */
  predicate NotAhead(l: Link) {
    && (forall m :: m in l.sent ==> m.sequence <= l.last + 1)
    && l.mem.last <= l.last + 1 && l.disk.last <= l.last + 1
    && (l.waiting.Some? ==> l.waiting.value.sequence == l.last + 1 && l.waiting.value in l.sent)
    && (l.reply.Some? ==> l.waiting.Some?)
    && l.last >= 0
  }

  /** Whatever is delayed, repeated, lost, re-enrolled or restarted, the portal is at most one ahead. */
  lemma {:induction false} PortalAtMostOneAhead(l: Link, steps: seq<Step>)
    requires NotAhead(l) && Legal(l, steps)
    ensures NotAhead(Execute(l, steps))
  {
    if steps != [] {
      PortalAtMostOneAhead(l, steps[..|steps| - 1]);
      NotAheadStep(Execute(l, steps[..|steps| - 1]), steps[|steps| - 1]);
    }
  }

  lemma NotAheadStep(l: Link, s: Step)
    requires NotAhead(l) && Enabled(l, s)
    ensures NotAhead(Next(l, s))
  {
  }

  // ---- The lower bound, within a generation ----

  /** Agent and portal in step: at most the last heartbeat is known to the portal only. */
  predicate Coupled(l: Link) {
    && NotAhead(l)
    && l.disk.generation == l.mem.generation
    && l.last <= l.disk.last <= l.mem.last <= l.last + 1
    && (l.reply == Some(true) ==> l.disk.last == l.last + 1)
  }

  /** The link right after a first enrollment. */
  function FreshLink(generation: int): Link {
    Link(0, generation, None, None, {}, Mark(generation, 0), Mark(generation, 0))
  }

  lemma CoupledStep(l: Link, s: Step)
    requires Coupled(l) && Enabled(l, s) && !s.NewGeneration?
    ensures Coupled(Next(l, s))
  {
  }

  /** Until the next enrollment, in every interleaving: agent <= portal <= agent + 1. */
  lemma {:induction false} CoupledWithinGeneration(l: Link, steps: seq<Step>)
    requires Coupled(l) && Legal(l, steps) && WithoutEnrollment(steps)
    ensures Coupled(Execute(l, steps))
  {
    if steps != [] {
      CoupledWithinGeneration(l, steps[..|steps| - 1]);
      CoupledStep(Execute(l, steps[..|steps| - 1]), steps[|steps| - 1]);
    }
  }

  lemma FreshIsCoupled(generation: int)
    ensures Coupled(FreshLink(generation))
  {
  }

  /** An enrollment keeps the lower bound exactly when it is saved, the agent never advanced and no
      acknowledgement is on its way. */
  lemma EnrollmentKeepsCouplingIff(l: Link, saved: bool)
    requires Coupled(l)
    ensures Coupled(Next(l, NewGeneration(saved))) <==> saved && l.last == 0 && l.reply != Some(true)
  {
  }

  /** The first current heartbeat that the new generation accepts and saves restores it. */
  lemma AcceptedHeartbeatRecouples(l: Link, acknowledged: bool, heard: bool)
    requires NotAhead(l) && l.waiting.Some? && l.reply.None? && Accepts(l.mem, l.waiting.value)
    ensures Coupled(Next(l, Deliver(l.waiting.value, true, acknowledged, heard)))
  {
  }

  // ---- When a new heartbeat is accepted ----

  /** The request that the agent is waiting on, sent under the portal's generation, is accepted exactly
      when the portal is not ahead. */
  lemma NewHeartbeatAcceptedIff(l: Link)
    requires NotAhead(l) && l.waiting.Some? && l.waiting.value.generation == l.mem.generation
    ensures Accepts(l.mem, l.waiting.value) <==> l.mem.last <= l.last
  {
  }

  // ---- The lost acknowledgement ----

  /** The portal has counted and saved a heartbeat that the agent does not know to be counted. */
  predicate Stuck(l: Link) {
    && NotAhead(l)
    && l.mem == l.disk && l.mem.last == l.last + 1
    && l.reply != Some(true)
  }

  /** One lost reply leads there from any state in step. */
  lemma LostReplyGetsStuck(l: Link)
    requires Coupled(l) && l.waiting.None? && l.mem.last == l.last && l.configured == l.mem.generation
    ensures var m := Message(l.configured, l.last + 1);
      var steps := [Send, Deliver(m, true, true, true), GiveUp];
      Legal(l, steps) && Stuck(Execute(l, steps))
  {
    var m := Message(l.configured, l.last + 1);
    var s1, s2 := [Send], [Send, Deliver(m, true, true, true)];
    var s3 := s2 + [GiveUp];
    assert s1[..0] == [] && s2[..1] == s1 && s3[..2] == s2;
    assert Execute(l, s1) == Next(l, Send);
    assert Legal(l, []) && Legal(l, s1);
    assert Execute(l, s2) == Next(Next(l, Send), s2[1]);
    assert Legal(l, s2);
    assert s3 == [Send, Deliver(m, true, true, true), GiveUp];
  }

  /** From there on, until the next enrollment, whatever the agent sends, the channel does or the portal
      restarts: the agent never advances and nothing is accepted any more. */
  lemma {:induction false} StuckUntilEnrollment(l: Link, steps: seq<Step>)
    requires Stuck(l) && Legal(l, steps) && WithoutEnrollment(steps)
    ensures var t := Execute(l, steps);
      Stuck(t) && t.last == l.last && t.mem == l.mem && forall m :: m in t.sent ==> !Accepts(t.mem, m)
  {
    if steps != [] {
      StuckUntilEnrollment(l, steps[..|steps| - 1]);
    }
  }

  /** An enrollment ends it: the next heartbeat under the new generation is accepted. */
  lemma EnrollmentUnsticks(l: Link, saved: bool)
    requires Stuck(l)
    ensures var t := Next(Next(Next(l, NewGeneration(saved)), Reconfigure(l.mem.generation + 1)), Send);
      t.waiting.Some? && Accepts(t.mem, t.waiting.value)
  {
  }

  /** In step and without an acknowledgement on its way, the link is live, stuck, or waiting for a save
      that a restart would lose. */
  lemma LiveStuckOrUnsaved(l: Link)
    requires Coupled(l) && l.reply != Some(true)
    ensures l.mem.last == l.last || Stuck(l) || (l.mem.last == l.last + 1 && Next(l, PortalRestart).mem.last == l.last)
  {
  }
}
