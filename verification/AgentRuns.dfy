/** The agent as it runs, attempt by attempt, together with the portal as it runs: what holds of the number
    in the agent's file and of the portal's store. */
module AgentRuns {
  import opened Records
  import opened PortalState
  import opened Portal
  import opened PortalRuns
  import opened Accounts
  import opened JointRuns
  import Machine = AgentMachine

  // ---- Rounds are runs of operations ----

  lemma {:induction false} RunAppended(w: Machine.World, first: seq<Machine.Move>, second: seq<Machine.Move>)
    ensures Machine.Run(w, first + second) == Machine.Run(Machine.Run(w, first), second)
  {
    hide Machine.Moved;
    if second == [] {
      assert first + [] == first;
    } else {
      var n := |second| - 1;
      RunAppended(w, first, second[..n]);
      assert (first + second)[..|first + second| - 1] == first + second[..n];
    }
  }

  /** The attempts of a round from number `n` on are heartbeat operations. */
  lemma {:induction false} AttemptsAreMoves(w: Machine.World, attempts: seq<Machine.Attempt>, fingerprint: string, n: nat) returns (moves: seq<Machine.Move>)
    requires |attempts| == Machine.MAX_ATTEMPTS && n < Machine.MAX_ATTEMPTS
    ensures Machine.Run(w, moves) == w.(file := Machine.Attempts(w.file, attempts, fingerprint, n).0)
    ensures |moves| <= Machine.MAX_ATTEMPTS - n && forall i :: 0 <= i < |moves| ==> moves[i].Beat?
    decreases Machine.MAX_ATTEMPTS - n
  {
    var first := [Machine.Beat(fingerprint, attempts[n].answers)];
    assert first[..0] == [];
    assert Machine.Run(w, first) == Machine.Moved(w, first[0]);
    if Machine.BeatSucceeds(w.file, fingerprint, attempts[n].answers) || n == Machine.MAX_ATTEMPTS - 1 || attempts[n].stopped {
      moves := first;
    } else {
      var rest := AttemptsAreMoves(w, attempts, fingerprint, n + 1);
      RunAppended(w, first, rest);
      moves := first + rest;
    }
  }

  /** A round of the Go client is a run of at most three heartbeat operations and then a recovery or a
      recorded failure. */
  lemma RoundIsRun(w: Machine.World, beat: seq<Machine.Attempt>, fingerprint: string, after: Machine.Answers) returns (moves: seq<Machine.Move>)
    requires |beat| == Machine.MAX_ATTEMPTS
    ensures Machine.Run(w, moves) == Machine.GoRound(w, beat, fingerprint, after)
    ensures 1 <= |moves| <= Machine.MAX_ATTEMPTS + 1 && !moves[|moves| - 1].Beat? && forall i :: 0 <= i < |moves| - 1 ==> moves[i].Beat?
  {
    hide Machine.Moved;
    var (file, ok) := Machine.Attempts(w.file, beat, fingerprint, 0);
    var front := AttemptsAreMoves(w, beat, fingerprint, 0);
    var last := if ok then Machine.Recovery(after) else Machine.Failure(after);
    moves := front + [last];
    assert moves[..|front|] == front;
  }

  // ---- Agent and portal side by side ----

  /** A heartbeat attempt begins when its request leaves and ends when it is acknowledged or not; other
      operations, and attempts that send nothing, come in between attempts.  The portal handles its
      events at any time. */
  datatype Op =
    | Begin(fingerprint: string)
    | End(posts: bool, saves: bool)
    | Other(move: Machine.Move)
    | Configured(generation: int)
    | Handled(e: Event, heard: bool)

  /** `sending` holds the fingerprint of the attempt under way. */
  datatype Rig = Rig(agent: Machine.World, sending: Option<string>, joint: Joint)

  predicate SendsBeat(st: Machine.AgentState, m: Machine.Move) {
    m.Beat? && Machine.Sends(st, m.fingerprint, m.answers)
  }

  /** An attempt can only end as acknowledged if the portal's acknowledgement is on its way. */
  ghost predicate OpPossible(c: Config, n: string, r: Rig, op: Op) {
    match op
    case Begin(fingerprint) => r.sending.None? && Machine.Sends(r.agent.file, fingerprint, Machine.Answers(true, false, false))
    case End(posts, _) => r.sending.Some? && (posts ==> r.joint.link.reply == Some(true))
    case Other(move) => r.sending.None? && !SendsBeat(r.agent.file, move)
    case Configured(_) => true
    case Handled(e, heard) => JointPossible(c, n, r.joint, PortalMove(e, heard))
  }

  /** The whole operation of the agent that the step completes. */
  function Completed(r: Rig, op: Op): Option<Machine.Move> {
    match op
    case End(posts, saves) => if r.sending.Some? then Some(Machine.Beat(r.sending.value, Machine.Answers(true, posts, saves))) else None
    case Other(move) => Some(move)
    case _ => None
  }

  /** What the step is to the portal and the channel. */
  function MoveOf(op: Op): Option<Move> {
    match op
    case Begin(_) => Some(AgentMove(Link.Send))
    case End(posts, saves) => Some(AgentMove(if posts then Link.Receive(saves) else Link.GiveUp))
    case Other(_) => None
    case Configured(generation) => Some(AgentMove(Link.Reconfigure(generation)))
    case Handled(e, heard) => Some(PortalMove(e, heard))
  }

  ghost function RigNext(c: Config, seed: map<string, Node>, n: string, r: Rig, op: Op): Rig {
    Rig(
      if Completed(r, op).Some? then Machine.Moved(r.agent, Completed(r, op).value) else r.agent,
      match op { case Begin(fingerprint) => Some(fingerprint) case End(_, _) => None case Configured(_) => None case _ => r.sending },
      if MoveOf(op).Some? then JointNext(c, seed, n, r.joint, MoveOf(op).value) else r.joint)
  }

  ghost function RigAfter(c: Config, seed: map<string, Node>, n: string, r: Rig, ops: seq<Op>): Rig {
    if ops == [] then r else RigNext(c, seed, n, RigAfter(c, seed, n, r, ops[..|ops| - 1]), ops[|ops| - 1])
  }

  ghost predicate RigLawful(c: Config, seed: map<string, Node>, n: string, r: Rig, ops: seq<Op>) {
    ops != [] ==>
      && RigLawful(c, seed, n, r, ops[..|ops| - 1])
      && OpPossible(c, n, RigAfter(c, seed, n, r, ops[..|ops| - 1]), ops[|ops| - 1])
  }

  /** No step is an accepted enrollment of the node. */
  ghost predicate NoneEnrolls(c: Config, seed: map<string, Node>, n: string, r: Rig, ops: seq<Op>) {
    ops != [] ==>
      && NoneEnrolls(c, seed, n, r, ops[..|ops| - 1])
      && (ops[|ops| - 1].Handled? ==>
           !AcceptsEnrollment(c, RigAfter(c, seed, n, r, ops[..|ops| - 1]).joint.sys.mem, n, ops[|ops| - 1].e))
  }

  // ---- The agent's file is the link's ----

  /** The file holds the link's number, and an attempt is under way exactly while the link waits. */
  ghost predicate Tied(r: Rig) {
    && r.agent.file.sequence == r.joint.link.last
    && (r.sending.Some? <==> r.joint.link.waiting.Some?)
    && (r.joint.link.reply.Some? ==> r.joint.link.waiting.Some?)
    && (r.sending.Some? ==> Machine.Sends(r.agent.file, r.sending.value, Machine.Answers(true, false, false)))
  }

  lemma TiedStep(c: Config, seed: map<string, Node>, n: string, r: Rig, op: Op)
    requires Tied(r) && OpPossible(c, n, r, op)
    ensures Tied(RigNext(c, seed, n, r, op))
    ensures MoveOf(op).Some? ==> JointPossible(c, n, r.joint, MoveOf(op).value)
  {
    hide Step, Handle, Possible, AcceptsBeat, MarkOf, Back;
  }

  /** Every run of agent and portal is a run of the agent's operations on one side and a joint run of the
      portal and the link's agent on the other, and the file's number is the link's throughout. */
  lemma {:induction false} RigRunProjects(c: Config, seed: map<string, Node>, n: string, r: Rig, ops: seq<Op>)
    returns (moves: seq<Move>, acts: seq<Machine.Move>)
    requires Tied(r) && RigLawful(c, seed, n, r, ops)
    ensures Tied(RigAfter(c, seed, n, r, ops))
    ensures JointLawful(c, seed, n, r.joint, moves) && JointAfter(c, seed, n, r.joint, moves) == RigAfter(c, seed, n, r, ops).joint
    ensures Machine.Run(r.agent, acts) == RigAfter(c, seed, n, r, ops).agent
    ensures NoneEnrolls(c, seed, n, r, ops) ==> NoEnrollment(c, seed, n, r.joint, moves)
  {
    hide Tied, OpPossible, JointPossible, JointNext, AcceptsEnrollment, Machine.Moved;
    moves, acts := [], [];
    if ops != [] {
      var front, op := ops[..|ops| - 1], ops[|ops| - 1];
      moves, acts := RigRunProjects(c, seed, n, r, front);
      var before := RigAfter(c, seed, n, r, front);
      TiedStep(c, seed, n, before, op);
      if MoveOf(op).Some? {
        MoveAppended(c, seed, n, r.joint, moves, MoveOf(op).value);
        moves := moves + [MoveOf(op).value];
      }
      if Completed(before, op).Some? {
        var longer := acts + [Completed(before, op).value];
        assert longer[..|acts|] == acts;
        acts := longer;
      }
    }
  }

  // ---- What follows for the file and the store ----

  /** From file and store in step, and until the node enrolls again: file <= save <= store <= file + 1, in
      every run of the agent's operations and the portal's events. */
  lemma FileCoupled(c: Config, seed: map<string, Node>, n: string, r: Rig, ops: seq<Op>)
    requires SeedOk(seed) && InStep(c, seed, n, r.joint) && Tied(r) && RigLawful(c, seed, n, r, ops)
    requires Link.Coupled(r.joint.link) && NoneEnrolls(c, seed, n, r, ops)
    ensures var t := RigAfter(c, seed, n, r, ops);
      t.agent.file.sequence <= MarkOf(Back(seed, t.joint.sys.disk), n).last <= MarkOf(t.joint.sys.mem, n).last <= t.agent.file.sequence + 1
  {
    hide InStep, RigLawful, NoneEnrolls, RigAfter, MarkOf, Back, JointAfter, JointLawful, NoEnrollment, Link.Coupled, SeedOk;
    var moves, _ := RigRunProjects(c, seed, n, r, ops);
    StoreCoupled(c, seed, n, r.joint, moves);
  }

  /** Once the portal has counted and saved a heartbeat whose acknowledgement the agent missed, the number in
      the agent's file never changes until the node enrolls again. */
  lemma FileStuck(c: Config, seed: map<string, Node>, n: string, r: Rig, ops: seq<Op>)
    requires SeedOk(seed) && InStep(c, seed, n, r.joint) && Tied(r) && RigLawful(c, seed, n, r, ops)
    requires Link.Stuck(r.joint.link) && NoneEnrolls(c, seed, n, r, ops)
    ensures var t := RigAfter(c, seed, n, r, ops);
      && t.agent.file.sequence == r.agent.file.sequence
      && MarkOf(t.joint.sys.mem, n).last == t.agent.file.sequence + 1
  {
    hide RigLawful, NoneEnrolls, RigAfter, MarkOf, Back, JointAfter, JointLawful, NoEnrollment, SeedOk, SysOk;
    var moves, _ := RigRunProjects(c, seed, n, r, ops);
    StuckStore(c, seed, n, r.joint, moves);
  }

  /** From the portal's first start with a fresh file, whatever happens: the store is at most one ahead of
      the file. */
  lemma FileNeverFarBehind(c: Config, seed: map<string, Node>, n: string, configured: int, ops: seq<Op>)
    requires SeedOk(seed) && RigLawful(c, seed, n, FreshRig(seed, configured), ops)
    ensures var t := RigAfter(c, seed, n, FreshRig(seed, configured), ops);
      MarkOf(t.joint.sys.mem, n).last <= t.agent.file.sequence + 1
  {
    hide RigLawful, RigAfter, MarkOf, JointAfter, JointLawful, NoneEnrolls, NoEnrollment, SeedOk, After, PortalEvents;
    var moves, _ := RigRunProjects(c, seed, n, FreshRig(seed, configured), ops);
    StoreNeverFarAhead(c, seed, n, configured, moves);
  }

  ghost function FreshRig(seed: map<string, Node>, configured: int): Rig {
    Rig(Machine.World(Machine.FRESH_FILE, []), None, Joint(Start(seed), FreshAgent(configured)))
  }
}
