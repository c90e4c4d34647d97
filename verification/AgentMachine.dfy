/** The agent's saved state: its sequence number and its warning flags, and the runs they go through. */
module AgentMachine {

  /** The state file. */
  datatype AgentState = AgentState(
    sequence: int, policyVersion: string, fingerprint: string, failures: nat, active: set<string>, pending: set<string>)

  const FRESH_FILE := AgentState(0, "", "", 0, {}, {})

  const PORTAL_UNREACHABLE := "portal_unreachable"
  const FAILURE_THRESHOLD := 3
  const MAX_ATTEMPTS := 3

  /** How the outside world answers one operation: whether the file can be read, whether the portal
      acknowledges the request, and whether the file can be written. */
  datatype Answers = Answers(loads: bool, posts: bool, saves: bool)

  // ---- Operations on the state file ----

  function Beaten(st: AgentState, fingerprint: string): AgentState {
    st.(sequence := st.sequence + 1, fingerprint := fingerprint)
  }

  /** A request leaves the agent if its own checks pass. */
  predicate Sends(st: AgentState, fingerprint: string, a: Answers) {
    a.loads && (st.fingerprint == "" || st.fingerprint == fingerprint)
  }

  predicate BeatSucceeds(st: AgentState, fingerprint: string, a: Answers) {
    Sends(st, fingerprint, a) && a.posts && a.saves
  }

  function AfterBeat(st: AgentState, fingerprint: string, a: Answers): AgentState {
    if BeatSucceeds(st, fingerprint, a) then Beaten(st, fingerprint) else st
  }

  function Failed(st: AgentState): AgentState {
    var failures := st.failures + 1;
    st.(failures := failures,
      pending := if failures >= FAILURE_THRESHOLD && PORTAL_UNREACHABLE !in st.active then st.pending + {PORTAL_UNREACHABLE} else st.pending)
  }

  function AfterFailure(st: AgentState, a: Answers): AgentState {
    if a.loads && a.saves then Failed(st) else st
  }

  predicate Reports(st: AgentState) {
    PORTAL_UNREACHABLE in st.pending && PORTAL_UNREACHABLE !in st.active
  }

  function Recovered(st: AgentState): AgentState {
    if Reports(st)
    then st.(failures := 0, active := st.active + {PORTAL_UNREACHABLE}, pending := st.pending - {PORTAL_UNREACHABLE})
    else st.(failures := 0)
  }

  predicate RecoverySucceeds(st: AgentState, a: Answers) {
    a.loads && (Reports(st) ==> a.posts) && a.saves
  }

  function AfterRecovery(st: AgentState, a: Answers): AgentState {
    if RecoverySucceeds(st, a) then Recovered(st) else st
  }

  predicate Marks(st: AgentState, flag: string, a: Answers) {
    a.loads && flag !in st.active && flag !in st.pending
  }

  function AfterMark(st: AgentState, flag: string, a: Answers): AgentState {
    if !Marks(st, flag, a) || !a.saves then st
    else if a.posts then st.(active := st.active + {flag})
    else st.(pending := st.pending + {flag})
  }

  // ---- Runs ----

  datatype Move =
    | Start(fingerprint: string, policyVersion: string, answers: Answers)
    | Beat(fingerprint: string, answers: Answers)
    | Failure(answers: Answers)
    | Recovery(answers: Answers)
    | Mark(flag: string, answers: Answers)

  /** The agent and the flags whose automatic telemetry the portal acknowledged. */
  datatype World = World(file: AgentState, told: seq<string>)

  function Moved(w: World, m: Move): World {
    match m
    case Start(fingerprint, policyVersion, a) =>
      if a.loads && a.saves then w.(file := w.file.(fingerprint := fingerprint, policyVersion := policyVersion)) else w
    case Beat(fingerprint, a) => w.(file := AfterBeat(w.file, fingerprint, a))
    case Failure(a) => w.(file := AfterFailure(w.file, a))
    case Recovery(a) =>
      World(AfterRecovery(w.file, a), if a.loads && Reports(w.file) && a.posts then w.told + [PORTAL_UNREACHABLE] else w.told)
    case Mark(flag, a) =>
      World(AfterMark(w.file, flag, a), if Marks(w.file, flag, a) && a.posts then w.told + [flag] else w.told)
  }

  /** The flags that the agent marks; the portal being unreachable has its own operations. */
  predicate Markable(m: Move) {
    m.Mark? ==> m.flag != PORTAL_UNREACHABLE
  }

  function Run(w: World, moves: seq<Move>): World {
    if moves == [] then w else Moved(Run(w, moves[..|moves| - 1]), moves[|moves| - 1])
  }

  ghost predicate AllMarkable(moves: seq<Move>) {
    forall i :: 0 <= i < |moves| ==> Markable(moves[i])
  }

  // ---- What every saved state satisfies ----

  /** The unreachable flag waits exactly while the failures have reached the threshold and it has not
      been reported; and no flag both waits and is active. */
  predicate WarningsOk(st: AgentState) {
    && (PORTAL_UNREACHABLE in st.pending <==> st.failures >= FAILURE_THRESHOLD && PORTAL_UNREACHABLE !in st.active)
    && st.pending !! st.active
  }

  lemma {:induction false} WarningsAlwaysOk(w: World, moves: seq<Move>)
    requires WarningsOk(w.file) && AllMarkable(moves)
    ensures WarningsOk(Run(w, moves).file)
  {
    if moves != [] {
      WarningsAlwaysOk(w, moves[..|moves| - 1]);
      assert Markable(moves[|moves| - 1]);
    }
  }

  lemma {:induction false} ActiveNeverClears(w: World, moves: seq<Move>)
    ensures w.file.active <= Run(w, moves).file.active
  {
    if moves != [] {
      ActiveNeverClears(w, moves[..|moves| - 1]);
    }
  }

  /** A flag other than the unreachable one that once waits keeps waiting and is never reported: the
      agent does not retry it. */
  lemma {:induction false} WaitingFlagNeverReported(w: World, moves: seq<Move>, flag: string)
    requires flag != PORTAL_UNREACHABLE && flag in w.file.pending && flag !in w.told
    ensures flag in Run(w, moves).file.pending && flag !in Run(w, moves).told
  {
    if moves != [] {
      WaitingFlagNeverReported(w, moves[..|moves| - 1], flag);
    }
  }

  /** What becomes of a flag that is newly marked: told and acknowledged, it is active; otherwise it waits. */
  lemma MarkedFlag(w: World, flag: string, a: Answers)
    requires Marks(w.file, flag, a) && a.saves
    ensures var t := Moved(w, Mark(flag, a));
      && (flag in t.file.active <==> a.posts) && (flag in t.file.pending <==> !a.posts)
      && t.told == if a.posts then w.told + [flag] else w.told
  {
  }

  ghost predicate AllTold(w: World) {
    forall flag :: flag in w.file.active ==> flag in w.told
  }

  lemma ToldBeforeActive(w: World, m: Move)
    requires AllTold(w)
    ensures AllTold(Moved(w, m))
  {
    var t := Moved(w, m);
    forall flag | flag in w.told
      ensures flag in t.told
    {
      var i :| 0 <= i < |w.told| && w.told[i] == flag;
      assert t.told[i] == flag;
    }
    if |t.told| > |w.told| {
      assert t.told[|w.told|] in t.told;
    }
  }

  /** A flag is active only if the portal acknowledged it. */
  lemma {:induction false} ActiveWasTold(moves: seq<Move>)
    ensures AllTold(Run(World(FRESH_FILE, []), moves))
  {
    if moves != [] {
      ActiveWasTold(moves[..|moves| - 1]);
      ToldBeforeActive(Run(World(FRESH_FILE, []), moves[..|moves| - 1]), moves[|moves| - 1]);
    }
  }

  // ---- Each flag is reported at most once ----

  function AnswersOf(m: Move): Answers {
    match m
    case Start(_, _, a) => a
    case Beat(_, a) => a
    case Failure(a) => a
    case Recovery(a) => a
    case Mark(_, a) => a
  }

  ghost predicate NoFailedSave(moves: seq<Move>) {
    forall i :: 0 <= i < |moves| ==> AnswersOf(moves[i]).saves
  }

  ghost predicate ToldOnce(w: World) {
    && (forall i :: 0 <= i < |w.told| ==> w.told[i] in w.file.active)
    && (forall i, j :: 0 <= i < j < |w.told| ==> w.told[i] != w.told[j])
  }

  lemma ToldStep(w: World, m: Move)
    requires ToldOnce(w) && AnswersOf(m).saves
    ensures ToldOnce(Moved(w, m))
  {
  }

  /** As long as every save succeeds, no flag is reported twice, and every reported flag is active. */
  lemma {:induction false} ReportedAtMostOnce(moves: seq<Move>)
    requires NoFailedSave(moves)
    ensures ToldOnce(Run(World(FRESH_FILE, []), moves))
  {
    if moves != [] {
      var m := moves[|moves| - 1];
      ReportedAtMostOnce(moves[..|moves| - 1]);
      assert AnswersOf(m).saves;
      ToldStep(Run(World(FRESH_FILE, []), moves[..|moves| - 1]), m);
    }
  }

  /** A reported flag is reported again on the next occasion exactly when the save after the first
      report failed. */
  lemma ReportedAgainIff(w: World, flag: string, a: Answers, again: Answers)
    requires Marks(w.file, flag, a) && a.posts && again.loads && again.posts
    ensures var once := Moved(w, Mark(flag, a));
      Moved(once, Mark(flag, again)).told == once.told + [flag] <==> !a.saves
  {
  }

  /** The same for the unreachable flag and the recovery that reports it. */
  lemma RecoveryReportsAgainIff(w: World, a: Answers, again: Answers)
    requires a.loads && Reports(w.file) && a.posts && again.loads && again.posts
    ensures var once := Moved(w, Recovery(a));
      Moved(once, Recovery(again)).told == once.told + [PORTAL_UNREACHABLE] <==> !a.saves
  {
  }

  function Failures(n: nat): seq<Move> {
    if n == 0 then [] else Failures(n - 1) + [Failure(Answers(true, false, true))]
  }

  lemma FailureCounts(w: World, n: nat)
    requires n > 0 && w.file.failures == n - 1 && w.file.active == {} && w.told == []
    requires w.file.pending == if n - 1 >= 3 then {"portal_unreachable"} else {}
    ensures var t := Moved(w, Failure(Answers(true, false, true)));
      && t.file.failures == n && t.file.active == {} && t.told == []
      && t.file.pending == (if n >= 3 then {"portal_unreachable"} else {})
      && var back := Moved(t, Recovery(Answers(true, true, true)));
         && back.told == (if n >= 3 then ["portal_unreachable"] else [])
         && back.file.failures == 0 && back.file.pending == {}
  {
  }

  /** From a fresh file the portal's being unreachable waits to be reported after the third recorded failure
      in a row and not before; a recovery that is acknowledged and saved reports it and starts the count
      again. */
  lemma {:induction false} ThirdFailureWaits(n: nat)
    ensures var w := Run(World(FRESH_FILE, []), Failures(n));
      && w.file.failures == n && w.file.active == {} && w.told == []
      && w.file.pending == (if n >= 3 then {"portal_unreachable"} else {})
      && var back := Moved(w, Recovery(Answers(true, true, true)));
         && back.told == (if n >= 3 then ["portal_unreachable"] else [])
         && back.file.failures == 0 && back.file.pending == {}
  {
    if n > 0 {
      hide Moved;
      ThirdFailureWaits(n - 1);
      var before, moves := Run(World(FRESH_FILE, []), Failures(n - 1)), Failures(n);
      assert moves[..|moves| - 1] == Failures(n - 1) && moves[|moves| - 1] == Failure(Answers(true, false, true));
      FailureCounts(before, n);
    }
  }

  // ---- The two clients' loops ----

  /** One attempt of a round, and whether the agent is stopped while it waits for the next one. */
  datatype Attempt = Attempt(answers: Answers, stopped: bool)

  /** The attempts from number `n` on, up to three; the flag tells whether one succeeded. */
  function Attempts(st: AgentState, attempts: seq<Attempt>, fingerprint: string, n: nat): (AgentState, bool)
    requires |attempts| == MAX_ATTEMPTS && n < MAX_ATTEMPTS
    decreases MAX_ATTEMPTS - n
  {
    if BeatSucceeds(st, fingerprint, attempts[n].answers) then (Beaten(st, fingerprint), true)
    else if n == MAX_ATTEMPTS - 1 || attempts[n].stopped then (st, false)
    else Attempts(st, attempts, fingerprint, n + 1)
  }

  /** There are three attempts: the round succeeds exactly if one of them does and the agent was not stopped
      before it. */
  lemma RoundSucceedsIff(st: AgentState, attempts: seq<Attempt>, fingerprint: string)
    requires |attempts| == 3
    ensures Attempts(st, attempts, fingerprint, 0).1 <==>
      exists k :: 0 <= k < 3 && BeatSucceeds(st, fingerprint, attempts[k].answers) && forall j :: 0 <= j < k ==> !attempts[j].stopped
    ensures Attempts(st, attempts, fingerprint, 0).0 == if Attempts(st, attempts, fingerprint, 0).1 then Beaten(st, fingerprint) else st
  {
    hide BeatSucceeds;
    if Attempts(st, attempts, fingerprint, 0).1 {
      var k := if BeatSucceeds(st, fingerprint, attempts[0].answers) then 0 else if BeatSucceeds(st, fingerprint, attempts[1].answers) then 1 else 2;
      assert BeatSucceeds(st, fingerprint, attempts[k].answers);
    }
  }

  /** One round of the Go client: a failed recovery is only logged. */
  function GoRound(w: World, beat: seq<Attempt>, fingerprint: string, after: Answers): World
    requires |beat| == MAX_ATTEMPTS
  {
    var (file, ok) := Attempts(w.file, beat, fingerprint, 0);
    Moved(w.(file := file), if ok then Recovery(after) else Failure(after))
  }

  /** One round of the Python client: a failed recovery counts as a portal failure. */
  function PythonRound(w: World, beat: seq<Attempt>, fingerprint: string, after: Answers, recording: Answers): World
    requires |beat| == MAX_ATTEMPTS
  {
    var (file, ok) := Attempts(w.file, beat, fingerprint, 0);
    var sent := w.(file := file);
    if !ok then Moved(sent, Failure(after))
    else
      var recovered := Moved(sent, Recovery(after));
      if RecoverySucceeds(file, after) then recovered else Moved(recovered, Failure(recording))
  }

  /** The two clients differ on a round exactly when the heartbeat got through, the recovery after it
      did not, and the failure can be recorded: then only the Python client counts a failure. */
  lemma RoundsDifferIff(w: World, beat: seq<Attempt>, fingerprint: string, after: Answers, recording: Answers)
    requires |beat| == MAX_ATTEMPTS
    ensures var (file, ok) := Attempts(w.file, beat, fingerprint, 0);
      GoRound(w, beat, fingerprint, after) != PythonRound(w, beat, fingerprint, after, recording)
      <==> ok && !RecoverySucceeds(file, after) && recording.loads && recording.saves
  {
  }
}
