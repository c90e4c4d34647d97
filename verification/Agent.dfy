/** The agent's operations as it runs them, over its state file. */
module AgentRuntime {
  import opened AgentMachine

  const BACKOFF_LIMIT := 4

  class Agent {
    const fingerprint: string
    var file: AgentState
    ghost var told: seq<string>

    constructor (fingerprint: string, file: AgentState)
      ensures this.fingerprint == fingerprint && this.file == file && told == []
    {
      this.fingerprint := fingerprint;
      this.file := file;
      told := [];
    }

    ghost function View(): World
      reads this
    {
      World(file, told)
    }

    /** The sequence number is taken from the file and written back only after the acknowledgement. */
    method SendHeartbeat(a: Answers) returns (ok: bool, sent: seq<int>)
      modifies this
      ensures View() == Moved(old(View()), Beat(fingerprint, a))
      ensures ok == BeatSucceeds(old(file), fingerprint, a)
      ensures sent == if Sends(old(file), fingerprint, a) then [old(file).sequence + 1] else []
      ensures sent != [] <==> a.loads && (old(file).fingerprint == "" || old(file).fingerprint == fingerprint)
    {
      sent := [];
      if !a.loads {
        return false, sent;
      }
      var st := file;
      if st.fingerprint != "" && st.fingerprint != fingerprint {
        return false, sent;
      }
      sent := [st.sequence + 1];
      if !a.posts {
        return false, sent;
      }
      st := st.(sequence := st.sequence + 1);
      st := st.(fingerprint := fingerprint);
      if a.saves {
        file := st;
      }
      ok := a.saves;
    }

    predicate AllSend(st: AgentState, attempts: seq<Attempt>) {
      forall i :: 0 <= i < |attempts| ==> Sends(st, fingerprint, attempts[i].answers)
    }

    /** All requests of a round carry the same sequence number; between them the agent waits one and
        then two seconds. */
    method SendHeartbeatWithRetry(attempts: seq<Attempt>) returns (ok: bool, sent: seq<int>, waits: seq<int>)
      requires |attempts| == MAX_ATTEMPTS
      modifies this
      ensures (file, ok) == Attempts(old(file), attempts, fingerprint, 0) && told == old(told)
      ensures |sent| <= 3 && forall i :: 0 <= i < |sent| ==> sent[i] == old(file).sequence + 1
      ensures waits <= [1, 2]
      ensures !ok && !attempts[0].stopped && !attempts[1].stopped ==> waits == [1, 2]
      ensures !ok && !attempts[0].stopped && !attempts[1].stopped && AllSend(old(file), attempts) ==> |sent| == 3
      ensures file == if ok then Beaten(old(file), fingerprint) else old(file)
    {
      sent, waits := [], [];
      var backoff := 1;
      var attempt := 1;
      while attempt <= MAX_ATTEMPTS
        invariant 1 <= attempt <= MAX_ATTEMPTS
        invariant file == old(file) && told == old(told)
        invariant Attempts(old(file), attempts, fingerprint, 0) == Attempts(old(file), attempts, fingerprint, attempt - 1)
        invariant forall i :: 0 <= i < attempt - 1 ==> !attempts[i].stopped
        invariant (forall i :: 0 <= i < attempt - 1 ==> Sends(old(file), fingerprint, attempts[i].answers)) ==> |sent| == attempt - 1
        invariant |sent| <= attempt - 1 && forall i :: 0 <= i < |sent| ==> sent[i] == old(file).sequence + 1
        invariant backoff == [1, 2, 4][attempt - 1] && waits == [1, 2][..attempt - 1]
        decreases MAX_ATTEMPTS - attempt
      {
        var x := attempts[attempt - 1];
        var requests;
        ok, requests := SendHeartbeat(x.answers);
        sent := sent + requests;
        if ok {
          return;
        }
        if attempt == MAX_ATTEMPTS {
          break;
        }
        waits := waits + [backoff];
        if x.stopped {
          return;
        }
        if backoff < BACKOFF_LIMIT {
          backoff := backoff * 2;
        }
        attempt := attempt + 1;
      }
      ok := false;
    }

    method SubmitTelemetry(flag: string, a: Answers) returns (ok: bool)
      modifies this`told
      ensures ok == a.posts && told == if a.posts then old(told) + [flag] else old(told)
    {
      if a.posts {
        told := told + [flag];
      }
      ok := a.posts;
    }

    method RecordPortalFailure(a: Answers) returns (ok: bool)
      modifies this
      ensures View() == Moved(old(View()), Failure(a)) && ok == (a.loads && a.saves)
    {
      if !a.loads {
        return false;
      }
      var st := file;
      st := st.(failures := st.failures + 1);
      if st.failures >= FAILURE_THRESHOLD && PORTAL_UNREACHABLE !in st.active {
        st := st.(pending := st.pending + {PORTAL_UNREACHABLE});
      }
      if a.saves {
        file := st;
      }
      ok := a.saves;
    }

    method HandlePortalRecovery(a: Answers) returns (ok: bool)
      modifies this
      ensures View() == Moved(old(View()), Recovery(a)) && ok == RecoverySucceeds(old(file), a)
    {
      if !a.loads {
        return false;
      }
      var st := file;
      st := st.(failures := 0);
      if PORTAL_UNREACHABLE in st.pending && PORTAL_UNREACHABLE !in st.active {
        var posted := SubmitTelemetry(PORTAL_UNREACHABLE, a);
        if !posted {
          return false;
        }
        st := st.(active := st.active + {PORTAL_UNREACHABLE});
        st := st.(pending := st.pending - {PORTAL_UNREACHABLE});
      }
      if a.saves {
        file := st;
      }
      ok := a.saves;
    }

    method MarkWarning(flag: string, a: Answers) returns (ok: bool)
      modifies this
      ensures View() == Moved(old(View()), Mark(flag, a))
      ensures ok <==> a.loads && (Marks(old(file), flag, a) ==> a.posts && a.saves)
    {
      if !a.loads {
        return false;
      }
      var st := file;
      if flag in st.active || flag in st.pending {
        return true;
      }
      var posted := SubmitTelemetry(flag, a);
      if !posted {
        st := st.(pending := st.pending + {flag});
        if a.saves {
          file := st;
        }
        return false;
      }
      st := st.(active := st.active + {flag});
      if a.saves {
        file := st;
      }
      ok := a.saves;
    }

    /** The body of the Go client's loop, after the recurring checks. */
    method Round(beat: seq<Attempt>, after: Answers) returns (sent: seq<int>)
      requires |beat| == MAX_ATTEMPTS
      modifies this
      ensures View() == GoRound(old(View()), beat, fingerprint, after)
      ensures forall i :: 0 <= i < |sent| ==> sent[i] == old(file).sequence + 1
    {
      var ok, waits;
      ok, sent, waits := SendHeartbeatWithRetry(beat);
      if ok {
        var _ := HandlePortalRecovery(after);
      } else {
        var _ := RecordPortalFailure(after);
      }
    }

    /** The body of the Python client's loop. */
    method PythonStyleRound(beat: seq<Attempt>, after: Answers, recording: Answers) returns (sent: seq<int>)
      requires |beat| == MAX_ATTEMPTS
      modifies this
      ensures View() == PythonRound(old(View()), beat, fingerprint, after, recording)
      ensures forall i :: 0 <= i < |sent| ==> sent[i] == old(file).sequence + 1
    {
      var ok, waits;
      ok, sent, waits := SendHeartbeatWithRetry(beat);
      if !ok {
        var _ := RecordPortalFailure(after);
      } else {
        var recovered := HandlePortalRecovery(after);
        if !recovered {
          var _ := RecordPortalFailure(recording);
        }
      }
    }
  }
}
