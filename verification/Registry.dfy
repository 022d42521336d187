/** The process registry: mutable sessions, their capped output, and the signals sent to them. */
module ProcessRegistry {
  import opened Basics
  import opened RollingBuffer
  import opened Slugs
  import S = Sessions

  class Session {
    const id: string
    const command: string
    const cwd: string
    const startedAt: int
    var pid: nat
    var exited: bool
    var exitCode: Option<int>
    var exitSignal: string
    var backgrounded: bool
    var stdinOpen: bool
    var aggregated: Bytes
    var tail: Bytes
    var written: seq<Bytes>   // what the process's stdin has accepted
    ghost var history: Bytes  // everything ever appended

    constructor (id: string, command: string, cwd: string, startedAt: int, pid: nat)
      ensures this.id == id && this.command == command && this.cwd == cwd && this.startedAt == startedAt
      ensures State() == S.NewSession(pid) && history == [] && written == [] && Valid()
    {
      this.id, this.command, this.cwd, this.startedAt := id, command, cwd, startedAt;
      this.pid, exited, exitCode, exitSignal := pid, false, None, "";
      backgrounded, stdinOpen, aggregated, tail := false, false, [], [];
      history, written := [], [];
    }

    ghost function State(): S.SessionState
      reads this
    {
      S.SessionState(pid, exited, exitCode, exitSignal, backgrounded, stdinOpen, Buffers(aggregated, tail))
    }

    ghost predicate Valid()
      reads this
    {
      Refines(Buffers(aggregated, tail), history) && S.ExitRecorded(State())
    }

    /** WriteToSession: fails on a closed stdin, or when the pipe refuses the write. */
    method WriteStdin(data: Bytes, accepts: bool) returns (ok: bool)
      modifies this`written
      ensures ok == (stdinOpen && accepts)
      ensures written == old(written) + if ok then [data] else []
    {
      if !stdinOpen || !accepts { return false; }
      written := written + [data];
      return true;
    }

    /** The critical section of AppendOutput. */
    method Append(data: Bytes)
      requires Valid()
      modifies this
      ensures Valid() && history == old(history) + data
      ensures State() == S.AppendOutput(old(State()), data)
    {
      AppendRefines(Buffers(aggregated, tail), history, data);
      aggregated := aggregated + data;
      if |aggregated| > MAX_OUTPUT_CHARS {
        aggregated := aggregated[|aggregated| - MAX_OUTPUT_CHARS..];
      }
      UpdateTail();
      history := history + data;
    }

    method UpdateTail()
      modifies this`tail
      ensures tail == LastN(aggregated, TAIL_CHARS)
    {
      if |aggregated| <= TAIL_CHARS {
        tail := aggregated;
      } else {
        tail := aggregated[|aggregated| - TAIL_CHARS..];
      }
    }
  }

  datatype Signal = Term(session: string, pid: nat, delivered: bool) | Kill(session: string, pid: nat)

  class Registry {
    var sessions: map<string, Session>
    var signals: seq<Signal>  // what has been handed to syscall.Kill, in order

    constructor ()
      ensures Valid() && sessions == map[] && signals == []
    {
      sessions, signals := map[], [];
    }

    ghost predicate Valid()
      reads this`sessions, sessions.Values
    {
      forall id :: id in sessions ==> sessions[id].id == id && IsSlug(id) && sessions[id].Valid()
    }

    ghost function At(id: string): set<object>
      reads this`sessions
    {
      if id in sessions then {sessions[id]} else {}
    }

    /** The first roll whose slug is not taken. The loop ends just when there is one. */
    method CreateSlug(rolls: nat -> Roll) returns (slug: string)
      requires exists k: nat :: SlugOf(rolls(k)) !in sessions
      ensures IsSlug(slug) && slug !in sessions
      ensures exists k: nat :: slug == SlugOf(rolls(k)) && forall j: nat :: j < k ==> SlugOf(rolls(j)) in sessions
    {
      ghost var hit: nat :| SlugOf(rolls(hit)) !in sessions;
      var k := 0;
      while true
        invariant 0 <= k <= hit
        invariant forall j: nat :: j < k ==> SlugOf(rolls(j)) in sessions
        decreases hit - k
      {
        slug := "";
        for i := 0 to 8
          invariant |slug| == i && forall n :: 0 <= n < i ==> slug[n] == Symbol(rolls(k)[n])
        {
          slug := slug + [Symbol(rolls(k)[i])];
        }
        assert slug == SlugOf(rolls(k));
        if slug !in sessions {
          return;
        }
        k := k + 1;
      }
    }

    method AddSession(command: string, cwd: string, pid: nat, now: int, rolls: nat -> Roll) returns (s: Session)
      requires Valid() && exists k: nat :: SlugOf(rolls(k)) !in sessions
      modifies this`sessions
      ensures Valid() && fresh(s) && s.id !in old(sessions) && sessions == old(sessions)[s.id := s]
      ensures s.command == command && s.cwd == cwd && s.startedAt == now
      ensures s.State() == S.NewSession(pid) && s.history == []
      ensures s.pid == pid && !s.exited && s.exitCode == None && !s.backgrounded && !s.stdinOpen
      ensures exists k: nat :: s.id == SlugOf(rolls(k)) && forall j: nat :: j < k ==> SlugOf(rolls(j)) in old(sessions)
    {
      var slug := CreateSlug(rolls);
      s := new Session(slug, command, cwd, now, pid);
      sessions := sessions[slug := s];
    }

    method MarkBackgrounded(id: string) returns (ok: bool)
      requires Valid()
      modifies At(id)
      ensures Valid() && ok == (id in sessions)
      ensures ok ==> sessions[id].State() == S.MarkBackgrounded(old(sessions[id].State()))
      ensures ok ==> sessions[id].State() == old(sessions[id].State()).(backgrounded := true)
      ensures ok ==> sessions[id].history == old(sessions[id].history)
    {
      if id !in sessions { return false; }
      sessions[id].backgrounded := true;
      return true;
    }

    method MarkExited(id: string, code: int, signal: string) returns (ok: bool)
      requires Valid()
      modifies At(id)
      ensures Valid() && ok == (id in sessions)
      ensures ok ==> sessions[id].State() == S.MarkExited(old(sessions[id].State()), code, signal)
      ensures ok ==> sessions[id].exited && sessions[id].exitCode == Some(code) && sessions[id].exitSignal == signal
      ensures ok ==> !sessions[id].stdinOpen && sessions[id].pid == old(sessions[id].pid)
      ensures ok ==> sessions[id].backgrounded == old(sessions[id].backgrounded)
      ensures ok ==> sessions[id].history == old(sessions[id].history)
    {
      if id !in sessions { return false; }
      var s := sessions[id];
      s.exited := true;
      s.exitCode := Some(code);
      s.exitSignal := signal;
      s.stdinOpen := false;
      return true;
    }

    method AppendOutput(id: string, data: Bytes) returns (ok: bool)
      requires Valid()
      modifies At(id)
      ensures Valid() && ok == (id in sessions)
      ensures ok ==> sessions[id].history == old(sessions[id].history) + data
      ensures ok ==> sessions[id].State() == S.AppendOutput(old(sessions[id].State()), data)
    {
      if id !in sessions { return false; }
      sessions[id].Append(data);
      return true;
    }

    /** The tail is the last 4000 bytes of everything ever appended. */
    method Tail(id: string) returns (tail: Bytes)
      requires Valid()
      ensures id !in sessions ==> tail == []
      ensures id in sessions ==> tail == LastN(sessions[id].history, 4_000)
    {
      if id !in sessions { return []; }
      return sessions[id].tail;
    }

    /** The output is the last 200,000 bytes of everything ever appended. */
    method GetOutput(id: string) returns (output: Bytes)
      requires Valid()
      ensures id !in sessions ==> output == []
      ensures id in sessions ==> output == LastN(sessions[id].history, 200_000)
    {
      if id !in sessions { return []; }
      return sessions[id].aggregated;
    }

    /** Sends SIGTERM; `delivered` is what the system call reports. True means a delayed SIGKILL is pending. */
    method KillSession(id: string, delivered: bool) returns (ok: bool)
      requires Valid()
      modifies this`signals
      ensures Valid()
      ensures ok == (id in sessions && sessions[id].pid != 0 && delivered)
      ensures signals == old(signals) +
                if id in sessions && sessions[id].pid != 0 then [Term(id, sessions[id].pid, delivered)] else []
    {
      if id !in sessions || sessions[id].pid == 0 { return false; }
      signals := signals + [Term(id, sessions[id].pid, delivered)];
      return delivered;
    }

    /** The goroutine KillSession leaves behind, after its five seconds and under the session's mutex. */
    method DelayedKill(s: Session)
      requires Valid()
      modifies this`signals
      ensures Valid()
      ensures signals == old(signals) + if !s.exited && s.pid != 0 then [Kill(s.id, s.pid)] else []
    {
      if !s.exited && s.pid != 0 {
        signals := signals + [Kill(s.id, s.pid)];
      }
    }
  }
}
