/** That each end of a process is recorded and reported as what it was: an exit code, a timeout, a failed start. */
module ExecExits {
  import opened Basics
  import opened Sessions
  import opened ExecLifecycle
  import opened ExecInvariant
  import opened ExecSteps
  import opened ExecTheorems
  import opened ExecProgress
  import opened ExecSignals
  import opened ExecTrace

  /** How the end of a process is to be recorded and reported. */
  datatype End = End(code: int, signal: string, status: Status)

  /** At `i` or later the session is marked exited as `e` says. */
  ghost predicate MarkedAs(log: seq<Event>, i: nat, sid: string, e: End) {
    i < |log| && log[i] == Exit(sid, e.code, e.signal)
  }

  ghost predicate Marked(log: seq<Event>, from: nat, sid: string, e: End) {
    exists i: nat :: from <= i && MarkedAs(log, i, sid, e)
  }

  predicate ReportedAs(log: seq<Event>, j: nat, d: nat, status: Status) {
    j < |log| && IsTerminal(log[j], d) && log[j].status == status
  }

  /** First marked, then reported, as `e` says. */
  ghost predicate Told(log: seq<Event>, from: nat, d: nat, sid: string, e: End) {
    exists i: nat, j: nat :: from <= i < j && MarkedAs(log, i, sid, e) && ReportedAs(log, j, d, e.status)
  }

  lemma LaterLog(log: seq<Event>, log': seq<Event>, from: nat, d: nat, sid: string, e: End)
    requires log <= log'
    ensures Marked(log, from, sid, e) ==> Marked(log', from, sid, e)
    ensures Told(log, from, d, sid, e) ==> Told(log', from, d, sid, e)
  {
    if Marked(log, from, sid, e) {
      var i: nat :| from <= i && MarkedAs(log, i, sid, e);
      assert MarkedAs(log', i, sid, e);
    }
    if Told(log, from, d, sid, e) {
      var i: nat, j: nat :| from <= i < j && MarkedAs(log, i, sid, e) && ReportedAs(log, j, d, e.status);
      assert MarkedAs(log', i, sid, e) && ReportedAs(log', j, d, e.status);
    }
  }

  lemma MarkNow(log: seq<Event>, from: nat, sid: string, e: End)
    requires from <= |log|
    ensures Marked(log + [Exit(sid, e.code, e.signal)], from, sid, e)
  {
    assert MarkedAs(log + [Exit(sid, e.code, e.signal)], |log|, sid, e);
  }

  lemma TellNow(log: seq<Event>, from: nat, d: nat, sid: string, e: End, result: Event)
    requires Marked(log, from, sid, e) && IsTerminal(result, d) && result.status == e.status
    ensures Told(log + [result], from, d, sid, e)
  {
    var i: nat :| from <= i && MarkedAs(log, i, sid, e);
    assert MarkedAs(log + [result], i, sid, e) && ReportedAs(log + [result], |log|, d, e.status);
  }

  predicate RecordedAs(ss: SessionState, e: End) {
    ss.exitCode == Some(e.code) && ss.exitSignal == e.signal
  }

  predicate SameExit(ss: SessionState, ss': SessionState) {
    ss'.exitCode == ss.exitCode && ss'.exitSignal == ss.exitSignal
  }

  // ---- the steps that leave exit records alone ----

  lemma ReaderSameExit(s: State, d: nat, isErr: bool, env: Env)
    requires ReaderEnabled(s, d, isErr, env)
    ensures
      var s' := ReaderStep(s, d, isErr, env);
      HasSession(s', d) && SameExit(Sess(s, d), Sess(s', d)) && s'.log == s.log
  {
    ReaderSameHandler(s, d, isErr, env);
  }

  lemma YieldSameExit(s: State, d: nat)
    requires YieldEnabled(s, d)
    ensures HasSession(YieldStep(s, d), d) && SameExit(Sess(s, d), Sess(YieldStep(s, d), d))
  {
    YieldSameHandler(s, d);
  }

  // ---- what cmd.Wait returned ----

  /** What the wait goroutine is to record and report, while it has not marked the session. */
  function EndOf(pc: WaitPc): End
    requires pc.Returned? || pc.TimerStopped? || pc.Exiting?
  {
    if pc.Exiting? && pc.timedOut then End(pc.code, "SIGTERM", Failed)
    else End(pc.code, "", if pc.code == 0 then Completed else Failed)
  }

  /** The wait goroutine of `d` is about to tell, or has told, that the process ended as `e` says. */
  ghost predicate WaitTells(s: State, d: nat, from: nat, e: End) {
    && HasSession(s, d) && from <= |s.log|
    && var v := s.deliveries[d];
    && !v.wait.WaitOff? && !v.wait.Waiting?
    && (!WaitExited(v) ==> EndOf(v.wait) == e)
    && (HasStatus(v) ==> v.wait.status == e.status && Marked(s.log, from, v.sid.value, e))
    && (v.wait.WaitEnded? ==> Told(s.log, from, d, v.sid.value, e))
    && (WaitExited(v) && !TimeoutExited(v) ==> RecordedAs(Sess(s, d), e))
  }

  /** Nothing the goroutine's story depends on has changed. */
  ghost predicate SameStory(s: State, s': State, d: nat) {
    && HasSession(s, d) && HasSession(s', d) && s.log <= s'.log
    && var v, v' := s.deliveries[d], s'.deliveries[d];
    && v'.wait == v.wait && v'.sid == v.sid && (TimeoutExited(v) ==> TimeoutExited(v'))
    && (TimeoutExited(v') || SameExit(Sess(s, d), Sess(s', d)))
  }

  lemma StoryKept(s: State, s': State, d: nat, from: nat, e: End)
    requires WaitTells(s, d, from, e) && SameStory(s, s', d)
    ensures WaitTells(s', d, from, e)
  {
    LaterLog(s.log, s'.log, from, d, s.deliveries[d].sid.value, e);
  }

  lemma TimeoutStory(s: State, d: nat)
    requires TimeoutEnabled(s, d)
    ensures SameStory(s, TimeoutStep(s, d), d)
  {
    TimeoutSameHandler(s, d);
  }

  lemma HandlerStory(s: State, d: nat, env: Env)
    requires HandlerEnabled(s, d, env) && HasSession(s, d) && Finished(s.deliveries[d].handler)
    ensures SameStory(s, HandlerStep(s, d, env), d)
  {
  }

  lemma WaitMoves(s: State, d: nat, env: Env, from: nat, e: End)
    requires WaitEnabled(s, d) && WaitTells(s, d, from, e) && !WaitExited(s.deliveries[d])
    requires !s.deliveries[d].wait.Exiting?
    ensures WaitTells(WaitStep(s, d, env), d, from, e)
  {
  }

  lemma WaitMarks(s: State, d: nat, env: Env, from: nat, e: End)
    requires WaitEnabled(s, d) && WaitTells(s, d, from, e) && s.deliveries[d].wait.Exiting?
    ensures WaitTells(WaitStep(s, d, env), d, from, e)
  {
    MarkNow(s.log, from, s.deliveries[d].sid.value, e);
  }

  lemma WaitReadsBuilders(s: State, d: nat, env: Env, from: nat, e: End)
    requires WaitEnabled(s, d) && WaitTells(s, d, from, e) && HasStatus(s.deliveries[d])
    requires !s.deliveries[d].wait.WaitDue?
    ensures WaitTells(WaitStep(s, d, env), d, from, e)
  {
  }

  lemma WaitSends(s: State, d: nat, env: Env, from: nat, e: End)
    requires WaitEnabled(s, d) && WaitTells(s, d, from, e) && s.deliveries[d].wait.WaitDue? && e.status != Running
    ensures WaitTells(WaitStep(s, d, env), d, from, e)
  {
    var v := s.deliveries[d];
    TellNow(s.log, from, d, v.sid.value, e, Result(d, v.id, v.wait.status, v.wait.out, v.wait.err));
  }

  lemma WaiterTells(s: State, d: nat, env: Env, from: nat, e: End)
    requires WaitEnabled(s, d) && WaitTells(s, d, from, e) && e.status != Running
    ensures WaitTells(WaitStep(s, d, env), d, from, e)
  {
    var v := s.deliveries[d];
    if v.wait.Exiting? {
      WaitMarks(s, d, env, from, e);
    } else if v.wait.WaitDue? {
      WaitSends(s, d, env, from, e);
    } else if HasStatus(v) {
      WaitReadsBuilders(s, d, env, from, e);
    } else {
      WaitMoves(s, d, env, from, e);
    }
  }

  lemma OwnTells(s: State, d: nat, actor: Actor, env: Env, from: nat, e: End)
    requires Inv(s) && Enabled(s, Act(d, actor, env)) && WaitTells(s, d, from, e) && e.status != Running
    ensures WaitTells(Next(s, Act(d, actor, env)), d, from, e)
  {
    var s' := Next(s, Act(d, actor, env));
    ShapeOf(s, d);
    if actor.Waiter? {
      WaiterTells(s, d, env, from, e);
      return;
    }
    match actor {
      case Handler => HandlerStory(s, d, env);
      case StdoutReader =>
        ReaderSameExit(s, d, false, env);
        ReaderSameHandler(s, d, false, env);
      case StderrReader =>
        ReaderSameExit(s, d, true, env);
        ReaderSameHandler(s, d, true, env);
      case YieldTimer =>
        YieldSameExit(s, d);
        YieldSameHandler(s, d);
        StepGrows(s, Act(d, actor, env));
      case TimeoutTimer => TimeoutStory(s, d);
      case Waiter =>
    }
    StoryKept(s, s', d, from, e);
  }

  lemma StepTells(s: State, a: Action, d: nat, from: nat, e: End)
    requires Inv(s) && Enabled(s, a) && WaitTells(s, d, from, e) && e.status != Running
    ensures WaitTells(Next(s, a), d, from, e)
  {
    if a.Act? && a.d == d {
      OwnTells(s, d, a.actor, a.env, from, e);
    } else {
      OthersLeaveAlone(s, a, d);
      StoryKept(s, Next(s, a), d, from, e);
    }
  }

  lemma {:induction false} RunTells(s: State, more: seq<Action>, d: nat, from: nat, e: End)
    requires Inv(s) && Legal(s, more) && WaitTells(s, d, from, e) && e.status != Running
    ensures WaitTells(After(s, more), d, from, e)
    decreases more
  {
    if more != [] {
      StepTells(s, more[0], d, from, e);
      StepKeeps(s, more[0]);
      RunTells(Next(s, more[0]), more[1..], d, from, e);
    }
  }

  lemma ReturnTells(s: State, d: nat, env: Env, e: End)
    requires WaitEnabled(s, d) && s.deliveries[d].wait.Waiting?
    requires
      var timedOut := env.ok && !(s.deliveries[d].req.Exec? && s.deliveries[d].req.pty);
      e == if timedOut then End(1, "SIGTERM", Failed)
        else End(env.code, "", if env.code == 0 then Completed else Failed)
    ensures WaitTells(WaitStep(s, d, env), d, |s.log|, e)
  {
  }

  /**
   What cmd.Wait returns is what is recorded and reported. For a non-PTY command whose deadline has
   passed that is code 1, signal SIGTERM and failed; otherwise it is the process's own exit code, no
   signal, and completed exactly for code 0. The session is marked so, the result is sent after that,
   and the record stays, unless a PTY timeout callback also marks the session.
   */
  lemma ExitCodeIsReported(brain: bool, run: seq<Action>, d: nat, env: Env, more: seq<Action>, e: End)
    requires Legal(Init(brain), run) && WaitEnabled(After(Init(brain), run), d)
    requires After(Init(brain), run).deliveries[d].wait.Waiting?
    requires
      var req := After(Init(brain), run).deliveries[d].req;
      e == if env.ok && !(req.Exec? && req.pty) then End(1, "SIGTERM", Failed)
           else End(env.code, "", if env.code == 0 then Completed else Failed)
    requires Legal(Next(After(Init(brain), run), Act(d, Waiter, env)), more)
    ensures
      var s := After(Init(brain), run);
      var t := After(Next(s, Act(d, Waiter, env)), more);
      && HasSession(t, d)
      && var v, sid := t.deliveries[d], t.deliveries[d].sid.value;
      && (v.wait.WaitEnded? ==> Told(t.log, |s.log|, d, sid, e))
      && (WaitExited(v) ==> Marked(t.log, |s.log|, sid, e))
      && (WaitExited(v) && !TimeoutExited(v) ==>
            Sess(t, d).exitCode == Some(e.code) && Sess(t, d).exitSignal == e.signal)
  {
    var s, a := After(Init(brain), run), Act(d, Waiter, env);
    ReachableInv(brain, run);
    StepKeeps(s, a);
    ReturnTells(s, d, env, e);
    RunTells(Next(s, a), more, d, |s.log|, e);
    ToldIsMarked(After(Next(s, a), more), d, |s.log|, e);
  }

  lemma ToldIsMarked(s: State, d: nat, from: nat, e: End)
    requires WaitTells(s, d, from, e)
    ensures WaitExited(s.deliveries[d]) ==> Marked(s.log, from, s.deliveries[d].sid.value, e)
  {
    var v := s.deliveries[d];
    if v.wait.WaitEnded? {
      var i: nat, j: nat :|
        from <= i < j && MarkedAs(s.log, i, v.sid.value, e) && ReportedAs(s.log, j, d, e.status);
    }
  }

  // ---- failed starts and timeouts ----

  const START_FAILED := End(1, "", Failed)
  const TIMED_OUT := End(1, "SIGKILL", Failed)

  /** A failed start is marked with code 1 and reported failed. */
  ghost predicate StartTold(s: State, d: nat) {
    d < |s.deliveries| && SpawnFailed(s.deliveries[d]) ==>
      && HasSession(s, d)
      && Marked(s.log, 0, s.deliveries[d].sid.value, START_FAILED) && RecordedAs(Sess(s, d), START_FAILED)
      && (Finished(s.deliveries[d].handler) ==> Told(s.log, 0, d, s.deliveries[d].sid.value, START_FAILED))
  }

  ghost predicate Killed(log: seq<Event>, sid: string) {
    exists i :: 0 <= i < |log| && log[i] == TimeoutKill(sid)
  }

  /** A PTY timeout sends SIGKILL to the process, marks the session with code 1, and is reported failed. */
  ghost predicate TimeoutTold(s: State, d: nat) {
    d < |s.deliveries| && s.deliveries[d].sid.Some? ==>
      var v := s.deliveries[d];
      && (v.timeout.Fired? || TimeoutExited(v) ==> Killed(s.log, v.sid.value))
      && (TimeoutExited(v) ==> Marked(s.log, 0, v.sid.value, TIMED_OUT))
      && (v.timeout.TimeoutEnded? ==> Told(s.log, 0, d, v.sid.value, TIMED_OUT))
  }

  lemma LaterKilled(log: seq<Event>, log': seq<Event>, sid: string)
    requires log <= log' && Killed(log, sid)
    ensures Killed(log', sid)
  {
    var i :| 0 <= i < |log| && log[i] == TimeoutKill(sid);
    assert log'[i] == log[i];
  }

  lemma TimeoutKept(s: State, s': State, d: nat)
    requires TimeoutTold(s, d) && d < |s.deliveries| && d < |s'.deliveries| && s.log <= s'.log
    requires s'.deliveries[d].sid == s.deliveries[d].sid && s'.deliveries[d].timeout == s.deliveries[d].timeout
    ensures TimeoutTold(s', d)
  {
    var v := s.deliveries[d];
    if v.sid.Some? {
      LaterLog(s.log, s'.log, 0, d, v.sid.value, TIMED_OUT);
      if Killed(s.log, v.sid.value) { LaterKilled(s.log, s'.log, v.sid.value); }
    }
  }

  lemma StartKept(s: State, s': State, d: nat)
    requires StartTold(s, d) && d < |s.deliveries| && d < |s'.deliveries| && s.log <= s'.log
    requires s'.deliveries[d].sid == s.deliveries[d].sid && s'.deliveries[d].handler == s.deliveries[d].handler
    requires SpawnFailed(s'.deliveries[d]) ==> SpawnFailed(s.deliveries[d])
    requires HasSession(s, d) ==> HasSession(s', d) && SameExit(Sess(s, d), Sess(s', d))
    ensures StartTold(s', d)
  {
    if s.deliveries[d].sid.Some? { LaterLog(s.log, s'.log, 0, d, s.deliveries[d].sid.value, START_FAILED); }
  }

  lemma FiringTold(s: State, d: nat)
    requires TimeoutEnabled(s, d) && TimeoutTold(s, d) && !TimeoutExited(s.deliveries[d])
    ensures TimeoutTold(TimeoutStep(s, d), d)
  {
    var v, s' := s.deliveries[d], TimeoutStep(s, d);
    if v.timeout.TimeoutArmed? {
      assert s'.log[|s.log|] == TimeoutKill(v.sid.value);
    } else {
      MarkNow(s.log, 0, v.sid.value, TIMED_OUT);
      LaterKilled(s.log, s'.log, v.sid.value);
    }
  }

  lemma ReportingTold(s: State, d: nat)
    requires TimeoutEnabled(s, d) && TimeoutTold(s, d) && TimeoutExited(s.deliveries[d])
    ensures TimeoutTold(TimeoutStep(s, d), d)
  {
    var v, s' := s.deliveries[d], TimeoutStep(s, d);
    if v.timeout.TimeoutDue? {
      TellNow(s.log, 0, d, v.sid.value, TIMED_OUT, Result(d, v.id, Failed, v.timeout.out, v.timeout.err));
    }
    LaterLog(s.log, s'.log, 0, d, v.sid.value, TIMED_OUT);
    LaterKilled(s.log, s'.log, v.sid.value);
  }

  lemma HandlerTimeoutTold(s: State, d: nat, env: Env)
    requires Inv(s) && HandlerEnabled(s, d, env) && TimeoutTold(s, d)
    ensures TimeoutTold(HandlerStep(s, d, env), d)
  {
    var s' := HandlerStep(s, d, env);
    ShapeOf(s, d);
    HandlerAdvances(s, d, env);
    StepGrows(s, Act(d, Handler, env));
    HandlerTimeout(s, d, env);
    if s'.deliveries[d].sid == s.deliveries[d].sid && s'.deliveries[d].timeout == s.deliveries[d].timeout {
      TimeoutKept(s, s', d);
    }
  }

  /** The handler only arms the timeout. */
  predicate OnlyArms(v: Delivery, v': Delivery) {
    (v'.sid == v.sid && v'.timeout == v.timeout) || (!v'.timeout.Fired? && !TimeoutExited(v'))
  }

  lemma HandlerTimeout(s: State, d: nat, env: Env)
    requires HandlerEnabled(s, d, env) && Shape(s.deliveries[d]) && d < |HandlerStep(s, d, env).deliveries|
    ensures OnlyArms(s.deliveries[d], HandlerStep(s, d, env).deliveries[d])
  {
    var v := s.deliveries[d];
    if OnlyMoves(v.handler) {
      MoveTimeout(s, v, env);
    } else if v.handler.Adding? || v.handler.Opening? || v.handler.Spawned? || v.handler.AttachPty? {
      LaunchTimeout(s, d, env);
    } else {
      SettleTimeout(s, d, env);
    }
  }

  lemma MoveTimeout(s: State, v: Delivery, env: Env)
    requires OnlyMoves(v.handler) && Shape(v)
    ensures OnlyArms(v, Move(s, v, env))
  {
  }

  lemma LaunchTimeout(s: State, d: nat, env: Env)
    requires HandlerEnabled(s, d, env) && Shape(s.deliveries[d])
    requires
      var pc := s.deliveries[d].handler;
      pc.Adding? || pc.Opening? || pc.Spawned? || pc.AttachPty?
    ensures d < |Launch(s, d, env).deliveries| && OnlyArms(s.deliveries[d], Launch(s, d, env).deliveries[d])
  {
  }

  lemma SettleTimeout(s: State, d: nat, env: Env)
    requires HandlerEnabled(s, d, env) && !OnlyMoves(s.deliveries[d].handler)
    ensures d < |Settle(s, d, env).deliveries| && OnlyArms(s.deliveries[d], Settle(s, d, env).deliveries[d])
  {
  }

  lemma OwnTimeoutTold(s: State, d: nat, actor: Actor, env: Env)
    requires Inv(s) && Enabled(s, Act(d, actor, env)) && TimeoutTold(s, d)
    ensures TimeoutTold(Next(s, Act(d, actor, env)), d)
  {
    var a := Act(d, actor, env);
    ShapeOf(s, d);
    StepGrows(s, a);
    match actor
    case Handler => HandlerTimeoutTold(s, d, env);
    case StdoutReader =>
      ReaderSameHandler(s, d, false, env);
      TimeoutKept(s, Next(s, a), d);
    case StderrReader =>
      ReaderSameHandler(s, d, true, env);
      TimeoutKept(s, Next(s, a), d);
    case YieldTimer =>
      YieldSameHandler(s, d);
      TimeoutKept(s, Next(s, a), d);
    case TimeoutTimer =>
      if TimeoutExited(s.deliveries[d]) { ReportingTold(s, d); } else { FiringTold(s, d); }
    case Waiter => WaitTimeoutTold(s, d, env);
  }

  lemma WaitTimeoutTold(s: State, d: nat, env: Env)
    requires WaitEnabled(s, d) && TimeoutTold(s, d) && s.log <= WaitStep(s, d, env).log
    ensures TimeoutTold(WaitStep(s, d, env), d)
  {
    var s' := WaitStep(s, d, env);
    WaitSameHandler(s, d, env);
    if s'.deliveries[d].timeout == s.deliveries[d].timeout {
      TimeoutKept(s, s', d);
    } else {
      WaitCancels(s, d, env);
    }
  }

  lemma WaitCancels(s: State, d: nat, env: Env)
    requires WaitEnabled(s, d)
    ensures
      var v, v' := s.deliveries[d], WaitStep(s, d, env).deliveries[d];
      v'.timeout == v.timeout || v'.timeout.Cancelled?
  {
  }

  lemma MarkStartTold(s: State, d: nat, env: Env)
    requires HandlerEnabled(s, d, env) && HasSession(s, d) && s.deliveries[d].handler.FailMark?
    ensures StartTold(HandlerStep(s, d, env), d)
  {
    MarkNow(s.log, 0, s.deliveries[d].sid.value, START_FAILED);
  }

  lemma SendStartTold(s: State, d: nat, env: Env)
    requires HandlerEnabled(s, d, env) && HasSession(s, d) && StartTold(s, d) && SpawnFailed(s.deliveries[d])
    requires s.deliveries[d].wait.WaitOff?
    ensures StartTold(HandlerStep(s, d, env), d)
  {
    var v := s.deliveries[d];
    if v.handler.FailSend? {
      TellNow(s.log, 0, d, v.sid.value, START_FAILED, Result(d, v.id, Failed, v.outBuf, v.errBuf));
      LaterLog(s.log, HandlerStep(s, d, env).log, 0, d, v.sid.value, START_FAILED);
    }
  }

  lemma OtherStartTold(s: State, d: nat, env: Env)
    requires HandlerEnabled(s, d, env) && Shape(s.deliveries[d]) && !SpawnFailed(s.deliveries[d])
    requires !s.deliveries[d].handler.FailMark?
    ensures StartTold(HandlerStep(s, d, env), d)
  {
    HandlerAdvances(s, d, env);
    HandlerStarts(s, d, env);
  }

  /** Only the failure branch leads into it. */
  lemma HandlerStarts(s: State, d: nat, env: Env)
    requires HandlerEnabled(s, d, env) && Shape(s.deliveries[d]) && d < |HandlerStep(s, d, env).deliveries|
    requires !SpawnFailed(s.deliveries[d]) && !s.deliveries[d].handler.FailMark?
    ensures !SpawnFailed(HandlerStep(s, d, env).deliveries[d])
  {
    var v := s.deliveries[d];
    if OnlyMoves(v.handler) {
      MoveStarts(s, v, env);
    } else if v.handler.Adding? || v.handler.Opening? || v.handler.Spawned? || v.handler.AttachPty? {
      LaunchStarts(s, d, env);
    } else {
      SettleStarts(s, d, env);
    }
  }

  lemma MoveStarts(s: State, v: Delivery, env: Env)
    requires OnlyMoves(v.handler) && Shape(v)
    ensures !SpawnFailed(Move(s, v, env))
  {
  }

  lemma LaunchStarts(s: State, d: nat, env: Env)
    requires HandlerEnabled(s, d, env) && Shape(s.deliveries[d])
    requires
      var pc := s.deliveries[d].handler;
      pc.Adding? || pc.Opening? || pc.Spawned? || pc.AttachPty?
    ensures d < |Launch(s, d, env).deliveries| && !SpawnFailed(Launch(s, d, env).deliveries[d])
  {
  }

  lemma SettleStarts(s: State, d: nat, env: Env)
    requires HandlerEnabled(s, d, env) && Shape(s.deliveries[d]) && !OnlyMoves(s.deliveries[d].handler)
    requires !SpawnFailed(s.deliveries[d]) && !s.deliveries[d].handler.FailMark?
    ensures d < |Settle(s, d, env).deliveries| && !SpawnFailed(Settle(s, d, env).deliveries[d])
  {
  }

  lemma OwnStartTold(s: State, d: nat, actor: Actor, env: Env)
    requires Inv(s) && Enabled(s, Act(d, actor, env)) && StartTold(s, d)
    ensures StartTold(Next(s, Act(d, actor, env)), d)
  {
    ShapeOf(s, d);
    if actor.Handler? {
      if s.deliveries[d].handler.FailMark? {
        MarkStartTold(s, d, env);
      } else if SpawnFailed(s.deliveries[d]) {
        SendStartTold(s, d, env);
      } else {
        OtherStartTold(s, d, env);
      }
    } else {
      OnlyHandlerFails(s, d, actor, env);
    }
  }

  /** In the failure branch nobody else is running. */
  lemma OnlyHandlerFails(s: State, d: nat, actor: Actor, env: Env)
    requires Enabled(s, Act(d, actor, env)) && !actor.Handler? && d < |s.deliveries| && Shape(s.deliveries[d])
    ensures StartTold(Next(s, Act(d, actor, env)), d)
  {
    match actor
    case Handler =>
    case StdoutReader => ReaderSameHandler(s, d, false, env);
    case StderrReader => ReaderSameHandler(s, d, true, env);
    case YieldTimer => YieldSameHandler(s, d);
    case TimeoutTimer => TimeoutSameHandler(s, d);
    case Waiter => WaitSameHandler(s, d, env);
  }

  ghost predicate AllTold(s: State) {
    forall d: nat :: StartTold(s, d) && TimeoutTold(s, d)
  }

  lemma StepTold(s: State, a: Action, d: nat)
    requires Inv(s) && Enabled(s, a) && StartTold(s, d) && TimeoutTold(s, d)
    ensures StartTold(Next(s, a), d) && TimeoutTold(Next(s, a), d)
  {
    if a.Act? && a.d == d {
      OwnStartTold(s, d, a.actor, a.env);
      OwnTimeoutTold(s, d, a.actor, a.env);
    } else if d < |s.deliveries| {
      OthersLeaveAlone(s, a, d);
      ShapeOf(s, d);
      StartKept(s, Next(s, a), d);
      TimeoutKept(s, Next(s, a), d);
    } else {
      NewHasNothing(s, a, d);
    }
  }

  lemma NewHasNothing(s: State, a: Action, d: nat)
    requires Inv(s) && Enabled(s, a) && d >= |s.deliveries|
    ensures d < |Next(s, a).deliveries| ==> Next(s, a).deliveries[d].sid.None?
  {
    StepKeeps(s, a);
  }

  lemma {:induction false} RunTold(s: State, run: seq<Action>)
    requires Inv(s) && AllTold(s) && Legal(s, run)
    ensures AllTold(After(s, run))
    decreases run
  {
    if run != [] {
      forall d: nat
        ensures StartTold(Next(s, run[0]), d) && TimeoutTold(Next(s, run[0]), d)
      {
        StepTold(s, run[0], d);
      }
      StepKeeps(s, run[0]);
      RunTold(Next(s, run[0]), run[1..]);
    }
  }

  /**
   The other two ends. A process that could not be started is recorded with exit code 1 and no
   signal, and reported failed after that. A PTY timeout sends SIGKILL to the process, is recorded
   with exit code 1 and signal SIGKILL, and reported failed after that.
   */
  lemma FailuresAreReported(brain: bool, run: seq<Action>, d: nat)
    requires Legal(Init(brain), run) && HasSession(After(Init(brain), run), d)
    ensures
      var s := After(Init(brain), run);
      var v, ss, sid := s.deliveries[d], Sess(s, d), s.deliveries[d].sid.value;
      && (SpawnFailed(v) ==> ss.exitCode == Some(1) && ss.exitSignal == "")
      && (SpawnFailed(v) && Finished(v.handler) ==> Told(s.log, 0, d, sid, End(1, "", Failed)))
      && (v.timeout.Fired? || TimeoutExited(v) ==> Killed(s.log, sid))
      && (TimeoutExited(v) ==> Marked(s.log, 0, sid, End(1, "SIGKILL", Failed)))
      && (v.timeout.TimeoutEnded? ==> Told(s.log, 0, d, sid, End(1, "SIGKILL", Failed)))
  {
    InitHolds(brain);
    RunTold(Init(brain), run);
    var s := After(Init(brain), run);
    assert StartTold(s, d) && TimeoutTold(s, d);
  }

  // ---- whether the timeout runs ----

  predicate HasFired(v: Delivery) {
    v.timeout.Fired? || TimeoutExited(v)
  }

  /** The action is the timeout's timer running out. */
  predicate Fires(s: State, a: Action, d: nat) {
    && a.Act? && a.d == d && a.actor.TimeoutTimer?
    && d < |s.deliveries| && s.deliveries[d].timeout.TimeoutArmed?
  }

  predicate FiredIn(s: State, run: seq<Action>, d: nat)
    requires Legal(s, run)
    decreases run
  {
    run != [] && (Fires(s, run[0], d) || FiredIn(Next(s, run[0]), run[1..], d))
  }

  lemma HandlerNeverFires(s: State, d: nat, env: Env)
    requires HandlerEnabled(s, d, env) && Shape(s.deliveries[d])
    ensures d < |HandlerStep(s, d, env).deliveries|
    ensures
      var v, v' := s.deliveries[d], HandlerStep(s, d, env).deliveries[d];
      (HasFired(v') <==> HasFired(v)) && (v.timeout.Cancelled? ==> v'.timeout.Cancelled?)
  {
    var v := s.deliveries[d];
    HandlerAdvances(s, d, env);
    if OnlyMoves(v.handler) {
      MoveNeverFires(s, v, env);
    } else if v.handler.Adding? || v.handler.Opening? || v.handler.Spawned? || v.handler.AttachPty? {
      LaunchNeverFires(s, d, env);
    } else {
      SettleNeverFires(s, d, env);
    }
  }

  lemma MoveNeverFires(s: State, v: Delivery, env: Env)
    requires OnlyMoves(v.handler) && Shape(v)
    ensures Move(s, v, env).timeout == v.timeout || (v.timeout.TimeoutOff? && Move(s, v, env).timeout.TimeoutArmed?)
  {
  }

  lemma LaunchNeverFires(s: State, d: nat, env: Env)
    requires HandlerEnabled(s, d, env)
    requires
      var pc := s.deliveries[d].handler;
      pc.Adding? || pc.Opening? || pc.Spawned? || pc.AttachPty?
    ensures d < |Launch(s, d, env).deliveries| && Launch(s, d, env).deliveries[d].timeout == s.deliveries[d].timeout
  {
  }

  lemma SettleNeverFires(s: State, d: nat, env: Env)
    requires HandlerEnabled(s, d, env) && !OnlyMoves(s.deliveries[d].handler)
    ensures d < |Settle(s, d, env).deliveries| && Settle(s, d, env).deliveries[d].timeout == s.deliveries[d].timeout
  {
  }

  /** timer.Stop stops a timer that has not fired, and nothing else. */
  lemma WaitStopsTimer(s: State, d: nat, env: Env)
    requires WaitEnabled(s, d)
    ensures
      var v, v' := s.deliveries[d], WaitStep(s, d, env).deliveries[d];
      v'.timeout == v.timeout || (v.timeout.TimeoutArmed? && v'.timeout.Cancelled?)
  {
  }

  lemma TimeoutGoesOn(s: State, d: nat)
    requires TimeoutEnabled(s, d)
    ensures HasFired(TimeoutStep(s, d).deliveries[d]) && !s.deliveries[d].timeout.Cancelled?
    ensures HasFired(s.deliveries[d]) || s.deliveries[d].timeout.TimeoutArmed?
  {
  }

  lemma OwnFires(s: State, d: nat, actor: Actor, env: Env)
    requires Enabled(s, Act(d, actor, env)) && d < |s.deliveries| && Shape(s.deliveries[d])
    ensures d < |Next(s, Act(d, actor, env)).deliveries|
    ensures
      var v, v' := s.deliveries[d], Next(s, Act(d, actor, env)).deliveries[d];
      && (HasFired(v') <==> HasFired(v) || Fires(s, Act(d, actor, env), d))
      && (v.timeout.Cancelled? ==> v'.timeout.Cancelled?)
  {
    match actor
    case Handler => HandlerNeverFires(s, d, env);
    case StdoutReader => ReaderSameHandler(s, d, false, env);
    case StderrReader => ReaderSameHandler(s, d, true, env);
    case YieldTimer => YieldSameHandler(s, d);
    case TimeoutTimer => TimeoutGoesOn(s, d);
    case Waiter => WaitStopsTimer(s, d, env);
  }

  lemma StepFires(s: State, a: Action, d: nat)
    requires Inv(s) && Enabled(s, a) && d < |s.deliveries|
    ensures d < |Next(s, a).deliveries|
    ensures
      var v, v' := s.deliveries[d], Next(s, a).deliveries[d];
      (HasFired(v') <==> HasFired(v) || Fires(s, a, d)) && (v.timeout.Cancelled? ==> v'.timeout.Cancelled?)
  {
    if a.Act? && a.d == d {
      ShapeOf(s, d);
      OwnFires(s, d, a.actor, a.env);
    } else {
      UntouchedByOthers(s, a, d);
    }
  }

  /** Over every run the timeout's callback has started if and only if its timer ran out, and then nothing stops it. */
  lemma {:induction false} FiresExactly(s: State, run: seq<Action>, d: nat)
    requires Inv(s) && Legal(s, run) && d < |s.deliveries|
    ensures d < |After(s, run).deliveries|
    ensures
      var v, v' := s.deliveries[d], After(s, run).deliveries[d];
      (HasFired(v') <==> HasFired(v) || FiredIn(s, run, d)) && (v.timeout.Cancelled? ==> v'.timeout.Cancelled?)
    decreases run
  {
    if run != [] {
      StepFires(s, run[0], d);
      StepKeeps(s, run[0]);
      FiresExactly(Next(s, run[0]), run[1..], d);
    }
  }

  /** When the wait goroutine gets to timer.Stop before the timer has run out, the timeout never runs. */
  lemma EndedInTime(brain: bool, run: seq<Action>, d: nat, env: Env, more: seq<Action>)
    requires Legal(Init(brain), run) && WaitEnabled(After(Init(brain), run), d)
    requires
      var v := After(Init(brain), run).deliveries[d];
      v.wait.Returned? && v.timeout.TimeoutArmed?
    requires Legal(Next(After(Init(brain), run), Act(d, Waiter, env)), more)
    ensures
      var t := After(Next(After(Init(brain), run), Act(d, Waiter, env)), more);
      d < |t.deliveries| && t.deliveries[d].timeout.Cancelled?
  {
    var s, a := After(Init(brain), run), Act(d, Waiter, env);
    ReachableInv(brain, run);
    StepKeeps(s, a);
    FiresExactly(Next(s, a), more, d);
  }
}
