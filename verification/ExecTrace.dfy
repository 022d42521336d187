/** That what the processes did, as the environment of the run says, is what is recorded and reported. */
module ExecTrace {
  import opened Basics
  import opened Sessions
  import opened ExecLifecycle
  import opened ExecInvariant
  import opened ExecSteps
  import opened ExecTheorems
  import opened ExecProgress
  import opened ExecSignals

  // ---- what others leave alone ----

  /** Everyone else leaves the delivery and its session alone, and the log only grows. */
  ghost predicate LeftAlone(s: State, s': State, d: nat) {
    && d < |s.deliveries| && d < |s'.deliveries| && s'.deliveries[d] == s.deliveries[d] && s.log <= s'.log
    && (HasSession(s, d) ==> HasSession(s', d) && Sess(s', d) == Sess(s, d))
  }

  lemma OthersLeaveAlone(s: State, a: Action, d: nat)
    requires Inv(s) && Enabled(s, a) && d < |s.deliveries| && !(a.Act? && a.d == d)
    ensures LeftAlone(s, Next(s, a), d)
  {
    UntouchedByOthers(s, a, d);
    StepGrows(s, a);
    if HasSession(s, d) {
      match a
      case Deliver(_, _) =>
      case Act(e, _, _) =>
        StepKeeps(s, a);
        OtherSession(s, Next(s, a), e, d);
      case Wake(_) =>
      case StopStep(id, ok) => StopKeepsSessions(s, id, ok);
    }
  }

  lemma OtherSession(s: State, s': State, e: nat, d: nat)
    requires Inv(s) && LocalStep(s, s', e) && HasSession(s, d) && d != e
    ensures s'.sessions[s.deliveries[d].sid.value] == Sess(s, d)
  {
    assert s.deliveries[e].sid != s.deliveries[d].sid;
  }

  // ---- reads ----

  predicate Reads(s: State, a: Action, d: nat, isErr: bool) {
    && a.Act? && a.d == d && a.actor == (if isErr then StderrReader else StdoutReader)
    && d < |s.deliveries| && PcOf(s.deliveries[d], isErr).Reading?
  }

  /** All that the reads of one stream of the command returned in the course of `run`. */
  function ReadIn(s: State, run: seq<Action>, d: nat, isErr: bool): Bytes
    requires Legal(s, run)
    decreases run
  {
    if run == [] then []
    else (if Reads(s, run[0], d, isErr) then run[0].env.data else []) + ReadIn(Next(s, run[0]), run[1..], d, isErr)
  }

  /** One of them returned an error or end of file. */
  predicate EndedIn(s: State, run: seq<Action>, d: nat, isErr: bool)
    requires Legal(s, run)
    decreases run
  {
    run != [] && ((Reads(s, run[0], d, isErr) && run[0].env.last) || EndedIn(Next(s, run[0]), run[1..], d, isErr))
  }

  function ReadOf(v: Delivery, isErr: bool): Bytes {
    if isErr then v.errRead else v.outRead
  }

  /** The reader has ended, or will once it has passed on the chunk it holds. */
  predicate Ending(pc: ReaderPc) {
    pc.Closed? || ((pc.Got? || pc.Appended?) && pc.last)
  }

  predicate ReadBy(v: Delivery, v': Delivery, isErr: bool, took: bool, data: Bytes, last: bool) {
    && ReadOf(v', isErr) == ReadOf(v, isErr) + (if took then data else [])
    && (Ending(PcOf(v', isErr)) <==> Ending(PcOf(v, isErr)) || (took && last))
  }

  lemma ReaderReads(s: State, d: nat, byErr: bool, env: Env, isErr: bool)
    requires ReaderEnabled(s, d, byErr, env)
    ensures
      var v := s.deliveries[d];
      ReadBy(v, ReaderStep(s, d, byErr, env).deliveries[d], isErr, byErr == isErr &&
        PcOf(v, byErr).Reading?, env.data, env.last)
  {
  }

  predicate SameReaders(v: Delivery, v': Delivery) {
    v'.out == v.out && v'.err == v.err && v'.outRead == v.outRead && v'.errRead == v.errRead
  }

  lemma TimersRead(s: State, d: nat)
    ensures YieldEnabled(s, d) ==> SameReaders(s.deliveries[d], YieldStep(s, d).deliveries[d])
    ensures TimeoutEnabled(s, d) ==> SameReaders(s.deliveries[d], TimeoutStep(s, d).deliveries[d])
  {
  }

  lemma WaitReads(s: State, d: nat, env: Env)
    requires WaitEnabled(s, d)
    ensures SameReaders(s.deliveries[d], WaitStep(s, d, env).deliveries[d])
  {
  }

  lemma HandlerReads(s: State, d: nat, env: Env, isErr: bool)
    requires HandlerEnabled(s, d, env) && Shape(s.deliveries[d])
    ensures d < |HandlerStep(s, d, env).deliveries|
    ensures ReadBy(s.deliveries[d], HandlerStep(s, d, env).deliveries[d], isErr, false, [], false)
  {
    var v := s.deliveries[d];
    HandlerAdvances(s, d, env);
    if OnlyMoves(v.handler) {
      MoveReads(s, v, env, isErr);
    } else if v.handler.Adding? || v.handler.Opening? || v.handler.Spawned? || v.handler.AttachPty? {
      LaunchReads(s, d, env);
    } else {
      SettleReads(s, d, env);
    }
  }

  lemma LaunchReads(s: State, d: nat, env: Env)
    requires HandlerEnabled(s, d, env)
    requires
      var pc := s.deliveries[d].handler;
      pc.Adding? || pc.Opening? || pc.Spawned? || pc.AttachPty?
    ensures d < |Launch(s, d, env).deliveries| && SameReaders(s.deliveries[d], Launch(s, d, env).deliveries[d])
  {
  }

  lemma SettleReads(s: State, d: nat, env: Env)
    requires HandlerEnabled(s, d, env) && !OnlyMoves(s.deliveries[d].handler)
    ensures d < |Settle(s, d, env).deliveries| && SameReaders(s.deliveries[d], Settle(s, d, env).deliveries[d])
  {
  }

  lemma MoveReads(s: State, v: Delivery, env: Env, isErr: bool)
    requires OnlyMoves(v.handler) && Shape(v)
    ensures ReadBy(v, Move(s, v, env), isErr, false, [], false)
  {
  }

  lemma OwnReads(s: State, d: nat, actor: Actor, env: Env, isErr: bool)
    requires Inv(s) && Enabled(s, Act(d, actor, env))
    ensures
      var a := Act(d, actor, env);
      && d < |s.deliveries| && d < |Next(s, a).deliveries|
      && ReadBy(s.deliveries[d], Next(s, a).deliveries[d], isErr, Reads(s, a, d, isErr), env.data, env.last)
  {
    ShapeOf(s, d);
    match actor
    case Handler => HandlerReads(s, d, env, isErr);
    case StdoutReader => ReaderReads(s, d, false, env, isErr);
    case StderrReader => ReaderReads(s, d, true, env, isErr);
    case YieldTimer => TimersRead(s, d);
    case TimeoutTimer => TimersRead(s, d);
    case Waiter => WaitReads(s, d, env);
  }

  lemma StepReads(s: State, a: Action, d: nat, isErr: bool)
    requires Inv(s) && Enabled(s, a) && d < |s.deliveries|
    ensures
      var took := Reads(s, a, d, isErr);
      && d < |Next(s, a).deliveries|
      && ReadBy(s.deliveries[d], Next(s, a).deliveries[d], isErr, took, if took then a.env.data else [], took &&
           a.env.last)
  {
    if a.Act? && a.d == d {
      OwnReads(s, d, a.actor, a.env, isErr);
    } else {
      UntouchedByOthers(s, a, d);
    }
  }

  lemma ReadByThen(u: Delivery, v: Delivery, w: Delivery, isErr: bool, data: Bytes, last: bool, more: Bytes,
      ended: bool)
    requires ReadBy(u, v, isErr, true, data, last) && ReadBy(v, w, isErr, true, more, ended)
    ensures ReadBy(u, w, isErr, true, data + more, last || ended)
  {
    assert ReadOf(u, isErr) + data + more == ReadOf(u, isErr) + (data + more);
  }

  /**
   What is recorded as read from a stream is the concatenation of all that its reads returned, and
   its reader ends exactly when one of them returned an error or end of file.
   */
  lemma {:induction false} ReadsRecorded(s: State, run: seq<Action>, d: nat, isErr: bool)
    requires Inv(s) && Legal(s, run) && d < |s.deliveries|
    ensures d < |After(s, run).deliveries|
    ensures
      var v, v' := s.deliveries[d], After(s, run).deliveries[d];
      && ReadOf(v', isErr) == ReadOf(v, isErr) + ReadIn(s, run, d, isErr)
      && (Ending(PcOf(v', isErr)) <==> Ending(PcOf(v, isErr)) || EndedIn(s, run, d, isErr))
    decreases run
  {
    if run != [] {
      var a, s' := run[0], Next(s, run[0]);
      var took := Reads(s, a, d, isErr);
      var data := if took then a.env.data else [];
      StepReads(s, a, d, isErr);
      StepKeeps(s, a);
      ReadsRecorded(s', run[1..], d, isErr);
      ReadByThen(s.deliveries[d], s'.deliveries[d], After(s', run[1..]).deliveries[d], isErr, data, took && a.env.last,
                 ReadIn(s', run[1..], d, isErr), EndedIn(s', run[1..], d, isErr));
    }
  }

  // ---- the process id ----

  /** The pid that the system gave is on its way into the session, or there. */
  predicate PidIs(s: State, d: nat, pid: nat) {
    && HasSession(s, d)
    && (s.deliveries[d].handler == Spawned(pid) || (ProcessUp(s.deliveries[d]) && Sess(s, d).pid == pid))
  }

  lemma PidStep(s: State, a: Action, d: nat, pid: nat)
    requires Inv(s) && Enabled(s, a) && PidIs(s, d, pid) && pid > 0
    ensures PidIs(Next(s, a), d, pid)
  {
    var s' := Next(s, a);
    StepKeeps(s, a);
    StepGrows(s, a);
    ShapeOf(s, d);
    ShapeOf(s', d);
    if a.Act? && a.d == d {
      if s.deliveries[d].handler == Spawned(pid) {
        assert a.actor.Handler?;
        SpawnedWrites(s, d, a.env, pid);
      }
    } else {
      OthersLeaveAlone(s, a, d);
    }
  }

  lemma SpawnedWrites(s: State, d: nat, env: Env, pid: nat)
    requires HandlerEnabled(s, d, env) && s.deliveries[d].handler == Spawned(pid)
    ensures PidIs(HandlerStep(s, d, env), d, pid)
  {
  }

  lemma {:induction false} RunPid(s: State, more: seq<Action>, d: nat, pid: nat)
    requires Inv(s) && Legal(s, more) && PidIs(s, d, pid) && pid > 0
    ensures PidIs(After(s, more), d, pid)
    decreases more
  {
    if more != [] {
      PidStep(s, more[0], d, pid);
      StepKeeps(s, more[0]);
      RunPid(Next(s, more[0]), more[1..], d, pid);
    }
  }

  /** The handler is at the call that starts the process. */
  predicate Starting(v: Delivery) {
    v.handler.Spawning? || (v.handler.Opening? && WantsPty(v))
  }

  /** When the process starts, the session's pid is the one the system gave, once it is set at all. */
  lemma StartedPidRecorded(brain: bool, run: seq<Action>, d: nat, env: Env, more: seq<Action>)
    requires Legal(Init(brain), run) && HandlerEnabled(After(Init(brain), run), d, env)
    requires Starting(After(Init(brain), run).deliveries[d]) && env.ok
    requires Legal(Next(After(Init(brain), run), Act(d, Handler, env)), more)
    ensures
      var t := After(Next(After(Init(brain), run), Act(d, Handler, env)), more);
      HasSession(t, d) && (Sess(t, d).pid == env.pid ||
        (Sess(t, d).pid == 0 && t.deliveries[d].handler == Spawned(env.pid)))
  {
    var s, a := After(Init(brain), run), Act(d, Handler, env);
    ReachableInv(brain, run);
    StepKeeps(s, a);
    ShapeOf(s, d);
    StartsProcess(s, d, env);
    RunPid(Next(s, a), more, d, env.pid);
    RunKeeps(Next(s, a), more);
    PidShows(After(Next(s, a), more), d, env.pid);
  }

  lemma PidShows(s: State, d: nat, pid: nat)
    requires Inv(s) && PidIs(s, d, pid)
    ensures Sess(s, d).pid == pid || (Sess(s, d).pid == 0 && s.deliveries[d].handler == Spawned(pid))
  {
    assert DeliveryInv(s, d);
  }

  lemma StartsProcess(s: State, d: nat, env: Env)
    requires HandlerEnabled(s, d, env) && Starting(s.deliveries[d]) && env.ok
    ensures HasSession(s, d) && env.pid > 0 && PidIs(HandlerStep(s, d, env), d, env.pid)
  {
  }

  // ---- a process that does not start ----

  predicate Failing(v: Delivery) {
    v.handler.FailMark? || SpawnFailed(v)
  }

  lemma FailingStep(s: State, a: Action, d: nat)
    requires Inv(s) && Enabled(s, a) && HasSession(s, d) && Failing(s.deliveries[d])
    ensures HasSession(Next(s, a), d) && Failing(Next(s, a).deliveries[d])
  {
    StepKeeps(s, a);
    StepGrows(s, a);
    ShapeOf(s, d);
    ShapeOf(Next(s, a), d);
    if a.Act? && a.d == d {
      assert a.actor.Handler?;
      FailingHandler(s, d, a.env);
    } else {
      OthersLeaveAlone(s, a, d);
    }
  }

  lemma FailingHandler(s: State, d: nat, env: Env)
    requires HandlerEnabled(s, d, env) && HasSession(s, d) && Failing(s.deliveries[d]) && s.deliveries[d].wait.WaitOff?
    ensures HasSession(HandlerStep(s, d, env), d) && Failing(HandlerStep(s, d, env).deliveries[d])
  {
  }

  lemma {:induction false} RunFailing(s: State, more: seq<Action>, d: nat)
    requires Inv(s) && Legal(s, more) && HasSession(s, d) && Failing(s.deliveries[d])
    ensures HasSession(After(s, more), d) && Failing(After(s, more).deliveries[d])
    decreases more
  {
    if more != [] {
      FailingStep(s, more[0], d);
      StepKeeps(s, more[0]);
      RunFailing(Next(s, more[0]), more[1..], d);
    }
  }

  /** When a pipe cannot be opened or the process cannot be started, there is never a process. */
  lemma FailedStartHasNoProcess(brain: bool, run: seq<Action>, d: nat, env: Env, more: seq<Action>)
    requires Legal(Init(brain), run) && HandlerEnabled(After(Init(brain), run), d, env)
    requires
      var pc := After(Init(brain), run).deliveries[d].handler;
      (pc.Opening? || pc.Spawning?) && !env.ok
    requires Legal(Next(After(Init(brain), run), Act(d, Handler, env)), more)
    ensures
      var t := After(Next(After(Init(brain), run), Act(d, Handler, env)), more);
      HasSession(t, d) && Failing(t.deliveries[d]) && Sess(t, d).pid == 0
  {
    var s, a := After(Init(brain), run), Act(d, Handler, env);
    ReachableInv(brain, run);
    StepKeeps(s, a);
    ShapeOf(s, d);
    FailsStart(s, d, env);
    RunFailing(Next(s, a), more, d);
    RunKeeps(Next(s, a), more);
    FailingHasNoPid(After(Next(s, a), more), d);
  }

  lemma FailingHasNoPid(s: State, d: nat)
    requires Inv(s) && HasSession(s, d) && Failing(s.deliveries[d])
    ensures Sess(s, d).pid == 0
  {
    assert DeliveryInv(s, d);
  }

  lemma FailsStart(s: State, d: nat, env: Env)
    requires HandlerEnabled(s, d, env)
    requires (s.deliveries[d].handler.Opening? || s.deliveries[d].handler.Spawning?) && !env.ok
    ensures HasSession(HandlerStep(s, d, env), d) && HandlerStep(s, d, env).deliveries[d].handler.FailMark?
  {
  }

}
