/** How a command gets its process, its readers and its timers, and how a kill request gets to its process. */
module ExecStarts {
  import opened Basics
  import opened RollingBuffer
  import opened Sessions
  import opened ExecLifecycle
  import opened ExecInvariant
  import opened ExecSteps
  import opened ExecTheorems
  import opened ExecProgress
  import opened ExecTrace
  import opened ExecReplies
  import opened ExecKills

  /** Once the wait goroutine runs, so do the readers and the timers that the request calls for. */
  lemma StartedExactly(brain: bool, run: seq<Action>, d: nat)
    requires Legal(Init(brain), run) && HasSession(After(Init(brain), run), d)
    requires !After(Init(brain), run).deliveries[d].wait.WaitOff?
    ensures
      var v := After(Init(brain), run).deliveries[d];
      && v.req.Exec? && !v.out.Off?
      && (v.err.Off? <==> v.req.pty)
      && (v.timeout.TimeoutOff? <==> !v.req.pty)
      && (v.yielder.YieldOff? <==> v.req.yieldMs <= 0)
  {
    ReachableInv(brain, run);
    ShapeOf(After(Init(brain), run), d);
    ArmedExactly(brain, run, d);
  }

  // ---- a command fails to start just when a call of its own fails ----

  /** Opening a pipe, or starting the process, fails. */
  predicate CallFails(s: State, a: Action, d: nat) {
    && a.Act? && a.d == d && a.actor.Handler? && !a.env.ok
    && d < |s.deliveries| && (s.deliveries[d].handler.Opening? || s.deliveries[d].handler.Spawning?)
  }

  predicate FailedIn(s: State, run: seq<Action>, d: nat)
    requires Legal(s, run)
    decreases run
  {
    run != [] && (CallFails(s, run[0], d) || FailedIn(Next(s, run[0]), run[1..], d))
  }

  lemma FailingStepExactly(s: State, a: Action, d: nat)
    requires Inv(s) && Enabled(s, a) && d < |s.deliveries|
    ensures d < |Next(s, a).deliveries|
    ensures Failing(Next(s, a).deliveries[d]) <==> Failing(s.deliveries[d]) || CallFails(s, a, d)
  {
    if a.Act? && a.d == d {
      ShapeOf(s, d);
      match a.actor
      case Handler => HandlerFailsExactly(s, d, a.env);
      case StdoutReader => ReaderStaysArmed(s, d, false, a.env); SidKept(s, a);
      case StderrReader => ReaderStaysArmed(s, d, true, a.env); SidKept(s, a);
      case YieldTimer => TimersStayArmed(s, d); SidKept(s, a);
      case TimeoutTimer => TimersStayArmed(s, d); SidKept(s, a);
      case Waiter => WaitStaysArmed(s, d, a.env); SidKept(s, a);
    } else {
      UntouchedByOthers(s, a, d);
    }
  }

  lemma SidKept(s: State, a: Action)
    requires Inv(s) && Enabled(s, a) && a.Act? && !a.actor.Handler?
    ensures a.d < |s.deliveries| && a.d < |Next(s, a).deliveries|
    ensures Next(s, a).deliveries[a.d].sid == s.deliveries[a.d].sid
  {
    StepGrows(s, a);
  }

  lemma HandlerFailsExactly(s: State, d: nat, env: Env)
    requires HandlerEnabled(s, d, env) && Shape(s.deliveries[d])
    ensures d < |HandlerStep(s, d, env).deliveries|
    ensures Failing(HandlerStep(s, d, env).deliveries[d]) <==>
            Failing(s.deliveries[d]) || CallFails(s, Act(d, Handler, env), d)
  {
    var v := s.deliveries[d];
    HandlerAdvances(s, d, env);
    if OnlyMoves(v.handler) {
      MoveFailsExactly(s, v, env);
    } else if v.handler.Adding? || v.handler.Opening? || v.handler.Spawned? || v.handler.AttachPty? {
      LaunchFailsExactly(s, d, env);
    } else {
      SettleFailsExactly(s, d, env);
    }
  }

  lemma MoveFailsExactly(s: State, v: Delivery, env: Env)
    requires OnlyMoves(v.handler) && Shape(v)
    ensures Failing(Move(s, v, env)) <==> Failing(v) || (v.handler.Spawning? && !env.ok)
  {
  }

  lemma LaunchFailsExactly(s: State, d: nat, env: Env)
    requires HandlerEnabled(s, d, env) && Shape(s.deliveries[d])
    requires
      var pc := s.deliveries[d].handler;
      pc.Adding? || pc.Opening? || pc.Spawned? || pc.AttachPty?
    ensures d < |Launch(s, d, env).deliveries|
    ensures Failing(Launch(s, d, env).deliveries[d]) <==>
            Failing(s.deliveries[d]) || (s.deliveries[d].handler.Opening? && !env.ok)
  {
  }

  lemma SettleFailsExactly(s: State, d: nat, env: Env)
    requires HandlerEnabled(s, d, env) && Shape(s.deliveries[d]) && !OnlyMoves(s.deliveries[d].handler)
    requires
      var pc := s.deliveries[d].handler;
      !pc.Adding? && !pc.Opening? && !pc.Spawned? && !pc.AttachPty?
    ensures d < |Settle(s, d, env).deliveries|
    ensures Failing(Settle(s, d, env).deliveries[d]) <==> Failing(s.deliveries[d])
  {
  }

  /** Over every run a command fails to start if and only if a pipe, or the process, could not be had. */
  lemma {:induction false} FailsExactly(s: State, run: seq<Action>, d: nat)
    requires Inv(s) && Legal(s, run) && d < |s.deliveries|
    ensures d < |After(s, run).deliveries|
    ensures Failing(After(s, run).deliveries[d]) <==> Failing(s.deliveries[d]) || FailedIn(s, run, d)
    decreases run
  {
    if run != [] {
      FailingStepExactly(s, run[0], d);
      StepKeeps(s, run[0]);
      FailsExactly(Next(s, run[0]), run[1..], d);
    }
  }

  // ---- what a stream may bring ----

  /** The builder of handleExec that the stream goes to. */
  function BuilderOf(v: Delivery, isErr: bool): Bytes {
    if isErr then v.errBuf else v.outBuf
  }

  /** The reader is about to read a stream whose other end is still open. */
  predicate Listening(s: State, d: nat, isErr: bool) {
    HasSession(s, d) && PcOf(s.deliveries[d], isErr).Reading? && !PipesClosed(s.deliveries[d])
  }

  function Read(d: nat, isErr: bool, chunk: Bytes): Action {
    Act(d, if isErr then StderrReader else StdoutReader, Env("", true, 0, 0, chunk, false))
  }

  /** The chunk is read, appended to the session, and passed to the callback. */
  lemma OneChunk(s: State, d: nat, isErr: bool, chunk: Bytes)
    requires Listening(s, d, isErr) && 0 < |chunk| <= 8192
    ensures
      var a := Read(d, isErr, chunk);
      && Enabled(s, a) && Reads(s, a, d, isErr)
      && Enabled(Next(s, a), a) && !Reads(Next(s, a), a, d, isErr)
      && Enabled(Next(Next(s, a), a), a) && !Reads(Next(Next(s, a), a), a, d, isErr)
      && var t := Next(Next(Next(s, a), a), a);
      && Listening(t, d, isErr)
      && BuilderOf(t.deliveries[d], isErr) == BuilderOf(s.deliveries[d], isErr) + chunk
  {
  }

  lemma {:induction false} OneMore(s: State, run: seq<Action>, u: State, a: Action, d: nat, isErr: bool)
    requires Legal(s, run) && After(s, run) == u && Enabled(u, a)
    ensures Legal(s, run + [a]) && After(s, run + [a]) == Next(u, a)
    ensures ReadIn(s, run + [a], d, isErr) ==
            ReadIn(s, run, d, isErr) + if Reads(u, a, d, isErr) then a.env.data else []
    decreases run
  {
    if run == [] {
      assert run + [a] == [a] + run;
      StepFirst(s, a, run, d, isErr);
    } else {
      var b, rest := run[0], run[1..];
      OneMore(Next(s, b), rest, u, a, d, isErr);
      assert run + [a] == [b] + (rest + [a]);
      StepFirst(s, b, rest + [a], d, isErr);
    }
  }

  lemma StepFirst(s: State, a: Action, rest: seq<Action>, d: nat, isErr: bool)
    requires Enabled(s, a) && Legal(Next(s, a), rest)
    ensures Legal(s, [a] + rest) && After(s, [a] + rest) == After(Next(s, a), rest)
    ensures ReadIn(s, [a] + rest, d, isErr) ==
            (if Reads(s, a, d, isErr) then a.env.data else []) + ReadIn(Next(s, a), rest, d, isErr)
  {
    assert ([a] + rest)[1..] == rest;
  }

  /** The run goes on with one more chunk. */
  lemma ChunkMore(s: State, run: seq<Action>, u: State, d: nat, isErr: bool, chunk: Bytes)
      returns (run': seq<Action>, u': State)
    requires Legal(s, run) && After(s, run) == u && Listening(u, d, isErr) && 0 < |chunk| <= 8192
    ensures Legal(s, run') && After(s, run') == u' && Listening(u', d, isErr)
    ensures ReadIn(s, run', d, isErr) == ReadIn(s, run, d, isErr) + chunk
    ensures BuilderOf(u'.deliveries[d], isErr) == BuilderOf(u.deliveries[d], isErr) + chunk
  {
    var a := Read(d, isErr, chunk);
    OneChunk(u, d, isErr, chunk);
    var u1 := Next(u, a);
    var u2 := Next(u1, a);
    OneMore(s, run, u, a, d, isErr);
    OneMore(s, run + [a], u1, a, d, isErr);
    OneMore(s, run + [a] + [a], u2, a, d, isErr);
    return run + [a] + [a] + [a], Next(u2, a);
  }

  /** Whatever a process writes while its pipe is open, in chunks of at most 8192 bytes, can be read and reported. */
  lemma {:induction false} AnythingCanBeRead(s: State, d: nat, isErr: bool, chunks: seq<Bytes>)
      returns (more: seq<Action>, u: State)
    requires Listening(s, d, isErr) && forall i :: 0 <= i < |chunks| ==> 0 < |chunks[i]| <= 8192
    ensures Legal(s, more) && After(s, more) == u && ReadIn(s, more, d, isErr) == Flatten(chunks)
    ensures Listening(u, d, isErr)
    ensures BuilderOf(u.deliveries[d], isErr) == BuilderOf(s.deliveries[d], isErr) + Flatten(chunks)
    decreases |chunks|
  {
    if chunks == [] {
      return [], s;
    }
    var most, last := chunks[..|chunks| - 1], chunks[|chunks| - 1];
    var run, t := AnythingCanBeRead(s, d, isErr, most);
    more, u := ChunkMore(s, run, t, d, isErr, last);
    SameSum(BuilderOf(s.deliveries[d], isErr), Flatten(most), last);
  }

  lemma SameSum(a: Bytes, b: Bytes, c: Bytes)
    ensures a + b + c == a + (b + c)
  {
  }

  // ---- kill requests ----

  /** SIGTERM has been sent to `pid` for a kill request. */
  ghost predicate Asked(log: seq<Event>, from: nat, target: string, pid: nat) {
    exists j, ok :: from <= j < |log| && log[j] == Term(target, pid, ok, false)
  }

  /** The request is bound to signal `pid`, or has. */
  ghost predicate Bound(s: State, d: nat, target: string, pid: nat, from: nat) {
    && d < |s.deliveries| && s.deliveries[d].req == KillProcess(target) && s.deliveries[d].sid.None?
    && target in s.sessions && s.sessions[target].pid == pid
    && (s.deliveries[d].handler.KillPid? || s.deliveries[d].handler == KillTerm(pid) ||
          Asked(s.log, from, target, pid))
  }

  lemma AskedGrows(log: seq<Event>, log': seq<Event>, from: nat, target: string, pid: nat)
    requires Asked(log, from, target, pid) && log <= log'
    ensures Asked(log', from, target, pid)
  {
    var j, ok :| from <= j < |log| && log[j] == Term(target, pid, ok, false);
    assert log'[j] == log[j];
  }

  lemma BoundStep(s: State, a: Action, d: nat, target: string, pid: nat, from: nat)
    requires Inv(s) && Enabled(s, a) && Bound(s, d, target, pid, from) && pid != 0 && from <= |s.log|
    ensures Bound(Next(s, a), d, target, pid, from)
  {
    StepGrows(s, a);
    if Asked(s.log, from, target, pid) { AskedGrows(s.log, Next(s, a).log, from, target, pid); }
    if a.Act? && a.d == d {
      ShapeOf(s, d);
      assert a.actor.Handler?;
      OwnBound(s, d, a.env, target, pid, from);
    } else {
      UntouchedByOthers(s, a, d);
    }
  }

  lemma OwnBound(s: State, d: nat, env: Env, target: string, pid: nat, from: nat)
    requires HandlerEnabled(s, d, env) && Bound(s, d, target, pid, from) && pid != 0 && from <= |s.log|
    requires Shape(s.deliveries[d])
    ensures
      var s' := HandlerStep(s, d, env);
      && d < |s'.deliveries| && s'.deliveries[d].req == KillProcess(target) && s'.deliveries[d].sid.None?
      && (Asked(s.log, from, target, pid) || s'.deliveries[d].handler == KillTerm(pid) ||
            Asked(s'.log, from, target, pid))
  {
    if s.deliveries[d].handler.KillTerm? {
      assert HandlerStep(s, d, env).log[|s.log|] == Term(target, pid, env.ok, false) ||
             Asked(s.log, from, target, pid);
    }
  }

  lemma {:induction false} RunBound(s: State, more: seq<Action>, d: nat, target: string, pid: nat, from: nat)
    requires Inv(s) && Legal(s, more) && Bound(s, d, target, pid, from) && pid != 0 && from <= |s.log|
    ensures Bound(After(s, more), d, target, pid, from)
    decreases more
  {
    if more != [] {
      BoundStep(s, more[0], d, target, pid, from);
      StepKeeps(s, more[0]);
      StepGrows(s, more[0]);
      RunBound(Next(s, more[0]), more[1..], d, target, pid, from);
    }
  }

  /** The first test refuses unknown and exited sessions, the second unknown ones and those without a pid. */
  predicate Refused(s: State, pc: HandlerPc, target: string) {
    || target !in s.sessions
    || (pc.KillCheck? && s.sessions[target].exited)
    || (pc.KillPid? && s.sessions[target].pid == 0)
  }

  /** The test at hand is passed, and the session has its pid, which stays. */
  predicate Passes(s: State, pc: HandlerPc, target: string) {
    !Refused(s, pc, target) && s.sessions[target].pid != 0
  }

  /**
   A kill request is let through by its first test exactly for a live session, and by its second
   exactly for one with a pid; let through, it sends SIGTERM to that pid before it answers.
   */
  lemma KillReachesProcess(brain: bool, run: seq<Action>, d: nat, env: Env, more: seq<Action>)
    requires Legal(Init(brain), run) && HandlerEnabled(After(Init(brain), run), d, env)
    requires
      var pc := After(Init(brain), run).deliveries[d].handler;
      pc.KillCheck? || pc.KillPid?
    requires Legal(Next(After(Init(brain), run), Act(d, Handler, env)), more)
    ensures
      var s := After(Init(brain), run);
      var s' := Next(s, Act(d, Handler, env));
      var t := After(s', more);
      var v := s.deliveries[d];
      && v.req.KillProcess?
      && s'.log == s.log && s'.killers == s.killers
      && (Refused(s, v.handler, v.req.target) ==> Decided(t, d, Failed))
      && (Passes(s, v.handler, v.req.target) ==>
            Bound(t, d, v.req.target, s.sessions[v.req.target].pid, |s.log|))
  {
    var s, a := After(Init(brain), run), Act(d, Handler, env);
    ReachableInv(brain, run);
    ShapeOf(s, d);
    StepKeeps(s, a);
    var v, s' := s.deliveries[d], Next(s, a);
    var target := v.req.target;
    if Refused(s, v.handler, target) {
      RunDecided(s', more, d, Failed);
    } else if Passes(s, v.handler, target) {
      RunBound(s', more, d, target, s.sessions[target].pid, |s.log|);
    }
  }
}
