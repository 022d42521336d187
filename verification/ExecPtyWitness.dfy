/** Runs in which a PTY command sends two terminal results, in either order. */
module ExecPtyWitness {
  import opened ExecLifecycle
  import opened ExecInvariant
  import opened ExecSteps
  import opened ExecProgress
  import opened ExecWitness
  import S = Sessions

  function Pty(yieldMs: int): Request {
    Exec(false, true, yieldMs)
  }

  function YieldFor(yieldMs: int): YieldPc {
    if yieldMs > 0 then YieldArmed else YieldOff
  }

  function LaunchedPty(yieldMs: int): Delivery {
    OpenedAs("c", Pty(yieldMs), A)
      .(handler := Insert, timeout := TimeoutArmed, yielder := YieldFor(yieldMs), out := Reading, wait := Waiting)
  }

  /** A PTY command is spawned, up to the point where its activeCommands entry is due. */
  lemma PtyRun(yieldMs: int) returns (run: seq<Action>)
    ensures Plays(Init(false), run, With(Init(false), LaunchedPty(yieldMs), A, LIVE))
  {
    var s, v, idle := Init(false), OpenedAs("c", Pty(yieldMs), A), S.NewSession(0);
    run := OpenRun(s, [], s, "c", Pty(yieldMs), A);
    run := Moves(s, run, s, v, A, idle, v.(handler := Spawned(1)), idle);
    run := Moves(s, run, s, v.(handler := Spawned(1)), A, idle, v.(handler := AttachPty), S.NewSession(1));
    run := Moves(s, run, s, v.(handler := AttachPty), A, S.NewSession(1), v.(handler := ArmTimeout), LIVE);
    run := PtyTimersRun(s, run, yieldMs);
  }

  lemma PtyTimersRun(s: State, run: seq<Action>, yieldMs: int) returns (run': seq<Action>)
    requires Plays(s, run, With(s, OpenedAs("c", Pty(yieldMs), A).(handler := ArmTimeout), A, LIVE))
    ensures Plays(s, run', With(s, LaunchedPty(yieldMs), A, LIVE))
  {
    var v := OpenedAs("c", Pty(yieldMs), A).(handler := ArmTimeout);
    var v1 := v.(handler := ArmYield, timeout := TimeoutArmed);
    run' := Moves(s, run, s, v, A, LIVE, v1, LIVE);
    run' := Moves(s, run', s, v1, A, LIVE, v1.(handler := StartOut, yielder := YieldFor(yieldMs)), LIVE);
    run' := PtyStartRun(s, run', yieldMs);
  }

  lemma PtyStartRun(s: State, run: seq<Action>, yieldMs: int) returns (run': seq<Action>)
    requires
      var v := LaunchedPty(yieldMs).(handler := StartOut, out := Off, wait := WaitOff);
      Plays(s, run, With(s, v, A, LIVE))
    ensures Plays(s, run', With(s, LaunchedPty(yieldMs), A, LIVE))
  {
    var v := LaunchedPty(yieldMs).(handler := StartOut, out := Off, wait := WaitOff);
    var v1 := v.(handler := StartWait, out := Reading);
    run' := Moves(s, run, s, v, A, LIVE, v1, LIVE);
    run' := Moves(s, run', s, v1, A, LIVE, LaunchedPty(yieldMs), LIVE);
  }

  /** `log'` ends with a terminal result of the first command. */
  predicate EndsWith(log: seq<Event>, log': seq<Event>, status: Status) {
    |log| < |log'| && log <= log' && IsTerminal(log'[|log'| - 1], 0) && log'[|log'| - 1].status == status
  }

  // ---- the timeout callback to its end ----

  lemma TimeoutReports(t: State)
    requires HasSession(t, 0) && MuFree(t) && TimeoutLeft(t.deliveries[0].timeout) > 0
    ensures
      var t' := TimeoutStep(t, 0);
      && HasSession(t', 0) && t'.stop == t.stop && t.log <= t'.log
      && t'.deliveries[0].wait == t.deliveries[0].wait && t'.deliveries[0].req == t.deliveries[0].req
      && TimeoutLeft(t'.deliveries[0].timeout) == TimeoutLeft(t.deliveries[0].timeout) - 1
      && (t.deliveries[0].timeout.TimeoutDue? ==>
              t'.deliveries[0].timeout.TimeoutEnded? &&
              EndsWith(t.log, t'.log, Failed))
  {
  }

  lemma {:induction false} TimeoutToEnd(s: State, run: seq<Action>, t: State) returns (run': seq<Action>, t': State)
    requires Plays(s, run, t) && HasSession(t, 0) && MuFree(t) && TimeoutLeft(t.deliveries[0].timeout) > 0
    ensures Plays(s, run', t') && HasSession(t', 0) && MuFree(t')
    ensures t'.deliveries[0].wait == t.deliveries[0].wait && t'.deliveries[0].req == t.deliveries[0].req
    ensures t'.deliveries[0].timeout.TimeoutEnded? && EndsWith(t.log, t'.log, Failed)
    decreases TimeoutLeft(t.deliveries[0].timeout)
  {
    var a := Act(0, TimeoutTimer, NO_ENV);
    TimeoutReports(t);
    Then(s, run, t, a);
    run', t' := run + [a], TimeoutStep(t, 0);
    if !t.deliveries[0].timeout.TimeoutDue? {
      run', t' := TimeoutToEnd(s, run', t');
    }
  }

  // ---- the wait goroutine to its end ----

  /** How many steps the wait goroutine has left, for a process that exits with code 0. */
  function CleanLeft(pc: WaitPc): nat {
    match pc
    case Waiting => 8
    case Returned(code) => if code == 0 then 7 else 0
    case TimerStopped(code) => if code == 0 then 6 else 0
    case Exiting(timedOut, code) => if !timedOut && code == 0 then 5 else 0
    case WaitMarked(status) => if status == Completed then 4 else 0
    case WaitDeleted(status) => if status == Completed then 3 else 0
    case WaitRead(status, _) => if status == Completed then 2 else 0
    case WaitDue(status, _, _) => if status == Completed then 1 else 0
    case _ => 0
  }

  /** From `t` to `t'` the wait goroutine has come one step closer to its end. */
  predicate Advances(t: State, t': State)
    requires HasSession(t, 0)
  {
    && HasSession(t', 0) && t'.stop == t.stop && t.log <= t'.log && t'.deliveries[0].req == t.deliveries[0].req
    && t'.deliveries[0].yielder == t.deliveries[0].yielder && |t'.deliveries| == |t.deliveries|
    && (!t.deliveries[0].timeout.TimeoutArmed? ==> t'.deliveries[0].timeout == t.deliveries[0].timeout)
    && CleanLeft(t'.deliveries[0].wait) == CleanLeft(t.deliveries[0].wait) - 1
    && (t.deliveries[0].wait.WaitDue? ==> t'.deliveries[0].wait.WaitEnded? && EndsWith(t.log, t'.log, Completed))
  }

  lemma WaitReports(t: State)
    requires HasSession(t, 0) && MuFree(t) && WantsPty(t.deliveries[0]) && CleanLeft(t.deliveries[0].wait) > 0
    ensures Advances(t, WaitStep(t, 0, NO_ENV))
  {
    if HasStatus(t.deliveries[0]) {
      ReportAdvances(t);
    } else if t.deliveries[0].wait.Exiting? {
      ExitAdvances(t);
    }
  }

  lemma ReportAdvances(t: State)
    requires HasSession(t, 0) && MuFree(t) && HasStatus(t.deliveries[0]) && CleanLeft(t.deliveries[0].wait) > 0
    ensures Advances(t, WaitStep(t, 0, NO_ENV))
  {
  }

  lemma ExitAdvances(t: State)
    requires HasSession(t, 0) && t.deliveries[0].wait.Exiting? && CleanLeft(t.deliveries[0].wait) > 0
    ensures Advances(t, WaitStep(t, 0, NO_ENV))
  {
  }

  lemma {:induction false} WaitToEnd(s: State, run: seq<Action>, t: State) returns (run': seq<Action>, t': State)
    requires Plays(s, run, t) && HasSession(t, 0) && MuFree(t) && WantsPty(t.deliveries[0])
    requires CleanLeft(t.deliveries[0].wait) > 0
    ensures Plays(s, run', t') && HasSession(t', 0) && MuFree(t') && t'.deliveries[0].req == t.deliveries[0].req
    ensures !t.deliveries[0].timeout.TimeoutArmed? ==> t'.deliveries[0].timeout == t.deliveries[0].timeout
    ensures t'.deliveries[0].yielder == t.deliveries[0].yielder && |t'.deliveries| == |t.deliveries|
    ensures t'.deliveries[0].wait.WaitEnded? && EndsWith(t.log, t'.log, Completed)
    decreases CleanLeft(t.deliveries[0].wait)
  {
    var a := Act(0, Waiter, NO_ENV);
    WaitReports(t);
    Then(s, run, t, a);
    run', t' := run + [a], WaitStep(t, 0, NO_ENV);
    if !t.deliveries[0].wait.WaitDue? {
      run', t' := WaitToEnd(s, run', t');
    }
  }

  // ---- both orders ----

  /** The first command has sent two terminal results, `first` before `second`. */
  predicate TwoResults(s: State, first: Status, second: Status) {
    && Terminals(s.log, 0) == 2
    && exists i, j :: 0 <= i < j < |s.log| && IsTerminal(s.log[i], 0) && s.log[i].status == first &&
         IsTerminal(s.log[j], 0) && s.log[j].status == second
  }

  /** The command is launched and its timeout fires. */
  lemma FiredRun() returns (run: seq<Action>, t: State)
    ensures Plays(Init(false), run, t) && HasSession(t, 0) && MuFree(t)
    ensures t.deliveries[0] == LaunchedPty(0).(timeout := Fired)
  {
    run := PtyRun(0);
    var t0, a := With(Init(false), LaunchedPty(0), A, LIVE), Act(0, TimeoutTimer, NO_ENV);
    Then(Init(false), run, t0, a);
    run, t := run + [a], Next(t0, a);
  }

  lemma BothReported(run: seq<Action>, t: State, t1: State, first: Status, second: Status)
    requires Plays(Init(false), run, t) && HasSession(t, 0) && t.deliveries[0].wait.WaitEnded?
    requires t.deliveries[0].timeout.TimeoutEnded?
    requires |t1.log| > 0 && IsTerminal(t1.log[|t1.log| - 1], 0) && t1.log[|t1.log| - 1].status == first
    requires EndsWith(t1.log, t.log, second)
    ensures TwoResults(t, first, second)
  {
    ReachableInv(false, run);
    assert DeliveryInv(t, 0);
    assert t.log[|t1.log| - 1] == t1.log[|t1.log| - 1];
  }

  /** The timeout callback reports failed, and then the wait goroutine reports completed. */
  lemma TimeoutReportsFirst()
    ensures exists run :: Legal(Init(false), run) && TwoResults(After(Init(false), run), Failed, Completed)
  {
    var run, t := FiredRun();
    var run1, t1 := TimeoutToEnd(Init(false), run, t);
    var run2, t2 := WaitToEnd(Init(false), run1, t1);
    BothReported(run2, t2, t1, Failed, Completed);
  }

  /** The wait goroutine reports completed, and then the timeout callback, already running, reports failed. */
  lemma WaitReportsFirst()
    ensures exists run :: Legal(Init(false), run) && TwoResults(After(Init(false), run), Completed, Failed)
  {
    var run, t := FiredRun();
    var run1, t1 := WaitToEnd(Init(false), run, t);
    var run2, t2 := TimeoutToEnd(Init(false), run1, t1);
    BothReported(run2, t2, t1, Completed, Failed);
  }

  // ---- running after the terminal result ----

  /** The yield callback has tested Exited, the wait goroutine has reported, and the callback goes on. */
  lemma PtyRunningFollows(yieldMs: int) returns (run: seq<Action>)
    requires yieldMs > 0
    ensures RunningFollows(run, true, yieldMs)
  {
    var s, fire := Init(false), Act(0, YieldTimer, NO_ENV);
    run := PtyRun(yieldMs);
    var t := With(s, LaunchedPty(yieldMs), A, LIVE);
    Then(s, run, t, fire);
    var run1, t1 := WaitToEnd(s, run + [fire], Next(t, fire));
    Then(s, run1, t1, fire);
    var t2 := Next(t1, fire);
    var run2, t3 := YieldRun(s, run1 + [fire], t2);
    assert ReportsLate(t3, |t1.log| - 1, |t1.log|, true, yieldMs);
    run := run2;
  }

  /**
   A running result can follow the terminal one exactly for the commands that asked for a yield
   interval, with a PTY or without.
   */
  lemma RunningMayFollow(pty: bool, yieldMs: int)
    ensures (exists run :: RunningFollows(run, pty, yieldMs)) <==> yieldMs > 0
  {
    if yieldMs > 0 {
      var run: seq<Action>;
      if pty { run := PtyRunningFollows(yieldMs); } else { run := PipeRunningFollows(yieldMs); }
    } else if run :| RunningFollows(run, pty, yieldMs) {
      NoYieldNoRunning(run, pty, yieldMs);
    }
  }
}
