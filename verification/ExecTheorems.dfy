/** What the command lifecycle guarantees over every run and every interleaving. */
module ExecTheorems {
  import opened Basics
  import opened ExecLifecycle
  import opened ExecInvariant
  import opened ExecSteps

  // ---- what a step may not take back ----

  /** Sessions and registrations stay, exits and pids are final, and the log only grows. */
  ghost predicate Grows(s: State, s': State) {
    && |s.deliveries| <= |s'.deliveries|
    && (forall d :: 0 <= d < |s.deliveries| ==>
          s'.deliveries[d].id == s.deliveries[d].id &&
            (s.deliveries[d].sid.Some? ==> s'.deliveries[d].sid == s.deliveries[d].sid))
    && (forall d: nat :: Registered(s, d) ==> Registered(s', d))
    && (forall k :: k in s.sessions ==>
          && k in s'.sessions
          && (s.sessions[k].exited ==> s'.sessions[k].exited)
          && (s.sessions[k].pid != 0 ==> s'.sessions[k].pid == s.sessions[k].pid))
    && s.log <= s'.log
  }

  lemma GrowsTransitive(s: State, t: State, u: State)
    requires Grows(s, t) && Grows(t, u)
    ensures Grows(s, u)
  {
    forall d | 0 <= d < |s.deliveries|
      ensures u.deliveries[d].id == s.deliveries[d].id
      ensures s.deliveries[d].sid.Some? ==> u.deliveries[d].sid == s.deliveries[d].sid
    {
      assert t.deliveries[d].id == s.deliveries[d].id;
    }
  }

  lemma StepGrows(s: State, a: Action)
    requires Inv(s) && Enabled(s, a)
    ensures Grows(s, Next(s, a))
  {
    StepKeeps(s, a);
  }

  /** Over any continuation of any run: exits, pids, registrations and sent results are never revoked. */
  lemma {:induction false} NothingRevoked(s: State, run: seq<Action>)
    requires Inv(s) && Legal(s, run)
    ensures Grows(s, After(s, run))
    decreases run
  {
    if run != [] {
      StepGrows(s, run[0]);
      StepKeeps(s, run[0]);
      NothingRevoked(Next(s, run[0]), run[1..]);
      GrowsTransitive(s, Next(s, run[0]), After(s, run));
    }
  }

  // ---- results ----

  /** Every goroutine that could still send a terminal result for `d` has ended. */
  predicate Settled(v: Delivery) {
    && v.handler.Done?
    && (v.wait.WaitOff? || v.wait.WaitEnded?)
    && (v.timeout.TimeoutOff? || v.timeout.Cancelled? || v.timeout.TimeoutEnded?)
  }

  /** The spawn-failure branch has sent its result. */
  predicate Reported(v: Delivery) {
    v.sid.Some? && Finished(v.handler) && v.wait.WaitOff?
  }

  /**
   Whatever the interleaving, a delivery that has not armed a PTY timeout, be it no PTY command or
   one whose process was never started, has sent at most one completed or failed result, and exactly
   one once its wait goroutine or its spawn-failure branch has ended, even if the handler has still
   to insert its entry, or once it has replied. Every delivery sends at most one running result, and
   that only when a yield interval was asked for.
   */
  lemma OneTerminalResult(brain: bool, run: seq<Action>, d: nat)
    requires Legal(Init(brain), run) && d < |After(Init(brain), run).deliveries|
    ensures
      var s := After(Init(brain), run);
      var v := s.deliveries[d];
      && (v.req.Exec? && v.req.pty ==> Terminals(s.log, d) <= 2)
      && (v.timeout.TimeoutOff? ==> Terminals(s.log, d) <= 1)
      && (v.timeout.TimeoutOff? && (Settled(v) || v.wait.WaitEnded? || Reported(v)) ==> Terminals(s.log, d) == 1)
      && Yields(s.log, d) <= 1
      && (Yields(s.log, d) == 1 ==> v.req.Exec? && v.req.yieldMs > 0)
  {
    ReachableInv(brain, run);
    assert DeliveryInv(After(Init(brain), run), d);
  }

  /**
   A PTY process whose wait goroutine was started: one terminal result for the wait goroutine
   plus one if, and only if, the timeout callback ran; and the wait goroutine never ends with
   the timer still armed.
   */
  lemma PtyResults(brain: bool, run: seq<Action>, d: nat)
    requires Legal(Init(brain), run) && d < |After(Init(brain), run).deliveries|
    requires After(Init(brain), run).deliveries[d].req.Exec? && After(Init(brain), run).deliveries[d].req.pty
    requires !After(Init(brain), run).deliveries[d].wait.WaitOff?
    ensures
      var s := After(Init(brain), run);
      var v := s.deliveries[d];
      && Terminals(s.log, d) == One(v.wait.WaitEnded?) + One(v.timeout.TimeoutEnded?)
      && (Settled(v) ==> Terminals(s.log, d) == (if v.timeout.Cancelled? then 1 else 2))
      && (v.wait.WaitEnded? ==> !v.timeout.TimeoutArmed?)
  {
    ReachableInv(brain, run);
    assert DeliveryInv(After(Init(brain), run), d);
  }

  /**
   A terminal result of a command that got as far as a session is sent only after MarkExited, and
   it says completed exactly when the exit code it reports on is 0.
   */
  lemma TerminalAfterExit(brain: bool, run: seq<Action>, j: nat)
    requires Legal(Init(brain), run) && j < |After(Init(brain), run).log|
    requires After(Init(brain), run).log[j].Result? && After(Init(brain), run).log[j].status != Running
    ensures
      var s := After(Init(brain), run);
      var d := s.log[j].d;
      && d < |s.deliveries| && s.log[j].id == s.deliveries[d].id
      && (s.deliveries[d].sid.Some? ==> ExitFits(s.log, j, s.deliveries[d].sid.value, s.log[j].status))
  {
    ReachableInv(brain, run);
    var s := After(Init(brain), run);
    assert DeliveryInv(s, s.log[j].d);
    assert IsTerminal(s.log[j], s.log[j].d);
  }

  // ---- sessions and signals ----

  /**
   A session is exited exactly when one of the goroutines that may mark it has done so; then its
   exit code is set, its stdin is closed, and the recorded code and signal are those of one of
   the MarkExited calls. Its pid is set exactly when the process was started, it is backgrounded
   exactly when the yield callback got that far, and a live process keeps its stdin.
   */
  lemma SessionLifecycle(brain: bool, run: seq<Action>, d: nat)
    requires Legal(Init(brain), run) && HasSession(After(Init(brain), run), d)
    ensures
      var s := After(Init(brain), run);
      var v, ss := s.deliveries[d], Sess(s, d);
      && (ss.exited <==> exists i :: 0 <= i < |s.log| && s.log[i].Exit? && s.log[i].sid == v.sid.value)
      && (ss.exited ==>
            && ss.exitCode.Some? && !ss.stdinOpen
            && exists i :: 0 <= i < |s.log| && s.log[i] == Exit(v.sid.value, ss.exitCode.value, ss.exitSignal))
      && (ss.pid != 0 <==> ProcessUp(v))
      && (ss.backgrounded <==> Backgrounds(v))
      && (!ss.exited ==> ss.exitCode.None? && ss.exitSignal == "")
      && (!ss.exited && StdinUp(v) ==> ss.stdinOpen)
      && (ss.stdinOpen ==> !ss.exited && (StdinUp(v) || v.handler.FailMark?))
      && (Settled(v) ==> ss.exited)
  {
    ReachableInv(brain, run);
    assert DeliveryInv(After(Init(brain), run), d);
  }

  /** A delayed SIGKILL follows a delivered SIGTERM to the same session and no MarkExited. */
  lemma KillOrder(brain: bool, run: seq<Action>, j: nat)
    requires Legal(Init(brain), run) && j < |After(Init(brain), run).log| && After(Init(brain), run).log[j].Kill?
    ensures
      var log := After(Init(brain), run).log;
      TermBefore(log, j, log[j].sid) && !ExitBefore(log, j, log[j].sid)
  {
    ReachableInv(brain, run);
  }

  /** KillSession and its delayed SIGKILL signal only the process of the session they were called for, never pid 0. */
  lemma SignalsAimed(brain: bool, run: seq<Action>, more: seq<Action>, j: nat)
    requires Legal(Init(brain), run) && Legal(After(Init(brain), run), more)
    requires j < |After(Init(brain), run).log|
    requires After(Init(brain), run).log[j].Term? || After(Init(brain), run).log[j].Kill?
    ensures
      var e, t := After(Init(brain), run).log[j], After(After(Init(brain), run), more);
      e.pid > 0 && e.sid in t.sessions && t.sessions[e.sid].pid == e.pid
  {
    ReachableInv(brain, run);
    NothingRevoked(After(Init(brain), run), more);
  }

  // ---- Stop ----

  /**
   Before `Stop` clears it, activeCommands binds a live session of a command with its own id to
   that id if and only if the handler has registered it; and the process of such a session has
   been started.
   */
  lemma StopCoverage(brain: bool, run: seq<Action>, d: nat)
    requires Legal(Init(brain), run)
    requires HasSession(After(Init(brain), run), d) && UniqueId(After(Init(brain), run), d)
    requires !After(Init(brain), run).stop.Stopped? && !Sess(After(Init(brain), run), d).exited
    ensures
      var s := After(Init(brain), run);
      && (Bound(s, d) <==> Registered(s, d))
      && (Registered(s, d) ==> Sess(s, d).pid > 0)
  {
    ReachableInv(brain, run);
    var s := After(Init(brain), run);
    assert DeliveryInv(s, d);
    if Bound(s, d) {
      var e: nat :| Registered(s, e) && s.deliveries[e].id == s.deliveries[d].id &&
        s.deliveries[e].sid.value == s.active[s.deliveries[d].id];
      assert e == d;
    }
  }

  /** The entry that `Stop` may go on with. */
  lemma StopPicks(s: State) returns (id: string)
    requires StopSane(s) && !s.stop.Stopped?
    ensures StopEnabled(s, id)
  {
    if s.stop.Stopping? && s.stop.at.Between? && s.stop.todo != {} {
      id :| id in s.stop.todo;
    } else {
      id := "";
    }
  }

  /** Once `Stop` has begun it is never blocked: there is always a next entry, and it is still in the map. */
  lemma StopNeverBlocks(brain: bool, run: seq<Action>)
    requires Legal(Init(brain), run) && After(Init(brain), run).stop.Stopping?
    ensures exists id :: StopEnabled(After(Init(brain), run), id)
  {
    ReachableInv(brain, run);
    var id := StopPicks(After(Init(brain), run));
  }

  /** The session has exited, or `Stop` itself has called KillSession for it at log index `from` or later. */
  ghost predicate Handled(s: State, sid: string, from: nat) {
    || (sid in s.sessions && s.sessions[sid].exited)
    || exists i :: from <= i < |s.log| && s.log[i].Term? && s.log[i].sid == sid && s.log[i].byStop
  }

  /** `Stop` has dealt with the session of `d`, is dealing with it, or still has it on its list. */
  ghost predicate OnTheList(s: State, d: nat, from: nat) {
    && Registered(s, d)
    && var sid := s.deliveries[d].sid.value;
    && (Handled(s, sid, from) ||
        match s.stop
        case NotStarted => true
        case Stopping(todo, at) =>
          || (s.deliveries[d].id in todo && Bound(s, d))
          || at == ReadExited(sid) || at == ReadPid(sid) || (at.SendTerm? && at.sid == sid)
        case Stopped => false)
  }

  lemma HandledGrows(s: State, s': State, sid: string, from: nat)
    requires Grows(s, s') && Handled(s, sid, from)
    ensures Handled(s', sid, from)
  {
    if !(sid in s.sessions && s.sessions[sid].exited) {
      var i :| from <= i < |s.log| && s.log[i].Term? && s.log[i].sid == sid && s.log[i].byStop;
      assert s'.log[i] == s.log[i];
    }
  }

  lemma StopStepKeepsList(s: State, id: string, ok: bool, d: nat, from: nat)
    requires Inv(s) && StopEnabled(s, id) && OnTheList(s, d, from) && UniqueId(s, d) && from <= |s.log|
    requires !Handled(s, s.deliveries[d].sid.value, from)
    ensures OnTheList(NextStop(s, id, ok), d, from)
  {
    var s' := NextStop(s, id, ok);
    var sid := s.deliveries[d].sid.value;
    assert DeliveryInv(s, d);
    assert Sess(s, d).pid > 0;
    if s.stop.NotStarted? {
      assert Bound(s, d);
    } else if s.stop.at.SendTerm? && s.stop.at.sid == sid {
      assert s'.log[|s.log|].Term? && s'.log[|s.log|].sid == sid;
    }
  }

  lemma StepKeepsList(s: State, a: Action, d: nat, from: nat)
    requires Inv(s) && Enabled(s, a) && OnTheList(s, d, from) && UniqueId(Next(s, a), d) && from <= |s.log|
    ensures OnTheList(Next(s, a), d, from) && UniqueId(s, d)
  {
    var s' := Next(s, a);
    StepGrows(s, a);
    assert Registered(s', d);
    assert UniqueId(s, d) by {
      assert forall e :: 0 <= e < |s.deliveries| ==> s'.deliveries[e].id == s.deliveries[e].id;
    }
    if Handled(s, s.deliveries[d].sid.value, from) {
      HandledGrows(s, s', s.deliveries[d].sid.value, from);
    } else if a.StopStep? {
      StopStepKeepsList(s, a.id, a.ok, d, from);
    } else {
      OthersKeepList(s, a, d, from);
    }
  }

  lemma OthersKeepList(s: State, a: Action, d: nat, from: nat)
    requires Inv(s) && Enabled(s, a) && !a.StopStep? && OnTheList(s, d, from)
    requires !Handled(s, s.deliveries[d].sid.value, from)
    requires UniqueId(s, d) && UniqueId(Next(s, a), d) && Grows(s, Next(s, a))
    ensures OnTheList(Next(s, a), d, from)
  {
    StepKeeps(s, a);
  }

  lemma {:induction false} RunKeepsList(s: State, run: seq<Action>, d: nat, from: nat)
    requires Inv(s) && Legal(s, run) && OnTheList(s, d, from) && UniqueId(After(s, run), d) && from <= |s.log|
    ensures OnTheList(After(s, run), d, from)
    decreases run
  {
    if run != [] {
      StepKeeps(s, run[0]);
      NothingRevoked(Next(s, run[0]), run[1..]);
      assert UniqueId(Next(s, run[0]), d) by {
        var t, u := Next(s, run[0]), After(s, run);
        StepGrows(s, run[0]);
        assert forall e :: 0 <= e < |t.deliveries| ==> u.deliveries[e].id == t.deliveries[e].id;
      }
      StepGrows(s, run[0]);
      StepKeepsList(s, run[0], d, from);
      RunKeepsList(Next(s, run[0]), run[1..], d, from);
    }
  }

  /**
   Stop leaves no registered command behind: whatever is interleaved with it, and whatever was
   signalled before, when `Stop` has finished, each command that was registered before it began has
   exited, or `Stop` itself has called KillSession for it.
   */
  lemma StopKillsAll(brain: bool, before: seq<Action>, during: seq<Action>, d: nat)
    requires Legal(Init(brain), before) && Legal(After(Init(brain), before), during)
    requires After(Init(brain), before).stop.NotStarted? && Registered(After(Init(brain), before), d)
    requires After(After(Init(brain), before), during).stop.Stopped?
    requires d < |After(After(Init(brain), before), during).deliveries|
    requires UniqueId(After(After(Init(brain), before), during), d)
    ensures
      var s, t := After(Init(brain), before), After(After(Init(brain), before), during);
      Handled(t, s.deliveries[d].sid.value, |s.log|)
  {
    var s := After(Init(brain), before);
    ReachableInv(brain, before);
    NothingRevoked(s, during);
    RunKeepsList(s, during, d, |s.log|);
  }

  /** `Stop` is not dealing with the live session of `d`, and has not from index `from` on. */
  ghost predicate Spared(s: State, d: nat, from: nat) {
    && HasSession(s, d) && !Registered(s, d) && !Handled(s, s.deliveries[d].sid.value, from)
    && (s.stop.Stopping? && !s.stop.at.Between? ==> s.stop.at.sid != s.deliveries[d].sid.value)
  }

  lemma StopSpares(s: State, d: nat, from: nat, id: string, ok: bool)
    requires Inv(s) && Spared(s, d, from) && StopEnabled(s, id)
    ensures Spared(NextStop(s, id, ok), d, from)
  {
    var s' := NextStop(s, id, ok);
    if s.stop.Stopping? && s.stop.at.Between? && s.stop.todo != {} {
      assert exists e: nat :: Registered(s, e) && s.deliveries[e].id == id && s.deliveries[e].sid.value == s.active[id];
    }
    assert forall i :: 0 <= i < |s.log| ==> s'.log[i] == s.log[i];
    assert |s'.log| > |s.log| ==> s'.log == s.log + [Term(s.stop.at.sid, s.stop.at.pid, ok, true)];
  }

  /** A bound on the steps `Stop` still has to take. */
  function StepsLeft(s: State): nat {
    match s.stop
    case NotStarted => 4 * |s.active.Keys| + 2
    case Stopping(todo, at) => 4 * |todo| + 1 + ClosureLeft(at)
    case Stopped => 0
  }

  function ClosureLeft(at: ClosurePc): nat {
    match at
    case Between => 0
    case ReadExited(_) => 3
    case ReadPid(_) => 2
    case SendTerm(_, _) => 1
  }

  /** Every step of `Stop` brings it closer to its end. */
  lemma StopShrinks(s: State, id: string, ok: bool)
    requires StopEnabled(s, id) && !s.stop.Stopped?
    ensures StepsLeft(NextStop(s, id, ok)) < StepsLeft(s)
  {
    var stop' := NextStop(s, id, ok).stop;
    if s.stop.Stopping? && !stop'.Stopped? {
      assert stop'.todo == s.stop.todo || (s.stop.at.Between? && stop'.todo == s.stop.todo - {id} &&
        |stop'.todo| == |s.stop.todo| - 1);
    }
  }

  /** One step of `Stop`, for the entry `id`. */
  lemma StopMoves(s: State) returns (id: string)
    requires Inv(s) && !s.stop.Stopped?
    ensures StopEnabled(s, id) && Inv(NextStop(s, id, true)) && !NextStop(s, id, true).stop.NotStarted?
    ensures NextStop(s, id, true).deliveries == s.deliveries && StepsLeft(NextStop(s, id, true)) < StepsLeft(s)
  {
    id := StopPicks(s);
    StopKeeps(s, id, true);
    StopGoesOn(s, id, true);
    StopShrinks(s, id, true);
  }

  lemma StopGoesOn(s: State, id: string, ok: bool)
    requires StopEnabled(s, id)
    ensures NextStop(s, id, ok).deliveries == s.deliveries && !NextStop(s, id, ok).stop.NotStarted?
  {
  }

  /** `Stop`, from here to its end with nobody else moving, never touches the session of an unregistered command. */
  lemma {:induction false} StopAlone(s: State, d: nat, from: nat) returns (run: seq<Action>)
    requires Inv(s) && Spared(s, d, from)
    ensures Legal(s, run)
    ensures After(s, run).stop.Stopped? && After(s, run).deliveries == s.deliveries && Spared(After(s, run), d, from)
    decreases StepsLeft(s)
  {
    if s.stop.Stopped? { return []; }
    var id := StopMoves(s);
    StopSpares(s, d, from, id, true);
    var rest := StopAlone(NextStop(s, id, true), d, from);
    run := [StopStep(id, true)] + rest;
  }

  /**
   What `Stop` covers, exactly: a live session, signalled before or not, is sure to have exited or
   been signalled by `Stop` when `Stop` is done, whatever is interleaved, if and only if its handler
   had inserted the activeCommands entry when `Stop` took the lock.
   */
  lemma StopCoversExactly(brain: bool, before: seq<Action>, d: nat)
    requires Legal(Init(brain), before) && After(Init(brain), before).stop.NotStarted?
    requires HasSession(After(Init(brain), before), d) && UniqueId(After(Init(brain), before), d)
    requires !Sess(After(Init(brain), before), d).exited
    ensures
      var s := After(Init(brain), before);
      (forall during :: Legal(s, during) && After(s, during).stop.Stopped? && UniqueId(After(s, during), d) ==>
        Handled(After(s, during), s.deliveries[d].sid.value, |s.log|))
      <==> Registered(s, d)
  {
    var s := After(Init(brain), before);
    ReachableInv(brain, before);
    if Registered(s, d) {
      forall during | Legal(s, during) && After(s, during).stop.Stopped? && UniqueId(After(s, during), d)
        ensures Handled(After(s, during), s.deliveries[d].sid.value, |s.log|)
      {
        StopKillsAll(brain, before, during, d);
      }
    } else {
      var during := StopAlone(s, d, |s.log|);
      assert UniqueId(After(s, during), d);
    }
  }
}
