/** Which signals can still reach a session that has exited. */
module ExecSignals {
  import opened Basics
  import opened ExecLifecycle
  import opened ExecInvariant
  import opened ExecSteps
  import opened ExecTheorems

  /** `Stop` is past its test of Exited for this session. */
  predicate StopPoised(s: State, sid: string) {
    s.stop.Stopping? && (s.stop.at == ReadPid(sid) || (s.stop.at.SendTerm? && s.stop.at.sid == sid))
  }

  /** A kill request for this session is past its test of Exited. */
  predicate KillPoised(v: Delivery, sid: string) {
    (v.handler.KillPid? || v.handler.KillTerm?) && v.req.KillProcess? && v.req.target == sid
  }

  ghost predicate Poised(s: State, sid: string) {
    StopPoised(s, sid) || exists d :: 0 <= d < |s.deliveries| && KillPoised(s.deliveries[d], sid)
  }

  predicate ExitedIn(s: State, sid: string) {
    sid in s.sessions && s.sessions[sid].exited
  }

  /** No SIGTERM for `sid` has been sent from log index `from` on. */
  predicate NoTerm(log: seq<Event>, from: nat, sid: string) {
    forall j :: from <= j < |log| && log[j].Term? ==> log[j].sid != sid
  }

  /** `Stop` has sent none. */
  predicate NoStopTerm(log: seq<Event>, from: nat, sid: string) {
    forall j :: from <= j < |log| && log[j].Term? && log[j].byStop ==> log[j].sid != sid
  }

  // ---- one step ----

  /** A goroutine of `d` that sends a SIGTERM is the handler of a kill request, past its test. */
  predicate TermsFromKill(s: State, s': State, d: nat)
    requires d < |s.deliveries|
  {
    forall j :: |s.log| <= j < |s'.log| && s'.log[j].Term? ==>
      s.deliveries[d].handler.KillTerm? && KillPoised(s.deliveries[d], s'.log[j].sid) && !s'.log[j].byStop
  }

  lemma HandlerTerms(s: State, d: nat, env: Env)
    requires HandlerEnabled(s, d, env) && Shape(s.deliveries[d])
    ensures TermsFromKill(s, HandlerStep(s, d, env), d)
  {
  }

  lemma ReaderTerms(s: State, d: nat, isErr: bool, env: Env)
    requires ReaderEnabled(s, d, isErr, env)
    ensures TermsFromKill(s, ReaderStep(s, d, isErr, env), d)
  {
  }

  lemma TimerTerms(s: State, d: nat)
    ensures YieldEnabled(s, d) ==> TermsFromKill(s, YieldStep(s, d), d)
    ensures TimeoutEnabled(s, d) ==> TermsFromKill(s, TimeoutStep(s, d), d)
  {
  }

  lemma WaitTerms(s: State, d: nat, env: Env)
    requires WaitEnabled(s, d)
    ensures TermsFromKill(s, WaitStep(s, d, env), d)
  {
  }

  lemma ActTerms(s: State, d: nat, actor: Actor, env: Env)
    requires Enabled(s, Act(d, actor, env)) && d < |s.deliveries| && Shape(s.deliveries[d])
    ensures TermsFromKill(s, Next(s, Act(d, actor, env)), d)
  {
    match actor
    case Handler => HandlerTerms(s, d, env);
    case StdoutReader => ReaderTerms(s, d, false, env);
    case StderrReader => ReaderTerms(s, d, true, env);
    case YieldTimer => TimerTerms(s, d);
    case TimeoutTimer => TimerTerms(s, d);
    case Waiter => WaitTerms(s, d, env);
  }

  /** A handler gets past the test only while the session is live. */
  lemma HandlerPoises(s: State, d: nat, env: Env, sid: string)
    requires HandlerEnabled(s, d, env) && ExitedIn(s, sid) && KillPoised(HandlerStep(s, d, env).deliveries[d], sid)
    ensures KillPoised(s.deliveries[d], sid)
  {
    var v := s.deliveries[d];
    if OnlyMoves(v.handler) {
      MovePoises(s, v, env, sid);
    } else if v.handler.Adding? || v.handler.Opening? || v.handler.Spawned? || v.handler.AttachPty? {
      LaunchPoises(s, d, env, sid);
    } else {
      SettlePoises(s, d, env, sid);
    }
  }

  lemma MovePoises(s: State, v: Delivery, env: Env, sid: string)
    requires OnlyMoves(v.handler) && ExitedIn(s, sid) && KillPoised(Move(s, v, env), sid)
    ensures KillPoised(v, sid)
  {
  }

  lemma LaunchPoises(s: State, d: nat, env: Env, sid: string)
    requires HandlerEnabled(s, d, env)
    requires KillPoised(Launch(s, d, env).deliveries[d], sid)
    ensures KillPoised(s.deliveries[d], sid)
  {
  }

  lemma SettlePoises(s: State, d: nat, env: Env, sid: string)
    requires HandlerEnabled(s, d, env)
    requires KillPoised(Settle(s, d, env).deliveries[d], sid)
    ensures KillPoised(s.deliveries[d], sid)
  {
  }

  /** Readers, timers and the wait goroutine leave the handler and the request alone. */
  predicate SameHandler(v: Delivery, v': Delivery) {
    v'.handler == v.handler && v'.req == v.req && v'.sid == v.sid
  }

  lemma ReaderSameHandler(s: State, d: nat, isErr: bool, env: Env)
    requires ReaderEnabled(s, d, isErr, env)
    ensures
      var v, v' := s.deliveries[d], ReaderStep(s, d, isErr, env).deliveries[d];
      SameHandler(v, v') && v'.wait == v.wait && v'.timeout == v.timeout
  {
  }

  lemma YieldSameHandler(s: State, d: nat)
    requires YieldEnabled(s, d)
    ensures
      var v, v' := s.deliveries[d], YieldStep(s, d).deliveries[d];
      SameHandler(v, v') && v'.wait == v.wait && v'.timeout == v.timeout
  {
  }

  lemma TimeoutSameHandler(s: State, d: nat)
    requires TimeoutEnabled(s, d)
    ensures
      var v, v' := s.deliveries[d], TimeoutStep(s, d).deliveries[d];
      SameHandler(v, v') && v'.wait == v.wait && (v.timeout.TimeoutArmed? || v.timeout.Fired? ==>
        v'.timeout.Fired? || v'.timeout.TimeoutMarked?)
  {
  }

  /** Nor does the wait goroutine, and it passes its delete only from a state that reports. */
  predicate WaitMoved(v: Delivery, v': Delivery) {
    && SameHandler(v, v') && !v'.wait.WaitOff?
    && (TimeoutExited(v') ==> v'.timeout == v.timeout)
    && ((HasStatus(v') && !v'.wait.WaitMarked?) || v'.wait.WaitEnded? ==> HasStatus(v))
  }

  lemma WaitSameHandler(s: State, d: nat, env: Env)
    requires WaitEnabled(s, d)
    ensures WaitMoved(s.deliveries[d], WaitStep(s, d, env).deliveries[d])
  {
    if HasStatus(s.deliveries[d]) { ReportSameHandler(s, d, env); }
  }

  lemma ReportSameHandler(s: State, d: nat, env: Env)
    requires WaitEnabled(s, d) && HasStatus(s.deliveries[d])
    ensures WaitMoved(s.deliveries[d], WaitStep(s, d, env).deliveries[d])
  {
  }

  lemma ActPoises(s: State, d: nat, actor: Actor, env: Env, sid: string)
    requires Enabled(s, Act(d, actor, env)) && d < |s.deliveries| && ExitedIn(s, sid)
    requires KillPoised(Next(s, Act(d, actor, env)).deliveries[d], sid)
    ensures KillPoised(s.deliveries[d], sid)
  {
    match actor
    case Handler => HandlerPoises(s, d, env, sid);
    case StdoutReader => ReaderSameHandler(s, d, false, env);
    case StderrReader => ReaderSameHandler(s, d, true, env);
    case YieldTimer => YieldSameHandler(s, d);
    case TimeoutTimer => TimeoutSameHandler(s, d);
    case Waiter => WaitSameHandler(s, d, env);
  }

  /** What one step leaves as it is once the session has exited. */
  ghost predicate Quiet(s: State, s': State, sid: string) {
    && (!StopPoised(s, sid) ==> !StopPoised(s', sid) && NoStopTerm(s'.log, |s.log|, sid))
    && (!Poised(s, sid) ==> !Poised(s', sid) && NoTerm(s'.log, |s.log|, sid))
  }

  lemma ActQuiet(s: State, d: nat, actor: Actor, env: Env, sid: string)
    requires Inv(s) && Enabled(s, Act(d, actor, env)) && ExitedIn(s, sid)
    ensures Quiet(s, Next(s, Act(d, actor, env)), sid)
  {
    var s' := Next(s, Act(d, actor, env));
    StepKeeps(s, Act(d, actor, env));
    ShapeOf(s, d);
    ActTerms(s, d, actor, env);
    if KillPoised(s'.deliveries[d], sid) { ActPoises(s, d, actor, env, sid); }
    assert forall e :: 0 <= e < |s'.deliveries| && e != d ==> s'.deliveries[e] == s.deliveries[e];
  }

  lemma StopQuietFor(s: State, id: string, ok: bool, sid: string)
    requires StopEnabled(s, id) && ExitedIn(s, sid)
    ensures Quiet(s, NextStop(s, id, ok), sid)
  {
    assert NextStop(s, id, ok).deliveries == s.deliveries;
  }

  lemma StepQuiet(s: State, a: Action, sid: string)
    requires Inv(s) && Enabled(s, a) && ExitedIn(s, sid)
    ensures Quiet(s, Next(s, a), sid) && ExitedIn(Next(s, a), sid)
  {
    StepGrows(s, a);
    match a
    case Deliver(id, req) =>
      assert forall d :: 0 <= d < |s.deliveries| ==> Next(s, a).deliveries[d] == s.deliveries[d];
      assert !KillPoised(NewDelivery(id, req), sid);
    case Act(d, actor, env) => ActQuiet(s, d, actor, env, sid);
    case Wake(_) =>
    case StopStep(id, ok) => StopQuietFor(s, id, ok, sid);
  }

  lemma {:induction false} RunQuiet(s: State, more: seq<Action>, sid: string)
    requires Inv(s) && Legal(s, more) && ExitedIn(s, sid)
    ensures Quiet(s, After(s, more), sid)
    decreases more
  {
    if more != [] {
      var s', t := Next(s, more[0]), After(s, more);
      StepQuiet(s, more[0], sid);
      StepKeeps(s, more[0]);
      RunQuiet(s', more[1..], sid);
      StepGrows(s, more[0]);
      NothingRevoked(s', more[1..]);
      assert forall j :: 0 <= j < |s'.log| ==> t.log[j] == s'.log[j];
    }
  }

  /** Once a session has exited and `Stop` is not past its test for it, `Stop` never signals it again. */
  lemma StopLeavesExited(brain: bool, run: seq<Action>, more: seq<Action>, sid: string)
    requires Legal(Init(brain), run) && Legal(After(Init(brain), run), more)
    requires ExitedIn(After(Init(brain), run), sid) && !StopPoised(After(Init(brain), run), sid)
    ensures
      var s, t := After(Init(brain), run), After(After(Init(brain), run), more);
      !StopPoised(t, sid) && NoStopTerm(t.log, |s.log|, sid)
  {
    ReachableInv(brain, run);
    RunQuiet(After(Init(brain), run), more, sid);
  }

  // ---- stale entries ----

  /** A callback of the command has run its activeCommands delete. */
  predicate Deleted(v: Delivery) {
    || (HasStatus(v) && !v.wait.WaitMarked?) || v.wait.WaitEnded?
    || (TimeoutExited(v) && !v.timeout.TimeoutMarked?)
    || (SpawnFailed(v) && !v.handler.FailDelete?)
  }

  /** `Stop` is past its test only for sessions whose delete has not run. */
  ghost predicate DeletedUnpoised(s: State) {
    forall d :: 0 <= d < |s.deliveries| && s.deliveries[d].sid.Some? && Deleted(s.deliveries[d]) ==>
      !StopPoised(s, s.deliveries[d].sid.value)
  }

  lemma DeletedExited(s: State, d: nat)
    requires Inv(s) && d < |s.deliveries| && s.deliveries[d].sid.Some? && Deleted(s.deliveries[d])
    ensures ExitedIn(s, s.deliveries[d].sid.value)
  {
    assert DeliveryInv(s, d);
  }

  /** A delete runs only while `Stop` is outside its critical section. */
  lemma DeletesUnlocked(s: State, d: nat, actor: Actor, env: Env)
    requires Enabled(s, Act(d, actor, env)) && d < |s.deliveries| && Shape(s.deliveries[d]) && s.deliveries[d].sid.Some?
    requires !Deleted(s.deliveries[d]) && !MuFree(s)
    ensures !Deleted(Next(s, Act(d, actor, env)).deliveries[d])
  {
    match actor
    case Handler => HandlerUndeleted(s, d, env);
    case StdoutReader => ReaderSameHandler(s, d, false, env);
    case StderrReader => ReaderSameHandler(s, d, true, env);
    case YieldTimer => YieldSameHandler(s, d);
    case TimeoutTimer => TimeoutUndeleted(s, d);
    case Waiter => WaitUndeleted(s, d, env);
  }

  lemma TimeoutUndeleted(s: State, d: nat)
    requires TimeoutEnabled(s, d) && !Deleted(s.deliveries[d]) && !MuFree(s)
    ensures !Deleted(TimeoutStep(s, d).deliveries[d])
  {
    TimeoutSameHandler(s, d);
  }

  lemma WaitUndeleted(s: State, d: nat, env: Env)
    requires WaitEnabled(s, d) && !Deleted(s.deliveries[d]) && !MuFree(s)
    ensures !Deleted(WaitStep(s, d, env).deliveries[d])
  {
    WaitSameHandler(s, d, env);
  }

  lemma HandlerUndeleted(s: State, d: nat, env: Env)
    requires HandlerEnabled(s, d, env) && Shape(s.deliveries[d]) && s.deliveries[d].sid.Some?
    requires !Deleted(s.deliveries[d]) && !MuFree(s)
    ensures !Deleted(HandlerStep(s, d, env).deliveries[d])
  {
    var v := s.deliveries[d];
    if OnlyMoves(v.handler) {
      MoveUndeleted(s, v, env);
    } else if v.handler.Adding? || v.handler.Opening? || v.handler.Spawned? || v.handler.AttachPty? {
      LaunchUndeleted(s, d, env);
    } else {
      assert v.handler.FailMark? || v.handler.FailSend?;
    }
  }

  lemma MoveUndeleted(s: State, v: Delivery, env: Env)
    requires OnlyMoves(v.handler) && Shape(v) && v.sid.Some? && !Deleted(v)
    ensures !Deleted(Move(s, v, env))
  {
  }

  lemma LaunchUndeleted(s: State, d: nat, env: Env)
    requires HandlerEnabled(s, d, env) && Shape(s.deliveries[d]) && s.deliveries[d].sid.Some?
    requires !Deleted(s.deliveries[d])
    requires s.deliveries[d].handler.Opening? || s.deliveries[d].handler.Spawned? || s.deliveries[d].handler.AttachPty?
    ensures !Deleted(Launch(s, d, env).deliveries[d])
  {
  }

  lemma ActKeepsUnpoised(s: State, d: nat, actor: Actor, env: Env)
    requires Inv(s) && DeletedUnpoised(s) && Enabled(s, Act(d, actor, env))
    ensures DeletedUnpoised(Next(s, Act(d, actor, env)))
  {
    var s' := Next(s, Act(d, actor, env));
    StepKeeps(s, Act(d, actor, env));
    ShapeOf(s, d);
    assert s'.stop == s.stop;
    forall e | 0 <= e < |s'.deliveries| && s'.deliveries[e].sid.Some? && Deleted(s'.deliveries[e])
      ensures !StopPoised(s', s'.deliveries[e].sid.value)
    {
      if e == d && s.deliveries[d].sid.Some? && !Deleted(s.deliveries[d]) {
        if !MuFree(s) { DeletesUnlocked(s, d, actor, env); }
      } else if e == d && s.deliveries[d].sid.None? {
        AddsUndeleted(s, d, actor, env);
      } else {
        assert s'.deliveries[e].sid == s.deliveries[e].sid;
      }
    }
  }

  /** A session just registered has no delete behind it. */
  lemma AddsUndeleted(s: State, d: nat, actor: Actor, env: Env)
    requires Enabled(s, Act(d, actor, env)) && d < |s.deliveries| && Shape(s.deliveries[d]) && s.deliveries[d].sid.None?
    ensures Next(s, Act(d, actor, env)).deliveries[d].sid.Some? ==> !Deleted(Next(s, Act(d, actor, env)).deliveries[d])
  {
  }

  lemma StepKeepsUnpoised(s: State, a: Action)
    requires Inv(s) && DeletedUnpoised(s) && Enabled(s, a)
    ensures DeletedUnpoised(Next(s, a))
  {
    match a
    case Deliver(_, _) =>
    case Act(d, actor, env) => ActKeepsUnpoised(s, d, actor, env);
    case Wake(_) =>
    case StopStep(id, ok) =>
      forall d | 0 <= d < |s.deliveries| && s.deliveries[d].sid.Some? && Deleted(s.deliveries[d])
        ensures !StopPoised(Next(s, a), s.deliveries[d].sid.value)
      {
        DeletedExited(s, d);
        StopQuietFor(s, id, ok, s.deliveries[d].sid.value);
      }
  }

  lemma {:induction false} RunKeepsUnpoised(s: State, run: seq<Action>)
    requires Inv(s) && DeletedUnpoised(s) && Legal(s, run)
    ensures DeletedUnpoised(After(s, run))
    decreases run
  {
    if run != [] {
      StepKeeps(s, run[0]);
      StepKeepsUnpoised(s, run[0]);
      RunKeepsUnpoised(Next(s, run[0]), run[1..]);
    }
  }

  /**
   An entry left behind is inert. Every entry belongs to a registered command; and once a callback
   of a command has run its delete, the command's session has exited and `Stop`, whenever it runs
   and whether it finds the entry or not, never signals it.
   */
  lemma StaleEntriesAreInert(brain: bool, run: seq<Action>, more: seq<Action>, d: nat)
    requires Legal(Init(brain), run) && Legal(After(Init(brain), run), more)
    ensures
      var s, t := After(Init(brain), run), After(After(Init(brain), run), more);
      && (forall id :: id in s.active ==>
            exists e: nat :: Registered(s, e) && s.deliveries[e].id == id && s.deliveries[e].sid.value == s.active[id])
      && (HasSession(s, d) && Deleted(s.deliveries[d]) ==>
            && Sess(s, d).exited
            && !StopPoised(t, s.deliveries[d].sid.value) && NoStopTerm(t.log, |s.log|, s.deliveries[d].sid.value))
  {
    var s := After(Init(brain), run);
    ReachableInv(brain, run);
    InitHolds(brain);
    RunKeepsUnpoised(Init(brain), run);
    if HasSession(s, d) && Deleted(s.deliveries[d]) {
      DeletedExited(s, d);
      RunQuiet(s, more, s.deliveries[d].sid.value);
    }
  }

  // ---- SIGTERM after exit ----

  /** Only the handler that started the process writes its pid. */
  lemma ActPids(s: State, d: nat, actor: Actor, env: Env, sid: string)
    requires Enabled(s, Act(d, actor, env)) && d < |s.deliveries| && sid in s.sessions
    requires s.deliveries[d].handler.Spawned? ==> s.deliveries[d].sid != Some(sid)
    ensures
      var s' := Next(s, Act(d, actor, env));
      sid in s'.sessions && s'.sessions[sid].pid == s.sessions[sid].pid
  {
    match actor
    case Handler => HandlerPids(s, d, env, sid);
    case StdoutReader =>
    case StderrReader =>
    case YieldTimer =>
    case TimeoutTimer =>
    case Waiter =>
  }

  lemma HandlerPids(s: State, d: nat, env: Env, sid: string)
    requires HandlerEnabled(s, d, env) && sid in s.sessions
    requires s.deliveries[d].handler.Spawned? ==> s.deliveries[d].sid != Some(sid)
    ensures sid in HandlerStep(s, d, env).sessions && HandlerStep(s, d, env).sessions[sid].pid == s.sessions[sid].pid
  {
  }

  /** The pid of an exited session is final, even if it was never set. */
  lemma ExitedPidFinal(s: State, a: Action, sid: string)
    requires Inv(s) && Enabled(s, a) && ExitedIn(s, sid)
    ensures sid in Next(s, a).sessions && Next(s, a).sessions[sid].pid == s.sessions[sid].pid
  {
    if a.Act? {
      ShapeOf(s, a.d);
      ActPids(s, a.d, a.actor, a.env, sid);
    }
  }

  lemma {:induction false} RunExitedPidFinal(s: State, more: seq<Action>, sid: string)
    requires Inv(s) && Legal(s, more) && ExitedIn(s, sid)
    ensures sid in After(s, more).sessions && After(s, more).sessions[sid].pid == s.sessions[sid].pid
    decreases more
  {
    if more != [] {
      StepKeeps(s, more[0]);
      StepGrows(s, more[0]);
      ExitedPidFinal(s, more[0], sid);
      RunExitedPidFinal(Next(s, more[0]), more[1..], sid);
    }
  }

  const ENV := Env("", true, 1, 0, [], false)

  /** The step sends SIGTERM to `sid`. */
  lemma TermNow(s: State, a: Action, sid: string)
    requires Enabled(s, a) && |Next(s, a).log| > |s.log| && Next(s, a).log[|s.log|].Term?
    requires Next(s, a).log[|s.log|].sid == sid
    ensures Legal(s, [a]) && !NoTerm(After(s, [a]).log, |s.log|, sid)
  {
    assert After(s, [a]) == Next(s, a);
  }

  lemma TermNext(s: State, a: Action, b: Action, sid: string)
    requires Enabled(s, a) && |Next(s, a).log| == |s.log|
    requires Legal(Next(s, a), [b]) && !NoTerm(After(Next(s, a), [b]).log, |s.log|, sid)
    ensures Legal(s, [a, b]) && !NoTerm(After(s, [a, b]).log, |s.log|, sid)
  {
    assert [a, b][1..] == [b];
  }

  lemma PoisedStopSends(s: State, sid: string) returns (more: seq<Action>)
    requires sid in s.sessions && s.sessions[sid].pid != 0 && StopPoised(s, sid)
    ensures Legal(s, more) && !NoTerm(After(s, more).log, |s.log|, sid)
  {
    var a := StopStep("", true);
    if s.stop.at.SendTerm? {
      TermNow(s, a, sid);
      return [a];
    }
    TermNow(Next(s, a), a, sid);
    TermNext(s, a, a, sid);
    more := [a, a];
  }

  lemma PoisedKillSends(s: State, d: nat, sid: string) returns (more: seq<Action>)
    requires sid in s.sessions && s.sessions[sid].pid != 0 && d < |s.deliveries| && KillPoised(s.deliveries[d], sid)
    ensures Legal(s, more) && !NoTerm(After(s, more).log, |s.log|, sid)
  {
    var a := Act(d, Handler, ENV);
    if s.deliveries[d].handler.KillTerm? {
      TermNow(s, a, sid);
      return [a];
    }
    TermNow(Next(s, a), a, sid);
    TermNext(s, a, a, sid);
    more := [a, a];
  }

  /**
   SIGTERM after exit, exactly: from a state where the session has exited, no continuation sends it
   a SIGTERM if and only if its process was never started, or neither `Stop` nor any kill request is
   past its unlocked test of Exited for it.
   */
  lemma LateTermExactly(brain: bool, run: seq<Action>, sid: string)
    requires Legal(Init(brain), run) && ExitedIn(After(Init(brain), run), sid)
    ensures
      var s := After(Init(brain), run);
      (forall more :: Legal(s, more) ==> NoTerm(After(s, more).log, |s.log|, sid))
      <==> s.sessions[sid].pid == 0 || !Poised(s, sid)
  {
    var s := After(Init(brain), run);
    ReachableInv(brain, run);
    if s.sessions[sid].pid == 0 {
      forall more | Legal(s, more)
        ensures NoTerm(After(s, more).log, |s.log|, sid)
      {
        RunKeeps(s, more);
        RunExitedPidFinal(s, more, sid);
        assert Aimed(After(s, more));
      }
    } else if !Poised(s, sid) {
      forall more | Legal(s, more)
        ensures NoTerm(After(s, more).log, |s.log|, sid)
      {
        RunQuiet(s, more, sid);
      }
    } else if StopPoised(s, sid) {
      var more := PoisedStopSends(s, sid);
    } else {
      var d :| 0 <= d < |s.deliveries| && KillPoised(s.deliveries[d], sid);
      var more := PoisedKillSends(s, d, sid);
    }
  }

  // ---- entries of finished commands ----

  /** The command has registered and its entry is not in the map. */
  predicate Gone(s: State, d: nat) {
    Registered(s, d) && s.deliveries[d].id !in s.active
  }

  lemma EarlierUnique(s: State, t: State, d: nat)
    requires Grows(s, t) && UniqueId(t, d) && d < |s.deliveries|
    ensures UniqueId(s, d)
  {
    assert forall e :: 0 <= e < |s.deliveries| ==> t.deliveries[e].id == s.deliveries[e].id;
  }

  lemma LocalGone(s: State, s': State, e: nat, d: nat)
    requires LocalStep(s, s', e) && Gone(s, d) && UniqueId(s', d) && Registered(s', d)
    requires e == d ==> s'.active == s.active || s'.active == s.active - {s.deliveries[d].id}
    ensures Gone(s', d)
  {
  }

  lemma StepGone(s: State, a: Action, d: nat)
    requires Inv(s) && Enabled(s, a) && Gone(s, d) && UniqueId(Next(s, a), d)
    ensures Gone(Next(s, a), d)
  {
    StepKeeps(s, a);
    StepGrows(s, a);
    assert Registered(Next(s, a), d);
    if a.Act? {
      if a.d == d { RegisteredRemoves(s, d, a.actor, a.env); }
      LocalGone(s, Next(s, a), a.d, d);
    }
  }

  lemma {:induction false} RunGone(s: State, more: seq<Action>, d: nat)
    requires Inv(s) && Legal(s, more) && Gone(s, d) && UniqueId(After(s, more), d)
    ensures Gone(After(s, more), d)
    decreases more
  {
    if more != [] {
      var s' := Next(s, more[0]);
      StepKeeps(s, more[0]);
      StepGrows(s, more[0]);
      NothingRevoked(s', more[1..]);
      EarlierUnique(s', After(s, more), d);
      StepGone(s, more[0], d);
      RunGone(s', more[1..], d);
    }
  }

  /** The callback of the wait goroutine, or of the timeout, is at its activeCommands delete. */
  predicate Deleting(v: Delivery, actor: Actor) {
    (actor.Waiter? && v.wait.WaitMarked?) || (actor.TimeoutTimer? && v.timeout.TimeoutMarked?)
  }

  lemma DeleteRemoves(s: State, d: nat, actor: Actor, env: Env)
    requires Enabled(s, Act(d, actor, env)) && Registered(s, d) && Deleting(s.deliveries[d], actor)
    ensures Gone(Next(s, Act(d, actor, env)), d)
  {
  }

  /** Once a registered command has finished, no entry of its own id is left, in any continuation. */
  lemma FinishedIsRemoved(brain: bool, run: seq<Action>, d: nat, actor: Actor, env: Env, more: seq<Action>)
    requires Legal(Init(brain), run) && Enabled(After(Init(brain), run), Act(d, actor, env))
    requires Registered(After(Init(brain), run), d) && Deleting(After(Init(brain), run).deliveries[d], actor)
    requires Legal(Next(After(Init(brain), run), Act(d, actor, env)), more)
    requires UniqueId(After(Next(After(Init(brain), run), Act(d, actor, env)), more), d)
    ensures
      var t := After(Next(After(Init(brain), run), Act(d, actor, env)), more);
      t.deliveries[d].id !in t.active
  {
    var s, a := After(Init(brain), run), Act(d, actor, env);
    ReachableInv(brain, run);
    StepKeeps(s, a);
    DeleteRemoves(s, d, actor, env);
    RunGone(Next(s, a), more, d);
  }

  // ---- after Stop ----

  /** Every entry is that of a command registered since `u`. */
  ghost predicate OnlyLater(u: State, s: State) {
    forall id :: id in s.active ==>
      exists d: nat :: Registered(s, d) && !Registered(u, d) && s.deliveries[d].id == id &&
        s.deliveries[d].sid.value == s.active[id]
  }

  /** Nothing is registered twice: a registered command's own goroutines only remove its entry. */
  lemma RegisteredRemoves(s: State, d: nat, actor: Actor, env: Env)
    requires Enabled(s, Act(d, actor, env)) && Registered(s, d)
    ensures
      var s' := Next(s, Act(d, actor, env));
      s'.active == s.active || s'.active == s.active - {s.deliveries[d].id}
  {
    match actor
    case Handler => assert false;
    case StdoutReader => ReaderLeavesEntries(s, d, false, env);
    case StderrReader => ReaderLeavesEntries(s, d, true, env);
    case YieldTimer => TimersRemove(s, d);
    case TimeoutTimer => TimersRemove(s, d);
    case Waiter => WaitRemoves(s, d, env);
  }

  lemma ReaderLeavesEntries(s: State, d: nat, isErr: bool, env: Env)
    requires ReaderEnabled(s, d, isErr, env)
    ensures ReaderStep(s, d, isErr, env).active == s.active
  {
  }

  lemma TimersRemove(s: State, d: nat)
    ensures YieldEnabled(s, d) ==> YieldStep(s, d).active == s.active
    ensures TimeoutEnabled(s, d) ==>
              TimeoutStep(s, d).active == s.active || TimeoutStep(s, d).active == s.active - {s.deliveries[d].id}
  {
  }

  lemma WaitRemoves(s: State, d: nat, env: Env)
    requires WaitEnabled(s, d)
    ensures
      WaitStep(s, d, env).active == s.active || WaitStep(s, d, env).active == s.active - {s.deliveries[d].id}
  {
  }

  lemma EntriesStay(u: State, s: State, s': State)
    requires OnlyLater(u, s) && Grows(s, s')
    requires forall id :: id in s'.active ==> id in s.active && s'.active[id] == s.active[id]
    ensures OnlyLater(u, s')
  {
    forall id | id in s'.active
      ensures exists d: nat :: Registered(s', d) && !Registered(u, d) && s'.deliveries[d].id == id &&
                s'.deliveries[d].sid.value == s'.active[id]
    {
      var d: nat :| Registered(s, d) && !Registered(u, d) && s.deliveries[d].id == id &&
                    s.deliveries[d].sid.value == s.active[id];
      assert Registered(s', d);
    }
  }

  lemma InsertIsLater(u: State, s: State, s': State, d: nat)
    requires OnlyLater(u, s) && Grows(s, s') && Registered(s', d) && !Registered(u, d)
    requires s'.active == s.active[s'.deliveries[d].id := s'.deliveries[d].sid.value]
    ensures OnlyLater(u, s')
  {
    forall id | id in s'.active && id != s'.deliveries[d].id
      ensures exists e: nat :: Registered(s', e) && !Registered(u, e) && s'.deliveries[e].id == id &&
                s'.deliveries[e].sid.value == s'.active[id]
    {
      var e: nat :| Registered(s, e) && !Registered(u, e) && s.deliveries[e].id == id &&
                    s.deliveries[e].sid.value == s.active[id];
      assert Registered(s', e);
    }
  }

  lemma StepOnlyLater(u: State, s: State, a: Action)
    requires Inv(s) && Enabled(s, a) && s.stop.Stopped? && Grows(u, s) && OnlyLater(u, s)
    ensures OnlyLater(u, Next(s, a)) && Next(s, a).stop.Stopped?
  {
    var s' := Next(s, a);
    StepKeeps(s, a);
    StepGrows(s, a);
    if a.Act? { ActOnlyLater(u, s, a); } else { EntriesStay(u, s, s'); }
  }

  lemma ActOnlyLater(u: State, s: State, a: Action)
    requires Inv(s) && Enabled(s, a) && Grows(u, s) && OnlyLater(u, s)
    requires Grows(s, Next(s, a)) && a.Act?
    ensures OnlyLater(u, Next(s, a))
  {
    StepKeeps(s, a);
    if Registered(s, a.d) { RegisteredRemoves(s, a.d, a.actor, a.env); }
    LocalOnlyLater(u, s, Next(s, a), a.d);
  }

  lemma LocalOnlyLater(u: State, s: State, s': State, d: nat)
    requires LocalStep(s, s', d) && Grows(u, s) && Grows(s, s') && OnlyLater(u, s)
    requires Registered(s, d) ==> s'.active == s.active || s'.active == s.active - {s.deliveries[d].id}
    ensures OnlyLater(u, s')
  {
    if s'.active == s.active || s'.active == s.active - {s.deliveries[d].id} {
      EntriesStay(u, s, s');
    } else {
      InsertIsLater(u, s, s', d);
    }
  }

  lemma {:induction false} RunOnlyLater(u: State, s: State, more: seq<Action>)
    requires Inv(s) && Legal(s, more) && s.stop.Stopped? && Grows(u, s) && OnlyLater(u, s)
    ensures OnlyLater(u, After(s, more))
    decreases more
  {
    if more != [] {
      StepOnlyLater(u, s, more[0]);
      StepKeeps(s, more[0]);
      StepGrows(s, more[0]);
      GrowsTransitive(u, s, Next(s, more[0]));
      RunOnlyLater(u, Next(s, more[0]), more[1..]);
    }
  }

  lemma StopEnds(s: State, a: Action)
    requires Inv(s) && Enabled(s, a) && !s.stop.Stopped? && Next(s, a).stop.Stopped?
    ensures Next(s, a).active == map[]
  {
    if a.Act? { StepKeeps(s, a); }
  }

  /** `Stop` leaves the map empty: whatever is in it later belongs to a command registered after `Stop` had ended. */
  lemma StopEmptiesMap(brain: bool, run: seq<Action>, a: Action, more: seq<Action>)
    requires Legal(Init(brain), run) && Enabled(After(Init(brain), run), a)
    requires !After(Init(brain), run).stop.Stopped? && Next(After(Init(brain), run), a).stop.Stopped?
    requires Legal(Next(After(Init(brain), run), a), more)
    ensures
      var u := Next(After(Init(brain), run), a);
      u.active == map[] && OnlyLater(u, After(u, more))
  {
    var s := After(Init(brain), run);
    ReachableInv(brain, run);
    StepKeeps(s, a);
    StopEnds(s, a);
    RunOnlyLater(Next(s, a), Next(s, a), more);
  }
}
