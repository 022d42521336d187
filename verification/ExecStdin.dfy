/**
 Input for a session, beside the command lifecycle: the goroutines of write and send-keys requests,
 which test and use session.Stdin without a lock. A use that meets nil panics and ends the program.
 */
module ExecStdin {
  import opened Basics
  import opened Sessions
  import opened ExecLifecycle
  import opened ExecInvariant
  import opened ExecSteps
  import opened ExecTheorems
  import opened ExecProgress
  import opened ExecSignals
  import opened ExecWitness

  /** Where a goroutine that has `left` keys to write is. */
  datatype WriterPc =
    | ExitedTest                // before session.Exited is read
    | NilTest(left: nat)        // before WriteToSession compares session.Stdin with nil
    | Use(left: nat)            // before session.Stdin is read again and written to
    | Answered(ok: bool)
    | Panicked

  datatype Writer = Writer(target: string, keys: nat, pc: WriterPc)

  datatype World = World(base: State, writers: seq<Writer>)

  datatype WorldAction =
    | Base(a: Action)
    | Request(target: string, keys: nat)
    | Write(i: nat, accepted: bool)

  function Begin(brain: bool): World {
    World(Init(brain), [])
  }

  predicate Crashed(w: World) {
    exists i :: 0 <= i < |w.writers| && w.writers[i].pc.Panicked?
  }

  predicate Open(s: State, sid: string) {
    sid in s.sessions && s.sessions[sid].stdinOpen
  }

  function WriterStep(s: State, wr: Writer, accepted: bool): Writer {
    match wr.pc
    case ExitedTest =>
      var live := wr.keys > 0 && wr.target in s.sessions && !s.sessions[wr.target].exited;
      wr.(pc := if live then NilTest(wr.keys) else Answered(false))
    case NilTest(left) => wr.(pc := if Open(s, wr.target) then Use(left) else Answered(false))
    case Use(left) =>
      wr.(pc := if !Open(s, wr.target) then Panicked
                else if !accepted then Answered(false)
                else if left > 1 then NilTest(left - 1)
                else Answered(true))
    case _ => wr
  }

  /** After a panic nothing runs any more. */
  predicate CanDo(w: World, wa: WorldAction) {
    && !Crashed(w)
    && match wa
       case Base(a) => Enabled(w.base, a)
       case Request(_, _) => true
       case Write(i, _) => i < |w.writers| && !w.writers[i].pc.Answered?
  }

  function Do(w: World, wa: WorldAction): World
    requires CanDo(w, wa)
  {
    match wa
    case Base(a) => w.(base := Next(w.base, a))
    case Request(target, keys) => w.(writers := w.writers + [Writer(target, keys, ExitedTest)])
    case Write(i, accepted) => w.(writers := w.writers[i := WriterStep(w.base, w.writers[i], accepted)])
  }

  predicate Possible(w: World, run: seq<WorldAction>)
    decreases run
  {
    run == [] || (CanDo(w, run[0]) && Possible(Do(w, run[0]), run[1..]))
  }

  function Outcome(w: World, run: seq<WorldAction>): World
    requires Possible(w, run)
    decreases run
  {
    if run == [] then w else Outcome(Do(w, run[0]), run[1..])
  }

  // ---- what every run keeps ----

  /** The goroutines of write requests only look on: without them the run is one of the command lifecycle. */
  lemma {:induction false} Projects(w: World, run: seq<WorldAction>) returns (steps: seq<Action>)
    requires Possible(w, run)
    ensures Legal(w.base, steps) && After(w.base, steps) == Outcome(w, run).base
    decreases run
  {
    if run == [] { return []; }
    var rest := Projects(Do(w, run[0]), run[1..]);
    steps := if run[0].Base? then [run[0].a] + rest else rest;
  }

  /** Every session belongs to some command. */
  ghost predicate AllOwned(s: State) {
    forall k :: k in s.sessions ==> exists d :: 0 <= d < |s.deliveries| && s.deliveries[d].sid == Some(k)
  }

  lemma ActSessions(s: State, d: nat, actor: Actor, env: Env, k: string)
    requires Enabled(s, Act(d, actor, env)) && d < |s.deliveries|
    requires k in Next(s, Act(d, actor, env)).sessions && k !in s.sessions
    ensures Next(s, Act(d, actor, env)).deliveries[d].sid == Some(k)
  {
    match actor
    case Handler => HandlerSessions(s, d, env, k);
    case StdoutReader => ReaderSessions(s, d, false, env);
    case StderrReader => ReaderSessions(s, d, true, env);
    case YieldTimer => TimerSessions(s, d);
    case TimeoutTimer => TimerSessions(s, d);
    case Waiter => WaitSessions(s, d, env);
  }

  lemma ReaderSessions(s: State, d: nat, isErr: bool, env: Env)
    requires ReaderEnabled(s, d, isErr, env)
    ensures ReaderStep(s, d, isErr, env).sessions.Keys == s.sessions.Keys
  {
  }

  lemma TimerSessions(s: State, d: nat)
    ensures YieldEnabled(s, d) ==> YieldStep(s, d).sessions.Keys == s.sessions.Keys
    ensures TimeoutEnabled(s, d) ==> TimeoutStep(s, d).sessions.Keys == s.sessions.Keys
  {
  }

  lemma WaitSessions(s: State, d: nat, env: Env)
    requires WaitEnabled(s, d)
    ensures WaitStep(s, d, env).sessions.Keys == s.sessions.Keys
  {
  }

  lemma HandlerSessions(s: State, d: nat, env: Env, k: string)
    requires HandlerEnabled(s, d, env)
    requires k in HandlerStep(s, d, env).sessions && k !in s.sessions
    ensures HandlerStep(s, d, env).deliveries[d].sid == Some(k)
  {
  }

  lemma StepKeepsOwned(s: State, a: Action)
    requires Inv(s) && AllOwned(s) && Enabled(s, a)
    ensures AllOwned(Next(s, a))
  {
    var s' := Next(s, a);
    StepGrows(s, a);
    forall k | k in s'.sessions
      ensures exists d :: 0 <= d < |s'.deliveries| && s'.deliveries[d].sid == Some(k)
    {
      if k in s.sessions {
        var d :| 0 <= d < |s.deliveries| && s.deliveries[d].sid == Some(k);
        assert s'.deliveries[d].sid == Some(k);
      } else {
        OnlyActsRegister(s, a, k);
      }
    }
  }

  lemma OnlyActsRegister(s: State, a: Action, k: string)
    requires Inv(s) && Enabled(s, a) && k in Next(s, a).sessions && k !in s.sessions
    ensures a.Act? && a.d < |s.deliveries| && a.d < |Next(s, a).deliveries| && Next(s, a).deliveries[a.d].sid == Some(k)
  {
    match a
    case Deliver(_, _) =>
    case Act(d, actor, env) =>
      StepKeeps(s, a);
      ActSessions(s, d, actor, env, k);
    case Wake(_) =>
    case StopStep(id, ok) => StopKeepsSessions(s, id, ok);
  }

  /** A writer past its first test has found its session, and the session stays. */
  predicate WriterFits(s: State, wr: Writer) {
    wr.pc.NilTest? || wr.pc.Use? ==> wr.target in s.sessions
  }

  ghost predicate WorldInv(w: World) {
    && Inv(w.base) && AllOwned(w.base)
    && forall i :: 0 <= i < |w.writers| ==> WriterFits(w.base, w.writers[i])
  }

  lemma DoKeeps(w: World, wa: WorldAction)
    requires WorldInv(w) && CanDo(w, wa)
    ensures WorldInv(Do(w, wa))
  {
    if wa.Base? {
      StepKeeps(w.base, wa.a);
      StepGrows(w.base, wa.a);
      StepKeepsOwned(w.base, wa.a);
    }
  }

  lemma {:induction false} RunKeepsWorld(w: World, run: seq<WorldAction>)
    requires WorldInv(w) && Possible(w, run)
    ensures WorldInv(Outcome(w, run))
    decreases run
  {
    if run != [] {
      DoKeeps(w, run[0]);
      RunKeepsWorld(Do(w, run[0]), run[1..]);
    }
  }

  // ---- stdin that stays closed ----

  /** The command has still to open the stdin of its session, and may. */
  predicate Opens(v: Delivery) {
    v.handler.Opening? || (WantsPty(v) && (v.handler.Spawned? || v.handler.AttachPty?))
  }

  /** The session's stdin is open, or may still be opened. */
  ghost predicate MayOpen(s: State, sid: string) {
    Open(s, sid) || exists d :: 0 <= d < |s.deliveries| && s.deliveries[d].sid == Some(sid) && Opens(s.deliveries[d])
  }

  lemma HandlerShut(s: State, d: nat, env: Env, sid: string)
    requires HandlerEnabled(s, d, env) && Shape(s.deliveries[d]) && sid in s.sessions && !Open(s, sid)
    requires s.deliveries[d].sid == Some(sid) ==> !Opens(s.deliveries[d])
    ensures
      var s' := HandlerStep(s, d, env);
      !Open(s', sid) && d < |s'.deliveries| && (s'.deliveries[d].sid == Some(sid) ==> !Opens(s'.deliveries[d]))
  {
    var v := s.deliveries[d];
    if OnlyMoves(v.handler) {
      MoveShut(s, v, env);
    } else if v.handler.Adding? || v.handler.Opening? || v.handler.Spawned? || v.handler.AttachPty? {
      LaunchShut(s, d, env, sid);
    } else {
      SettleShut(s, d, env, sid);
    }
  }

  lemma MoveShut(s: State, v: Delivery, env: Env)
    requires OnlyMoves(v.handler) && Shape(v)
    ensures v.sid.Some? && !Opens(v) ==> !Opens(Move(s, v, env))
    ensures Move(s, v, env).sid == v.sid
  {
  }

  lemma LaunchShut(s: State, d: nat, env: Env, sid: string)
    requires HandlerEnabled(s, d, env) && Shape(s.deliveries[d]) && sid in s.sessions && !Open(s, sid)
    requires s.deliveries[d].sid == Some(sid) ==> !Opens(s.deliveries[d])
    requires
      var pc := s.deliveries[d].handler;
      pc.Adding? || pc.Opening? || pc.Spawned? || pc.AttachPty?
    ensures
      var s' := Launch(s, d, env);
      !Open(s', sid) && d < |s'.deliveries| && (s'.deliveries[d].sid == Some(sid) ==> !Opens(s'.deliveries[d]))
  {
  }

  lemma SettleShut(s: State, d: nat, env: Env, sid: string)
    requires HandlerEnabled(s, d, env) && !OnlyMoves(s.deliveries[d].handler) && !Open(s, sid)
    requires s.deliveries[d].sid == Some(sid) ==> !Opens(s.deliveries[d])
    ensures
      var s' := Settle(s, d, env);
      !Open(s', sid) && d < |s'.deliveries| && (s'.deliveries[d].sid == Some(sid) ==> !Opens(s'.deliveries[d]))
  {
  }

  lemma ActShut(s: State, d: nat, actor: Actor, env: Env, sid: string)
    requires Enabled(s, Act(d, actor, env)) && d < |s.deliveries| && Shape(s.deliveries[d])
    requires sid in s.sessions && !Open(s, sid) && (s.deliveries[d].sid == Some(sid) ==> !Opens(s.deliveries[d]))
    ensures
      var s' := Next(s, Act(d, actor, env));
      !Open(s', sid) && d < |s'.deliveries| && (s'.deliveries[d].sid == Some(sid) ==> !Opens(s'.deliveries[d]))
  {
    match actor
    case Handler => HandlerShut(s, d, env, sid);
    case StdoutReader =>
      ReaderSameHandler(s, d, false, env);
      ReaderShut(s, d, false, env, sid);
    case StderrReader =>
      ReaderSameHandler(s, d, true, env);
      ReaderShut(s, d, true, env, sid);
    case YieldTimer =>
      YieldSameHandler(s, d);
      TimersShut(s, d, sid);
    case TimeoutTimer =>
      TimeoutSameHandler(s, d);
      TimersShut(s, d, sid);
    case Waiter =>
      WaitSameHandler(s, d, env);
      WaitShut(s, d, env, sid);
  }

  lemma ReaderShut(s: State, d: nat, isErr: bool, env: Env, sid: string)
    requires ReaderEnabled(s, d, isErr, env) && sid in s.sessions && !Open(s, sid)
    ensures !Open(ReaderStep(s, d, isErr, env), sid)
  {
  }

  lemma TimersShut(s: State, d: nat, sid: string)
    requires sid in s.sessions && !Open(s, sid)
    ensures YieldEnabled(s, d) ==> !Open(YieldStep(s, d), sid)
    ensures TimeoutEnabled(s, d) ==> !Open(TimeoutStep(s, d), sid)
  {
  }

  lemma WaitShut(s: State, d: nat, env: Env, sid: string)
    requires WaitEnabled(s, d) && sid in s.sessions && !Open(s, sid)
    ensures !Open(WaitStep(s, d, env), sid)
  {
  }

  lemma OthersUntouched(s: State, d: nat, actor: Actor, env: Env)
    requires Inv(s) && Enabled(s, Act(d, actor, env))
    ensures
      var s' := Next(s, Act(d, actor, env));
      && |s'.deliveries| == |s.deliveries|
      && forall e :: 0 <= e < |s'.deliveries| && e != d ==> s'.deliveries[e] == s.deliveries[e]
  {
    StepKeeps(s, Act(d, actor, env));
  }

  lemma ActKeepsShut(s: State, d: nat, actor: Actor, env: Env, sid: string)
    requires Inv(s) && Enabled(s, Act(d, actor, env)) && sid in s.sessions && !MayOpen(s, sid)
    ensures !MayOpen(Next(s, Act(d, actor, env)), sid)
  {
    ShapeOf(s, d);
    ActShut(s, d, actor, env, sid);
    OthersUntouched(s, d, actor, env);
  }

  /** Stdin that is closed and that nobody is to open stays closed. */
  lemma ShutStep(s: State, a: Action, sid: string)
    requires Inv(s) && Enabled(s, a) && sid in s.sessions && !MayOpen(s, sid)
    ensures sid in Next(s, a).sessions && !MayOpen(Next(s, a), sid)
  {
    var s' := Next(s, a);
    StepGrows(s, a);
    match a
    case Deliver(_, _) =>
    case Act(d, actor, env) => ActKeepsShut(s, d, actor, env, sid);
    case Wake(_) =>
    case StopStep(id, ok) =>
      StopKeepsSessions(s, id, ok);
      assert s'.deliveries == s.deliveries;
  }

  /** The writer finds stdin closed at its next test, or has already been answered. */
  ghost predicate Safe(w: World, i: nat) {
    && i < |w.writers|
    && (w.writers[i].pc.Answered?
        || (w.writers[i].pc.NilTest? && w.writers[i].target in w.base.sessions &&
             !MayOpen(w.base, w.writers[i].target)))
  }

  lemma {:induction false} StaysSafe(w: World, more: seq<WorldAction>, i: nat)
    requires WorldInv(w) && Possible(w, more) && Safe(w, i)
    ensures Safe(Outcome(w, more), i)
    decreases more
  {
    if more != [] {
      DoKeeps(w, more[0]);
      if more[0].Base? && w.writers[i].pc.NilTest? { ShutStep(w.base, more[0].a, w.writers[i].target); }
      StaysSafe(Do(w, more[0]), more[1..], i);
    }
  }

  // ---- a use that meets nil ----

  ghost predicate Panics(w: World, more: seq<WorldAction>, i: nat) {
    Possible(w, more) && i < |Outcome(w, more).writers| && Outcome(w, more).writers[i].pc.Panicked?
  }

  lemma PanicsLater(w: World, wa: WorldAction, more: seq<WorldAction>, i: nat)
    requires CanDo(w, wa) && Panics(Do(w, wa), more, i)
    ensures Panics(w, [wa] + more, i)
  {
    assert Outcome(w, [wa] + more) == Outcome(Do(w, wa), more);
  }

  /** First the steps `steps` of the command lifecycle, then `more`. */
  lemma {:induction false} PanicsAfter(w: World, steps: seq<Action>, more: seq<WorldAction>, i: nat)
      returns (all: seq<WorldAction>)
    requires !Crashed(w) && Legal(w.base, steps) && Panics(w.(base := After(w.base, steps)), more, i)
    ensures Panics(w, all, i)
    decreases steps
  {
    if steps == [] { return more; }
    var rest := PanicsAfter(Do(w, Base(steps[0])), steps[1..], more, i);
    PanicsLater(w, Base(steps[0]), rest, i);
    all := [Base(steps[0])] + rest;
  }

  /** A settled command has closed its session's stdin. */
  lemma SettledCloses(s: State, d: nat)
    requires Inv(s) && d < |s.deliveries| && s.deliveries[d].sid.Some? && Settled(s.deliveries[d])
    ensures !Open(s, s.deliveries[d].sid.value)
  {
    assert DeliveryInv(s, d);
  }

  /** A run of the command lifecycle that closes the stdin of the session of `d`. */
  lemma Closes(s: State, d: nat) returns (steps: seq<Action>)
    requires Inv(s) && d < |s.deliveries| && s.deliveries[d].sid.Some?
    ensures Legal(s, steps) && !Open(After(s, steps), s.deliveries[d].sid.value)
  {
    ShapeOf(s, d);
    steps := Settles(s, d);
    RunKeeps(s, steps);
    NothingRevoked(s, steps);
    SettledCloses(After(s, steps), d);
  }

  /** Past the nil test, the session's command may come to its end before the use. */
  lemma UsePanics(w: World, i: nat, d: nat) returns (more: seq<WorldAction>)
    requires WorldInv(w) && !Crashed(w) && i < |w.writers| && w.writers[i].pc.Use?
    requires d < |w.base.deliveries| && w.base.deliveries[d].sid == Some(w.writers[i].target)
    ensures Panics(w, more, i)
  {
    var steps := Closes(w.base, d);
    var w' := w.(base := After(w.base, steps));
    var last := [Write(i, true)];
    assert Outcome(w', last) == Do(w', last[0]);
    more := PanicsAfter(w, steps, last, i);
  }

  lemma TestPanics(w: World, i: nat, d: nat) returns (more: seq<WorldAction>)
    requires WorldInv(w) && !Crashed(w) && i < |w.writers| && w.writers[i].pc.NilTest?
    requires Open(w.base, w.writers[i].target)
    requires d < |w.base.deliveries| && w.base.deliveries[d].sid == Some(w.writers[i].target)
    ensures Panics(w, more, i)
  {
    var test := Write(i, true);
    DoKeeps(w, test);
    var rest := UsePanics(Do(w, test), i, d);
    PanicsLater(w, test, rest, i);
    more := [test] + rest;
  }

  /** The handler opens stdin in this step, or is closer to it. */
  lemma OpensOrGoesOn(s: State, d: nat)
    requires HasSession(s, d) && Opens(s.deliveries[d])
    ensures HandlerEnabled(s, d, GO)
    ensures
      var v, s' := s.deliveries[d], HandlerStep(s, d, GO);
      && HasSession(s', d) && s'.deliveries[d].sid == v.sid
      && if v.handler.AttachPty? || (v.handler.Opening? && !WantsPty(v)) then Open(s', v.sid.value)
         else Opens(s'.deliveries[d]) && HandlerLeft(s'.deliveries[d].handler) < HandlerLeft(v.handler)
  {
  }

  /** The handler goes on to open stdin. */
  lemma {:induction false} OpenRuns(s: State, d: nat) returns (steps: seq<Action>)
    requires Inv(s) && HasSession(s, d) && Opens(s.deliveries[d])
    ensures Legal(s, steps) && Inv(After(s, steps)) && d < |After(s, steps).deliveries|
    ensures After(s, steps).deliveries[d].sid == s.deliveries[d].sid && Open(After(s, steps), s.deliveries[d].sid.value)
    decreases HandlerLeft(s.deliveries[d].handler)
  {
    var a := Act(d, Handler, GO);
    OpensOrGoesOn(s, d);
    StepKeeps(s, a);
    StepGrows(s, a);
    if s.deliveries[d].handler.AttachPty? || (s.deliveries[d].handler.Opening? && !WantsPty(s.deliveries[d])) {
      steps := [a];
      assert After(s, steps) == Next(s, a);
    } else {
      var rest := OpenRuns(Next(s, a), d);
      steps := [a] + rest;
    }
  }

  lemma MayOpenPanics(w: World, i: nat, d: nat) returns (more: seq<WorldAction>)
    requires WorldInv(w) && !Crashed(w) && i < |w.writers| && w.writers[i].pc.NilTest?
    requires d < |w.base.deliveries| && w.base.deliveries[d].sid == Some(w.writers[i].target)
    requires Opens(w.base.deliveries[d])
    ensures Panics(w, more, i)
  {
    ShapeOf(w.base, d);
    var steps := OpenRuns(w.base, d);
    var w' := w.(base := After(w.base, steps));
    KeepsWorld(w, steps);
    var rest := TestPanics(w', i, d);
    more := PanicsAfter(w, steps, rest, i);
  }

  lemma {:induction false} KeepsWorld(w: World, steps: seq<Action>)
    requires WorldInv(w) && !Crashed(w) && Legal(w.base, steps)
    ensures WorldInv(w.(base := After(w.base, steps)))
    decreases steps
  {
    if steps != [] {
      DoKeeps(w, Base(steps[0]));
      KeepsWorld(Do(w, Base(steps[0])), steps[1..]);
    }
  }

  /**
   When input panics, exactly: for a request that has found its session live, some continuation ends
   in a use of a nil stdin if and only if the request is past its nil test, or stdin is open or may
   still be opened.
   */
  lemma PanicExactly(brain: bool, run: seq<WorldAction>, i: nat)
    requires Possible(Begin(brain), run) && !Crashed(Outcome(Begin(brain), run))
    requires i < |Outcome(Begin(brain), run).writers|
    requires Outcome(Begin(brain), run).writers[i].pc.NilTest? || Outcome(Begin(brain), run).writers[i].pc.Use?
    ensures
      var w := Outcome(Begin(brain), run);
      (exists more :: Panics(w, more, i)) <==> w.writers[i].pc.Use? || MayOpen(w.base, w.writers[i].target)
  {
    var w := Outcome(Begin(brain), run);
    InitHolds(brain);
    RunKeepsWorld(Begin(brain), run);
    assert WriterFits(w.base, w.writers[i]);
    var d :| 0 <= d < |w.base.deliveries| && w.base.deliveries[d].sid == Some(w.writers[i].target);
    var more: seq<WorldAction>;
    if w.writers[i].pc.Use? {
      more := UsePanics(w, i, d);
    } else if Open(w.base, w.writers[i].target) {
      more := TestPanics(w, i, d);
    } else if MayOpen(w.base, w.writers[i].target) {
      var e :| 0 <= e < |w.base.deliveries| && w.base.deliveries[e].sid == Some(w.writers[i].target) &&
        Opens(w.base.deliveries[e]);
      more := MayOpenPanics(w, i, e);
    } else if more :| Panics(w, more, i) {
      StaysSafe(w, more, i);
    }
  }

  /** It does happen: a program in which a write meets the nil stdin of a session that has just exited. */
  lemma WritePanics()
    ensures exists run :: Possible(Begin(false), run) && Crashed(Outcome(Begin(false), run))
  {
    var s := Init(false);
    var steps := LaunchRun(s, [], s, "c", 0, A);
    ReachableInv(false, steps);
    var t := After(s, steps);
    assert AllOwned(t) by { assert t.deliveries[0].sid == Some(A); }
    var rest := RequestPanics(t);
    var run := PanicsAfter(Begin(false), steps, rest, 0);
  }

  /** A request arrives for the session of a live command, passes both tests, and panics. */
  lemma RequestPanics(t: State) returns (more: seq<WorldAction>)
    requires Inv(t) && AllOwned(t) && HasSession(t, 0) && Sess(t, 0).stdinOpen && !Sess(t, 0).exited
    ensures Panics(World(t, []), more, 0)
  {
    var sid := t.deliveries[0].sid.value;
    var w := World(t, []);
    var w1 := World(t, [Writer(sid, 1, ExitedTest)]);
    var w2 := World(t, [Writer(sid, 1, NilTest(1))]);
    more := TestPanics(w2, 0, 0);
    assert Do(w1, Write(0, true)) == w2;
    PanicsLater(w1, Write(0, true), more, 0);
    assert Do(w, Request(sid, 1)) == w1;
    PanicsLater(w, Request(sid, 1), [Write(0, true)] + more, 0);
    more := [Request(sid, 1)] + ([Write(0, true)] + more);
  }

  // ---- what a request is answered ----

  /** How many keys of request `i` the pipe has taken in the course of `run`. */
  function Taken(w: World, run: seq<WorldAction>, i: nat): nat
    requires Possible(w, run)
    decreases run
  {
    if run == [] then 0 else One(Takes(w, run[0], i)) + Taken(Do(w, run[0]), run[1..], i)
  }

  predicate Takes(w: World, wa: WorldAction, i: nat) {
    && wa.Write? && wa.i == i && i < |w.writers| && w.writers[i].pc.Use?
    && Open(w.base, w.writers[i].target) && wa.accepted
  }

  /** `n` keys have been taken, and the request is where that puts it. */
  predicate WroteSoFar(wr: Writer, n: nat) {
    match wr.pc
    case ExitedTest => n == 0
    case NilTest(left) => left > 0 && n + left == wr.keys
    case Use(left) => left > 0 && n + left == wr.keys
    case Answered(ok) => if ok then n == wr.keys > 0 else n < wr.keys || n == wr.keys == 0
    case Panicked => n < wr.keys
  }

  lemma WriteCounts(w: World, wa: WorldAction, i: nat, n: nat)
    requires CanDo(w, wa) && i < |w.writers| && WroteSoFar(w.writers[i], n)
    ensures i < |Do(w, wa).writers| && WroteSoFar(Do(w, wa).writers[i], n + One(Takes(w, wa, i)))
    ensures Do(w, wa).writers[i].keys == w.writers[i].keys && Do(w, wa).writers[i].target == w.writers[i].target
  {
  }

  lemma {:induction false} RunCounts(w: World, run: seq<WorldAction>, i: nat, n: nat)
    requires Possible(w, run) && i < |w.writers| && WroteSoFar(w.writers[i], n)
    ensures i < |Outcome(w, run).writers| && WroteSoFar(Outcome(w, run).writers[i], n + Taken(w, run, i))
    ensures Outcome(w, run).writers[i].keys == w.writers[i].keys
    decreases run
  {
    if run != [] {
      WriteCounts(w, run[0], i, n);
      RunCounts(Do(w, run[0]), run[1..], i, n + One(Takes(w, run[0], i)));
    }
  }

  /** A request that has just arrived is answered with success only if the pipe then takes every one of its keys. */
  lemma AnswerCountsKeys(w: World, run: seq<WorldAction>, i: nat)
    requires Possible(w, run) && i < |w.writers| && w.writers[i].pc.ExitedTest?
    ensures
      var wr := Outcome(w, run).writers;
      && i < |wr|
      && (wr[i].pc == Answered(true) ==> Taken(w, run, i) == w.writers[i].keys > 0)
      && (wr[i].pc == Answered(false) ==> Taken(w, run, i) < w.writers[i].keys || w.writers[i].keys == 0)
  {
    RunCounts(w, run, i, 0);
  }

  /** A request for a session that has exited, or without keys, is refused, and writes nothing. */
  lemma {:induction false} ExitedRefuses(w: World, run: seq<WorldAction>, i: nat)
    requires WorldInv(w) && Possible(w, run) && i < |w.writers|
    requires w.writers[i].keys == 0 || ExitedIn(w.base, w.writers[i].target)
    requires w.writers[i].pc.ExitedTest? || w.writers[i].pc == Answered(false)
    ensures i < |Outcome(w, run).writers| && Taken(w, run, i) == 0
    ensures Outcome(w, run).writers[i].pc.ExitedTest? || Outcome(w, run).writers[i].pc == Answered(false)
    decreases run
  {
    if run != [] {
      DoKeeps(w, run[0]);
      if run[0].Base? { StepGrows(w.base, run[0].a); }
      ExitedRefuses(Do(w, run[0]), run[1..], i);
    }
  }

  /** A request with keys for a live session passes its first test. */
  lemma LiveIsAdmitted(w: World, i: nat, accepted: bool)
    requires !Crashed(w) && i < |w.writers| && w.writers[i].pc.ExitedTest? && w.writers[i].keys > 0
    requires w.writers[i].target in w.base.sessions && !w.base.sessions[w.writers[i].target].exited
    ensures CanDo(w, Write(i, accepted)) && Do(w, Write(i, accepted)).writers[i].pc == NilTest(w.writers[i].keys)
  {
  }
}
