/** Runs that show which stronger promises the command lifecycle does not keep. */
module ExecWitness {
  import opened Basics
  import opened Sessions
  import opened Slugs
  import opened ExecLifecycle
  import opened ExecInvariant
  import opened ExecTheorems

  const A: string := "aaaaaaaa"
  const B: string := "bbbbbbbb"

  const NO_ENV := Env("", true, 1, 0, [], false)

  ghost predicate Plays(s: State, run: seq<Action>, t: State) {
    Legal(s, run) && After(s, run) == t
  }

  lemma {:induction false} Then(s: State, run: seq<Action>, t: State, a: Action)
    requires Plays(s, run, t) && Enabled(t, a)
    ensures Plays(s, run + [a], Next(t, a))
    decreases run
  {
    if run == [] {
      assert ([] + [a])[1..] == [];
    } else {
      Then(Next(s, run[0]), run[1..], t, a);
      assert (run + [a])[0] == run[0] && (run + [a])[1..] == run[1..] + [a];
    }
  }

  /** State `t` after one more command has been delivered and given the session `slug`. */
  function With(t: State, v: Delivery, slug: string, ss: SessionState): State {
    t.(deliveries := t.deliveries + [v], sessions := t.sessions[slug := ss])
  }

  /** A command whose session has just been registered. */
  function OpenedAs(id: string, req: Request, slug: string): Delivery {
    NewDelivery(id, req).(handler := Opening, sid := Some(slug))
  }

  function Opened(id: string, yieldMs: int, slug: string): Delivery {
    OpenedAs(id, Exec(false, false, yieldMs), slug)
  }

  function Launched(id: string, yieldMs: int, slug: string): Delivery {
    Opened(id, yieldMs, slug).(handler := Insert, out := Reading, err := Reading, wait := Waiting,
      yielder := if yieldMs > 0 then YieldArmed else YieldOff)
  }

  const LIVE := NewSession(1).(stdinOpen := true)

  /** One more step of the newest command's handler. */
  lemma Moves(s: State, run: seq<Action>, t: State, v: Delivery, slug: string, ss: SessionState, v': Delivery,
      ss': SessionState)
      returns (run': seq<Action>)
    requires Plays(s, run, With(t, v, slug, ss)) && v.sid == Some(slug)
    requires HandlerEnabled(With(t, v, slug, ss), |t.deliveries|, NO_ENV)
    requires HandlerStep(With(t, v, slug, ss), |t.deliveries|, NO_ENV) ==
             SetDelivery(UpdateSess(With(t, v, slug, ss), |t.deliveries|, ss'), |t.deliveries|, v')
    ensures Plays(s, run', With(t, v', slug, ss'))
  {
    var a := Act(|t.deliveries|, Handler, NO_ENV);
    Then(s, run, With(t, v, slug, ss), a);
    run' := run + [a];
    assert (t.deliveries + [v])[|t.deliveries| := v'] == t.deliveries + [v'];
    assert t.sessions[slug := ss][slug := ss'] == t.sessions[slug := ss'];
  }

  /** A command is delivered and its session registered. */
  lemma OpenRun(s: State, run: seq<Action>, t: State, id: string, req: Request, slug: string)
      returns (run': seq<Action>)
    requires Plays(s, run, t) && !t.brain && slug !in t.sessions && IsSlug(slug) && req.Exec? && !req.emptyCommand
    ensures Plays(s, run', With(t, OpenedAs(id, req, slug), slug, NewSession(0)))
  {
    var d, env := |t.deliveries|, NO_ENV.(slug := slug);
    var first := NewDelivery(id, req);
    var t1 := t.(deliveries := t.deliveries + [first]);
    var t2 := t.(deliveries := t.deliveries + [first.(handler := Adding)]);
    var step := Act(d, Handler, env);
    Then(s, run, t, Deliver(id, first.req));
    run' := run + [Deliver(id, first.req)];
    Then(s, run', t1, step);
    run' := run' + [step];
    assert Next(t1, step) == t2 by { assert t1.deliveries[d := first.(handler := Adding)] == t2.deliveries; }
    Then(s, run', t2, step);
    run' := run' + [step];
    assert t2.deliveries[d := OpenedAs(id, req, slug)] == t.deliveries + [OpenedAs(id, req, slug)];
  }

  /** Its process is started and its pid recorded. */
  lemma SpawnRun(s: State, run: seq<Action>, t: State, id: string, yieldMs: int, slug: string)
      returns (run': seq<Action>)
    requires Plays(s, run, t) && !t.brain && slug !in t.sessions && IsSlug(slug)
    ensures Plays(s, run', With(t, Opened(id, yieldMs, slug).(handler := ArmYield), slug, LIVE))
  {
    run' := OpenRun(s, run, t, id, Exec(false, false, yieldMs), slug);
    var ss0 := NewSession(0);
    var v0 := Opened(id, yieldMs, slug);
    var v1 := v0.(handler := Spawning);
    run' := Moves(s, run', t, v0, slug, ss0, v1, ss0.(stdinOpen := true));
    var v2 := v0.(handler := Spawned(1));
    run' := Moves(s, run', t, v1, slug, ss0.(stdinOpen := true), v2, ss0.(stdinOpen := true));
    run' := Moves(s, run', t, v2, slug, ss0.(stdinOpen := true), v0.(handler := ArmYield), LIVE);
  }

  lemma TimersRun(s: State, run: seq<Action>, t: State, id: string, yieldMs: int, slug: string)
      returns (run': seq<Action>)
    requires Plays(s, run, With(t, Opened(id, yieldMs, slug).(handler := ArmYield), slug, LIVE))
    ensures
      var v := Launched(id, yieldMs, slug).(handler := StartErr, err := Off, wait := WaitOff);
      Plays(s, run', With(t, v, slug, LIVE))
  {
    var v3 := Opened(id, yieldMs, slug).(handler := ArmYield);
    var v4 := v3.(handler := StartOut, yielder := if yieldMs > 0 then YieldArmed else YieldOff);
    run' := Moves(s, run, t, v3, slug, LIVE, v4, LIVE);
    run' := Moves(s, run', t, v4, slug, LIVE, v4.(handler := StartErr, out := Reading), LIVE);
  }

  lemma StartRun(s: State, run: seq<Action>, t: State, id: string, yieldMs: int, slug: string)
      returns (run': seq<Action>)
    requires
      var v := Launched(id, yieldMs, slug).(handler := StartErr, err := Off, wait := WaitOff);
      Plays(s, run, With(t, v, slug, LIVE))
    ensures Plays(s, run', With(t, Launched(id, yieldMs, slug), slug, LIVE))
  {
    var v5 := Launched(id, yieldMs, slug).(handler := StartErr, err := Off, wait := WaitOff);
    var v6 := v5.(handler := StartWait, err := Reading);
    run' := Moves(s, run, t, v5, slug, LIVE, v6, LIVE);
    run' := Moves(s, run', t, v6, slug, LIVE, Launched(id, yieldMs, slug), LIVE);
  }

  /** A command is spawned, up to the point where its activeCommands entry is due. */
  lemma LaunchRun(s: State, run: seq<Action>, t: State, id: string, yieldMs: int, slug: string)
      returns (run': seq<Action>)
    requires Plays(s, run, t) && !t.brain && slug !in t.sessions && IsSlug(slug)
    ensures Plays(s, run', With(t, Launched(id, yieldMs, slug), slug, LIVE))
  {
    run' := SpawnRun(s, run, t, id, yieldMs, slug);
    run' := TimersRun(s, run', t, id, yieldMs, slug);
    run' := StartRun(s, run', t, id, yieldMs, slug);
  }

  /**
   `Stop` covers only what was registered before it began: a command whose handler inserts its
   entry afterwards stays alive and unsignalled.
   */
  lemma LateCommandSurvivesStop()
    ensures exists run :: Legal(Init(false), run) && After(Init(false), run).stop.Stopped? &&
              Registered(After(Init(false), run), 0) && !Sess(After(Init(false), run), 0).exited &&
                After(Init(false), run).log == []
  {
    var s := Init(false);
    var run := LaunchRun(s, [], s, "c", 0, A);
    var t := With(s, Launched("c", 0, A), A, LIVE);
    Then(s, run, t, StopStep("", true));
    var t1 := t.(stop := Stopping({}, Between));
    assert t.active.Keys == {};
    assert Next(t, StopStep("", true)) == t1;
    run := run + [StopStep("", true)];
    Then(s, run, t1, StopStep("", true));
    var t2 := t.(stop := Stopped);
    assert Next(t1, StopStep("", true)) == t2;
    run := run + [StopStep("", true)];
    Then(s, run, t2, Act(0, Handler, NO_ENV));
    run := run + [Act(0, Handler, NO_ENV)];
    assert After(s, run) == Next(t2, Act(0, Handler, NO_ENV));
    assert Sess(After(s, run), 0) == LIVE;
  }

  /** The wait goroutine reads both builders and sends its result. */
  lemma ReportRun(s: State, run: seq<Action>, t: State) returns (run': seq<Action>, t': State)
    requires Plays(s, run, t) && HasSession(t, 0) && t.deliveries[0].wait == WaitDeleted(Completed)
    ensures Plays(s, run', t')
    ensures
      var v := t.deliveries[0];
      t' == SetDelivery(SendResult(t, 0, Completed, v.outBuf, v.errBuf), 0, v.(wait := WaitEnded))
  {
    var a := Act(0, Waiter, NO_ENV);
    var v := t.deliveries[0];
    Then(s, run, t, a);
    var t1 := SetDelivery(t, 0, v.(wait := WaitRead(Completed, v.outBuf)));
    Then(s, run + [a], t1, a);
    var t2 := SetDelivery(t, 0, v.(wait := WaitDue(Completed, v.outBuf, v.errBuf)));
    assert Next(t1, a) == t2;
    Then(s, run + [a] + [a], t2, a);
    run', t' := run + [a] + [a] + [a], Next(t2, a);
  }

  /** The wait goroutine's steps for a process that exits with code 0. */
  lemma WaitRun(s: State, run: seq<Action>, t: State) returns (run': seq<Action>, t': State)
    requires Plays(s, run, t) && HasSession(t, 0) && MuFree(t)
    requires t.deliveries[0].wait.Waiting? && !WantsPty(t.deliveries[0]) && t.active == map[]
    ensures Plays(s, run', t')
    ensures
      var v := t.deliveries[0];
      t' == t.(deliveries := t.deliveries[0 := v.(wait := WaitEnded)],
               sessions := t.sessions[v.sid.value := MarkExited(Sess(t, 0), 0, "")],
               log := t.log + [Exit(v.sid.value, 0, ""), Result(0, v.id, Completed, v.outBuf, v.errBuf)])
  {
    var v := t.deliveries[0];
    run' := ExitRun(s, run, t);
    run', t' := ReportRun(s, run', SetDelivery(Exited(t, 0, 0, ""), 0, v.(wait := WaitDeleted(Completed))));
  }

  /** The first three: cmd.Wait returns, the session is marked exited, the entry is deleted. */
  lemma ExitRun(s: State, run: seq<Action>, t: State) returns (run': seq<Action>)
    requires Plays(s, run, t) && HasSession(t, 0) && MuFree(t)
    requires t.deliveries[0].wait.Waiting? && !WantsPty(t.deliveries[0]) && t.active == map[]
    ensures Plays(s, run', SetDelivery(Exited(t, 0, 0, ""), 0, t.deliveries[0].(wait := WaitDeleted(Completed))))
  {
    var a := Act(0, Waiter, NO_ENV.(ok := false));
    var v := t.deliveries[0];
    Then(s, run, t, a);
    var t1 := SetDelivery(t, 0, v.(wait := Exiting(false, 0)));
    Then(s, run + [a], t1, a);
    var t2 := SetDelivery(Exited(t, 0, 0, ""), 0, v.(wait := WaitMarked(Completed)));
    assert Next(t1, a) == t2;
    Then(s, run + [a] + [a], t2, a);
    assert Next(t2, a) == SetDelivery(Exited(t, 0, 0, ""), 0, v.(wait := WaitDeleted(Completed)));
    run' := run + [a] + [a] + [a];
  }

  /** A running result follows the completed one, which reports less than was read. */
  ghost predicate RunningLast(s: State, yieldMs: int) {
    && |s.log| == 3 && |s.deliveries| == 1 && s.deliveries[0].req == Exec(false, false, yieldMs)
    && IsTerminal(s.log[1], 0) && IsYield(s.log[2], 0)
    && s.log[1].out == [] && s.deliveries[0].outRead == [65]
  }

  /** The yield callback reads both builders and sends its result. */
  lemma YieldRun(s: State, run: seq<Action>, t: State) returns (run': seq<Action>, t': State)
    requires Plays(s, run, t) && HasSession(t, 0) && t.deliveries[0].yielder.MarkedBackground?
    ensures Plays(s, run', t')
    ensures
      var v := t.deliveries[0];
      t' == SetDelivery(SendResult(t, 0, Running, v.outBuf, v.errBuf), 0, v.(yielder := YieldSent))
  {
    var fire := Act(0, YieldTimer, NO_ENV);
    var v := t.deliveries[0];
    Then(s, run, t, fire);
    var t1 := SetDelivery(t, 0, v.(yielder := YieldRead(v.outBuf)));
    Then(s, run + [fire], t1, fire);
    var t2 := SetDelivery(t, 0, v.(yielder := YieldDue(v.outBuf, v.errBuf)));
    assert Next(t1, fire) == t2;
    Then(s, run + [fire] + [fire], t2, fire);
    run', t' := run + [fire] + [fire] + [fire], Next(t2, fire);
  }

  /**
   A result does not have to carry all the output, and a running result may follow the terminal
   one: the wait goroutine does not wait for the readers, and the yield callback tests Exited
   without the lock.
   */
  lemma EarlyResultThenRunning(yieldMs: int)
    requires yieldMs > 0
    ensures exists run :: Legal(Init(false), run) && RunningLast(After(Init(false), run), yieldMs)
  {
    var s := Init(false);
    var run := LaunchRun(s, [], s, "c", yieldMs, A);
    var t := With(s, Launched("c", yieldMs, A), A, LIVE);
    var read := Act(0, StdoutReader, NO_ENV.(data := [65]));
    Then(s, run, t, read);
    var t1 := Next(t, read);
    var fire := Act(0, YieldTimer, NO_ENV);
    Then(s, run + [read], t1, fire);
    var t2 := Next(t1, fire);
    var run2, t3 := WaitRun(s, run + [read] + [fire], t2);
    Then(s, run2, t3, fire);
    var t4 := Next(t3, fire);
    var run3, t5 := YieldRun(s, run2 + [fire], t4);
    assert RunningLast(t5, yieldMs);
  }

  /** At `j` a command with this yield interval reports running, after its terminal result at `i`. */
  predicate ReportsLate(s: State, i: nat, j: nat, pty: bool, yieldMs: int) {
    && i < j < |s.log| && s.log[j].Result? && s.log[j].status == Running && IsTerminal(s.log[i], s.log[j].d)
    && s.log[j].d < |s.deliveries| && s.deliveries[s.log[j].d].req == Exec(false, pty, yieldMs)
  }

  /** After `run`, some command with this yield interval has sent a running result after a terminal one. */
  ghost predicate RunningFollows(run: seq<Action>, pty: bool, yieldMs: int) {
    && Legal(Init(false), run)
    && exists i: nat, j: nat :: ReportsLate(After(Init(false), run), i, j, pty, yieldMs)
  }

  lemma {:induction false} YieldCounted(log: seq<Event>, j: nat, d: nat)
    requires j < |log| && IsYield(log[j], d)
    ensures Yields(log, d) >= 1
  {
    if j < |log| - 1 { YieldCounted(log[..|log| - 1], j, d); }
  }

  lemma PipeRunningFollows(yieldMs: int) returns (run: seq<Action>)
    requires yieldMs > 0
    ensures RunningFollows(run, false, yieldMs)
  {
    EarlyResultThenRunning(yieldMs);
    run :| Legal(Init(false), run) && RunningLast(After(Init(false), run), yieldMs);
    assert ReportsLate(After(Init(false), run), 1, 2, false, yieldMs);
  }

  lemma NoYieldNoRunning(run: seq<Action>, pty: bool, yieldMs: int)
    requires RunningFollows(run, pty, yieldMs)
    ensures yieldMs > 0
  {
    var s := After(Init(false), run);
    var i: nat, j: nat :| ReportsLate(s, i, j, pty, yieldMs);
    YieldCounted(s.log, j, s.log[j].d);
    OneTerminalResult(false, run, s.log[j].d);
  }

  /** The newest command's process cannot be started. */
  lemma FailStartRun(s: State, run: seq<Action>, t: State, id: string, slug: string) returns (run': seq<Action>)
    requires Plays(s, run, With(t, Opened(id, 0, slug), slug, NewSession(0)))
    ensures Plays(s, run', With(t, Opened(id, 0, slug).(handler := FailMark), slug, NewSession(0)))
  {
    var d, v := |t.deliveries|, Opened(id, 0, slug);
    var fail := Act(d, Handler, NO_ENV.(ok := false));
    Then(s, run, With(t, v, slug, NewSession(0)), fail);
    assert (t.deliveries + [v])[d := v.(handler := FailMark)] == t.deliveries + [v.(handler := FailMark)];
    run' := run + [fail];
  }

  const DEAD := MarkExited(NewSession(0), 1, "")

  /** It marks its session exited. */
  lemma FailMarkRun(s: State, run: seq<Action>, t: State, id: string, slug: string) returns (run': seq<Action>)
    requires Plays(s, run, With(t, Opened(id, 0, slug).(handler := FailMark), slug, NewSession(0)))
    ensures
      var t' := With(t, Opened(id, 0, slug).(handler := FailDelete), slug, DEAD);
      Plays(s, run', t'.(log := t.log + [Exit(slug, 1, "")]))
  {
    var d, v := |t.deliveries|, Opened(id, 0, slug);
    var fail := Act(d, Handler, NO_ENV);
    Then(s, run, With(t, v.(handler := FailMark), slug, NewSession(0)), fail);
    assert (t.deliveries + [v.(handler := FailMark)])[d := v.(handler := FailDelete)] ==
           t.deliveries + [v.(handler := FailDelete)];
    assert t.sessions[slug := NewSession(0)][slug := DEAD] == t.sessions[slug := DEAD];
    run' := run + [fail];
  }

  /** It deletes the entry under its id. */
  lemma FailDeleteRun(s: State, run: seq<Action>, t: State, id: string, slug: string)
      returns (run': seq<Action>, t': State)
    requires Plays(s, run, With(t, Opened(id, 0, slug).(handler := FailDelete), slug, DEAD)) && MuFree(t)
    ensures Plays(s, run', t')
    ensures t' == With(t, Opened(id, 0, slug).(handler := FailSend), slug, DEAD).(active := t.active - {id})
  {
    var d, v := |t.deliveries|, Opened(id, 0, slug);
    var fail := Act(d, Handler, NO_ENV);
    var t2 := With(t, v.(handler := FailDelete), slug, DEAD);
    Then(s, run, t2, fail);
    assert (t.deliveries + [v.(handler := FailDelete)])[d := v.(handler := FailSend)] ==
           t.deliveries + [v.(handler := FailSend)];
    run', t' := run + [fail], Next(t2, fail);
  }

  // ---- repeated command ids ----

  /** The ids of the commands delivered so far. */
  function Ids(s: State): seq<string> {
    seq(|s.deliveries|, i requires 0 <= i < |s.deliveries| => s.deliveries[i].id)
  }

  predicate Distinct(ids: seq<string>) {
    forall i, j :: 0 <= i < j < |ids| ==> ids[i] != ids[j]
  }

  /** Until `Stop` has cleared the map, every live registered session is bound to its command's id. */
  ghost predicate AllBound(s: State) {
    !s.stop.Stopped? ==> forall d: nat :: Registered(s, d) && !Sess(s, d).exited ==> Bound(s, d)
  }

  /** Commands of other capabilities that have been delivered and not yet handled. */
  function Idle(ids: seq<string>): seq<Delivery> {
    seq(|ids|, i requires 0 <= i < |ids| => NewDelivery(ids[i], Simple(true)))
  }

  lemma {:induction false} DeliverAll(s: State, run: seq<Action>, t: State, ids: seq<string>)
      returns (run': seq<Action>)
    requires Plays(s, run, t)
    ensures Plays(s, run', t.(deliveries := t.deliveries + Idle(ids)))
    decreases |ids|
  {
    if ids == [] {
      assert t.deliveries + Idle(ids) == t.deliveries;
      return run;
    }
    var rest, id := ids[..|ids| - 1], ids[|ids| - 1];
    run' := DeliverAll(s, run, t, rest);
    var t1 := t.(deliveries := t.deliveries + Idle(rest));
    Then(s, run', t1, Deliver(id, Simple(true)));
    assert t1.deliveries + [NewDelivery(id, Simple(true))] == t.deliveries + Idle(ids);
    run' := run' + [Deliver(id, Simple(true))];
  }

  const KEPT := Launched("", 0, A).(handler := Done)

  /** A command is launched, registered and left running. */
  lemma RegisterRun(s: State, run: seq<Action>, t: State, id: string) returns (run': seq<Action>)
    requires Plays(s, run, t) && !t.brain && A !in t.sessions && t.active == map[] && MuFree(t)
    ensures Plays(s, run', With(t, KEPT.(id := id), A, LIVE).(active := map[id := A]))
  {
    run' := LaunchRun(s, run, t, id, 0, A);
    var insert := Act(|t.deliveries|, Handler, NO_ENV);
    Then(s, run', With(t, Launched(id, 0, A), A, LIVE), insert);
    assert (t.deliveries + [Launched(id, 0, A)])[|t.deliveries| := KEPT.(id := id)] == t.deliveries + [KEPT.(id := id)];
    run' := run' + [insert];
  }

  /** A second command fails to start, and deletes the entry under its id. */
  lemma FailRun(s: State, run: seq<Action>, t: State, id: string) returns (run': seq<Action>, t': State)
    requires Plays(s, run, t) && !t.brain && B !in t.sessions && MuFree(t)
    ensures Plays(s, run', t')
    ensures t' == With(t, Opened(id, 0, B).(handler := FailSend), B, DEAD)
                  .(active := t.active - {id}, log := t.log + [Exit(B, 1, "")])
  {
    run' := OpenRun(s, run, t, id, Exec(false, false, 0), B);
    run' := FailStartRun(s, run', t, id, B);
    run' := FailMarkRun(s, run', t, id, B);
    var t1 := t.(log := t.log + [Exit(B, 1, "")]);
    assert With(t, Opened(id, 0, B).(handler := FailDelete), B, DEAD).(log := t1.log) ==
      With(t1, Opened(id, 0, B).(handler := FailDelete), B, DEAD);
    run', t' := FailDeleteRun(s, run', t1, id, B);
  }

  lemma Reassembled(ids: seq<string>, i: nat, j: nat, v: Delivery, w: Delivery)
    requires i < j < |ids| && v.id == ids[i] && w.id == ids[j]
    ensures
      var all := Idle(ids[..i]) + [v] + Idle(ids[i + 1..j]) + [w] + Idle(ids[j + 1..]);
      |all| == |ids| && all[i] == v && forall k :: 0 <= k < |ids| ==> all[k].id == ids[k]
  {
  }

  /** With a repeated id, a second command's spawn failure deletes the entry of the first, which is still running. */
  lemma RepeatedIdUncovers()
    ensures exists run :: Legal(Init(false), run) &&
              var s := After(Init(false), run);
              s.stop.NotStarted? && Registered(s, 0) && !Sess(s, 0).exited && !Bound(s, 0) && !UniqueId(s, 0)
  {
    var run := UncoveringRun(["c", "c"], 0, 1);
    var s := After(Init(false), run);
    assert Ids(s)[0] == s.deliveries[0].id && Ids(s)[1] == s.deliveries[1].id;
  }

  /** Whatever ids are delivered, if two are equal there is a run that leaves the first of them uncovered. */
  lemma UncoveringRun(ids: seq<string>, i: nat, j: nat) returns (run: seq<Action>)
    requires i < j < |ids| && ids[i] == ids[j]
    ensures Legal(Init(false), run) && Ids(After(Init(false), run)) == ids && After(Init(false), run).stop.NotStarted?
    ensures
      var s := After(Init(false), run);
      Registered(s, i) && !Sess(s, i).exited && !Bound(s, i)
  {
    var s, id := Init(false), ids[i];
    run := DeliverAll(s, [], s, ids[..i]);
    var t0 := s.(deliveries := s.deliveries + Idle(ids[..i]));
    run := RegisterRun(s, run, t0, id);
    var t1 := With(t0, KEPT.(id := id), A, LIVE).(active := map[id := A]);
    run := DeliverAll(s, run, t1, ids[i + 1..j]);
    var t2 := t1.(deliveries := t1.deliveries + Idle(ids[i + 1..j]));
    var run2, t3 := FailRun(s, run, t2, id);
    run := DeliverAll(s, run2, t3, ids[j + 1..]);
    var t4 := t3.(deliveries := t3.deliveries + Idle(ids[j + 1..]));
    Reassembled(ids, i, j, KEPT.(id := id), Opened(id, 0, B).(handler := FailSend));
    assert t4.deliveries == Idle(ids[..i]) + [KEPT.(id := id)] + Idle(ids[i + 1..j]) +
      [Opened(id, 0, B).(handler := FailSend)] + Idle(ids[j + 1..]);
    assert t4.sessions == map[A := LIVE, B := DEAD] && t4.active == map[];
    Uncovered(t4, ids, i);
  }

  lemma Uncovered(t: State, ids: seq<string>, i: nat)
    requires i < |t.deliveries| == |ids| && forall k :: 0 <= k < |ids| ==> t.deliveries[k].id == ids[k]
    requires t.deliveries[i] == KEPT.(id := ids[i]) && t.sessions == map[A := LIVE, B := DEAD] && t.active == map[]
    ensures Ids(t) == ids && Registered(t, i) && !Sess(t, i).exited && !Bound(t, i)
  {
  }

  /**
   When the coverage holds, exactly: for every sequence of delivered command ids, every run that
   delivers just those leaves each live registered session bound to its id before `Stop` clears the
   map, if and only if no id is repeated.
   */
  lemma CoverageNeedsDistinctIds(ids: seq<string>)
    ensures (forall run :: Legal(Init(false), run) && Ids(After(Init(false), run)) == ids ==>
      AllBound(After(Init(false), run)))
            <==> Distinct(ids)
  {
    if Distinct(ids) {
      forall run | Legal(Init(false), run) && Ids(After(Init(false), run)) == ids
        ensures AllBound(After(Init(false), run))
      {
        var s := After(Init(false), run);
        forall d: nat | !s.stop.Stopped? && Registered(s, d) && !Sess(s, d).exited
          ensures Bound(s, d)
        {
          assert forall k :: 0 <= k < |ids| ==> s.deliveries[k].id == ids[k];
          assert UniqueId(s, d);
          StopCoverage(false, run, d);
        }
      }
    } else {
      var i, j :| 0 <= i < j < |ids| && ids[i] == ids[j];
      var run := UncoveringRun(ids, i, j);
      assert !AllBound(After(Init(false), run));
    }
  }

  // ---- a signal after exit ----

  /** A kill request for the session of the first command is past its test of Exited. */
  lemma PoiseRun(s: State, run: seq<Action>, t: State) returns (run': seq<Action>)
    requires Plays(s, run, t) && |t.deliveries| == 1 && !t.brain && A in t.sessions && !t.sessions[A].exited
    ensures Plays(s, run', t.(deliveries := t.deliveries + [NewDelivery("k", KillProcess(A)).(handler := KillPid)]))
  {
    var v := NewDelivery("k", KillProcess(A));
    var step := Act(1, Handler, NO_ENV);
    Then(s, run, t, Deliver("k", v.req));
    run' := run + [Deliver("k", v.req)];
    var t1 := t.(deliveries := t.deliveries + [v]);
    Then(s, run', t1, step);
    run' := run' + [step];
    var t2 := t.(deliveries := t.deliveries + [v.(handler := KillCheck)]);
    assert Next(t1, step) == t2;
    Then(s, run', t2, step);
    assert Next(t2, step) == t.(deliveries := t.deliveries + [v.(handler := KillPid)]);
    run' := run' + [step];
  }

  /** SIGTERM can reach the recorded pid after the session has exited: the kill request tested Exited before. */
  lemma TermAfterExit()
    ensures exists run :: Legal(Init(false), run) &&
              var log := After(Init(false), run).log;
              |log| == 3 && log[0] == Exit(A, 0, "") && log[1].Result? && log[2] == Term(A, 1, true, false)
  {
    var s := Init(false);
    var run := LaunchRun(s, [], s, "c", 0, A);
    var t := With(s, Launched("c", 0, A), A, LIVE);
    run := PoiseRun(s, run, t);
    var t1 := t.(deliveries := t.deliveries + [NewDelivery("k", KillProcess(A)).(handler := KillPid)]);
    var run2, t2 := WaitRun(s, run, t1);
    run := KillRun(s, run2, t2);
  }

  /** The poised kill request goes on to send its SIGTERM. */
  lemma KillRun(s: State, run: seq<Action>, t: State) returns (run': seq<Action>)
    requires Plays(s, run, t) && |t.deliveries| == 2
    requires t.deliveries[1] == NewDelivery("k", KillProcess(A)).(handler := KillPid)
    requires A in t.sessions && t.sessions[A].pid == 1
    ensures Legal(s, run') && After(s, run').log == t.log + [Term(A, 1, true, false)]
  {
    var step := Act(1, Handler, NO_ENV);
    Then(s, run, t, step);
    var t1 := Next(t, step);
    Then(s, run + [step], t1, step);
    run' := run + [step] + [step];
  }

  // ---- a stale entry ----

  /** An entry can be stale: the wait goroutine runs its delete before the handler inserts. */
  lemma EntryLeftBehind()
    ensures exists run :: Legal(Init(false), run) &&
              var s := After(Init(false), run);
              && Registered(s, 0) && Bound(s, 0) && Sess(s, 0).exited && s.deliveries[0].wait.WaitEnded?
  {
    var s := Init(false);
    var run := LaunchRun(s, [], s, "c", 0, A);
    var run1, t := WaitRun(s, run, With(s, Launched("c", 0, A), A, LIVE));
    var insert := Act(0, Handler, NO_ENV);
    Then(s, run1, t, insert);
    assert After(s, run1 + [insert]) == Next(t, insert);
  }
}
