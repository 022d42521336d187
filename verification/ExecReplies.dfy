/** What the commands that never get a session are answered, and that a brain actuator executes nothing. */
module ExecReplies {
  import opened Basics
  import opened Sessions
  import opened ExecLifecycle
  import opened ExecInvariant
  import opened ExecSteps
  import opened ExecTheorems
  import opened ExecProgress
  import opened ExecSignals
  import opened ExecTrace

  /** A kill request has had its SIGTERM delivered. */
  ghost predicate Terminated(log: seq<Event>, target: string) {
    exists i :: 0 <= i < |log| && log[i].Term? && log[i].sid == target && log[i].ok && !log[i].byStop
  }

  /** `status` is a right answer to the request. */
  ghost predicate Answers(brain: bool, req: Request, status: Status, log: seq<Event>) {
    if brain then status == Failed
    else
      match req
      case Simple(ok) => status == if ok then Completed else Failed
      case KillProcess(target) => status != Running && (status == Completed ==> Terminated(log, target))
      case Exec(emptyCommand, _, _) => emptyCommand && status == Failed
  }

  lemma LaterAnswers(brain: bool, req: Request, status: Status, log: seq<Event>, log': seq<Event>)
    requires Answers(brain, req, status, log) && log <= log'
    ensures Answers(brain, req, status, log')
  {
    if !brain && req.KillProcess? && Terminated(log, req.target) {
      var i :| 0 <= i < |log| && log[i].Term? && log[i].sid == req.target && log[i].ok && !log[i].byStop;
      assert log'[i] == log[i];
    }
  }

  /** The result is about `d` and carries no output. */
  predicate PlainResult(e: Event, d: nat) {
    e.Result? && e.d == d && e.out == [] && e.err == []
  }

  /** Where a command without a session is, and what it has been answered. */
  ghost predicate Replied(s: State, d: nat) {
    d < |s.deliveries| ==>
      var v := s.deliveries[d];
      && (v.sid.Some? ==> !s.brain && v.req.Exec? && !v.req.emptyCommand)
      && (v.sid.None? ==>
            && (v.handler.Adding? ==> !s.brain && v.req.Exec? && !v.req.emptyCommand)
            && (v.handler.KillCheck? || v.handler.KillPid? || v.handler.KillTerm? ==> !s.brain && v.req.KillProcess?)
            && (v.handler.Reply? ==> Answers(s.brain, v.req, v.handler.status, s.log))
            && (forall j :: 0 <= j < |s.log| && s.log[j].Result? && s.log[j].d == d ==>
                  v.handler.Done? && PlainResult(s.log[j], d) && Answers(s.brain, v.req, s.log[j].status, s.log)))
  }

  lemma RepliedKept(s: State, s': State, d: nat)
    requires Replied(s, d) && d < |s.deliveries| && d < |s'.deliveries| && s'.brain == s.brain && s.log <= s'.log
    requires s'.deliveries[d] == s.deliveries[d]
    requires forall j :: |s.log| <= j < |s'.log| && s'.log[j].Result? ==> s'.log[j].d != d
    ensures Replied(s', d)
  {
    var v := s.deliveries[d];
    if v.handler.Reply? && v.sid.None? { LaterAnswers(s.brain, v.req, v.handler.status, s.log, s'.log); }
    forall j | 0 <= j < |s'.log| && s'.log[j].Result? && s'.log[j].d == d && v.sid.None?
      ensures v.handler.Done? && PlainResult(s'.log[j], d) && Answers(s.brain, v.req, s'.log[j].status, s'.log)
    {
      assert s'.log[j] == s.log[j];
      LaterAnswers(s.brain, v.req, s.log[j].status, s.log, s'.log);
    }
  }

  lemma StartReplies(s: State, d: nat, env: Env)
    requires HandlerEnabled(s, d, env) && Replied(s, d) && s.deliveries[d].sid.None? && s.deliveries[d].handler.Start?
    ensures Replied(HandlerStep(s, d, env), d)
  {
  }

  lemma CheckReplies(s: State, d: nat, env: Env)
    requires HandlerEnabled(s, d, env) && Replied(s, d) && s.deliveries[d].sid.None?
    requires s.deliveries[d].handler.KillCheck? || s.deliveries[d].handler.KillPid? || s.deliveries[d].handler.Adding?
    ensures Replied(HandlerStep(s, d, env), d)
  {
  }

  lemma TermReplies(s: State, d: nat, env: Env)
    requires HandlerEnabled(s, d, env) && Replied(s, d) && s.deliveries[d].sid.None?
    requires s.deliveries[d].handler.KillTerm?
    ensures Replied(HandlerStep(s, d, env), d)
  {
    var v, s' := s.deliveries[d], HandlerStep(s, d, env);
    assert s'.log[|s.log|] == Term(v.req.target, v.handler.seenPid, env.ok, false);
    assert forall j :: 0 <= j < |s.log| ==> s'.log[j] == s.log[j];
    if env.ok { assert Terminated(s'.log, v.req.target); }
  }

  lemma SendReplies(s: State, d: nat, env: Env)
    requires HandlerEnabled(s, d, env) && Replied(s, d) && s.deliveries[d].sid.None? && s.deliveries[d].handler.Reply?
    ensures Replied(HandlerStep(s, d, env), d)
  {
    var v, s' := s.deliveries[d], HandlerStep(s, d, env);
    assert s'.log == s.log + [Result(d, v.id, v.handler.status, [], [])];
    LaterAnswers(s.brain, v.req, v.handler.status, s.log, s'.log);
    assert forall j :: 0 <= j < |s.log| ==> s'.log[j] == s.log[j];
  }

  lemma OwnReplies(s: State, d: nat, actor: Actor, env: Env)
    requires Inv(s) && Enabled(s, Act(d, actor, env)) && Replied(s, d)
    ensures Replied(Next(s, Act(d, actor, env)), d)
  {
    var a := Act(d, actor, env);
    ShapeOf(s, d);
    BrainKept(s, a);
    StepGrows(s, a);
    StepKeeps(s, a);
    if s.deliveries[d].sid.None? {
      assert actor.Handler?;
      var pc := s.deliveries[d].handler;
      if pc.Start? {
        StartReplies(s, d, env);
      } else if pc.KillTerm? {
        TermReplies(s, d, env);
      } else if pc.Reply? {
        SendReplies(s, d, env);
      } else {
        CheckReplies(s, d, env);
      }
    }
  }

  lemma StepReplied(s: State, a: Action, d: nat)
    requires Inv(s) && Enabled(s, a) && Replied(s, d)
    ensures Replied(Next(s, a), d)
  {
    if a.Act? && a.d == d {
      OwnReplies(s, d, a.actor, a.env);
    } else if d < |s.deliveries| {
      UntouchedByOthers(s, a, d);
      BrainKept(s, a);
      StepGrows(s, a);
      RepliedKept(s, Next(s, a), d);
    } else {
      NewIsFresh(s, a, d);
    }
  }

  lemma NewIsFresh(s: State, a: Action, d: nat)
    requires Inv(s) && Enabled(s, a) && d >= |s.deliveries|
    ensures Replied(Next(s, a), d)
  {
    if a.Deliver? {
      assert forall j :: 0 <= j < |s.log| && s.log[j].Result? ==> s.log[j].d < |s.deliveries|;
    } else {
      StepKeeps(s, a);
    }
  }

  lemma {:induction false} RunReplied(s: State, run: seq<Action>)
    requires Inv(s) && (forall d: nat :: Replied(s, d)) && Legal(s, run)
    ensures forall d: nat :: Replied(After(s, run), d)
    decreases run
  {
    if run != [] {
      forall d: nat
        ensures Replied(Next(s, run[0]), d)
      {
        StepReplied(s, run[0], d);
      }
      StepKeeps(s, run[0]);
      RunReplied(Next(s, run[0]), run[1..]);
    }
  }

  /**
   Every result of a command that never got a session is the right one, without output: failed in
   brain mode and for an empty command; what the capability computed for the other capabilities; and
   completed for a kill request only when its SIGTERM was delivered. Only a non-empty exec command of
   an actuator that is not in brain mode gets a session, and it is never refused.
   */
  lemma RepliesAreRight(brain: bool, run: seq<Action>, d: nat)
    requires Legal(Init(brain), run) && d < |After(Init(brain), run).deliveries|
    ensures
      var s := After(Init(brain), run);
      var v := s.deliveries[d];
      && (v.sid.Some? ==> !brain && v.req.Exec? && !v.req.emptyCommand)
      && (v.sid.None? ==> forall j :: 0 <= j < |s.log| && s.log[j].Result? && s.log[j].d == d ==>
            s.log[j].out == [] && s.log[j].err == [] && Answers(brain, v.req, s.log[j].status, s.log))
  {
    InitHolds(brain);
    RunReplied(Init(brain), run);
    RunBrain(Init(brain), run);
    assert Replied(After(Init(brain), run), d);
  }

  lemma {:induction false} RunBrain(s: State, run: seq<Action>)
    requires Legal(s, run)
    ensures After(s, run).brain == s.brain
    decreases run
  {
    if run != [] {
      BrainKept(s, run[0]);
      RunBrain(Next(s, run[0]), run[1..]);
    }
  }

  // ---- kill requests, exactly ----

  /** The kill request has decided on `status`, or has sent it. */
  ghost predicate Decided(s: State, d: nat, status: Status) {
    && d < |s.deliveries| && s.deliveries[d].sid.None?
    && (s.deliveries[d].handler == Reply(status) || (s.deliveries[d].handler.Done? &&
          exists j :: 0 <= j < |s.log| && s.log[j].Result? && s.log[j].d == d && s.log[j].status == status))
  }

  lemma DecidedStep(s: State, a: Action, d: nat, status: Status)
    requires Inv(s) && Enabled(s, a) && Decided(s, d, status)
    ensures Decided(Next(s, a), d, status)
  {
    var s' := Next(s, a);
    StepGrows(s, a);
    if s.deliveries[d].handler.Done? {
      var j :| 0 <= j < |s.log| && s.log[j].Result? && s.log[j].d == d && s.log[j].status == status;
      assert s'.log[j] == s.log[j];
    }
    if a.Act? && a.d == d {
      ShapeOf(s, d);
      assert a.actor.Handler? && s.deliveries[d].handler == Reply(status);
      assert s'.log[|s.log|].Result?;
    } else {
      UntouchedByOthers(s, a, d);
    }
  }

  lemma {:induction false} RunDecided(s: State, more: seq<Action>, d: nat, status: Status)
    requires Inv(s) && Legal(s, more) && Decided(s, d, status)
    ensures Decided(After(s, more), d, status)
    decreases more
  {
    if more != [] {
      DecidedStep(s, more[0], d, status);
      StepKeeps(s, more[0]);
      RunDecided(Next(s, more[0]), more[1..], d, status);
    }
  }

  /** A kill request that gets as far as the system call is answered by what the call returns. */
  lemma KillAnswersSyscall(brain: bool, run: seq<Action>, d: nat, env: Env, more: seq<Action>)
    requires Legal(Init(brain), run) && HandlerEnabled(After(Init(brain), run), d, env)
    requires After(Init(brain), run).deliveries[d].handler.KillTerm?
    requires Legal(Next(After(Init(brain), run), Act(d, Handler, env)), more)
    ensures
      var s := After(Init(brain), run);
      var s' := Next(s, Act(d, Handler, env));
      && s.deliveries[d].req.KillProcess?
      && s'.log == s.log + [Term(s.deliveries[d].req.target, s.deliveries[d].handler.seenPid, env.ok, false)]
      && Decided(After(s', more), d, if env.ok then Completed else Failed)
  {
    var s, a := After(Init(brain), run), Act(d, Handler, env);
    ReachableInv(brain, run);
    ShapeOf(s, d);
    StepKeeps(s, a);
    RunDecided(Next(s, a), more, d, if env.ok then Completed else Failed);
  }

  // ---- brain mode ----

  ghost predicate BrainIdle(s: State) {
    && s.sessions == map[] && s.active == map[] && s.killers == []
    && (s.stop.Stopping? ==> s.stop.at.Between?)
    && (forall d :: 0 <= d < |s.deliveries| ==>
          var pc := s.deliveries[d].handler;
          s.deliveries[d].sid.None? && (pc.Start? || pc == Reply(Failed) || pc.Done?))
    && (forall j :: 0 <= j < |s.log| ==> s.log[j].Result? && s.log[j].status == Failed)
  }

  lemma BrainStep(s: State, a: Action)
    requires s.brain && BrainIdle(s) && Enabled(s, a)
    ensures BrainIdle(Next(s, a))
  {
    match a
    case Deliver(_, _) =>
    case Act(d, actor, env) =>
      assert actor.Handler?;
      BrainHandler(s, d, env);
    case Wake(_) =>
    case StopStep(id, ok) =>
  }

  lemma BrainHandler(s: State, d: nat, env: Env)
    requires s.brain && BrainIdle(s) && HandlerEnabled(s, d, env)
    ensures BrainIdle(HandlerStep(s, d, env))
  {
  }

  lemma {:induction false} RunBrainIdle(s: State, run: seq<Action>)
    requires s.brain && BrainIdle(s) && Legal(s, run)
    ensures BrainIdle(After(s, run))
    decreases run
  {
    if run != [] {
      BrainStep(s, run[0]);
      BrainKept(s, run[0]);
      RunBrainIdle(Next(s, run[0]), run[1..]);
    }
  }

  /** A brain actuator starts no process, sends no signal, and answers every command with failed. */
  lemma BrainExecutesNothing(run: seq<Action>)
    requires Legal(Init(true), run)
    ensures
      var s := After(Init(true), run);
      && s.sessions == map[] && s.active == map[]
      && (forall j :: 0 <= j < |s.log| ==> s.log[j].Result? && s.log[j].status == Failed)
  {
    RunBrainIdle(Init(true), run);
  }
}
