/** That every command can come to its end, and what the proofs of it share with others. */
module ExecProgress {
  import opened Basics
  import opened Slugs
  import opened ExecLifecycle
  import opened ExecInvariant
  import opened ExecSteps
  import opened ExecTheorems

  // ---- what a step of one goroutine leaves alone ----

  predicate Untouched(s: State, s': State, d: nat) {
    && d < |s.deliveries| && d < |s'.deliveries| && s'.deliveries[d] == s.deliveries[d]
    && forall j :: |s.log| <= j < |s'.log| && s'.log[j].Result? ==> s'.log[j].d != d
  }

  lemma LocalLeaves(s: State, s': State, e: nat, d: nat)
    requires LocalStep(s, s', e) && d < |s.deliveries| && d != e
    ensures Untouched(s, s', d)
  {
  }

  lemma OutsideLeaves(s: State, s': State, d: nat)
    requires OutsideStep(s, s') && d < |s.deliveries|
    ensures Untouched(s, s', d)
  {
  }

  /** A step of anyone else leaves the delivery alone and sends no result for it. */
  lemma UntouchedByOthers(s: State, a: Action, d: nat)
    requires Inv(s) && Enabled(s, a) && d < |s.deliveries| && !(a.Act? && a.d == d)
    ensures Untouched(s, Next(s, a), d)
  {
    if !a.Deliver? {
      StepKeeps(s, a);
      if a.Act? { LocalLeaves(s, Next(s, a), a.d, d); } else { OutsideLeaves(s, Next(s, a), d); }
    }
  }

  // ---- how far a goroutine has to go ----

  function HandlerLeft(pc: HandlerPc): nat {
    match pc
    case Start => 19
    case Adding => 18
    case Opening => 17
    case Spawning => 16
    case Spawned(_) => 15
    case AttachPty => 14
    case ArmTimeout => 13
    case ArmYield => 12
    case StartOut => 11
    case StartErr => 10
    case StartWait => 9
    case FailMark => 8
    case FailDelete => 7
    case FailSend => 6
    case Insert => 5
    case KillCheck => 4
    case KillPid => 3
    case KillTerm(_) => 2
    case Reply(_) => 1
    case Done => 0
  }

  function TimeoutLeft(pc: TimeoutPc): nat {
    match pc
    case Fired => 5
    case TimeoutMarked => 4
    case TimeoutDeleted => 3
    case TimeoutRead(_) => 2
    case TimeoutDue(_, _) => 1
    case _ => 0
  }

  function WaitLeft(pc: WaitPc): nat {
    match pc
    case WaitOff => 0
    case Waiting => 8
    case Returned(_) => 7
    case TimerStopped(_) => 6
    case Exiting(_, _) => 5
    case WaitMarked(_) => 4
    case WaitDeleted(_) => 3
    case WaitRead(_, _) => 2
    case WaitDue(_, _, _) => 1
    case WaitEnded => 0
  }

  lemma MoveAdvances(s: State, v: Delivery, env: Env)
    requires OnlyMoves(v.handler)
    ensures HandlerLeft(Move(s, v, env).handler) < HandlerLeft(v.handler)
  {
  }

  lemma LaunchAdvances(s: State, d: nat, env: Env)
    requires HandlerEnabled(s, d, env)
    requires
      var pc := s.deliveries[d].handler;
      pc.Adding? || pc.Opening? || pc.Spawned? || pc.AttachPty?
    ensures
      var s' := Launch(s, d, env);
      |s'.deliveries| == |s.deliveries| && HandlerLeft(s'.deliveries[d].handler) < HandlerLeft(s.deliveries[d].handler)
  {
  }

  lemma SettleAdvances(s: State, d: nat, env: Env)
    requires HandlerEnabled(s, d, env) && HandlerLeft(s.deliveries[d].handler) <= 8
    requires !OnlyMoves(s.deliveries[d].handler)
    ensures
      var s' := Settle(s, d, env);
      |s'.deliveries| == |s.deliveries| && HandlerLeft(s'.deliveries[d].handler) < HandlerLeft(s.deliveries[d].handler)
  {
  }

  lemma HandlerAdvances(s: State, d: nat, env: Env)
    requires HandlerEnabled(s, d, env)
    ensures
      var s' := HandlerStep(s, d, env);
      |s'.deliveries| == |s.deliveries| && HandlerLeft(s'.deliveries[d].handler) < HandlerLeft(s.deliveries[d].handler)
  {
    var v := s.deliveries[d];
    if OnlyMoves(v.handler) {
      MoveAdvances(s, v, env);
    } else if v.handler.Adding? || v.handler.Opening? || v.handler.Spawned? || v.handler.AttachPty? {
      LaunchAdvances(s, d, env);
    } else {
      SettleAdvances(s, d, env);
    }
  }

  lemma TimeoutAdvances(s: State, d: nat)
    requires TimeoutEnabled(s, d) && TimeoutLeft(s.deliveries[d].timeout) > 0
    ensures
      var v, v' := s.deliveries[d], TimeoutStep(s, d).deliveries[d];
      && v'.handler == v.handler && v'.wait == v.wait && TimeoutLeft(v'.timeout) < TimeoutLeft(v.timeout)
  {
  }

  /** The wait goroutine has come closer to its end, and nothing else has gone further away from its own. */
  predicate WaitCloser(v: Delivery, v': Delivery) {
    v'.handler == v.handler && TimeoutLeft(v'.timeout) == TimeoutLeft(v.timeout) && WaitLeft(v'.wait) < WaitLeft(v.wait)
  }

  lemma WaitAdvances(s: State, d: nat, env: Env)
    requires WaitEnabled(s, d)
    ensures WaitCloser(s.deliveries[d], WaitStep(s, d, env).deliveries[d])
  {
    if HasStatus(s.deliveries[d]) {
      ReportAdvances(s, d, env);
    } else if s.deliveries[d].wait.Exiting? {
      ExitAdvances(s, d, env);
    }
  }

  lemma ReportAdvances(s: State, d: nat, env: Env)
    requires WaitEnabled(s, d) && HasStatus(s.deliveries[d])
    ensures WaitCloser(s.deliveries[d], WaitStep(s, d, env).deliveries[d])
  {
  }

  lemma ExitAdvances(s: State, d: nat, env: Env)
    requires WaitEnabled(s, d) && s.deliveries[d].wait.Exiting?
    ensures WaitCloser(s.deliveries[d], WaitStep(s, d, env).deliveries[d])
  {
  }

  // ---- every command can settle ----

  /** The handler has still to register a session. */
  predicate NeedsSlug(s: State, v: Delivery) {
    v.handler.Adding? || (v.handler.Start? && FirstStep(s.brain, v.req).Adding?)
  }

  ghost predicate NoFreeSlug(s: State) {
    forall slug :: IsSlug(slug) ==> slug in s.sessions
  }

  const GO := Env("", true, 1, 0, [], false)

  /** What the environment may decide for the next step of the handler. */
  lemma HandlerChoice(s: State, d: nat) returns (env: Env)
    requires Inv(s) && MuFree(s) && d < |s.deliveries| && !s.deliveries[d].handler.Done?
    requires !(NeedsSlug(s, s.deliveries[d]) && NoFreeSlug(s))
    ensures HandlerEnabled(s, d, env)
  {
    ShapeOf(s, d);
    env := GO;
    if s.deliveries[d].handler.Adding? {
      var slug :| IsSlug(slug) && slug !in s.sessions;
      env := env.(slug := slug);
    }
  }

  /** After its step the handler is past the registration, or nothing has been registered meanwhile. */
  lemma SlugOnce(s: State, d: nat, env: Env)
    requires HandlerEnabled(s, d, env)
    ensures
      var s' := HandlerStep(s, d, env);
      d < |s'.deliveries| && (NeedsSlug(s', s'.deliveries[d]) ==>
        NeedsSlug(s, s.deliveries[d]) && s'.sessions == s.sessions)
  {
    HandlerAdvances(s, d, env);
    if OnlyMoves(s.deliveries[d].handler) {
      assert HandlerStep(s, d, env).sessions == s.sessions;
    }
  }

  /** The goroutine of `d` that goes next, towards the end of the command. */
  lemma NextStep(s: State, d: nat) returns (a: Action)
    requires Inv(s) && MuFree(s) && d < |s.deliveries| && !Settled(s.deliveries[d])
    requires !(NeedsSlug(s, s.deliveries[d]) && NoFreeSlug(s))
    ensures a.Act? && a.d == d && Enabled(s, a)
    ensures
      var v, s' := s.deliveries[d], Next(s, a);
      && d < |s'.deliveries| && !(NeedsSlug(s', s'.deliveries[d]) && NoFreeSlug(s'))
      && var v' := s'.deliveries[d];
      && (HandlerLeft(v'.handler) < HandlerLeft(v.handler)
          || (v'.handler == v.handler
              && TimeoutLeft(v'.timeout) + WaitLeft(v'.wait) < TimeoutLeft(v.timeout) + WaitLeft(v.wait)))
  {
    var v := s.deliveries[d];
    ShapeOf(s, d);
    if !v.handler.Done? {
      var env := HandlerChoice(s, d);
      HandlerAdvances(s, d, env);
      SlugOnce(s, d, env);
      a := Act(d, Handler, env);
    } else if TimeoutLeft(v.timeout) > 0 {
      TimeoutAdvances(s, d);
      a := Act(d, TimeoutTimer, GO);
    } else {
      WaitAdvances(s, d, GO);
      a := Act(d, Waiter, GO);
    }
  }

  /** A run in which `Stop` lets go of the lock and the command then comes to its end. */
  lemma {:induction false} Settles(s: State, d: nat) returns (more: seq<Action>)
    requires Inv(s) && d < |s.deliveries| && !(NeedsSlug(s, s.deliveries[d]) && NoFreeSlug(s))
    ensures Legal(s, more) && d < |After(s, more).deliveries| && Settled(After(s, more).deliveries[d])
    decreases
      if s.stop.Stopping? then StepsLeft(s) else 0, HandlerLeft(s.deliveries[d].handler),
      TimeoutLeft(s.deliveries[d].timeout) + WaitLeft(s.deliveries[d].wait)
  {
    if Settled(s.deliveries[d]) { return []; }
    var a: Action;
    if s.stop.Stopping? {
      var id := StopMoves(s);
      StopKeepsSessions(s, id, true);
      a := StopStep(id, true);
    } else {
      a := NextStep(s, d);
      StepKeeps(s, a);
    }
    var rest := Settles(Next(s, a), d);
    more := [a] + rest;
  }

  lemma StopKeepsSessions(s: State, id: string, ok: bool)
    requires StopEnabled(s, id)
    ensures NextStop(s, id, ok).sessions == s.sessions && NextStop(s, id, ok).brain == s.brain
  {
  }

  // ---- and the one case in which it cannot ----

  lemma ActKeepsBrain(s: State, d: nat, actor: Actor, env: Env)
    requires Enabled(s, Act(d, actor, env))
    ensures Next(s, Act(d, actor, env)).brain == s.brain
  {
    match actor
    case Handler => HandlerKeepsBrain(s, d, env);
    case StdoutReader =>
    case StderrReader =>
    case YieldTimer =>
    case TimeoutTimer =>
    case Waiter =>
  }

  lemma HandlerKeepsBrain(s: State, d: nat, env: Env)
    requires HandlerEnabled(s, d, env)
    ensures HandlerStep(s, d, env).brain == s.brain
  {
  }

  lemma BrainKept(s: State, a: Action)
    requires Enabled(s, a)
    ensures Next(s, a).brain == s.brain
  {
    match a
    case Deliver(_, _) =>
    case Act(d, actor, env) => ActKeepsBrain(s, d, actor, env);
    case Wake(_) =>
    case StopStep(id, ok) => StopKeepsSessions(s, id, ok);
  }

  lemma StuckStep(s: State, a: Action, d: nat)
    requires Inv(s) && Enabled(s, a) && d < |s.deliveries| && NeedsSlug(s, s.deliveries[d]) && NoFreeSlug(s)
    ensures
      var s' := Next(s, a);
      d < |s'.deliveries| && NeedsSlug(s', s'.deliveries[d]) && NoFreeSlug(s')
  {
    ShapeOf(s, d);
    BrainKept(s, a);
    StepGrows(s, a);
    if a.Act? && a.d == d {
      assert a.actor.Handler? && s.deliveries[d].handler.Start?;
    } else {
      UntouchedByOthers(s, a, d);
    }
  }

  lemma {:induction false} StuckForGood(s: State, more: seq<Action>, d: nat)
    requires Inv(s) && Legal(s, more) && d < |s.deliveries| && NeedsSlug(s, s.deliveries[d]) && NoFreeSlug(s)
    ensures d < |After(s, more).deliveries| && !Settled(After(s, more).deliveries[d])
    decreases more
  {
    if more != [] {
      StepKeeps(s, more[0]);
      StuckStep(s, more[0], d);
      StuckForGood(Next(s, more[0]), more[1..], d);
    }
  }

  /** The command comes to its end in the course of `more`. */
  predicate Ends(s: State, more: seq<Action>, d: nat) {
    Legal(s, more) && d < |After(s, more).deliveries| && Settled(After(s, more).deliveries[d])
  }

  /**
   Progress, exactly: from every reachable state every command has a continuation in which all its
   goroutines that report a terminal result have ended, unless it has still to register a session
   while all 36^8 identifiers are in use.
   */
  lemma ProgressExactly(brain: bool, run: seq<Action>, d: nat)
    requires Legal(Init(brain), run) && d < |After(Init(brain), run).deliveries|
    ensures
      var s := After(Init(brain), run);
      (exists more :: Ends(s, more, d)) <==> !(NeedsSlug(s, s.deliveries[d]) && NoFreeSlug(s))
  {
    var s := After(Init(brain), run);
    ReachableInv(brain, run);
    if NeedsSlug(s, s.deliveries[d]) && NoFreeSlug(s) {
      if more :| Ends(s, more, d) { StuckForGood(s, more, d); }
    } else {
      var more := Settles(s, d);
      assert Ends(s, more, d);
    }
  }
}
