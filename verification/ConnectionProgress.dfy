/** That the connection is kept up until `Stop`, and that the protocol does what its environment says. */
module ConnectionProgress {
  import opened Basics
  import opened Connection
  import opened ConnectionTheorems
  import R = Reconnect

  // ---- the carrier is never lost ----

  /** The manager has a cap, and as many timers as it allows have been armed since the last connection. */
  predicate Capped(b: R.Backoff) {
    b.maxAttempts > 0 && b.attempt >= b.maxAttempts
  }

  /** In the course of `run` a goroutine asked for another attempt at the cap. */
  predicate MetCap(s: State, run: seq<Action>)
    requires Legal(s, run)
    decreases run
  {
    run != [] && (AsksAtCap(s, run[0]) || MetCap(Next(s, run[0]), run[1..]))
  }

  predicate AsksAtCap(s: State, a: Action) {
    a.Flow? && a.t in s.flows && s.flows[a.t].SchedDue? && Capped(s.backoff)
  }

  function Carriers(s: State): nat {
    |s.flows| + |s.armed|
  }

  lemma FlowCarries(s: State, t: nat, env: Env)
    requires OneCarrier(s) && !s.destroyed && FlowEnabled(s, t, env)
    ensures Carriers(FlowStep(s, t, env)) == if AsksAtCap(s, Flow(t, env)) then 0 else 1
  {
    var s' := FlowStep(s, t, env);
    Sole(s, t);
    FlowEffect(s, t, env);
    FlowArms(s, t, env);
    if t in s'.flows {
      assert s'.flows == map[t := s'.flows[t]];
    } else {
      assert s'.flows == map[];
      OnlyDueEnds(s, t, env);
    }
  }

  /** Before `Stop` a goroutine ends only by asking for another attempt. */
  lemma OnlyDueEnds(s: State, t: nat, env: Env)
    requires !s.destroyed && FlowEnabled(s, t, env) && t !in FlowStep(s, t, env).flows && s.armed == {}
    ensures s.flows[t].SchedDue? && FlowStep(s, t, env).armed == if Capped(s.backoff) then {} else {env.id}
  {
  }

  lemma StepCarries(s: State, a: Action)
    requires OneCarrier(s) && DialsBounded(s) && Enabled(s, a) && !Next(s, a).destroyed
    ensures !s.destroyed
    ensures Carriers(Next(s, a)) == if AsksAtCap(s, a) then 0 else 1
    ensures Carriers(s) == 1
  {
    match a
    case Flow(t, env) =>
      FlowEffect(s, t, env);
      Sole(s, t);
      FlowCarries(s, t, env);
    case Fire(timer, newFlow) =>
      NoneFlowing(s);
      assert s.armed == {timer};
    case StopStep =>
  }

  lemma {:induction false} RunCarries(s: State, token: string, run: seq<Action>)
    requires Inv(s, token) && Legal(s, run) && !After(s, run).destroyed && Carriers(s) == 1
    ensures Carriers(After(s, run)) == if MetCap(s, run) then 0 else 1
    decreases run
  {
    if run != [] {
      var s' := Next(s, run[0]);
      StepKeeps(s, run[0], token);
      AliveBefore(s', run[1..]);
      StepCarries(s, run[0]);
      if AsksAtCap(s, run[0]) {
        NoCarrierNoRun(s', token, run[1..]);
      } else {
        RunCarries(s', token, run[1..]);
      }
    }
  }

  /** destroyed is never taken back. */
  lemma {:induction false} AliveBefore(s: State, run: seq<Action>)
    requires Legal(s, run) && !After(s, run).destroyed
    ensures !s.destroyed
    decreases run
  {
    if run != [] {
      AliveBefore(Next(s, run[0]), run[1..]);
      if run[0].Flow? { FlowEffect(s, run[0].t, run[0].env); }
    }
  }

  lemma NoCarrierNoRun(s: State, token: string, run: seq<Action>)
    requires Inv(s, token) && Carriers(s) == 0 && Legal(s, run) && !After(s, run).destroyed
    ensures run == []
  {
    if run != [] {
      AliveBefore(Next(s, run[0]), run[1..]);
      StepCarries(s, run[0]);
    }
  }

  /** The cap is fixed. */
  lemma CapFixed(s: State, a: Action)
    requires Enabled(s, a)
    ensures Next(s, a).backoff.maxAttempts == s.backoff.maxAttempts
  {
  }

  lemma {:induction false} NoCapNotMet(s: State, run: seq<Action>)
    requires Legal(s, run) && s.backoff.maxAttempts <= 0
    ensures !MetCap(s, run)
    decreases run
  {
    if run != [] {
      CapFixed(s, run[0]);
      NoCapNotMet(Next(s, run[0]), run[1..]);
    }
  }

  /**
   The connection is never given up: until `Stop` sets destroyed there is exactly one goroutine or
   armed timer, unless one asked for another attempt at a positive cap, and then there is none.
   */
  lemma CarrierKeptAlive(s: State, token: string, run: seq<Action>)
    requires Starts(s, token) && Legal(s, run) && !After(s, run).destroyed
    ensures |After(s, run).flows| + |After(s, run).armed| == if MetCap(s, run) then 0 else 1
    ensures s.backoff.maxAttempts <= 0 ==> !MetCap(s, run)
  {
    ReachableInv(s, token, []);
    assert s.flows == map[0 := Check];
    RunCarries(s, token, run);
    if s.backoff.maxAttempts <= 0 { NoCapNotMet(s, run); }
  }

  // ---- it keeps dialing ----

  /** While a connection is read, the attempt counter is zero. */
  ghost predicate CounterReset(s: State) {
    forall t :: t in s.flows && (InReadLoop(s.flows[t]) || s.flows[t].Lost?) ==> s.backoff.attempt == 0
  }

  lemma FlowCounter(s: State, t: nat, env: Env)
    requires OneCarrier(s) && CounterReset(s) && FlowEnabled(s, t, env)
    ensures CounterReset(FlowStep(s, t, env))
  {
    Sole(s, t);
    FlowEffect(s, t, env);
  }

  lemma StepCounter(s: State, a: Action)
    requires OneCarrier(s) && CounterReset(s) && Enabled(s, a)
    ensures CounterReset(Next(s, a))
  {
    match a
    case Flow(t, env) => FlowCounter(s, t, env);
    case Fire(_, _) => NoneFlowing(s);
    case StopStep =>
  }

  lemma {:induction false} RunCounter(s: State, token: string, run: seq<Action>)
    requires Inv(s, token) && CounterReset(s) && Legal(s, run)
    ensures CounterReset(After(s, run))
    decreases run
  {
    if run != [] {
      StepKeeps(s, run[0], token);
      StepCounter(s, run[0]);
      RunCounter(Next(s, run[0]), token, run[1..]);
    }
  }

  /** The goroutine is about to ask for an attempt that the cap refuses. */
  predicate Doomed(s: State, pc: FlowPc) {
    (pc.SchedCheck? || pc.SchedDue?) && Capped(s.backoff)
  }

  /** There is a goroutine that is not doomed, or a timer. */
  ghost predicate Trying(s: State) {
    s.armed != {} || exists t :: t in s.flows && !Doomed(s, s.flows[t])
  }

  /** How far a goroutine is from its next dial, if all goes on as in `NextMove`. */
  function DialLeft(pc: FlowPc): nat {
    match pc
    case DialDue(_) => 1
    case ReadToken => 2
    case Check => 3
    case SchedDue => 5
    case SchedCheck => 6
    case Lost => 7
    case Reading(_) => 8
    case Persisting(_, _) => 9
    case Rotating(_, _) => 10
    case ResetBackoff(_) => 11
    case Install(_) => 12
    case Dialing => 13
  }

  /** The dial succeeds, and the connection then fails. */
  function MoveEnv(s: State, t: nat): Env {
    Env(true, 0, t + (if s.timer.Some? then s.timer.value else 0) + 1, 0.0, ReadError, None)
  }

  lemma FlowNears(s: State, t: nat)
    requires OneCarrier(s) && CounterReset(s) && !s.destroyed && MuFree(s) && t in s.flows && !Doomed(s, s.flows[t])
    requires !s.flows[t].DialDue?
    ensures FlowEnabled(s, t, MoveEnv(s, t))
    ensures
      var s' := FlowStep(s, t, MoveEnv(s, t));
      && s'.log[..|s.log|] == s.log[..] && !s'.destroyed && s'.stop == s.stop
      && if s.flows[t].SchedDue? then s'.armed != {} && s'.flows == map[]
         else t in s'.flows && !Doomed(s', s'.flows[t]) && DialLeft(s'.flows[t]) < DialLeft(s.flows[t])
  {
    Sole(s, t);
  }

  lemma {:induction false} FlowDials(s: State, token: string, t: nat) returns (more: seq<Action>)
    requires Inv(s, token) && CounterReset(s) && !s.destroyed && t in s.flows && !Doomed(s, s.flows[t])
    ensures Legal(s, more) && !NoDial(After(s, more).log, |s.log|)
    decreases DialLeft(s.flows[t])
  {
    var a := Flow(t, MoveEnv(s, t));
    if s.flows[t].DialDue? {
      more := [a];
      assert After(s, more) == Next(s, a) && Next(s, a).log[|s.log|].Dial?;
      return;
    }
    FlowNears(s, t);
    var s' := Next(s, a);
    StepKeeps(s, a, token);
    StepCounter(s, a);
    var rest: seq<Action>;
    if s.flows[t].SchedDue? {
      var timer :| timer in s'.armed;
      rest := TimerDials(s', token, timer);
    } else {
      rest := FlowDials(s', token, t);
    }
    more := [a] + rest;
    DialLater(s, a, rest);
  }

  lemma DialLater(s: State, a: Action, rest: seq<Action>)
    requires Enabled(s, a) && Legal(Next(s, a), rest) && |s.log| <= |Next(s, a).log|
    requires !NoDial(After(Next(s, a), rest).log, |Next(s, a).log|)
    ensures Legal(s, [a] + rest) && !NoDial(After(s, [a] + rest).log, |s.log|)
  {
    assert After(s, [a] + rest) == After(Next(s, a), rest);
  }

  lemma {:induction false} TimerDials(s: State, token: string, timer: nat) returns (more: seq<Action>)
    requires Inv(s, token) && !s.destroyed && timer in s.armed
    ensures Legal(s, more) && !NoDial(After(s, more).log, |s.log|)
    decreases 4
  {
    NoneFlowing(s);
    var fire := Fire(timer, 0);
    StepKeeps(s, fire, token);
    var rest := FlowDials(Next(s, fire), token, 0);
    more := [fire] + rest;
    DialLater(s, fire, rest);
  }

  lemma {:induction false} NobodyTries(s: State, token: string, more: seq<Action>)
    requires Inv(s, token) && !s.destroyed && !Trying(s) && Legal(s, more)
    ensures |s.log| <= |After(s, more).log| && NoDial(After(s, more).log, |s.log|) && s.log <= After(s, more).log
    decreases more
  {
    if more != [] {
      var s' := Next(s, more[0]);
      StepKeeps(s, more[0], token);
      StepGivesUp(s, more[0]);
      if s'.destroyed { NobodyDials(s', token, more[1..]); } else { NobodyTries(s', token, more[1..]); }
      LaterQuiet(s.log, s'.log, After(s', more[1..]).log);
    }
  }

  lemma StepGivesUp(s: State, a: Action)
    requires OneCarrier(s) && DialsBounded(s) && !s.destroyed && !Trying(s) && Enabled(s, a)
    ensures s.log <= Next(s, a).log && NoDial(Next(s, a).log, |s.log|)
    ensures if Next(s, a).destroyed then !DialerAround(Next(s, a)) else !Trying(Next(s, a))
  {
    match a
    case Flow(t, env) => FlowGivesUp(s, t, env);
    case Fire(_, _) =>
    case StopStep =>
      assert NextStop(s).flows == s.flows;
      assert forall t :: t in s.flows ==> Doomed(s, s.flows[t]);
  }

  lemma FlowGivesUp(s: State, t: nat, env: Env)
    requires OneCarrier(s) && !Trying(s) && FlowEnabled(s, t, env)
    ensures !Trying(FlowStep(s, t, env)) && FlowStep(s, t, env).log == s.log
    ensures FlowStep(s, t, env).destroyed == s.destroyed
  {
    Sole(s, t);
    assert Doomed(s, s.flows[t]);
  }

  /**
   The connection is tried for ever, exactly: until `Stop` sets destroyed, some continuation dials if
   and only if a timer is armed or a goroutine is anywhere but at an attempt that the cap refuses.
   With no positive cap, and as long as the cap was not met, that is always so.
   */
  lemma KeepsDialing(s: State, token: string, run: seq<Action>)
    requires Starts(s, token) && Legal(s, run) && !After(s, run).destroyed
    ensures
      var t := After(s, run);
      && ((exists more :: Legal(t, more) && !NoDial(After(t, more).log, |t.log|)) <==> Trying(t))
      && (s.backoff.maxAttempts <= 0 ==> Trying(t))
  {
    ReachableInv(s, token, run);
    ReachableInv(s, token, []);
    var t := After(s, run);
    RunCounter(s, token, run);
    if t.armed != {} {
      var timer :| timer in t.armed;
      var more := TimerDials(t, token, timer);
    } else if f :| f in t.flows && !Doomed(t, t.flows[f]) {
      var more := FlowDials(t, token, f);
    } else if more :| Legal(t, more) && !NoDial(After(t, more).log, |t.log|) {
      NobodyTries(t, token, more);
    }
    if s.backoff.maxAttempts <= 0 { NoCapTries(s, token, run); }
  }

  lemma {:induction false} RunCapFixed(s: State, run: seq<Action>)
    requires Legal(s, run)
    ensures After(s, run).backoff.maxAttempts == s.backoff.maxAttempts
    decreases run
  {
    if run != [] {
      CapFixed(s, run[0]);
      RunCapFixed(Next(s, run[0]), run[1..]);
    }
  }

  lemma NoCapTries(s: State, token: string, run: seq<Action>)
    requires Starts(s, token) && Legal(s, run) && !After(s, run).destroyed && s.backoff.maxAttempts <= 0
    ensures Trying(After(s, run))
  {
    var t := After(s, run);
    CarrierKeptAlive(s, token, run);
    RunCapFixed(s, run);
    if t.armed == {} {
      assert t.flows != map[];
      var f :| f in t.flows;
      assert !Doomed(t, t.flows[f]);
    }
  }
}
