/** That a delivered SIGTERM is followed through, and when a command still reports that it is running. */
module ExecKills {
  import opened Basics
  import opened Sessions
  import opened ExecLifecycle
  import opened ExecInvariant
  import opened ExecSteps
  import opened ExecTheorems
  import opened ExecProgress
  import opened ExecSignals
  import opened ExecTrace

  // ---- one SIGKILL goroutine for each delivered SIGTERM ----

  function Delivered(log: seq<Event>, sid: string): nat {
    if log == [] then 0
    else
      var e := log[|log| - 1];
      Delivered(log[..|log| - 1], sid) + One(e.Term? && e.ok && e.sid == sid)
  }

  function KillersOf(killers: seq<Killer>, sid: string): nat {
    if killers == [] then 0
    else KillersOf(killers[..|killers| - 1], sid) + One(killers[|killers| - 1].sid == sid)
  }

  lemma DeliveredAppend(log: seq<Event>, e: Event, sid: string)
    ensures Delivered(log + [e], sid) == Delivered(log, sid) + One(e.Term? && e.ok && e.sid == sid)
  {
    assert (log + [e])[..|log|] == log;
  }

  lemma KillersAppend(killers: seq<Killer>, k: Killer, sid: string)
    ensures KillersOf(killers + [k], sid) == KillersOf(killers, sid) + One(k.sid == sid)
  {
    assert (killers + [k])[..|killers|] == killers;
  }

  lemma {:induction false} KillersFire(killers: seq<Killer>, k: nat, sid: string)
    requires k < |killers|
    ensures KillersOf(killers[k := Killer(killers[k].sid, true)], sid) == KillersOf(killers, sid)
  {
    var n, fired := |killers| - 1, killers[k := Killer(killers[k].sid, true)];
    if k == n {
      assert fired[..n] == killers[..n];
    } else {
      KillersFire(killers[..n], k, sid);
      assert fired[..n] == killers[..n][k := Killer(killers[k].sid, true)];
    }
  }

  /** As many SIGKILL goroutines have been started for the session as SIGTERMs have been delivered to it. */
  predicate Paired(s: State, sid: string) {
    KillersOf(s.killers, sid) == Delivered(s.log, sid)
  }

  lemma TerminatePairs(s: State, target: string, pid: nat, ok: bool, byStop: bool, sid: string)
    requires Paired(s, sid)
    ensures Paired(Terminate(s, target, pid, ok, byStop), sid)
  {
    DeliveredAppend(s.log, Term(target, pid, ok, byStop), sid);
    KillersAppend(s.killers, Killer(target, false), sid);
  }

  lemma StopPairs(s: State, id: string, ok: bool, sid: string)
    requires Paired(s, sid) && StopEnabled(s, id)
    ensures Paired(NextStop(s, id, ok), sid)
  {
    if s.stop.Stopping? && s.stop.at.SendTerm? {
      TerminatePairs(s, s.stop.at.sid, s.stop.at.pid, ok, true, sid);
    }
  }

  lemma WakePairs(s: State, k: nat, sid: string)
    requires Paired(s, sid) && WakeEnabled(s, k)
    ensures Paired(WakeStep(s, k), sid)
  {
    KillersFire(s.killers, k, sid);
    var s' := WakeStep(s, k);
    if s'.log != s.log { DeliveredAppend(s.log, s'.log[|s.log|], sid); }
  }

  /** Neither a SIGTERM nor a goroutine. */
  predicate NoTerms(s: State, s': State) {
    && s'.killers == s.killers && s.log <= s'.log && |s'.log| <= |s.log| + 1
    && (|s'.log| > |s.log| ==> !s'.log[|s.log|].Term?)
  }

  lemma NoTermsPairs(s: State, s': State, sid: string)
    requires Paired(s, sid) && NoTerms(s, s')
    ensures Paired(s', sid)
  {
    if |s'.log| > |s.log| {
      assert s'.log == s.log + [s'.log[|s.log|]];
      DeliveredAppend(s.log, s'.log[|s.log|], sid);
    } else {
      assert s'.log == s.log;
    }
  }

  lemma ActPairs(s: State, d: nat, actor: Actor, env: Env, sid: string)
    requires Inv(s) && Enabled(s, Act(d, actor, env)) && Paired(s, sid)
    ensures Paired(Next(s, Act(d, actor, env)), sid)
  {
    var s' := Next(s, Act(d, actor, env));
    ShapeOf(s, d);
    if actor.Handler? && s.deliveries[d].handler.KillTerm? {
      TerminatePairs(s, s.deliveries[d].req.target, s.deliveries[d].handler.seenPid, env.ok, false, sid);
    } else {
      ActLogs(s, d, actor, env);
      ActKillers(s, d, actor, env);
      OnlyHandlerTerms(s, d, actor, env);
      NoTermsPairs(s, s', sid);
    }
  }

  lemma ActLogs(s: State, d: nat, actor: Actor, env: Env)
    requires Inv(s) && Enabled(s, Act(d, actor, env))
    ensures
      var s' := Next(s, Act(d, actor, env));
      s.log <= s'.log && |s'.log| <= |s.log| + 1
  {
    StepKeeps(s, Act(d, actor, env));
  }

  lemma ActKillers(s: State, d: nat, actor: Actor, env: Env)
    requires Inv(s) && Enabled(s, Act(d, actor, env))
    ensures
      var s' := Next(s, Act(d, actor, env));
      s'.killers == s.killers || (|s'.log| > |s.log| && s'.log[|s.log|].Term?)
  {
    StepKeeps(s, Act(d, actor, env));
  }

  lemma OnlyHandlerTerms(s: State, d: nat, actor: Actor, env: Env)
    requires Inv(s) && Enabled(s, Act(d, actor, env)) && d < |s.deliveries|
    requires !(actor.Handler? && s.deliveries[d].handler.KillTerm?)
    ensures
      var s' := Next(s, Act(d, actor, env));
      forall j :: |s.log| <= j < |s'.log| ==> !s'.log[j].Term?
  {
    ShapeOf(s, d);
    match actor
    case Handler => HandlerTerms(s, d, env);
    case StdoutReader =>
      ReaderTerms(s, d, false, env);
      SessionsHaveNoKill(s, d);
    case StderrReader =>
      ReaderTerms(s, d, true, env);
      SessionsHaveNoKill(s, d);
    case YieldTimer =>
      TimerTerms(s, d);
      SessionsHaveNoKill(s, d);
    case TimeoutTimer =>
      TimerTerms(s, d);
      SessionsHaveNoKill(s, d);
    case Waiter =>
      WaitTerms(s, d, env);
      SessionsHaveNoKill(s, d);
  }

  lemma SessionsHaveNoKill(s: State, d: nat)
    requires Inv(s) && HasSession(s, d)
    ensures !s.deliveries[d].handler.KillTerm?
  {
    ShapeOf(s, d);
  }

  lemma StepPairs(s: State, a: Action, sid: string)
    requires Inv(s) && Enabled(s, a) && Paired(s, sid)
    ensures Paired(Next(s, a), sid)
  {
    match a
    case Deliver(_, _) =>
    case Act(d, actor, env) => ActPairs(s, d, actor, env, sid);
    case Wake(k) => WakePairs(s, k, sid);
    case StopStep(id, ok) => StopPairs(s, id, ok, sid);
  }

  lemma {:induction false} RunPairs(s: State, run: seq<Action>, sid: string)
    requires Inv(s) && Legal(s, run) && Paired(s, sid)
    ensures Paired(After(s, run), sid)
    decreases run
  {
    if run != [] {
      StepPairs(s, run[0], sid);
      StepKeeps(s, run[0]);
      RunPairs(Next(s, run[0]), run[1..], sid);
    }
  }

  // ---- what such a goroutine does ----

  ghost predicate KillSent(log: seq<Event>, sid: string) {
    exists j :: 0 <= j < |log| && log[j].Kill? && log[j].sid == sid
  }

  /** A goroutine that has run found its session exited, or has sent SIGKILL. */
  ghost predicate FiredDone(s: State) {
    forall k :: 0 <= k < |s.killers| && s.killers[k].fired ==>
      ExitedIn(s, s.killers[k].sid) || KillSent(s.log, s.killers[k].sid)
  }

  lemma KillerHasProcess(s: State, k: nat)
    requires Inv(s) && k < |s.killers|
    ensures s.killers[k].sid in s.sessions && s.sessions[s.killers[k].sid].pid > 0
  {
    assert TermBefore(s.log, |s.log|, s.killers[k].sid);
    var i :| 0 <= i < |s.log| && s.log[i].Term? && s.log[i].sid == s.killers[k].sid && s.log[i].ok;
  }

  lemma WakeDone(s: State, k: nat)
    requires Inv(s) && FiredDone(s) && WakeEnabled(s, k)
    ensures FiredDone(WakeStep(s, k))
  {
    var s', sid := WakeStep(s, k), s.killers[k].sid;
    KillerHasProcess(s, k);
    if !ExitedIn(s, sid) {
      assert s'.log[|s.log|] == Kill(sid, s.sessions[sid].pid);
    }
    LaterDone(s, s', k);
  }

  lemma LaterDone(s: State, s': State, k: nat)
    requires FiredDone(s) && s.log <= s'.log
    requires forall sid :: ExitedIn(s, sid) ==> ExitedIn(s', sid)
    ensures forall i :: 0 <= i < |s.killers| && s.killers[i].fired ==>
              ExitedIn(s', s.killers[i].sid) || KillSent(s'.log, s.killers[i].sid)
  {
    forall i | 0 <= i < |s.killers| && s.killers[i].fired
      ensures ExitedIn(s', s.killers[i].sid) || KillSent(s'.log, s.killers[i].sid)
    {
      if !ExitedIn(s, s.killers[i].sid) {
        var j :| 0 <= j < |s.log| && s.log[j].Kill? && s.log[j].sid == s.killers[i].sid;
        assert s'.log[j] == s.log[j];
      }
    }
  }

  lemma StepDone(s: State, a: Action)
    requires Inv(s) && FiredDone(s) && Enabled(s, a)
    ensures FiredDone(Next(s, a))
  {
    if a.Wake? {
      WakeDone(s, a.k);
    } else {
      StepGrows(s, a);
      LaterDone(s, Next(s, a), 0);
      OnlyWakeFires(s, a);
    }
  }

  /** Nobody else sets the flag, and new goroutines start without it. */
  lemma OnlyWakeFires(s: State, a: Action)
    requires Inv(s) && Enabled(s, a) && !a.Wake?
    ensures forall k :: 0 <= k < |Next(s, a).killers| && Next(s, a).killers[k].fired ==>
              k < |s.killers| && s.killers[k] == Next(s, a).killers[k]
  {
    match a
    case Deliver(_, _) =>
    case Act(d, actor, env) =>
      ShapeOf(s, d);
      if !(actor.Handler? && s.deliveries[d].handler.KillTerm?) {
        OnlyHandlerTerms(s, d, actor, env);
        ActKillers(s, d, actor, env);
      }
    case StopStep(_, _) =>
  }

  lemma {:induction false} RunDone(s: State, run: seq<Action>)
    requires Inv(s) && Legal(s, run) && FiredDone(s)
    ensures FiredDone(After(s, run))
    decreases run
  {
    if run != [] {
      StepDone(s, run[0]);
      StepKeeps(s, run[0]);
      RunDone(Next(s, run[0]), run[1..]);
    }
  }

  /**
   A delivered SIGTERM is followed through. There is one SIGKILL goroutine for each; one that has run
   found its session exited or has sent SIGKILL; and one that has not run can, and then it sends
   SIGKILL to the recorded pid if the session is still live, and nothing otherwise.
   */
  lemma KillFollowsThrough(brain: bool, run: seq<Action>, k: nat)
    requires Legal(Init(brain), run) && k < |After(Init(brain), run).killers|
    ensures
      var s := After(Init(brain), run);
      var sid := s.killers[k].sid;
      && KillersOf(s.killers, sid) == Delivered(s.log, sid)
      && (s.killers[k].fired ==> ExitedIn(s, sid) || KillSent(s.log, sid))
      && (!s.killers[k].fired ==>
            && Enabled(s, Wake(k)) && sid in s.sessions
            && Next(s, Wake(k)).log == s.log + if s.sessions[sid].exited then [] else [Kill(sid, s.sessions[sid].pid)])
  {
    var s := After(Init(brain), run);
    InitHolds(brain);
    ReachableInv(brain, run);
    RunPairs(Init(brain), run, s.killers[k].sid);
    RunDone(Init(brain), run);
    KillerHasProcess(s, k);
  }

  // ---- how often ----

  function KillsTo(log: seq<Event>, sid: string): nat {
    if log == [] then 0
    else KillsTo(log[..|log| - 1], sid) + One(log[|log| - 1].Kill? && log[|log| - 1].sid == sid)
  }

  function FiredOf(killers: seq<Killer>, sid: string): nat {
    if killers == [] then 0
    else FiredOf(killers[..|killers| - 1], sid) + One(killers[|killers| - 1] == Killer(sid, true))
  }

  lemma KillsAppend(log: seq<Event>, e: Event, sid: string)
    ensures KillsTo(log + [e], sid) == KillsTo(log, sid) + One(e.Kill? && e.sid == sid)
  {
    assert (log + [e])[..|log|] == log;
  }

  lemma FiredAppend(killers: seq<Killer>, k: Killer, sid: string)
    ensures FiredOf(killers + [k], sid) == FiredOf(killers, sid) + One(k == Killer(sid, true))
  {
    assert (killers + [k])[..|killers|] == killers;
  }

  lemma {:induction false} FiredFire(killers: seq<Killer>, k: nat, sid: string)
    requires k < |killers| && !killers[k].fired
    ensures FiredOf(killers[k := Killer(killers[k].sid, true)], sid) ==
            FiredOf(killers, sid) + One(killers[k].sid == sid)
  {
    var n, fired := |killers| - 1, killers[k := Killer(killers[k].sid, true)];
    if k == n {
      assert fired[..n] == killers[..n];
    } else {
      FiredFire(killers[..n], k, sid);
      assert fired[..n] == killers[..n][k := Killer(killers[k].sid, true)];
    }
  }

  /** No more SIGKILLs than goroutines that have run, and as many as long as the session lives. */
  predicate KillsMatch(s: State, sid: string) {
    && KillsTo(s.log, sid) <= FiredOf(s.killers, sid)
    && (!ExitedIn(s, sid) ==> KillsTo(s.log, sid) == FiredOf(s.killers, sid))
  }

  /** Neither a SIGKILL nor a goroutine that runs, and no exit is taken back. */
  ghost predicate NoKills(s: State, s': State, sid: string) {
    && (s'.log == s.log || exists e: Event :: s'.log == s.log + [e] && !e.Kill?)
    && (s'.killers == s.killers || exists k: Killer :: s'.killers == s.killers + [k] && !k.fired)
    && (ExitedIn(s, sid) ==> ExitedIn(s', sid))
  }

  lemma NoKillsMatch(s: State, s': State, sid: string)
    requires KillsMatch(s, sid) && NoKills(s, s', sid)
    ensures KillsMatch(s', sid)
  {
    if s'.log != s.log {
      var e: Event :| s'.log == s.log + [e] && !e.Kill?;
      KillsAppend(s.log, e, sid);
    }
    if s'.killers != s.killers {
      var k: Killer :| s'.killers == s.killers + [k] && !k.fired;
      FiredAppend(s.killers, k, sid);
    }
  }

  /** A goroutine started with the flag unset. */
  ghost predicate StartsUnset(s: State, s': State) {
    forall k :: 0 <= k < |s'.killers| && s'.killers[k].fired ==> k < |s.killers| && s.killers[k] == s'.killers[k]
  }

  lemma LocalKillsNothing(s: State, s': State, d: nat, sid: string)
    requires LocalStep(s, s', d) && StartsUnset(s, s')
    ensures NoKills(s, s', sid)
  {
    if |s'.log| > |s.log| { assert s'.log == s.log + [s'.log[|s.log|]]; }
    if s'.killers != s.killers {
      var k: Killer :| s'.killers == s.killers + [k];
      assert s'.killers[|s.killers|] == k;
    }
  }

  lemma ActKillsNothing(s: State, a: Action, sid: string)
    requires Inv(s) && Enabled(s, a) && a.Act?
    ensures NoKills(s, Next(s, a), sid)
  {
    StepKeeps(s, a);
    OnlyWakeFires(s, a);
    LocalKillsNothing(s, Next(s, a), a.d, sid);
  }

  lemma StopKillsNothing(s: State, id: string, ok: bool, sid: string)
    requires StopEnabled(s, id)
    ensures NoKills(s, NextStop(s, id, ok), sid)
  {
    if s.stop.Stopping? && s.stop.at.SendTerm? {
      var at := s.stop.at;
      assert NextStop(s, id, ok).log == s.log + [Term(at.sid, at.pid, ok, true)];
      assert ok ==> NextStop(s, id, ok).killers == s.killers + [Killer(at.sid, false)];
    }
  }

  lemma WakeMatches(s: State, k: nat, sid: string)
    requires Inv(s) && WakeEnabled(s, k) && KillsMatch(s, sid)
    ensures KillsMatch(WakeStep(s, k), sid)
  {
    KillerHasProcess(s, k);
    FiredFire(s.killers, k, sid);
    var target := s.killers[k].sid;
    if !ExitedIn(s, target) { KillsAppend(s.log, Kill(target, s.sessions[target].pid), sid); }
  }

  lemma StepMatches(s: State, a: Action, sid: string)
    requires Inv(s) && Enabled(s, a) && KillsMatch(s, sid)
    ensures KillsMatch(Next(s, a), sid)
  {
    match a
    case Deliver(_, _) =>
    case Act(_, _, _) =>
      ActKillsNothing(s, a, sid);
      NoKillsMatch(s, Next(s, a), sid);
    case Wake(k) => WakeMatches(s, k, sid);
    case StopStep(id, ok) =>
      StopKillsNothing(s, id, ok, sid);
      NoKillsMatch(s, Next(s, a), sid);
  }

  lemma {:induction false} RunMatches(s: State, run: seq<Action>, sid: string)
    requires Inv(s) && Legal(s, run) && KillsMatch(s, sid)
    ensures KillsMatch(After(s, run), sid)
    decreases run
  {
    if run != [] {
      StepMatches(s, run[0], sid);
      StepKeeps(s, run[0]);
      RunMatches(Next(s, run[0]), run[1..], sid);
    }
  }

  lemma {:induction false} FiredAreSome(killers: seq<Killer>, sid: string)
    ensures FiredOf(killers, sid) <= KillersOf(killers, sid)
  {
    if killers != [] { FiredAreSome(killers[..|killers| - 1], sid); }
  }

  /** A session is sent at most one SIGKILL for each SIGTERM delivered to it; a live one exactly those now due. */
  lemma KillsCounted(brain: bool, run: seq<Action>, sid: string)
    requires Legal(Init(brain), run)
    ensures
      var s := After(Init(brain), run);
      && KillsTo(s.log, sid) <= FiredOf(s.killers, sid) <= Delivered(s.log, sid)
      && (!ExitedIn(s, sid) ==> KillsTo(s.log, sid) == FiredOf(s.killers, sid))
  {
    InitHolds(brain);
    RunMatches(Init(brain), run, sid);
    RunPairs(Init(brain), run, sid);
    FiredAreSome(After(Init(brain), run).killers, sid);
  }

  // ---- running results ----

  /** No running result of `d` has been sent from log index `from` on. */
  predicate NoYield(log: seq<Event>, from: nat, d: nat) {
    forall j :: from <= j < |log| ==> !IsYield(log[j], d)
  }

  /** The yield callback is under way, or its timer is armed and the session live. */
  predicate MayYield(s: State, d: nat)
    requires HasSession(s, d)
  {
    var y := s.deliveries[d].yielder;
    y.SawLive? || y.MarkedBackground? || y.YieldRead? || y.YieldDue? || (y.YieldArmed? && !Sess(s, d).exited)
  }

  function YieldLeft(pc: YieldPc): nat {
    match pc
    case YieldArmed => 5
    case SawLive => 4
    case MarkedBackground => 3
    case YieldRead(_) => 2
    case YieldDue(_, _) => 1
    case _ => 0
  }

  lemma YieldGoesOn(s: State, d: nat)
    requires HasSession(s, d) && MayYield(s, d)
    ensures YieldEnabled(s, d)
    ensures
      var s' := YieldStep(s, d);
      && HasSession(s', d) && s.log <= s'.log
      && if s.deliveries[d].yielder.YieldDue? then
           |s'.log| == |s.log| + 1 && IsYield(s'.log[|s.log|], d)
         else
           && MayYield(s', d) && s'.log == s.log
           && YieldLeft(s'.deliveries[d].yielder) < YieldLeft(s.deliveries[d].yielder)
  {
  }

  lemma {:induction false} RunningComes(s: State, d: nat) returns (more: seq<Action>)
    requires HasSession(s, d) && MayYield(s, d)
    ensures Legal(s, more) && !NoYield(After(s, more).log, |s.log|, d)
    decreases YieldLeft(s.deliveries[d].yielder)
  {
    var a := Act(d, YieldTimer, GO);
    YieldGoesOn(s, d);
    if s.deliveries[d].yielder.YieldDue? {
      more := [a];
      assert After(s, more) == Next(s, a) && IsYield(Next(s, a).log[|s.log|], d);
    } else {
      var rest := RunningComes(Next(s, a), d);
      more := [a] + rest;
      assert After(s, more) == After(Next(s, a), rest);
    }
  }

  /** The yield timer was never armed, or has been dealt with, or will find the session exited. */
  ghost predicate YieldsNoMore(s: State, d: nat) {
    HasSession(s, d) && Finished(s.deliveries[d].handler) && !MayYield(s, d)
  }

  lemma OwnNoYield(s: State, d: nat, actor: Actor, env: Env)
    requires Inv(s) && Enabled(s, Act(d, actor, env)) && YieldsNoMore(s, d)
    ensures YieldsNoMore(Next(s, Act(d, actor, env)), d)
    ensures NoYield(Next(s, Act(d, actor, env)).log, |s.log|, d)
  {
    var a := Act(d, actor, env);
    StepGrows(s, a);
    match actor
    case Handler => HandlerNoYield(s, d, env);
    case StdoutReader => ReaderNoYield(s, d, false, env);
    case StderrReader => ReaderNoYield(s, d, true, env);
    case YieldTimer => TimerNoYield(s, d);
    case TimeoutTimer => TimeoutNoYield(s, d);
    case Waiter =>
      ShapeOf(s, d);
      WaitNoYield(s, d, env);
  }

  lemma HandlerNoYield(s: State, d: nat, env: Env)
    requires HandlerEnabled(s, d, env) && YieldsNoMore(s, d)
    ensures YieldsNoMore(HandlerStep(s, d, env), d) && NoYield(HandlerStep(s, d, env).log, |s.log|, d)
  {
  }

  lemma ReaderNoYield(s: State, d: nat, isErr: bool, env: Env)
    requires ReaderEnabled(s, d, isErr, env) && YieldsNoMore(s, d)
    ensures YieldsNoMore(ReaderStep(s, d, isErr, env), d) && NoYield(ReaderStep(s, d, isErr, env).log, |s.log|, d)
  {
  }

  lemma TimerNoYield(s: State, d: nat)
    requires YieldEnabled(s, d) && YieldsNoMore(s, d)
    ensures YieldsNoMore(YieldStep(s, d), d) && NoYield(YieldStep(s, d).log, |s.log|, d)
  {
  }

  lemma TimeoutNoYield(s: State, d: nat)
    requires TimeoutEnabled(s, d) && YieldsNoMore(s, d)
    ensures YieldsNoMore(TimeoutStep(s, d), d) && NoYield(TimeoutStep(s, d).log, |s.log|, d)
  {
  }

  lemma WaitNoYield(s: State, d: nat, env: Env)
    requires WaitEnabled(s, d) && YieldsNoMore(s, d) && Shape(s.deliveries[d])
    ensures YieldsNoMore(WaitStep(s, d, env), d) && NoYield(WaitStep(s, d, env).log, |s.log|, d)
  {
  }

  lemma StepNoYield(s: State, a: Action, d: nat)
    requires Inv(s) && Enabled(s, a) && YieldsNoMore(s, d)
    ensures YieldsNoMore(Next(s, a), d) && NoYield(Next(s, a).log, |s.log|, d)
  {
    if a.Act? && a.d == d {
      OwnNoYield(s, d, a.actor, a.env);
    } else {
      UntouchedByOthers(s, a, d);
      OthersLeaveAlone(s, a, d);
    }
  }

  lemma {:induction false} RunNoYield(s: State, more: seq<Action>, d: nat)
    requires Inv(s) && Legal(s, more) && YieldsNoMore(s, d)
    ensures NoYield(After(s, more).log, |s.log|, d)
    decreases more
  {
    if more != [] {
      var s' := Next(s, more[0]);
      StepNoYield(s, more[0], d);
      StepKeeps(s, more[0]);
      StepGrows(s, more[0]);
      NothingRevoked(s', more[1..]);
      RunNoYield(s', more[1..], d);
      assert forall j :: 0 <= j < |s'.log| ==> After(s', more[1..]).log[j] == s'.log[j];
    }
  }

  /**
   When a running result can still come, exactly: once the handler has started everything, no
   continuation sends one if and only if the yield timer was not armed, or its callback has ended, or
   it has yet to fire and the session has exited.
   */
  lemma RunningExactly(brain: bool, run: seq<Action>, d: nat)
    requires Legal(Init(brain), run) && HasSession(After(Init(brain), run), d)
    requires Finished(After(Init(brain), run).deliveries[d].handler)
    ensures
      var s := After(Init(brain), run);
      (forall more :: Legal(s, more) ==> NoYield(After(s, more).log, |s.log|, d)) <==> !MayYield(s, d)
  {
    var s := After(Init(brain), run);
    ReachableInv(brain, run);
    if MayYield(s, d) {
      var more := RunningComes(s, d);
    } else {
      forall more | Legal(s, more)
        ensures NoYield(After(s, more).log, |s.log|, d)
      {
        RunNoYield(s, more, d);
      }
    }
  }

  /** The yield timer is armed just for a positive interval. */
  predicate YieldArmedRight(v: Delivery) {
    v.handler.StartOut? || v.handler.StartErr? || v.handler.StartWait? || !v.wait.WaitOff? ==>
      v.req.Exec? && (v.yielder.YieldOff? <==> v.req.yieldMs <= 0)
  }

  ghost predicate AllArmedRight(s: State) {
    forall d :: 0 <= d < |s.deliveries| && s.deliveries[d].sid.Some? ==> YieldArmedRight(s.deliveries[d])
  }

  lemma MoveArms(s: State, v: Delivery, env: Env)
    requires OnlyMoves(v.handler) && Shape(v) && v.sid.Some? && YieldArmedRight(v)
    ensures YieldArmedRight(Move(s, v, env))
  {
  }

  lemma LaunchArms(s: State, d: nat, env: Env)
    requires HandlerEnabled(s, d, env) && Shape(s.deliveries[d])
    requires
      var pc := s.deliveries[d].handler;
      pc.Adding? || pc.Opening? || pc.Spawned? || pc.AttachPty?
    ensures d < |Launch(s, d, env).deliveries| && YieldArmedRight(Launch(s, d, env).deliveries[d])
  {
  }

  lemma SettleArms(s: State, d: nat, env: Env)
    requires HandlerEnabled(s, d, env) && s.deliveries[d].sid.Some? && YieldArmedRight(s.deliveries[d])
    requires !OnlyMoves(s.deliveries[d].handler)
    ensures d < |Settle(s, d, env).deliveries| && YieldArmedRight(Settle(s, d, env).deliveries[d])
  {
    SettleOnlyHandler(s, d, env);
  }

  /** The last steps of the handler change nothing else of the command's record, and lead to none of its first. */
  lemma SettleOnlyHandler(s: State, d: nat, env: Env)
    requires HandlerEnabled(s, d, env) && !OnlyMoves(s.deliveries[d].handler)
    ensures d < |Settle(s, d, env).deliveries|
    ensures
      var v, v' := s.deliveries[d], Settle(s, d, env).deliveries[d];
      && v'.wait == v.wait && v'.yielder == v.yielder && v'.req == v.req
      && !v'.handler.StartOut? && !v'.handler.StartErr? && !v'.handler.StartWait?
  {
  }

  lemma HandlerArms(s: State, d: nat, env: Env)
    requires HandlerEnabled(s, d, env) && Shape(s.deliveries[d])
    requires s.deliveries[d].sid.Some? ==> YieldArmedRight(s.deliveries[d])
    ensures
      var s' := HandlerStep(s, d, env);
      d < |s'.deliveries| && (s'.deliveries[d].sid.Some? ==> YieldArmedRight(s'.deliveries[d]))
  {
    var v := s.deliveries[d];
    HandlerAdvances(s, d, env);
    if v.handler.Adding? || v.handler.Opening? || v.handler.Spawned? || v.handler.AttachPty? {
      LaunchArms(s, d, env);
    } else if v.sid.Some? {
      if OnlyMoves(v.handler) { MoveArms(s, v, env); } else { SettleArms(s, d, env); }
    } else {
      NoSessionStays(s, d, env);
    }
  }

  lemma NoSessionStays(s: State, d: nat, env: Env)
    requires HandlerEnabled(s, d, env) && s.deliveries[d].sid.None? && !s.deliveries[d].handler.Adding?
    requires !s.deliveries[d].handler.Opening? && !s.deliveries[d].handler.Spawned?
    requires !s.deliveries[d].handler.AttachPty?
    ensures d < |HandlerStep(s, d, env).deliveries| && HandlerStep(s, d, env).deliveries[d].sid.None?
  {
  }

  /** The yield callback and the other goroutines never take the timer back. */
  predicate StaysArmed(v: Delivery, v': Delivery) {
    && v'.handler == v.handler && v'.req == v.req && (v'.wait.WaitOff? <==> v.wait.WaitOff?)
    && (v'.yielder.YieldOff? <==> v.yielder.YieldOff?)
  }

  lemma ReaderStaysArmed(s: State, d: nat, isErr: bool, env: Env)
    requires ReaderEnabled(s, d, isErr, env)
    ensures StaysArmed(s.deliveries[d], ReaderStep(s, d, isErr, env).deliveries[d])
  {
  }

  lemma TimersStayArmed(s: State, d: nat)
    ensures YieldEnabled(s, d) ==> StaysArmed(s.deliveries[d], YieldStep(s, d).deliveries[d])
    ensures TimeoutEnabled(s, d) ==> StaysArmed(s.deliveries[d], TimeoutStep(s, d).deliveries[d])
  {
  }

  lemma WaitStaysArmed(s: State, d: nat, env: Env)
    requires WaitEnabled(s, d)
    ensures StaysArmed(s.deliveries[d], WaitStep(s, d, env).deliveries[d])
  {
  }

  lemma OwnArms(s: State, d: nat, actor: Actor, env: Env)
    requires Inv(s) && Enabled(s, Act(d, actor, env)) && AllArmedRight(s)
    ensures
      var s' := Next(s, Act(d, actor, env));
      d < |s'.deliveries| && (s'.deliveries[d].sid.Some? ==> YieldArmedRight(s'.deliveries[d]))
  {
    ShapeOf(s, d);
    match actor
    case Handler => HandlerArms(s, d, env);
    case StdoutReader => ReaderStaysArmed(s, d, false, env);
    case StderrReader => ReaderStaysArmed(s, d, true, env);
    case YieldTimer => TimersStayArmed(s, d);
    case TimeoutTimer => TimersStayArmed(s, d);
    case Waiter => WaitStaysArmed(s, d, env);
  }

  lemma StepArms(s: State, a: Action)
    requires Inv(s) && Enabled(s, a) && AllArmedRight(s)
    ensures AllArmedRight(Next(s, a))
  {
    var s' := Next(s, a);
    forall d | 0 <= d < |s'.deliveries| && s'.deliveries[d].sid.Some?
      ensures YieldArmedRight(s'.deliveries[d])
    {
      if a.Act? && a.d == d {
        OwnArms(s, d, a.actor, a.env);
      } else if d < |s.deliveries| {
        UntouchedByOthers(s, a, d);
      } else {
        OnlyDeliverAdds(s, a, d);
      }
    }
  }

  lemma OnlyDeliverAdds(s: State, a: Action, d: nat)
    requires Inv(s) && Enabled(s, a) && |s.deliveries| <= d < |Next(s, a).deliveries|
    ensures Next(s, a).deliveries[d].sid.None?
  {
    StepKeeps(s, a);
  }

  /** Once a command's readers start, its yield timer was armed if and only if it asked for a positive interval. */
  lemma {:induction false} YieldTimerArmed(s: State, run: seq<Action>)
    requires Inv(s) && AllArmedRight(s) && Legal(s, run)
    ensures AllArmedRight(After(s, run))
    decreases run
  {
    if run != [] {
      StepArms(s, run[0]);
      StepKeeps(s, run[0]);
      YieldTimerArmed(Next(s, run[0]), run[1..]);
    }
  }

  /** The same, from the start. */
  lemma ArmedExactly(brain: bool, run: seq<Action>, d: nat)
    requires Legal(Init(brain), run) && HasSession(After(Init(brain), run), d)
    requires !After(Init(brain), run).deliveries[d].wait.WaitOff?
    ensures
      var v := After(Init(brain), run).deliveries[d];
      v.req.Exec? && (v.yielder.YieldOff? <==> v.req.yieldMs <= 0)
  {
    InitHolds(brain);
    YieldTimerArmed(Init(brain), run);
    assert YieldArmedRight(After(Init(brain), run).deliveries[d]);
  }
}
