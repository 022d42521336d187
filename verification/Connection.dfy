/**
 The connection protocol as a step system: every goroutine running connect or readLoop, the
 armed reconnect timers, and `Stop`. One step is one mutex-held block, one unlocked access, one
 call on the reconnect manager, or one library call.
 */
module Connection {
  import opened Basics
  import R = Reconnect
  import T = Tokens

  /** Where a goroutine running connect is; it disappears from `flows` when it returns. */
  datatype FlowPc =
    | Check                           // connect, before it reads `destroyed`
    | ReadToken                       // before config.AgentToken is read into the URL
    | DialDue(dialToken: string)      // before websocket.Dial
    | Dialing
    | Install(newConn: nat)           // dial succeeded, before a.conn is written
    | ResetBackoff(conn: nat)
    | Reading(conn: nat)
    | Rotating(conn: nat, rotated: string)    // token_rotated received, before config is updated
    | Persisting(conn: nat, rotated: string)  // before the token file is written
    | Lost                            // read failed, before the mutex-held block
    | SchedCheck                      // scheduleReconnect, before it reads `destroyed`
    | SchedDue                        // before ReconnectManager.Schedule

  /** `Stop` holds the mutex in `Locked` and `Cleared`. */
  datatype StopPc = NotStarted | Locked | Cleared | Stopped

  datatype Message = TokenRotated(newToken: string) | OtherMessage | ReadError

  datatype Event =
    | Passed(t: nat)                  // connect saw destroyed == false
    | Dial(t: nat, token: string)
    | Received(newToken: string)
    | Persisted(saved: string, ok: bool)
    | StopFlag                        // `Stop` set destroyed

  datatype State = State(
    tokenFile: bool,                  // whether a token file is configured
    destroyed: bool,
    conn: Option<nat>,
    token: string,
    file: Option<string>,
    backoff: R.Backoff,
    timer: Option<nat>,               // the manager's timer field
    armed: set<nat>,                  // timers that will still fire
    flows: map<nat, FlowPc>,
    stop: StopPc,
    log: seq<Event>)

  /**
   What the environment decides: dial success, the connection, the fresh id, jitter, the message, and
   what a failed write leaves.
   */
  datatype Env = Env(ok: bool, conn: nat, id: nat, jitter: real, msg: Message, left: Option<string>)

  datatype Action = Flow(t: nat, env: Env) | Fire(timer: nat, newFlow: nat) | StopStep

  /** `Start` has been called once. */
  function Init(token: string, tokenFile: bool, file: Option<string>, backoff: R.Backoff): State {
    State(tokenFile, false, None, token, file, backoff, None, {}, map[0 := Check], NotStarted, [])
  }

  predicate MuFree(s: State) {
    s.stop.NotStarted? || s.stop.Stopped?
  }

  function Log(s: State, e: Event): State {
    s.(log := s.log + [e])
  }

  function Goto(s: State, t: nat, pc: FlowPc): State {
    s.(flows := s.flows[t := pc])
  }

  function End(s: State, t: nat): State {
    s.(flows := s.flows - {t})
  }

  function ClearTimer(s: State): State {
    s.(backoff := R.Step(s.backoff, R.Op.Reset),
       armed := if s.timer.Some? then s.armed - {s.timer.value} else s.armed,
       timer := None)
  }

  predicate FlowEnabled(s: State, t: nat, env: Env) {
    && t in s.flows
    && match s.flows[t]
       case Check => MuFree(s)
       case Install(_) => MuFree(s)
       case Rotating(_, _) => MuFree(s)
       case Lost => MuFree(s)
       case SchedCheck => MuFree(s)
       case SchedDue => env.id !in s.armed && env.id !in s.flows && Some(env.id) != s.timer
       case _ => true
  }

  /** connect, from its first check to the read loop. */
  function ConnectStep(s: State, t: nat, env: Env): State
    requires FlowEnabled(s, t, env)
  {
    match s.flows[t]
    case Check => if s.destroyed then End(s, t) else Goto(Log(s, Passed(t)), t, ReadToken)
    case ReadToken => Goto(s, t, DialDue(s.token))
    case DialDue(token) => Goto(Log(s, Dial(t, token)), t, Dialing)
    case Dialing => Goto(s, t, if env.ok then Install(env.conn) else SchedCheck)
    case Install(c) => Goto(s.(conn := Some(c)), t, ResetBackoff(c))
    case ResetBackoff(c) => Goto(ClearTimer(s), t, Reading(c))
    case _ => s
  }

  /** readLoop, while the connection lasts. */
  function ReadStep(s: State, t: nat, env: Env): State
    requires FlowEnabled(s, t, env)
  {
    match s.flows[t]
    case Reading(c) => Receive(s, t, c, env.msg)
    case Rotating(c, token) => Goto(s.(token := token), t, if s.tokenFile then Persisting(c, token) else Reading(c))
    case Persisting(c, token) =>
      var file := if env.ok then Some(T.FileText(token)) else if env.left.Some? then env.left else s.file;
      Goto(Log(s.(file := file), Persisted(token, env.ok)), t, Reading(c))
    case _ => s
  }

  /** After a lost connection or a failed dial. */
  function RetryStep(s: State, t: nat, env: Env): State
    requires FlowEnabled(s, t, env)
  {
    match s.flows[t]
    case Lost => if s.destroyed then End(s.(conn := None), t) else Goto(s.(conn := None), t, SchedCheck)
    case SchedCheck => if s.destroyed then End(s, t) else Goto(s, t, SchedDue)
    case SchedDue =>
      if R.AtCap(s.backoff) then End(s, t)
      else
        var backoff := R.Step(s.backoff, R.Op.Schedule(env.jitter));
        End(s.(backoff := backoff, timer := Some(env.id), armed := s.armed + {env.id}), t)
    case _ => s
  }

  predicate Retrying(pc: FlowPc) {
    pc.Lost? || pc.SchedCheck? || pc.SchedDue?
  }

  predicate InReadLoop(pc: FlowPc) {
    pc.Reading? || pc.Rotating? || pc.Persisting?
  }

  function FlowStep(s: State, t: nat, env: Env): State
    requires FlowEnabled(s, t, env)
  {
    if InReadLoop(s.flows[t]) then ReadStep(s, t, env)
    else if Retrying(s.flows[t]) then RetryStep(s, t, env)
    else ConnectStep(s, t, env)
  }

  /** One pass of readLoop; handleTokenRotated ignores an empty token. */
  function Receive(s: State, t: nat, c: nat, msg: Message): State {
    match msg
    case ReadError => Goto(s, t, Lost)
    case OtherMessage => s
    case TokenRotated(token) =>
      var received := Log(s, Received(token));
      if token == "" then received else Goto(received, t, Rotating(c, token))
  }

  /** A timer's callback starts a goroutine in connect. */
  predicate FireEnabled(s: State, timer: nat, newFlow: nat) {
    timer in s.armed && newFlow !in s.flows
  }

  function FireStep(s: State, timer: nat, newFlow: nat): State {
    s.(armed := s.armed - {timer}, flows := s.flows[newFlow := Check])
  }

  predicate StopEnabled(s: State) {
    !s.stop.Stopped?
  }

  function NextStop(s: State): State {
    match s.stop
    case NotStarted => Log(s.(destroyed := true, stop := Locked), StopFlag)
    case Locked => ClearTimer(s).(stop := Cleared)
    case Cleared => s.(conn := None, stop := Stopped)
    case Stopped => s
  }

  predicate Enabled(s: State, a: Action) {
    match a
    case Flow(t, env) => FlowEnabled(s, t, env)
    case Fire(timer, newFlow) => FireEnabled(s, timer, newFlow)
    case StopStep => StopEnabled(s)
  }

  function Next(s: State, a: Action): State
    requires Enabled(s, a)
  {
    match a
    case Flow(t, env) => FlowStep(s, t, env)
    case Fire(timer, newFlow) => FireStep(s, timer, newFlow)
    case StopStep => NextStop(s)
  }

  predicate Legal(s: State, run: seq<Action>)
    decreases run
  {
    run == [] || (Enabled(s, run[0]) && Legal(Next(s, run[0]), run[1..]))
  }

  function After(s: State, run: seq<Action>): State
    requires Legal(s, run)
    decreases run
  {
    if run == [] then s else After(Next(s, run[0]), run[1..])
  }

  // ---- reading the log ----

  predicate StopIn(log: seq<Event>) {
    exists i :: 0 <= i < |log| && log[i].StopFlag?
  }

  /** How many dials started after `Stop` set destroyed. */
  function DialsAfterStop(log: seq<Event>): nat {
    if log == [] then 0
    else DialsAfterStop(log[..|log| - 1]) + One(log[|log| - 1].Dial? && StopIn(log[..|log| - 1]))
  }

  /** The last non-empty rotated token received, else the initial one. */
  function Latest(initial: string, log: seq<Event>): string {
    if log == [] then initial
    else
      var last := log[|log| - 1];
      if last.Received? && last.newToken != "" then last.newToken else Latest(initial, log[..|log| - 1])
  }

  /** The last attempt to write the token file. */
  function LastPersist(log: seq<Event>): (last: Option<Event>)
    ensures last.Some? ==> last.value.Persisted?
  {
    if log == [] then None
    else if log[|log| - 1].Persisted? then Some(log[|log| - 1])
    else LastPersist(log[..|log| - 1])
  }

  lemma LatestAfter(initial: string, log: seq<Event>, e: Event)
    ensures Latest(initial, log + [e]) == if e.Received? && e.newToken != "" then e.newToken else Latest(initial, log)
  {
    assert (log + [e])[..|log|] == log;
  }

  lemma LastPersistAfter(log: seq<Event>, e: Event)
    ensures LastPersist(log + [e]) == if e.Persisted? then Some(e) else LastPersist(log)
  {
    assert (log + [e])[..|log|] == log;
  }

  lemma StopAfter(log: seq<Event>, e: Event)
    ensures StopIn(log + [e]) <==> StopIn(log) || e.StopFlag?
    ensures DialsAfterStop(log + [e]) == DialsAfterStop(log) + One(e.Dial? && StopIn(log))
  {
    assert (log + [e])[..|log|] == log;
    assert StopIn(log) ==> StopIn(log + [e]) by {
      if StopIn(log) {
        var i :| 0 <= i < |log| && log[i].StopFlag?;
        assert (log + [e])[i].StopFlag?;
      }
    }
    assert e.StopFlag? ==> (log + [e])[|log|].StopFlag?;
  }

  /** Entry `i` is a check by goroutine `t` that came before `Stop` and has led to no dial before `j`. */
  predicate OwnPass(log: seq<Event>, i: nat, j: nat, t: nat)
    requires i < j <= |log|
  {
    && log[i] == Passed(t)
    && (forall k :: 0 <= k < i ==> !log[k].StopFlag?)
    && (forall k :: i < k < j && log[k].Dial? ==> log[k].t != t)
  }

  /**
   Goroutine `t` saw destroyed == false, before `Stop` set it, and has not dialed since: numbers may
   be used again, so an earlier goroutine's check does not count.
   */
  ghost predicate PassedEarly(log: seq<Event>, j: nat, t: nat)
    requires j <= |log|
  {
    exists i :: 0 <= i < j && OwnPass(log, i, j, t)
  }

  // ---- the invariant ----

  /** At most one goroutine or armed timer carries the connection. */
  ghost predicate OneCarrier(s: State) {
    || (s.armed == {} && s.flows == map[])
    || (s.armed == {} && exists t :: s.flows.Keys == {t})
    || (s.flows == map[] && exists i :: s.armed == {i})
  }

  predicate MayDial(pc: FlowPc) {
    pc.ReadToken? || pc.DialDue?
  }

  ghost predicate DialerAround(s: State) {
    exists t :: t in s.flows && MayDial(s.flows[t])
  }

  ghost predicate DialsBounded(s: State) {
    && (s.destroyed <==> StopIn(s.log))
    && (s.destroyed <==> !s.stop.NotStarted?)
    && (!s.destroyed ==> DialsAfterStop(s.log) == 0)
    && (s.destroyed ==> DialsAfterStop(s.log) + One(DialerAround(s)) <= 1)
  }

  ghost predicate DialsPassed(s: State) {
    && (forall t :: t in s.flows && MayDial(s.flows[t]) ==> PassedEarly(s.log, |s.log|, t))
    && (forall j :: 0 <= j < |s.log| && s.log[j].Dial? ==> PassedEarly(s.log, j, s.log[j].t))
  }

  /** The configured token is the latest one, except in the middle of taking over a newer one. */
  predicate TokenAt(s: State, pc: FlowPc, latest: string) {
    && (if pc.Rotating? then pc.rotated == latest else s.token == latest)
    && (pc.DialDue? ==> pc.dialToken == s.token)
    && (pc.Persisting? ==> pc.rotated == s.token)
  }

  ghost predicate TokenCurrent(s: State, initial: string) {
    && (s.flows == map[] ==> s.token == Latest(initial, s.log))
    && (forall t :: t in s.flows ==> TokenAt(s, s.flows[t], Latest(initial, s.log)))
  }

  ghost predicate DialsFresh(log: seq<Event>, initial: string) {
    forall j :: 0 <= j < |log| && log[j].Dial? ==> log[j].token == Latest(initial, log[..j])
  }

  predicate TakingOver(pc: FlowPc) {
    pc.Rotating? || pc.Persisting?
  }

  ghost predicate Pending(s: State) {
    exists t :: t in s.flows && TakingOver(s.flows[t])
  }

  predicate Rotated(log: seq<Event>) {
    exists i :: 0 <= i < |log| && log[i].Received? && log[i].newToken != ""
  }

  /** The file holds what the last successful write put there. */
  predicate FileWritten(s: State) {
    var last := LastPersist(s.log);
    last.Some? && last.value.ok ==> s.file == Some(T.FileText(last.value.saved))
  }

  /** Once a rotation has been taken over, the last write was of the current token. */
  ghost predicate LastSaved(s: State) {
    s.tokenFile && Rotated(s.log) && !Pending(s) ==>
      LastPersist(s.log).Some? && LastPersist(s.log).value.saved == s.token
  }

  ghost predicate Inv(s: State, initial: string) {
    && OneCarrier(s)
    && DialsBounded(s)
    && DialsPassed(s)
    && TokenCurrent(s, initial)
    && DialsFresh(s.log, initial)
    && FileWritten(s)
    && LastSaved(s)
  }

  lemma InitHolds(token: string, tokenFile: bool, file: Option<string>, backoff: R.Backoff)
    ensures Inv(Init(token, tokenFile, file, backoff), token)
  {
    var s := Init(token, tokenFile, file, backoff);
    assert s.flows.Keys == {0};
  }

  lemma CarrierKept(s: State, a: Action)
    requires OneCarrier(s) && Enabled(s, a)
    ensures OneCarrier(Next(s, a))
  {
    var s' := Next(s, a);
    match a
    case Flow(t, env) =>
      FlowCarrierKept(s, t, env);
    case Fire(timer, newFlow) =>
      assert s.flows.Keys == {};
      assert s'.flows.Keys == {newFlow};
    case StopStep =>
  }

  lemma FlowCarrierKept(s: State, t: nat, env: Env)
    requires OneCarrier(s) && FlowEnabled(s, t, env)
    ensures OneCarrier(FlowStep(s, t, env))
  {
    var s' := FlowStep(s, t, env);
    Sole(s, t);
    FlowEffect(s, t, env);
    FlowArms(s, t, env);
    if t in s'.flows {
      assert s'.flows.Keys == {t};
    } else {
      assert s'.flows == map[];
    }
  }

  /** A goroutine that arms a timer ends. */
  lemma FlowArms(s: State, t: nat, env: Env)
    requires FlowEnabled(s, t, env) && s.armed == {}
    ensures
      var s' := FlowStep(s, t, env);
      s'.armed == {} || (s'.armed == {env.id} && t !in s'.flows)
  {
  }

  /** The goroutine that steps is the only one. */
  lemma Sole(s: State, t: nat)
    requires OneCarrier(s) && t in s.flows
    ensures s.flows == map[t := s.flows[t]] && s.armed == {}
  {
    assert s.flows.Keys == {t};
  }

  lemma NoneFlowing(s: State)
    requires OneCarrier(s) && s.armed != {}
    ensures s.flows == map[]
  {
  }

  predicate Appended(log: seq<Event>, log': seq<Event>) {
    log' == log || (|log'| == |log| + 1 && log'[..|log|] == log)
  }

  /** Only connect logs checks and dials, and only its `Check` and `ReadToken` steps lead to a dial. */
  ghost predicate Effect(s: State, t: nat, env: Env, s': State)
    requires t in s.flows
  {
    var pc := s.flows[t];
    && Appended(s.log, s'.log)
    && s'.destroyed == s.destroyed && s'.stop == s.stop && s'.tokenFile == s.tokenFile
    && (s'.flows == s.flows - {t} || (t in s'.flows && s'.flows == s.flows[t := s'.flows[t]]))
    && (s'.log != s.log ==>
          var e := s'.log[|s.log|];
          || (pc.Check? && !s.destroyed && e == Passed(t))
          || (pc.DialDue? && e == Dial(t, pc.dialToken))
          || (pc.Reading? && e.Received?)
          || (pc.Persisting? && e == Persisted(pc.rotated, env.ok)))
  }

  lemma ConnectEffect(s: State, t: nat, env: Env)
    requires FlowEnabled(s, t, env) && !InReadLoop(s.flows[t]) && !Retrying(s.flows[t])
    ensures Effect(s, t, env, ConnectStep(s, t, env))
  {
  }

  lemma ReadEffect(s: State, t: nat, env: Env)
    requires FlowEnabled(s, t, env) && InReadLoop(s.flows[t])
    ensures Effect(s, t, env, ReadStep(s, t, env))
  {
  }

  lemma RetryEffect(s: State, t: nat, env: Env)
    requires FlowEnabled(s, t, env) && Retrying(s.flows[t])
    ensures Effect(s, t, env, RetryStep(s, t, env))
  {
  }

  lemma FlowEffect(s: State, t: nat, env: Env)
    requires FlowEnabled(s, t, env)
    ensures Effect(s, t, env, FlowStep(s, t, env))
  {
    if InReadLoop(s.flows[t]) {
      ReadEffect(s, t, env);
    } else if Retrying(s.flows[t]) {
      RetryEffect(s, t, env);
    } else {
      ConnectEffect(s, t, env);
    }
  }

  lemma FlowLeads(s: State, t: nat, env: Env)
    requires FlowEnabled(s, t, env)
    ensures
      var s', pc := FlowStep(s, t, env), s.flows[t];
      && (t in s'.flows && MayDial(s'.flows[t]) ==>
            pc.ReadToken? || (pc.Check? && !s.destroyed && s'.log == s.log + [Passed(t)]))
      && (pc.DialDue? ==> t in s'.flows && s'.flows[t].Dialing? && s'.log == s.log + [Dial(t, pc.dialToken)])
  {
  }

  lemma FlowDialsKept(s: State, t: nat, env: Env)
    requires OneCarrier(s) && DialsBounded(s) && FlowEnabled(s, t, env)
    ensures DialsBounded(FlowStep(s, t, env))
  {
    var s' := FlowStep(s, t, env);
    FlowEffect(s, t, env);
    FlowLeads(s, t, env);
    if s'.log != s.log {
      StopAfter(s.log, s'.log[|s.log|]);
      assert s'.log == s.log + [s'.log[|s.log|]];
    }
    Sole(s, t);
    assert DialerAround(s) <==> MayDial(s.flows[t]);
    assert DialerAround(s') <==> t in s'.flows && MayDial(s'.flows[t]);
  }

  lemma DialsKept(s: State, a: Action)
    requires OneCarrier(s) && DialsBounded(s) && Enabled(s, a)
    ensures DialsBounded(Next(s, a))
  {
    match a
    case Flow(t, env) => FlowDialsKept(s, t, env);
    case Fire(_, newFlow) =>
      NoneFlowing(s);
      assert !DialerAround(Next(s, a));
    case StopStep => StopDialsKept(s);
  }

  lemma StopDialsKept(s: State)
    requires DialsBounded(s) && StopEnabled(s)
    ensures DialsBounded(NextStop(s))
  {
    StopAfter(s.log, StopFlag);
    assert DialerAround(NextStop(s)) == DialerAround(s);
  }

  lemma EarlyKept(log: seq<Event>, e: Event)
    ensures forall j, t :: 0 <= j <= |log| && PassedEarly(log, j, t) ==> PassedEarly(log + [e], j, t)
    ensures forall t :: PassedEarly(log, |log|, t) && !(e.Dial? && e.t == t) ==> PassedEarly(log + [e], |log| + 1, t)
    ensures e.Passed? && !StopIn(log) ==> PassedEarly(log + [e], |log| + 1, e.t)
  {
    assert forall i :: 0 <= i < |log| ==> (log + [e])[i] == log[i];
    assert (log + [e])[|log|] == e;
    forall j, t | 0 <= j <= |log| && PassedEarly(log, j, t)
      ensures PassedEarly(log + [e], j, t)
    {
      var i :| 0 <= i < j && OwnPass(log, i, j, t);
      assert OwnPass(log + [e], i, j, t);
    }
    forall t | PassedEarly(log, |log|, t) && !(e.Dial? && e.t == t)
      ensures PassedEarly(log + [e], |log| + 1, t)
    {
      var i :| 0 <= i < |log| && OwnPass(log, i, |log|, t);
      assert OwnPass(log + [e], i, |log| + 1, t);
    }
    if e.Passed? && !StopIn(log) { assert OwnPass(log + [e], |log|, |log| + 1, e.t); }
  }

  lemma FlowPassedKept(s: State, t: nat, env: Env)
    requires OneCarrier(s) && DialsBounded(s) && DialsPassed(s) && FlowEnabled(s, t, env)
    ensures DialsPassed(FlowStep(s, t, env))
  {
    var s' := FlowStep(s, t, env);
    FlowEffect(s, t, env);
    FlowLeads(s, t, env);
    Sole(s, t);
    if s'.log != s.log {
      EarlyKept(s.log, s'.log[|s.log|]);
      assert s'.log == s.log + [s'.log[|s.log|]];
    }
  }

  lemma PassedKept(s: State, a: Action)
    requires OneCarrier(s) && DialsBounded(s) && DialsPassed(s) && Enabled(s, a)
    ensures DialsPassed(Next(s, a))
  {
    match a
    case Flow(t, env) => FlowPassedKept(s, t, env);
    case Fire(_, _) => NoneFlowing(s);
    case StopStep => EarlyKept(s.log, StopFlag);
  }

  lemma ReceiveTokenKept(s: State, t: nat, c: nat, msg: Message, initial: string)
    requires s.flows == map[t := Reading(c)] && s.token == Latest(initial, s.log)
    ensures TokenCurrent(Receive(s, t, c, msg), initial)
  {
    if msg.TokenRotated? { LatestAfter(initial, s.log, Received(msg.newToken)); }
    assert t in Receive(s, t, c, msg).flows;
  }

  lemma PersistTokenKept(s: State, t: nat, env: Env, c: nat, saved: string, initial: string)
    requires s.flows == map[t := Persisting(c, saved)] && s.token == Latest(initial, s.log)
    ensures TokenCurrent(ReadStep(s, t, env), initial)
  {
    PersistStep(s, t, env, c, saved);
    LatestAfter(initial, s.log, Persisted(saved, env.ok));
    ReadingCurrent(ReadStep(s, t, env), t, c, initial);
  }

  lemma PersistStep(s: State, t: nat, env: Env, c: nat, saved: string)
    requires s.flows == map[t := Persisting(c, saved)]
    ensures
      var s' := ReadStep(s, t, env);
      s'.flows == map[t := Reading(c)] && s'.token == s.token && s'.log == s.log + [Persisted(saved, env.ok)]
  {
  }

  lemma ReadingCurrent(s: State, t: nat, c: nat, initial: string)
    requires s.flows == map[t := Reading(c)] && s.token == Latest(initial, s.log)
    ensures TokenCurrent(s, initial)
  {
    assert t in s.flows;
  }

  lemma ReadTokenKept(s: State, t: nat, env: Env, initial: string)
    requires OneCarrier(s) && TokenCurrent(s, initial) && FlowEnabled(s, t, env) && InReadLoop(s.flows[t])
    ensures TokenCurrent(ReadStep(s, t, env), initial)
  {
    Sole(s, t);
    assert TokenAt(s, s.flows[t], Latest(initial, s.log));
    match s.flows[t]
    case Reading(c) => ReceiveTokenKept(s, t, c, env.msg, initial);
    case Persisting(c, saved) => PersistTokenKept(s, t, env, c, saved, initial);
    case _ =>
  }

  lemma ConnectTokenKept(s: State, t: nat, env: Env, initial: string)
    requires OneCarrier(s) && TokenCurrent(s, initial) && FlowEnabled(s, t, env) && !InReadLoop(s.flows[t])
    ensures TokenCurrent(FlowStep(s, t, env), initial)
  {
    var s' := FlowStep(s, t, env);
    Sole(s, t);
    assert TokenAt(s, s.flows[t], Latest(initial, s.log));
    FlowEffect(s, t, env);
    if s'.log != s.log {
      LatestAfter(initial, s.log, s'.log[|s.log|]);
      assert s'.log == s.log + [s'.log[|s.log|]];
    }
  }

  lemma TokenKept(s: State, a: Action, initial: string)
    requires OneCarrier(s) && TokenCurrent(s, initial) && Enabled(s, a)
    ensures TokenCurrent(Next(s, a), initial)
  {
    match a
    case Flow(t, env) =>
      if InReadLoop(s.flows[t]) { ReadTokenKept(s, t, env, initial); } else { ConnectTokenKept(s, t, env, initial); }
    case Fire(_, _) => NoneFlowing(s);
    case StopStep => StopTokenKept(s, initial);
  }

  lemma StopTokenKept(s: State, initial: string)
    requires TokenCurrent(s, initial) && StopEnabled(s)
    ensures TokenCurrent(NextStop(s), initial)
  {
    LatestAfter(initial, s.log, StopFlag);
    SameTokenKept(s, NextStop(s), initial);
  }

  lemma SameTokenKept(s: State, s': State, initial: string)
    requires TokenCurrent(s, initial) && s'.flows == s.flows && s'.token == s.token
    requires Latest(initial, s'.log) == Latest(initial, s.log)
    ensures TokenCurrent(s', initial)
  {
  }

  lemma FreshKept(s: State, a: Action, initial: string)
    requires OneCarrier(s) && TokenCurrent(s, initial) && DialsFresh(s.log, initial) && Enabled(s, a)
    ensures DialsFresh(Next(s, a).log, initial)
  {
    var s' := Next(s, a);
    if a.Flow? {
      assert TokenAt(s, s.flows[a.t], Latest(initial, s.log));
      FlowEffect(s, a.t, a.env);
    }
    assert forall j :: 0 <= j <= |s.log| ==> s'.log[..j] == s.log[..j];
    assert s.log[..|s.log|] == s.log;
  }

  lemma OtherFileKept(s: State, t: nat, env: Env)
    requires FileWritten(s) && FlowEnabled(s, t, env) && !s.flows[t].Persisting?
    ensures FileWritten(FlowStep(s, t, env))
  {
    var s' := FlowStep(s, t, env);
    FlowEffect(s, t, env);
    SameFile(s, t, env);
    if s'.log != s.log {
      assert s'.log == s.log + [s'.log[|s.log|]];
      LastPersistAfter(s.log, s'.log[|s.log|]);
    }
  }

  lemma SameFile(s: State, t: nat, env: Env)
    requires FlowEnabled(s, t, env) && !s.flows[t].Persisting?
    ensures FlowStep(s, t, env).file == s.file
  {
  }

  lemma PersistFileKept(s: State, t: nat, env: Env)
    requires FileWritten(s) && FlowEnabled(s, t, env) && s.flows[t].Persisting?
    ensures FileWritten(FlowStep(s, t, env))
  {
    LastPersistAfter(s.log, Persisted(s.flows[t].rotated, env.ok));
  }

  lemma FileKept(s: State, a: Action)
    requires FileWritten(s) && Enabled(s, a)
    ensures FileWritten(Next(s, a))
  {
    match a
    case Flow(t, env) =>
      if s.flows[t].Persisting? {
        PersistFileKept(s, t, env);
      } else {
        OtherFileKept(s, t, env);
      }
    case Fire(_, _) =>
    case StopStep => LastPersistAfter(s.log, StopFlag);
  }

  lemma RotatedAppend(log: seq<Event>, e: Event)
    ensures Rotated(log + [e]) <==> Rotated(log) || (e.Received? && e.newToken != "")
  {
    if Rotated(log) {
      var i :| 0 <= i < |log| && log[i].Received? && log[i].newToken != "";
      assert (log + [e])[i] == log[i];
    }
    assert (log + [e])[|log|] == e;
  }

  lemma ReadSavedKept(s: State, t: nat, env: Env)
    requires OneCarrier(s) && LastSaved(s) && FlowEnabled(s, t, env) && InReadLoop(s.flows[t])
    requires s.flows[t].Persisting? ==> s.flows[t].rotated == s.token
    ensures LastSaved(ReadStep(s, t, env))
  {
    var s' := ReadStep(s, t, env);
    Sole(s, t);
    assert Pending(s) <==> TakingOver(s.flows[t]);
    assert Pending(s') <==> TakingOver(s'.flows[t]);
    if s'.log != s.log {
      LastPersistAfter(s.log, s'.log[|s.log|]);
      RotatedAppend(s.log, s'.log[|s.log|]);
    }
  }

  lemma OtherSavedKept(s: State, t: nat, env: Env)
    requires OneCarrier(s) && LastSaved(s) && FlowEnabled(s, t, env) && !InReadLoop(s.flows[t])
    ensures LastSaved(FlowStep(s, t, env))
  {
    var s' := FlowStep(s, t, env);
    Sole(s, t);
    FlowEffect(s, t, env);
    assert s'.token == s.token;
    assert !Pending(s);
    if s'.log != s.log {
      LastPersistAfter(s.log, s'.log[|s.log|]);
      RotatedAppend(s.log, s'.log[|s.log|]);
      assert s'.log == s.log + [s'.log[|s.log|]];
    }
  }

  lemma SavedKept(s: State, a: Action, initial: string)
    requires OneCarrier(s) && TokenCurrent(s, initial) && LastSaved(s) && Enabled(s, a)
    ensures LastSaved(Next(s, a))
  {
    match a
    case Flow(t, env) =>
      assert TokenAt(s, s.flows[t], Latest(initial, s.log));
      if InReadLoop(s.flows[t]) { ReadSavedKept(s, t, env); } else { OtherSavedKept(s, t, env); }
    case Fire(_, _) =>
      NoneFlowing(s);
      assert !Pending(s);
    case StopStep =>
      LastPersistAfter(s.log, StopFlag);
      RotatedAppend(s.log, StopFlag);
      assert Pending(Next(s, a)) == Pending(s);
  }

  lemma StepKeeps(s: State, a: Action, initial: string)
    requires Inv(s, initial) && Enabled(s, a)
    ensures Inv(Next(s, a), initial)
  {
    CarrierKept(s, a);
    DialsKept(s, a);
    PassedKept(s, a);
    TokenKept(s, a, initial);
    FreshKept(s, a, initial);
    FileKept(s, a);
    SavedKept(s, a, initial);
  }

  lemma {:induction false} RunKeeps(s: State, run: seq<Action>, initial: string)
    requires Inv(s, initial) && Legal(s, run)
    ensures Inv(After(s, run), initial)
    decreases run
  {
    if run != [] {
      StepKeeps(s, run[0], initial);
      RunKeeps(Next(s, run[0]), run[1..], initial);
    }
  }
}
