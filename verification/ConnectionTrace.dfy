/** That the protocol's state and log say what the environment did in the run: messages, writes, dials and timers. */
module ConnectionTrace {
  import opened Basics
  import opened Connection
  import opened ConnectionTheorems
  import opened ConnectionProgress
  import opened Tokens
  import R = Reconnect

  // ---- tokens ----

  /** The action takes a non-empty rotated token off an open connection. */
  predicate Rotates(s: State, a: Action) {
    && a.Flow? && a.t in s.flows && s.flows[a.t].Reading?
    && a.env.msg.TokenRotated? && a.env.msg.newToken != ""
  }

  /** The last such token in the course of `run`, else `token`. */
  function TokenAfter(s: State, run: seq<Action>, token: string): string
    requires Legal(s, run)
    decreases run
  {
    if run == [] then token
    else TokenAfter(Next(s, run[0]), run[1..], if Rotates(s, run[0]) then run[0].env.msg.newToken else token)
  }

  lemma StepToken(s: State, a: Action, token: string)
    requires Enabled(s, a)
    ensures Latest(token, Next(s, a).log) == if Rotates(s, a) then a.env.msg.newToken else Latest(token, s.log)
  {
    match a
    case Flow(t, env) => FlowToken(s, t, env, token);
    case Fire(_, _) =>
    case StopStep => LatestAfter(token, s.log, StopFlag);
  }

  lemma FlowToken(s: State, t: nat, env: Env, token: string)
    requires FlowEnabled(s, t, env)
    ensures
      Latest(token, FlowStep(s, t, env).log) ==
        if Rotates(s, Flow(t, env)) then env.msg.newToken else Latest(token, s.log)
  {
    var s' := FlowStep(s, t, env);
    FlowEffect(s, t, env);
    if s'.log != s.log {
      assert s'.log == s.log + [s'.log[|s.log|]];
      LatestAfter(token, s.log, s'.log[|s.log|]);
      if s'.log[|s.log|].Received? { ReceivedIs(s, t, env); }
    } else if Rotates(s, Flow(t, env)) {
      ReceivedIs(s, t, env);
    }
  }

  lemma ReceivedIs(s: State, t: nat, env: Env)
    requires FlowEnabled(s, t, env) && s.flows[t].Reading?
    ensures env.msg.TokenRotated? ==> FlowStep(s, t, env).log == s.log + [Received(env.msg.newToken)]
    ensures !env.msg.TokenRotated? ==> FlowStep(s, t, env).log == s.log
  {
  }

  lemma {:induction false} RunToken(s: State, run: seq<Action>, token: string)
    requires Legal(s, run)
    ensures Latest(token, After(s, run).log) == TokenAfter(s, run, Latest(token, s.log))
    decreases run
  {
    if run != [] {
      StepToken(s, run[0], token);
      RunToken(Next(s, run[0]), run[1..], token);
    }
  }

  /** Every dial uses the last non-empty token that the broker had sent in the run before it, else the initial one. */
  lemma DialsUseLastMessage(s: State, token: string, run: seq<Action>, a: Action)
    requires Starts(s, token) && Legal(s, run) && Enabled(After(s, run), a)
    requires
      var t := After(s, run);
      |Next(t, a).log| > |t.log| && Next(t, a).log[|t.log|].Dial?
    ensures
      var t := After(s, run);
      Next(t, a).log[|t.log|].token == TokenAfter(s, run, token)
  {
    var t := After(s, run);
    ReachableInv(s, token, run);
    RunToken(s, run, token);
    if a.Flow? {
      FlowEffect(t, a.t, a.env);
      assert TokenAt(t, t.flows[a.t], Latest(token, t.log));
    }
  }

  // ---- the token file ----

  /** Whether the last write of the token file in the course of `run` succeeded; `last` if there is none. */
  function LastWrite(s: State, run: seq<Action>, last: Option<bool>): Option<bool>
    requires Legal(s, run)
    decreases run
  {
    if run == [] then last
    else LastWrite(Next(s, run[0]), run[1..], if Writes(s, run[0]) then Some(run[0].env.ok) else last)
  }

  predicate Writes(s: State, a: Action) {
    a.Flow? && a.t in s.flows && s.flows[a.t].Persisting?
  }

  function Success(log: seq<Event>): Option<bool> {
    if LastPersist(log).Some? then Some(LastPersist(log).value.ok) else None
  }

  lemma StepWrite(s: State, a: Action)
    requires Enabled(s, a)
    ensures Success(Next(s, a).log) == if Writes(s, a) then Some(a.env.ok) else Success(s.log)
  {
    match a
    case Flow(t, env) => FlowWrite(s, t, env);
    case Fire(_, _) =>
    case StopStep => LastPersistAfter(s.log, StopFlag);
  }

  lemma FlowWrite(s: State, t: nat, env: Env)
    requires FlowEnabled(s, t, env)
    ensures Success(FlowStep(s, t, env).log) == if s.flows[t].Persisting? then Some(env.ok) else Success(s.log)
  {
    var s' := FlowStep(s, t, env);
    FlowEffect(s, t, env);
    if s.flows[t].Persisting? {
      LastPersistAfter(s.log, Persisted(s.flows[t].rotated, env.ok));
    } else if s'.log != s.log {
      assert s'.log == s.log + [s'.log[|s.log|]];
      LastPersistAfter(s.log, s'.log[|s.log|]);
    }
  }

  lemma {:induction false} RunWrite(s: State, run: seq<Action>)
    requires Legal(s, run)
    ensures Success(After(s, run).log) == LastWrite(s, run, Success(s.log))
    decreases run
  {
    if run != [] {
      StepWrite(s, run[0]);
      RunWrite(Next(s, run[0]), run[1..]);
    }
  }

  /** The broker has sent a non-empty token in the course of `run`. */
  predicate HasRotated(s: State, run: seq<Action>)
    requires Legal(s, run)
    decreases run
  {
    run != [] && (Rotates(s, run[0]) || HasRotated(Next(s, run[0]), run[1..]))
  }

  lemma {:induction false} RunRotated(s: State, run: seq<Action>)
    requires Legal(s, run)
    ensures Rotated(After(s, run).log) <==> Rotated(s.log) || HasRotated(s, run)
    decreases run
  {
    if run != [] {
      StepRotated(s, run[0]);
      RunRotated(Next(s, run[0]), run[1..]);
    }
  }

  lemma StepRotated(s: State, a: Action)
    requires Enabled(s, a)
    ensures Rotated(Next(s, a).log) <==> Rotated(s.log) || Rotates(s, a)
  {
    match a
    case Flow(t, env) => FlowRotated(s, t, env);
    case Fire(_, _) =>
    case StopStep => RotatedAppend(s.log, StopFlag);
  }

  lemma FlowRotated(s: State, t: nat, env: Env)
    requires FlowEnabled(s, t, env)
    ensures Rotated(FlowStep(s, t, env).log) <==> Rotated(s.log) || Rotates(s, Flow(t, env))
  {
    var s' := FlowStep(s, t, env);
    FlowEffect(s, t, env);
    if s.flows[t].Reading? { ReceivedIs(s, t, env); }
    if s'.log != s.log {
      assert s'.log == s.log + [s'.log[|s.log|]];
      RotatedAppend(s.log, s'.log[|s.log|]);
    }
  }

  /**
   A restart finds the last token the broker sent, exactly when that token survives trimming: for
   every run in which a token was sent, its take-over is complete, and the last write succeeded.
   */
  lemma RestartFindsLastMessage(s: State, token: string, run: seq<Action>, env: string)
    requires Starts(s, token) && Legal(s, run) && After(s, run).tokenFile
    requires HasRotated(s, run) && !Pending(After(s, run)) && LastWrite(s, run, None) == Some(true)
    ensures
      var sent := TokenAfter(s, run, token);
      LoadToken(After(s, run).file, env) == sent <==> Tidy(sent) || (Blank(sent) && env == sent)
  {
    RunToken(s, run, token);
    RunWrite(s, run);
    RunRotated(s, run);
    RestartUsesLatest(s, token, run, env);
  }

  /** What the writes in the course of `run` have left in the token file. */
  function FileAfter(s: State, run: seq<Action>, file: Option<string>): Option<string>
    requires Legal(s, run)
    decreases run
  {
    if run == [] then file
    else
      var a := run[0];
      var file' :=
        if !Writes(s, a) then file
        else if a.env.ok then Some(s.flows[a.t].rotated + "\n")
        else if a.env.left.Some? then a.env.left
        else file;
      FileAfter(Next(s, a), run[1..], file')
  }

  lemma StepFile(s: State, a: Action)
    requires Enabled(s, a)
    ensures Next(s, a).file ==
              if !Writes(s, a) then s.file
              else if a.env.ok then Some(s.flows[a.t].rotated + "\n")
              else if a.env.left.Some? then a.env.left
              else s.file
  {
    if a.Flow? && !s.flows[a.t].Persisting? { SameFile(s, a.t, a.env); }
  }

  /** The token file holds what its writes left there: the token and a newline, or what a failed write left. */
  lemma {:induction false} FileFollowsWrites(s: State, run: seq<Action>)
    requires Legal(s, run)
    ensures After(s, run).file == FileAfter(s, run, s.file)
    decreases run
  {
    if run != [] {
      StepFile(s, run[0]);
      FileFollowsWrites(Next(s, run[0]), run[1..]);
    }
  }

  /** Without a configured token file nothing is ever written. */
  ghost predicate NothingToWrite(s: State) {
    !s.tokenFile && forall t :: t in s.flows ==> !s.flows[t].Persisting?
  }

  lemma {:induction false} NoTokenFileUntouched(s: State, run: seq<Action>)
    requires Legal(s, run) && NothingToWrite(s)
    ensures After(s, run).file == s.file
    decreases run
  {
    if run != [] {
      StepFile(s, run[0]);
      StaysUnwritten(s, run[0]);
      NoTokenFileUntouched(Next(s, run[0]), run[1..]);
    }
  }

  lemma StaysUnwritten(s: State, a: Action)
    requires Enabled(s, a) && NothingToWrite(s)
    ensures NothingToWrite(Next(s, a))
  {
    if a.Flow? { FlowEffect(s, a.t, a.env); }
  }

  // ---- the attempt counter ----

  /** How many timers have been armed in the course of `run` since the last Reset, counting from `n`. */
  function Attempts(s: State, run: seq<Action>, n: nat): nat
    requires Legal(s, run)
    decreases run
  {
    if run == [] then n
    else
      var a := run[0];
      var due := a.Flow? && a.t in s.flows && s.flows[a.t].SchedDue? && !Capped(s.backoff);
      var reset := (a.Flow? && a.t in s.flows && s.flows[a.t].ResetBackoff?) || (a.StopStep? && s.stop.Locked?);
      Attempts(Next(s, a), run[1..], if due then n + 1 else if reset then 0 else n)
  }

  /** The counter is the number of timers armed since a connection was installed or `Stop` cleared it. */
  lemma {:induction false} AttemptsCounted(s: State, run: seq<Action>)
    requires Legal(s, run)
    ensures After(s, run).backoff.attempt == Attempts(s, run, s.backoff.attempt)
    decreases run
  {
    if run != [] {
      AttemptsCounted(Next(s, run[0]), run[1..]);
    }
  }

  // ---- the connection in use ----

  /** The connection a goroutine reads. */
  function Held(pc: FlowPc): Option<nat> {
    match pc
    case ResetBackoff(c) => Some(c)
    case Reading(c) => Some(c)
    case Rotating(c, _) => Some(c)
    case Persisting(c, _) => Some(c)
    case _ => None
  }

  /**
   Until `Stop` clears it, the connection field holds the connection being read, from the install to
   the handling of its loss, and nil otherwise.
   */
  ghost predicate ConnMatches(s: State) {
    && (s.flows == map[] && (s.stop.NotStarted? || s.stop.Locked? || s.stop.Cleared?) ==> s.conn == None)
    && forall t :: t in s.flows && !s.stop.Stopped? ==>
         (s.conn == Held(s.flows[t]) || (s.flows[t].Lost? && s.conn.Some?))
  }

  lemma FlowConn(s: State, t: nat, env: Env)
    requires OneCarrier(s) && ConnMatches(s) && FlowEnabled(s, t, env)
    ensures ConnMatches(FlowStep(s, t, env))
  {
    Sole(s, t);
    FlowEffect(s, t, env);
  }

  lemma StepConn(s: State, a: Action)
    requires OneCarrier(s) && ConnMatches(s) && Enabled(s, a)
    ensures ConnMatches(Next(s, a))
  {
    match a
    case Flow(t, env) => FlowConn(s, t, env);
    case Fire(_, _) => NoneFlowing(s);
    case StopStep =>
  }

  lemma {:induction false} RunConn(s: State, token: string, run: seq<Action>)
    requires Inv(s, token) && ConnMatches(s) && Legal(s, run)
    ensures ConnMatches(After(s, run))
    decreases run
  {
    if run != [] {
      StepKeeps(s, run[0], token);
      StepConn(s, run[0]);
      RunConn(Next(s, run[0]), token, run[1..]);
    }
  }

  lemma ConnectionIsCurrent(s: State, token: string, run: seq<Action>)
    requires Starts(s, token) && Legal(s, run)
    ensures ConnMatches(After(s, run))
  {
    ReachableInv(s, token, []);
    RunConn(s, token, run);
  }

  // ---- what becomes of a dial ----

  /** A successful dial is installed and then read, and nothing else happens to its goroutine in between. */
  lemma DialSucceeds(s: State, t: nat, env: Env, e1: Env, e2: Env)
    requires t in s.flows && s.flows[t].Dialing? && env.ok && MuFree(s)
    ensures
      var more := [Flow(t, env)] + [Flow(t, e1)] + [Flow(t, e2)];
      && Legal(s, more)
      && var u := After(s, more);
      && u.conn == Some(env.conn) && t in u.flows && u.flows[t] == Reading(env.conn)
      && u.backoff.attempt == 0 && u.log == s.log
  {
    var a, b, c := Flow(t, env), Flow(t, e1), Flow(t, e2);
    Then(s, [], s, a);
    assert [] + [a] == [a];
    var u1 := Goto(s, t, Install(env.conn));
    assert Next(s, a) == u1;
    Then(s, [a], u1, b);
    var u2 := Goto(u1.(conn := Some(env.conn)), t, ResetBackoff(env.conn));
    assert Next(u1, b) == u2;
    Then(s, [a] + [b], u2, c);
  }

  /** No goroutine holds a connection, or may install one without a new dial. */
  ghost predicate Disconnected(s: State) {
    && s.conn.None?
    && forall t :: t in s.flows ==>
         Held(s.flows[t]).None? && !s.flows[t].Lost? && !s.flows[t].Dialing? && !s.flows[t].Install?
  }

  lemma {:induction false} StaysDisconnected(s: State, more: seq<Action>)
    requires Legal(s, more) && Disconnected(s)
    ensures |s.log| <= |After(s, more).log| && s.log <= After(s, more).log
    ensures NoDial(After(s, more).log, |s.log|) ==> Disconnected(After(s, more))
    decreases more
  {
    if more != [] {
      var s' := Next(s, more[0]);
      DisconnectedStep(s, more[0]);
      if Disconnected(s') {
        StaysDisconnected(s', more[1..]);
        assert forall j :: 0 <= j < |s'.log| ==> After(s', more[1..]).log[j] == s'.log[j];
      } else {
        LogGrows(s', more[1..]);
        assert After(s, more).log[|s.log|] == s'.log[|s.log|];
      }
    }
  }

  lemma {:induction false} LogGrows(s: State, more: seq<Action>)
    requires Legal(s, more)
    ensures s.log <= After(s, more).log
    decreases more
  {
    if more != [] {
      if more[0].Flow? { FlowEffect(s, more[0].t, more[0].env); }
      LogGrows(Next(s, more[0]), more[1..]);
    }
  }

  lemma DisconnectedStep(s: State, a: Action)
    requires Enabled(s, a) && Disconnected(s)
    ensures s.log <= Next(s, a).log
    ensures Disconnected(Next(s, a)) || (|Next(s, a).log| == |s.log| + 1 && Next(s, a).log[|s.log|].Dial?)
  {
    if a.Flow? { FlowEffect(s, a.t, a.env); }
  }

  /** A failed dial installs nothing: until the next dial there is no connection. */
  lemma DialFails(s: State, token: string, run: seq<Action>, t: nat, env: Env, more: seq<Action>)
    requires Starts(s, token) && Legal(s, run) && t in After(s, run).flows && After(s, run).flows[t].Dialing?
    requires !env.ok && Legal(Next(After(s, run), Flow(t, env)), more)
    requires
      var u := After(s, run);
      NoDial(After(Next(u, Flow(t, env)), more).log, |u.log|)
    ensures After(Next(After(s, run), Flow(t, env)), more).conn.None?
  {
    var u := After(s, run);
    ReachableInv(s, token, run);
    ConnectionIsCurrent(s, token, run);
    Sole(u, t);
    StoppedConn(s, token, run);
    var u' := Next(u, Flow(t, env));
    assert Disconnected(u');
    StaysDisconnected(u', more);
  }

  /** After `Stop` has returned, a connection is there only while a goroutine holds it or handles its loss. */
  ghost predicate ConnHeld(s: State) {
    s.conn.Some? ==> exists t :: t in s.flows && (Held(s.flows[t]).Some? || s.flows[t].Lost?)
  }

  lemma FlowConnHeld(s: State, t: nat, env: Env)
    requires OneCarrier(s) && ConnHeld(s) && FlowEnabled(s, t, env)
    ensures ConnHeld(FlowStep(s, t, env))
  {
    Sole(s, t);
    FlowEffect(s, t, env);
    var s' := FlowStep(s, t, env);
    if s'.conn.Some? { assert t in s'.flows && (Held(s'.flows[t]).Some? || s'.flows[t].Lost?); }
  }

  lemma {:induction false} RunConnHeld(s: State, token: string, run: seq<Action>)
    requires Inv(s, token) && ConnHeld(s) && Legal(s, run)
    ensures ConnHeld(After(s, run))
    decreases run
  {
    if run != [] {
      StepKeeps(s, run[0], token);
      if run[0].Flow? { FlowConnHeld(s, run[0].t, run[0].env); }
      if run[0].Fire? { NoneFlowing(s); }
      RunConnHeld(Next(s, run[0]), token, run[1..]);
    }
  }

  lemma StoppedConn(s: State, token: string, run: seq<Action>)
    requires Starts(s, token) && Legal(s, run)
    ensures ConnHeld(After(s, run))
  {
    ReachableInv(s, token, []);
    RunConnHeld(s, token, run);
  }

  // ---- the pending timer ----

  /** The armed timer is the one the manager remembers. */
  predicate TimerMatches(s: State) {
    s.armed <= if s.timer.Some? then {s.timer.value} else {}
  }

  lemma {:induction false} RunTimer(s: State, token: string, run: seq<Action>)
    requires Inv(s, token) && TimerMatches(s) && Legal(s, run)
    ensures TimerMatches(After(s, run))
    decreases run
  {
    if run != [] {
      StepKeeps(s, run[0], token);
      StepTimer(s, token, run[0]);
      RunTimer(Next(s, run[0]), token, run[1..]);
    }
  }

  lemma StepTimer(s: State, token: string, a: Action)
    requires Inv(s, token) && TimerMatches(s) && Enabled(s, a)
    ensures TimerMatches(Next(s, a))
  {
    if a.Flow? { Sole(s, a.t); }
  }

  /** `Stop`'s call of Destroy leaves no timer armed. */
  lemma StopDisarms(s: State, token: string, run: seq<Action>)
    requires Starts(s, token) && Legal(s, run) && After(s, run).stop.Locked?
    ensures Enabled(After(s, run), StopStep) && Next(After(s, run), StopStep).armed == {}
    ensures Next(After(s, run), StopStep).backoff.attempt == 0
  {
    ReachableInv(s, token, []);
    RunTimer(s, token, run);
  }

  // ---- the critical section of Stop ----

  predicate Holds(s: State) {
    s.stop.Locked? || s.stop.Cleared?
  }

  /** A goroutine that comes to one of these needs the mutex next. */
  predicate NeedsMutex(pc: FlowPc) {
    pc.Check? || pc.Install? || pc.Rotating? || pc.Lost? || pc.SchedCheck?
  }

  /** What the mutex guards is as it was, and who waits for the mutex still does. */
  ghost predicate Guarded(s: State, s': State) {
    && s'.conn == s.conn && s'.token == s.token && s'.destroyed == s.destroyed
    && forall t :: t in s.flows && NeedsMutex(s.flows[t]) ==> t in s'.flows && s'.flows[t] == s.flows[t]
  }

  lemma HoldingStep(s: State, a: Action)
    requires Holds(s) && Enabled(s, a) && Holds(Next(s, a))
    ensures Guarded(s, Next(s, a))
  {
    if a.Flow? { HoldingFlow(s, a.t, a.env); }
  }

  lemma HoldingFlow(s: State, t: nat, env: Env)
    requires Holds(s) && FlowEnabled(s, t, env)
    ensures Guarded(s, FlowStep(s, t, env)) && !NeedsMutex(s.flows[t])
  {
  }

  lemma HoldsBefore(s: State, a: Action, run: seq<Action>)
    requires Holds(s) && Enabled(s, a) && Legal(Next(s, a), run) && Holds(After(Next(s, a), run))
    ensures Holds(Next(s, a))
  {
    if Next(s, a).stop.Stopped? { StaysStopped(Next(s, a), run); }
  }

  lemma {:induction false} StaysStopped(s: State, run: seq<Action>)
    requires s.stop.Stopped? && Legal(s, run)
    ensures After(s, run).stop.Stopped?
    decreases run
  {
    if run != [] { StaysStopped(Next(s, run[0]), run[1..]); }
  }

  /**
   While `Stop` holds the mutex, over every run, the connection, the token and the flag stay as they
   are, and whoever needs the mutex waits.
   */
  lemma {:induction false} StopExcludes(s: State, run: seq<Action>)
    requires Holds(s) && Legal(s, run) && Holds(After(s, run))
    ensures Guarded(s, After(s, run))
    decreases run
  {
    if run != [] {
      HoldsBefore(s, run[0], run[1..]);
      HoldingStep(s, run[0]);
      StopExcludes(Next(s, run[0]), run[1..]);
    }
  }

  // ---- timers after Stop ----

  /** A goroutine that found destroyed unset is about to call Schedule, and nothing will refuse it. */
  predicate MayArm(s: State, pc: FlowPc) {
    pc.SchedDue? && (!Capped(s.backoff) || s.stop.Locked?)
  }

  ghost predicate ArmsNoMore(s: State) {
    s.destroyed && !s.stop.NotStarted? && forall t :: t in s.flows ==> !MayArm(s, s.flows[t])
  }

  lemma ArmsNoMoreStep(s: State, a: Action)
    requires OneCarrier(s) && ArmsNoMore(s) && Enabled(s, a)
    ensures ArmsNoMore(Next(s, a)) && Next(s, a).armed <= s.armed
  {
    if a.Flow? { FlowArmsNoMore(s, a.t, a.env); }
  }

  lemma FlowArmsNoMore(s: State, t: nat, env: Env)
    requires OneCarrier(s) && ArmsNoMore(s) && FlowEnabled(s, t, env)
    ensures ArmsNoMore(FlowStep(s, t, env)) && FlowStep(s, t, env).armed <= s.armed
  {
    Sole(s, t);
    FlowEffect(s, t, env);
    assert !MayArm(s, s.flows[t]);
    FlowStaysIdle(s, t, env);
  }

  /** Once destroyed is set no goroutine gets as far as Schedule, and the counter does not grow without it. */
  lemma FlowStaysIdle(s: State, t: nat, env: Env)
    requires s.destroyed && FlowEnabled(s, t, env) && !(s.flows[t].SchedDue? && !Capped(s.backoff))
    ensures
      var s' := FlowStep(s, t, env);
      && s'.armed <= s.armed
      && (t in s'.flows ==> !s'.flows[t].SchedDue?)
      && (s'.backoff == s.backoff || s.flows[t].ResetBackoff?)
  {
  }

  lemma {:induction false} RunArmsNoMore(s: State, token: string, more: seq<Action>)
    requires Inv(s, token) && ArmsNoMore(s) && Legal(s, more)
    ensures After(s, more).armed <= s.armed
    decreases more
  {
    if more != [] {
      ArmsNoMoreStep(s, more[0]);
      StepKeeps(s, more[0], token);
      RunArmsNoMore(Next(s, more[0]), token, more[1..]);
    }
  }

  lemma DueArms(s: State, t: nat) returns (more: seq<Action>)
    requires OneCarrier(s) && t in s.flows && MayArm(s, s.flows[t])
    ensures Legal(s, more) && After(s, more).armed != {}
  {
    Sole(s, t);
    if Capped(s.backoff) {
      var s' := Next(s, StopStep);
      var go := Flow(t, MoveEnv(s', t));
      assert After(s', [go]) == Next(s', go);
      more := [StopStep] + [go];
      assert After(s, more) == After(s', [go]);
    } else {
      var go := Flow(t, MoveEnv(s, t));
      more := [go];
      assert After(s, more) == Next(s, go);
    }
  }

  /**
   When a timer can still be armed, exactly: once destroyed is set, no continuation arms another if
   and only if no goroutine is between its check of destroyed and its call of Schedule, or the cap
   refuses it.
   */
  lemma ArmsExactly(s: State, token: string, run: seq<Action>)
    requires Starts(s, token) && Legal(s, run) && After(s, run).destroyed
    ensures
      var u := After(s, run);
      (forall more :: Legal(u, more) ==> After(u, more).armed <= u.armed) <==>
        forall t :: t in u.flows ==> !MayArm(u, u.flows[t])
  {
    ReachableInv(s, token, run);
    var u := After(s, run);
    if t :| t in u.flows && MayArm(u, u.flows[t]) {
      Sole(u, t);
      var more := DueArms(u, t);
    } else {
      assert ArmsNoMore(u);
      forall more | Legal(u, more)
        ensures After(u, more).armed <= u.armed
      {
        RunArmsNoMore(u, token, more);
      }
    }
  }
}
