/** What the connection protocol guarantees over every run and every interleaving with `Stop`. */
module ConnectionTheorems {
  import opened Basics
  import opened Connection
  import opened Tokens

  ghost predicate Starts(s: State, token: string) {
    exists tokenFile, file, backoff :: s == Init(token, tokenFile, file, backoff)
  }

  lemma ReachableInv(s: State, token: string, run: seq<Action>)
    requires Starts(s, token) && Legal(s, run)
    ensures Inv(After(s, run), token)
  {
    var tokenFile, file, backoff :| s == Init(token, tokenFile, file, backoff);
    InitHolds(token, tokenFile, file, backoff);
    RunKeeps(s, run, token);
  }

  /** Goroutines in connect or readLoop plus armed timers never number more than one. */
  lemma OneConnection(s: State, token: string, run: seq<Action>)
    requires Starts(s, token) && Legal(s, run)
    ensures |After(s, run).flows| + |After(s, run).armed| <= 1
  {
    ReachableInv(s, token, run);
    var t := After(s, run);
    if f :| t.flows.Keys == {f} {
      assert |t.flows| == |t.flows.Keys|;
    }
  }

  /**
   After `Stop` has set destroyed at most one more dial starts, and every dial, before or after, has
   a check of destroyed of its own that came before that: made by the goroutine that dials, and not
   used by an earlier dial. So no goroutine that reads destroyed after `Stop` set it ever dials.
   */
  lemma DialsEndWithStop(s: State, token: string, run: seq<Action>)
    requires Starts(s, token) && Legal(s, run)
    ensures
      var log := After(s, run).log;
      && DialsAfterStop(log) <= 1
      && forall j :: 0 <= j < |log| && log[j].Dial? ==> PassedEarly(log, j, log[j].t)
  {
    ReachableInv(s, token, run);
  }

  /** Every dial uses the last non-empty rotated token received before it, else the initial one. */
  lemma DialsAreFresh(s: State, token: string, run: seq<Action>, j: nat)
    requires Starts(s, token) && Legal(s, run) && j < |After(s, run).log| && After(s, run).log[j].Dial?
    ensures After(s, run).log[j].token == Latest(token, After(s, run).log[..j])
  {
    ReachableInv(s, token, run);
  }

  /**
   When a rotation has been taken over and the last write of the token file succeeded, a restart
   starts with the current token if and only if that token survives trimming.
   */
  lemma RestartUsesLatest(s: State, token: string, run: seq<Action>, env: string)
    requires Starts(s, token) && Legal(s, run)
    requires After(s, run).tokenFile && Rotated(After(s, run).log) && !Pending(After(s, run))
    requires LastPersist(After(s, run).log).Some? ==> LastPersist(After(s, run).log).value.ok
    ensures
      var t := After(s, run);
      && t.token == Latest(token, t.log)
      && (LoadToken(t.file, env) == t.token <==> Tidy(t.token) || (Blank(t.token) && env == t.token))
  {
    ReachableInv(s, token, run);
    var t := After(s, run);
    RestartRoundTrip(t.token, env);
    if t.flows != map[] {
      var f :| f in t.flows;
      assert TokenAt(t, t.flows[f], Latest(token, t.log));
      assert !TakingOver(t.flows[f]);
    }
  }

  // ---- winding down ----

  /** How many more steps a goroutine can take once destroyed is set and no message arrives. */
  function Rank(pc: FlowPc): nat {
    match pc
    case ReadToken => 12
    case DialDue(_) => 11
    case Dialing => 10
    case Install(_) => 9
    case ResetBackoff(_) => 8
    case Rotating(_, _) => 7
    case Persisting(_, _) => 6
    case Reading(_) => 5
    case Lost => 4
    case SchedCheck => 4
    case SchedDue => 3
    case Check => 1
  }

  function StopRank(pc: StopPc): nat {
    match pc
    case NotStarted => 3
    case Locked => 2
    case Cleared => 1
    case Stopped => 0
  }

  ghost predicate Measured(s: State, n: nat) {
    || (s.flows == map[] && s.armed == {} && n == StopRank(s.stop))
    || (s.flows == map[] && s.armed != {} && n == 2 + StopRank(s.stop))
    || (s.armed == {} && exists t :: t in s.flows && s.flows.Keys == {t} && n == Rank(s.flows[t]) + StopRank(s.stop))
  }

  /** The step takes a message from the broker off an open connection. */
  predicate TakesMessage(s: State, a: Action) {
    a.Flow? && a.t in s.flows && s.flows[a.t].Reading? && !a.env.msg.ReadError?
  }

  lemma FlowRankDrops(s: State, t: nat, env: Env)
    requires OneCarrier(s) && s.destroyed && FlowEnabled(s, t, env) && !TakesMessage(s, Flow(t, env))
    ensures
      var s' := FlowStep(s, t, env);
      && s'.destroyed && s'.stop == s.stop
      && exists n: nat :: Measured(s', n) && n < Rank(s.flows[t]) + StopRank(s.stop)
  {
    Sole(s, t);
    var s' := FlowStep(s, t, env);
    FlowEffect(s, t, env);
    if t in s'.flows {
      assert s'.flows.Keys == {t};
      assert Rank(s'.flows[t]) < Rank(s.flows[t]);
      assert Measured(s', Rank(s'.flows[t]) + StopRank(s'.stop));
    } else {
      assert s'.flows == map[];
      assert Measured(s', (if s'.armed == {} then 0 else 2) + StopRank(s'.stop));
    }
  }

  lemma MeasureDrops(s: State, a: Action, n: nat)
    requires OneCarrier(s) && s.destroyed && !s.stop.NotStarted? && Measured(s, n) && Enabled(s, a)
    requires !TakesMessage(s, a)
    ensures Next(s, a).destroyed && !Next(s, a).stop.NotStarted? && exists m: nat :: Measured(Next(s, a), m) && m < n
  {
    var s' := Next(s, a);
    match a
    case Flow(t, env) =>
      Sole(s, t);
      FlowRankDrops(s, t, env);
    case Fire(timer, newFlow) =>
      NoneFlowing(s);
      assert s.armed == {timer} && s'.armed == {};
      assert s'.flows.Keys == {newFlow};
      assert Measured(s', 1 + StopRank(s'.stop));
    case StopStep =>
      StopMeasureDrops(s, n);
  }

  lemma StopMeasureDrops(s: State, n: nat)
    requires OneCarrier(s) && s.destroyed && !s.stop.NotStarted? && !s.stop.Stopped? && Measured(s, n)
    ensures exists m: nat :: Measured(NextStop(s), m) && m < n
  {
    var s' := NextStop(s);
    if t :| t in s.flows && s.flows.Keys == {t} {
      assert s'.flows == s.flows && s'.armed == {};
      assert Measured(s', Rank(s.flows[t]) + StopRank(s'.stop));
    } else {
      assert s'.flows == map[];
      assert Measured(s', (if s'.armed == {} then 0 else 2) + StopRank(s'.stop));
    }
  }

  predicate NoMessages(s: State, run: seq<Action>)
    requires Legal(s, run)
    decreases run
  {
    run == [] || (!TakesMessage(s, run[0]) && NoMessages(Next(s, run[0]), run[1..]))
  }

  lemma {:induction false} RunBounded(s: State, token: string, run: seq<Action>, n: nat)
    requires Inv(s, token) && s.destroyed && !s.stop.NotStarted? && Measured(s, n)
    requires Legal(s, run) && NoMessages(s, run)
    ensures |run| <= n
    decreases run
  {
    if run != [] {
      StepKeeps(s, run[0], token);
      MeasureDrops(s, run[0], n);
      var m: nat :| Measured(Next(s, run[0]), m) && m < n;
      RunBounded(Next(s, run[0]), token, run[1..], m);
    }
  }

  lemma HasMeasure(s: State)
    requires OneCarrier(s) && !s.stop.NotStarted?
    ensures exists n: nat :: n <= 14 && Measured(s, n)
  {
    if t :| t in s.flows && s.flows.Keys == {t} {
      assert Measured(s, Rank(s.flows[t]) + StopRank(s.stop));
    } else {
      assert s.flows == map[];
      assert Measured(s, (if s.armed == {} then 0 else 2) + StopRank(s.stop));
    }
  }

  /**
   Once `Stop` has set destroyed the connection winds down: from then on, apart from messages still
   read off an open connection, at most fourteen steps remain, wherever the goroutine was.
   */
  lemma StopWindsDown(s: State, token: string, before: seq<Action>, after: seq<Action>)
    requires Starts(s, token) && Legal(s, before) && After(s, before).destroyed
    requires Legal(After(s, before), after) && NoMessages(After(s, before), after)
    ensures |after| <= 14
  {
    ReachableInv(s, token, before);
    var t := After(s, before);
    HasMeasure(t);
    var n: nat :| n <= 14 && Measured(t, n);
    RunBounded(t, token, after, n);
  }

  // ---- what Stop does not promise ----

  const ENV := Env(true, 7, 1, 0.0, OtherMessage, None)

  /** The goroutine `t` makes one step. */
  lemma {:induction false} Then(s: State, run: seq<Action>, t: State, a: Action)
    requires Legal(s, run) && After(s, run) == t && Enabled(t, a)
    ensures Legal(s, run + [a]) && After(s, run + [a]) == Next(t, a)
    decreases run
  {
    if run == [] {
      assert ([] + [a])[1..] == [];
    } else {
      Then(Next(s, run[0]), run[1..], t, a);
      assert (run + [a])[0] == run[0] && (run + [a])[1..] == run[1..] + [a];
    }
  }

  lemma DialRun(s: State) returns (run: seq<Action>, t: State)
    requires s == Init(s.token, false, None, R.New(0.0, 0.0, 0))
    ensures Legal(s, run) && After(s, run) == t
    ensures t == s.(flows := map[0 := Dialing], log := [Passed(0), Dial(0, s.token)])
  {
    var go := Flow(0, ENV);
    Then(s, [], s, go);
    var t1 := s.(flows := map[0 := ReadToken], log := [Passed(0)]);
    Then(s, [go], t1, go);
    var t2 := t1.(flows := map[0 := DialDue(s.token)]);
    Then(s, [go] + [go], t2, go);
    run, t := [go] + [go] + [go], Next(t2, go);
  }

  lemma StopRun(s: State, run: seq<Action>, t: State) returns (run': seq<Action>, t': State)
    requires Legal(s, run) && After(s, run) == t && t.stop.NotStarted? && t.timer.None?
    ensures Legal(s, run') && After(s, run') == t'
    ensures t' == t.(destroyed := true, stop := Stopped, conn := None,
                     backoff := t.backoff.(attempt := 0), log := t.log + [StopFlag])
  {
    Then(s, run, t, StopStep);
    var t1 := Next(t, StopStep);
    Then(s, run + [StopStep], t1, StopStep);
    var t2 := Next(t1, StopStep);
    Then(s, run + [StopStep] + [StopStep], t2, StopStep);
    run', t' := run + [StopStep] + [StopStep] + [StopStep], Next(t2, StopStep);
  }

  /** A dial that was under way when `Stop` ran still installs its connection afterwards. */
  lemma ConnectionMayReturnAfterStop(token: string)
    ensures exists s, run ::
          Starts(s, token) && Legal(s, run) && After(s, run).stop.Stopped? &&
          After(s, run).conn.Some?
  {
    var s := Init(token, false, None, R.New(0.0, 0.0, 0));
    assert Starts(s, token);
    var run, t := DialRun(s);
    run, t := StopRun(s, run, t);
    var go := Flow(0, ENV);
    Then(s, run, t, go);
    var t1 := Goto(t, 0, Install(7));
    Then(s, run + [go], t1, go);
    assert After(s, run + [go] + [go]) == Next(t1, go);
  }

  /** The goroutine has passed its check of destroyed and may still install a connection. */
  predicate Connecting(pc: FlowPc) {
    pc.ReadToken? || pc.DialDue? || pc.Dialing? || pc.Install?
  }

  /** No connection, and nobody about to make one. */
  ghost predicate Down(s: State) {
    s.conn.None? && forall t :: t in s.flows ==> !Connecting(s.flows[t])
  }

  lemma {:induction false} DownKept(s: State, more: seq<Action>)
    requires s.destroyed && s.stop.Stopped? && Down(s) && Legal(s, more)
    ensures Down(After(s, more))
    decreases more
  {
    if more != [] { DownKept(Next(s, more[0]), more[1..]); }
  }

  /** A goroutine past its check, whose dial succeeds, installs its connection. */
  lemma {:induction false} Installs(s: State, t: nat) returns (run: seq<Action>)
    requires s.stop.Stopped? && t in s.flows && Connecting(s.flows[t])
    ensures Legal(s, run) && After(s, run).conn.Some?
    decreases Rank(s.flows[t])
  {
    var go := Flow(t, ENV);
    if s.flows[t].Install? {
      run := [go];
      assert After(s, run) == Next(s, go);
    } else {
      var rest := Installs(Next(s, go), t);
      run := [go] + rest;
    }
  }

  lemma NoStepsTaken(s: State)
    ensures exists more :: Legal(s, more) && After(s, more) == s
  {
    var none: seq<Action> := [];
    assert Legal(s, none) && After(s, none) == s;
  }

  /**
   What `Stop` settles, exactly: once it has returned, the connection stays nil for ever if and
   only if it is nil and no goroutine is past its check of destroyed and before the install.
   */
  lemma StaysDownExactly(s: State, token: string, before: seq<Action>)
    requires Starts(s, token) && Legal(s, before) && After(s, before).stop.Stopped?
    ensures
      var t := After(s, before);
      (forall more :: Legal(t, more) ==> After(t, more).conn.None?) <==> Down(t)
  {
    ReachableInv(s, token, before);
    var t := After(s, before);
    if Down(t) {
      forall more | Legal(t, more)
        ensures After(t, more).conn.None?
      {
        DownKept(t, more);
      }
    } else if t.conn.Some? {
      NoStepsTaken(t);
    } else {
      var f :| f in t.flows && Connecting(t.flows[f]);
      var run := Installs(t, f);
    }
  }

  // ---- how many dials Stop lets through ----

  /** No dial has been logged from index `from` on. */
  predicate NoDial(log: seq<Event>, from: nat) {
    forall j :: from <= j < |log| ==> !log[j].Dial?
  }

  lemma {:induction false} NobodyDials(s: State, token: string, more: seq<Action>)
    requires Inv(s, token) && s.destroyed && !DialerAround(s) && Legal(s, more)
    ensures |s.log| <= |After(s, more).log| && NoDial(After(s, more).log, |s.log|) && s.log <= After(s, more).log
    decreases more
  {
    if more != [] {
      var s' := Next(s, more[0]);
      StepKeeps(s, more[0], token);
      StepQuiet(s, more[0]);
      NobodyDials(s', token, more[1..]);
      LaterQuiet(s.log, s'.log, After(s', more[1..]).log);
    }
  }

  lemma LaterQuiet(a: seq<Event>, b: seq<Event>, c: seq<Event>)
    requires a <= b <= c && NoDial(b, |a|) && NoDial(c, |b|)
    ensures NoDial(c, |a|)
  {
    assert forall j :: 0 <= j < |b| ==> c[j] == b[j];
  }

  lemma StepQuiet(s: State, a: Action)
    requires s.destroyed && !DialerAround(s) && Enabled(s, a)
    ensures
      var s' := Next(s, a);
      s'.destroyed && !DialerAround(s') && s.log <= s'.log && NoDial(s'.log, |s.log|)
  {
    if a.Flow? {
      FlowEffect(s, a.t, a.env);
      FlowLeads(s, a.t, a.env);
      assert !MayDial(s.flows[a.t]);
    }
  }

  lemma {:induction false} DialerDials(s: State, t: nat) returns (more: seq<Action>)
    requires t in s.flows && MayDial(s.flows[t])
    ensures Legal(s, more) && !NoDial(After(s, more).log, |s.log|)
    decreases if s.flows[t].ReadToken? then 1 else 0
  {
    var go := Flow(t, ENV);
    if s.flows[t].DialDue? {
      more := [go];
      assert After(s, more) == Next(s, go);
      assert Next(s, go).log[|s.log|].Dial?;
    } else {
      var rest := DialerDials(Next(s, go), t);
      more := [go] + rest;
      assert After(s, more) == After(Next(s, go), rest);
    }
  }

  /**
   What `Stop` cuts off, exactly: once destroyed is set, no continuation starts a dial if and only if
   no goroutine is between its check of destroyed and the dial.
   */
  lemma DialsEndExactly(s: State, token: string, before: seq<Action>)
    requires Starts(s, token) && Legal(s, before) && After(s, before).destroyed
    ensures
      var t := After(s, before);
      (forall more :: Legal(t, more) ==> NoDial(After(t, more).log, |t.log|)) <==> !DialerAround(t)
  {
    ReachableInv(s, token, before);
    var t := After(s, before);
    if !DialerAround(t) {
      forall more | Legal(t, more)
        ensures NoDial(After(t, more).log, |t.log|)
      {
        NobodyDials(t, token, more);
      }
    } else {
      var f :| f in t.flows && MayDial(t.flows[f]);
      var more := DialerDials(t, f);
    }
  }

  /** The bound of one is reached: a goroutine past its check dials after `Stop` has returned. */
  lemma OneDialAfterStop(token: string)
    ensures exists s, run :: Starts(s, token) && Legal(s, run) && DialsAfterStop(After(s, run).log) == 1
  {
    var s, go := Init(token, false, None, R.New(0.0, 0.0, 0)), Flow(0, ENV);
    assert Starts(s, token);
    Then(s, [], s, go);
    var run, t := StopRun(s, [go], s.(flows := map[0 := ReadToken], log := [Passed(0)]));
    Then(s, run, t, go);
    var t1 := t.(flows := map[0 := DialDue(token)]);
    Then(s, run + [go], t1, go);
    StopAfter(t1.log, Dial(0, token));
    StopAfter([Passed(0)], StopFlag);
    assert After(s, run + [go] + [go]) == Next(t1, go);
  }
}
