/** What the results of a command say about its output, over every run and every interleaving. */
module ExecOutput {
  import opened Basics
  import opened RollingBuffer
  import opened ExecLifecycle
  import opened ExecInvariant
  import opened ExecSteps
  import opened ExecTheorems
  import opened ExecProgress

  // ---- the three buffers ----

  /** `h` is an interleaving of the chunk sequences `a` and `b` that keeps the order of each. */
  ghost predicate Merges(h: seq<Bytes>, a: seq<Bytes>, b: seq<Bytes>)
    decreases h
  {
    if h == [] then a == [] && b == []
    else
      var last, rest := h[|h| - 1], h[..|h| - 1];
      || (a != [] && a[|a| - 1] == last && Merges(rest, a[..|a| - 1], b))
      || (b != [] && b[|b| - 1] == last && Merges(rest, a, b[..|b| - 1]))
  }

  lemma {:induction false} PiecesMerge(pieces: seq<Piece>)
    ensures Merges(Datas(pieces), Of(pieces, false), Of(pieces, true))
    decreases pieces
  {
    if pieces != [] {
      var rest, p := pieces[..|pieces| - 1], pieces[|pieces| - 1];
      PiecesMerge(rest);
      MergeSnoc(Datas(rest), Of(rest, false), Of(rest, true), p.isErr, p.data);
      assert Of(rest, !p.isErr) + [] == Of(rest, !p.isErr);
    }
  }

  lemma MergeSnoc(h: seq<Bytes>, a: seq<Bytes>, b: seq<Bytes>, isErr: bool, c: Bytes)
    requires Merges(h, a, b)
    ensures Merges(h + [c], if isErr then a else a + [c], if isErr then b + [c] else b)
  {
    assert (h + [c])[..|h|] == h && (a + [c])[..|a|] == a && (b + [c])[..|b|] == b;
  }

  /**
   The three buffers of a command agree at every moment. What the session ever received is an
   order-preserving merge of the stdout chunks and the stderr chunks; its capped buffers are the
   suffixes of that merge; each stream's share of it is the builder plus the chunk in flight,
   which is at most 8192 bytes; and what was read is the builder plus the chunk the reader holds.
   */
  lemma ThreeBuffers(brain: bool, run: seq<Action>, d: nat)
    requires Legal(Init(brain), run) && HasSession(After(Init(brain), run), d)
    ensures
      var v, ss := After(Init(brain), run).deliveries[d], Sess(After(Init(brain), run), d);
      && Merges(Datas(v.appended), Of(v.appended, false), Of(v.appended, true))
      && Refines(ss.output, Flatten(Datas(v.appended)))
      && Flatten(Of(v.appended, false)) == v.outBuf + InFlight(v.out) && |InFlight(v.out)| <= CHUNK_MAX
      && Flatten(Of(v.appended, true)) == v.errBuf + InFlight(v.err) && |InFlight(v.err)| <= CHUNK_MAX
      && v.outRead == v.outBuf + Held(v.out) && v.errRead == v.errBuf + Held(v.err)
  {
    ReachableInv(brain, run);
    var s := After(Init(brain), run);
    assert DeliveryInv(s, d);
    PiecesMerge(s.deliveries[d].appended);
  }

  /** Every result reports a prefix of each stream, and no later step takes that back. */
  lemma ReportedOutput(brain: bool, run: seq<Action>, more: seq<Action>, j: nat)
    requires Legal(Init(brain), run) && Legal(After(Init(brain), run), more)
    requires j < |After(Init(brain), run).log| && After(Init(brain), run).log[j].Result?
    ensures
      var s, t := After(Init(brain), run), After(After(Init(brain), run), more);
      && j < |t.log| && t.log[j] == s.log[j]
      && s.log[j].d < |t.deliveries|
      && s.log[j].out <= t.deliveries[s.log[j].d].outRead && s.log[j].err <= t.deliveries[s.log[j].d].errRead
  {
    var s := After(Init(brain), run);
    var t := After(s, more);
    ReachableInv(brain, run);
    RunKeeps(s, more);
    NothingRevoked(s, more);
    assert t.log[j] == s.log[j];
    assert DeliveryInv(t, s.log[j].d);
  }

  // ---- complete results ----

  /** The reader holds nothing and will read nothing more. */
  predicate Ended(v: Delivery, pc: ReaderPc) {
    pc.Off? || pc.Closed? || (pc.Reading? && PipesClosed(v))
  }

  /** What a goroutine of `v` has read from the builders, or is still to read, is all there is. */
  predicate Drained(v: Delivery) {
    && Finished(v.handler)
    && Ended(v, v.out) && Ended(v, v.err)
    && (v.yielder.YieldRead? || v.yielder.YieldDue? ==> v.yielder.out == v.outBuf)
    && (v.yielder.YieldDue? ==> v.yielder.err == v.errBuf)
    && (v.timeout.TimeoutRead? || v.timeout.TimeoutDue? ==> v.timeout.out == v.outBuf)
    && (v.timeout.TimeoutDue? ==> v.timeout.err == v.errBuf)
    && (v.wait.WaitRead? || v.wait.WaitDue? ==> v.wait.out == v.outBuf)
    && (v.wait.WaitDue? ==> v.wait.err == v.errBuf)
  }

  /** The results for `d` in `log` from index `from` on all report `out` and `err`. */
  predicate AllReport(log: seq<Event>, from: nat, d: nat, out: Bytes, err: Bytes) {
    forall j :: from <= j < |log| && log[j].Result? && log[j].d == d ==> log[j].out == out && log[j].err == err
  }

  /** A drained delivery stays drained, and what it sends in this step is complete. */
  predicate StaysDrained(s: State, s': State, d: nat)
    requires d < |s.deliveries|
  {
    && d < |s'.deliveries| && Drained(s'.deliveries[d])
    && s'.deliveries[d].outBuf == s.deliveries[d].outBuf && s'.deliveries[d].errBuf == s.deliveries[d].errBuf
    && AllReport(s'.log, |s.log|, d, s.deliveries[d].outBuf, s.deliveries[d].errBuf)
  }

  lemma YieldDrained(s: State, d: nat)
    requires YieldEnabled(s, d) && Drained(s.deliveries[d])
    ensures StaysDrained(s, YieldStep(s, d), d)
  {
    if Backgrounds(s.deliveries[d]) {
      YieldReportDrained(s, d);
    } else if s.deliveries[d].yielder.SawLive? {
      YieldMarkDrained(s, d);
    }
  }

  lemma YieldMarkDrained(s: State, d: nat)
    requires YieldEnabled(s, d) && Drained(s.deliveries[d]) && s.deliveries[d].yielder.SawLive?
    ensures StaysDrained(s, YieldStep(s, d), d)
  {
  }

  lemma YieldReportDrained(s: State, d: nat)
    requires YieldEnabled(s, d) && Drained(s.deliveries[d]) && Backgrounds(s.deliveries[d])
    ensures StaysDrained(s, YieldStep(s, d), d)
  {
  }

  lemma TimeoutReportDrained(s: State, d: nat)
    requires TimeoutEnabled(s, d) && Drained(s.deliveries[d]) && TimeoutExited(s.deliveries[d])
    ensures StaysDrained(s, TimeoutStep(s, d), d)
  {
  }

  lemma TimeoutDrained(s: State, d: nat)
    requires TimeoutEnabled(s, d) && Drained(s.deliveries[d])
    ensures StaysDrained(s, TimeoutStep(s, d), d)
  {
    if TimeoutExited(s.deliveries[d]) {
      TimeoutReportDrained(s, d);
    } else if s.deliveries[d].timeout.Fired? {
      FiredDrained(s, d);
    }
  }

  lemma FiredDrained(s: State, d: nat)
    requires TimeoutEnabled(s, d) && Drained(s.deliveries[d]) && s.deliveries[d].timeout.Fired?
    ensures StaysDrained(s, TimeoutStep(s, d), d)
  {
  }

  lemma ReportDrained(s: State, d: nat, env: Env)
    requires WaitEnabled(s, d) && Drained(s.deliveries[d]) && HasStatus(s.deliveries[d])
    ensures StaysDrained(s, WaitStep(s, d, env), d)
  {
  }

  lemma WaitDrained(s: State, d: nat, env: Env)
    requires WaitEnabled(s, d) && Drained(s.deliveries[d])
    ensures StaysDrained(s, WaitStep(s, d, env), d)
  {
    if HasStatus(s.deliveries[d]) {
      ReportDrained(s, d, env);
    } else if s.deliveries[d].wait.Exiting? {
      ExitDrained(s, d, env);
    }
  }

  lemma ExitDrained(s: State, d: nat, env: Env)
    requires WaitEnabled(s, d) && Drained(s.deliveries[d]) && s.deliveries[d].wait.Exiting?
    ensures StaysDrained(s, WaitStep(s, d, env), d)
  {
  }

  lemma HandlerDrained(s: State, d: nat, env: Env)
    requires HandlerEnabled(s, d, env) && Drained(s.deliveries[d])
    ensures StaysDrained(s, HandlerStep(s, d, env), d)
  {
  }

  lemma ReaderDrained(s: State, d: nat, isErr: bool, env: Env)
    requires ReaderEnabled(s, d, isErr, env) && Drained(s.deliveries[d])
    ensures StaysDrained(s, ReaderStep(s, d, isErr, env), d)
  {
  }

  lemma OwnDrainedStep(s: State, d: nat, actor: Actor, env: Env)
    requires Enabled(s, Act(d, actor, env)) && d < |s.deliveries| && Drained(s.deliveries[d])
    ensures StaysDrained(s, Next(s, Act(d, actor, env)), d)
  {
    match actor
    case Handler => HandlerDrained(s, d, env);
    case StdoutReader => ReaderDrained(s, d, false, env);
    case StderrReader => ReaderDrained(s, d, true, env);
    case YieldTimer => YieldDrained(s, d);
    case TimeoutTimer => TimeoutDrained(s, d);
    case Waiter => WaitDrained(s, d, env);
  }

  lemma DrainedStep(s: State, a: Action, d: nat)
    requires Inv(s) && Enabled(s, a) && d < |s.deliveries| && Drained(s.deliveries[d]) && s.deliveries[d].sid.Some?
    ensures StaysDrained(s, Next(s, a), d) && Next(s, a).deliveries[d].sid.Some?
  {
    if a.Act? && a.d == d {
      StepGrows(s, a);
      OwnDrainedStep(s, d, a.actor, a.env);
    } else {
      UntouchedByOthers(s, a, d);
    }
  }

  lemma {:induction false} DrainedRun(s: State, more: seq<Action>, d: nat)
    requires Inv(s) && Legal(s, more) && d < |s.deliveries| && Drained(s.deliveries[d]) && s.deliveries[d].sid.Some?
    ensures StaysDrained(s, After(s, more), d)
    decreases more
  {
    if more != [] {
      var s' := Next(s, more[0]);
      StepKeeps(s, more[0]);
      DrainedStep(s, more[0], d);
      DrainedRun(s', more[1..], d);
      NothingRevoked(s', more[1..]);
      assert forall j :: 0 <= j < |s'.log| ==> After(s', more[1..]).log[j] == s'.log[j];
    }
  }

  /** Every result that `d` sends in the course of `more` carries all that has been read when `more` ends. */
  predicate CompleteAfter(s: State, more: seq<Action>, d: nat)
    requires Legal(s, more)
  {
    var t := After(s, more);
    d < |t.deliveries| && AllReport(t.log, |s.log|, d, t.deliveries[d].outRead, t.deliveries[d].errRead)
  }

  lemma DrainedIsComplete(s: State, more: seq<Action>, d: nat)
    requires Inv(s) && Legal(s, more) && d < |s.deliveries| && Drained(s.deliveries[d]) && s.deliveries[d].sid.Some?
    ensures CompleteAfter(s, more, d)
  {
    RunKeeps(s, more);
    DrainedRun(s, more, d);
    assert DeliveryInv(After(s, more), d);
  }

  // ---- a result that omits something ----

  ghost predicate Omits(s: State, more: seq<Action>, d: nat) {
    Legal(s, more) && !CompleteAfter(s, more, d)
  }

  lemma OmitsLater(s: State, a: Action, more: seq<Action>, d: nat)
    requires Inv(s) && Enabled(s, a) && Omits(Next(s, a), more, d)
    ensures Omits(s, [a] + more, d)
  {
    StepGrows(s, a);
    assert After(s, [a] + more) == After(Next(s, a), more);
  }

  /** The step sends a result for `d` that is shorter than what has been read. */
  lemma OmitsNow(s: State, a: Action, d: nat)
    requires Enabled(s, a) && d < |Next(s, a).deliveries| && |Next(s, a).log| > |s.log|
    requires
      var e, v' := Next(s, a).log[|s.log|], Next(s, a).deliveries[d];
      e.Result? && e.d == d && (|e.out| < |v'.outRead| || |e.err| < |v'.errRead|)
    ensures Omits(s, [a], d)
  {
    assert After(s, [a]) == Next(s, a);
  }

  /** The wait goroutine is running, and its result is going to omit something already read. */
  predicate WaitBehind(v: Delivery) {
    && !v.wait.WaitOff? && !v.wait.WaitEnded?
    && (|if v.wait.WaitRead? || v.wait.WaitDue? then v.wait.out else v.outBuf| < |v.outRead|
        || |if v.wait.WaitDue? then v.wait.err else v.errBuf| < |v.errRead|)
  }

  const ANY_ENV := Env("", true, 1, 0, [65], false)

  lemma WaitStaysBehind(s: State, d: nat)
    requires WaitEnabled(s, d) && WaitBehind(s.deliveries[d]) && !s.deliveries[d].wait.WaitDue?
    ensures
      var s' := WaitStep(s, d, ANY_ENV);
      && s'.stop == s.stop && HasSession(s', d) && WaitBehind(s'.deliveries[d])
      && WaitLeft(s'.deliveries[d].wait) < WaitLeft(s.deliveries[d].wait)
  {
  }

  /** It does omit it: let `Stop` finish if it holds the lock, and the wait goroutine go on to its end. */
  lemma {:induction false} WaitOmits(s: State, d: nat) returns (more: seq<Action>)
    requires Inv(s) && HasSession(s, d) && WaitBehind(s.deliveries[d])
    ensures Omits(s, more, d)
    decreases if s.stop.Stopping? then StepsLeft(s) else 0, WaitLeft(s.deliveries[d].wait)
  {
    if s.stop.Stopping? {
      var id := StopMoves(s);
      var a := StopStep(id, true);
      StepGrows(s, a);
      var rest := WaitOmits(Next(s, a), d);
      OmitsLater(s, a, rest, d);
      return [a] + rest;
    }
    var a := Act(d, Waiter, ANY_ENV);
    if s.deliveries[d].wait.WaitDue? {
      OmitsNow(s, a, d);
      return [a];
    }
    StepKeeps(s, a);
    WaitStaysBehind(s, d);
    var rest := WaitOmits(Next(s, a), d);
    OmitsLater(s, a, rest, d);
    more := [a] + rest;
  }

  predicate YieldBehind(v: Delivery) {
    || ((v.yielder.YieldRead? || v.yielder.YieldDue?) && |v.yielder.out| < |v.outRead|)
    || (v.yielder.YieldDue? && |v.yielder.err| < |v.errRead|)
  }

  lemma YieldOmits(s: State, d: nat) returns (more: seq<Action>)
    requires Inv(s) && HasSession(s, d) && YieldBehind(s.deliveries[d])
    ensures Omits(s, more, d)
  {
    var a := Act(d, YieldTimer, ANY_ENV);
    if s.deliveries[d].yielder.YieldDue? {
      OmitsNow(s, a, d);
      return [a];
    }
    OmitsNow(Next(s, a), a, d);
    OmitsLater(s, a, [a], d);
    more := [a] + [a];
  }

  predicate TimeoutBehind(v: Delivery) {
    || ((v.timeout.TimeoutRead? || v.timeout.TimeoutDue?) && |v.timeout.out| < |v.outRead|)
    || (v.timeout.TimeoutDue? && |v.timeout.err| < |v.errRead|)
  }

  lemma TimeoutOmits(s: State, d: nat) returns (more: seq<Action>)
    requires Inv(s) && HasSession(s, d) && TimeoutBehind(s.deliveries[d])
    ensures Omits(s, more, d)
  {
    var a := Act(d, TimeoutTimer, ANY_ENV);
    if s.deliveries[d].timeout.TimeoutDue? {
      OmitsNow(s, a, d);
      return [a];
    }
    OmitsNow(Next(s, a), a, d);
    OmitsLater(s, a, [a], d);
    more := [a] + [a];
  }

  /** A reader that has not ended gets ahead of the wait goroutine. */
  lemma ReaderOmits(s: State, d: nat, isErr: bool) returns (more: seq<Action>)
    requires Inv(s) && HasSession(s, d) && !s.deliveries[d].wait.WaitOff? && !s.deliveries[d].wait.WaitEnded?
    requires !Ended(s.deliveries[d], PcOf(s.deliveries[d], isErr))
    ensures Omits(s, more, d)
  {
    assert DeliveryInv(s, d);
    if PcOf(s.deliveries[d], isErr).Reading? {
      var a := Act(d, if isErr then StderrReader else StdoutReader, ANY_ENV);
      StepKeeps(s, a);
      more := WaitOmits(Next(s, a), d);
      OmitsLater(s, a, more, d);
      more := [a] + more;
    } else {
      more := WaitOmits(s, d);
    }
  }

  lemma UndrainedOmits(s: State, d: nat) returns (more: seq<Action>)
    requires Inv(s) && HasSession(s, d) && !s.deliveries[d].wait.WaitOff? && !s.deliveries[d].wait.WaitEnded?
    requires !Drained(s.deliveries[d])
    ensures Omits(s, more, d)
  {
    var v := s.deliveries[d];
    assert DeliveryInv(s, d);
    if !Ended(v, v.out) {
      more := ReaderOmits(s, d, false);
    } else if !Ended(v, v.err) {
      more := ReaderOmits(s, d, true);
    } else if YieldBehind(v) {
      more := YieldOmits(s, d);
    } else if TimeoutBehind(v) {
      more := TimeoutOmits(s, d);
    } else {
      more := WaitOmits(s, d);
    }
  }

  /**
   When results are complete, exactly: while the wait goroutine of a command is running, every
   result still to come is sure to carry all that is ever read from the process if and only if
   both readers are done, or idle on a pipe already closed, and whatever a callback has already
   read from a builder is all of it.
   */
  lemma CompleteExactly(brain: bool, run: seq<Action>, d: nat)
    requires Legal(Init(brain), run) && HasSession(After(Init(brain), run), d)
    requires !After(Init(brain), run).deliveries[d].wait.WaitOff?
    requires !After(Init(brain), run).deliveries[d].wait.WaitEnded?
    ensures
      var s := After(Init(brain), run);
      (forall more :: Legal(s, more) ==> CompleteAfter(s, more, d)) <==> Drained(s.deliveries[d])
  {
    var s := After(Init(brain), run);
    ReachableInv(brain, run);
    if Drained(s.deliveries[d]) {
      forall more | Legal(s, more)
        ensures CompleteAfter(s, more, d)
      {
        DrainedIsComplete(s, more, d);
      }
    } else {
      var more := UndrainedOmits(s, d);
    }
  }
}
