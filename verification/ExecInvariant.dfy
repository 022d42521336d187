/** What every step of the command lifecycle keeps. */
module ExecInvariant {
  import opened Basics
  import opened Sessions
  import opened RollingBuffer
  import opened ExecLifecycle

  // ---- reading the log ----

  predicate IsTerminal(e: Event, d: nat) {
    e.Result? && e.d == d && e.status != Running
  }

  predicate IsYield(e: Event, d: nat) {
    e.Result? && e.d == d && e.status == Running
  }

  /** How many completed or failed results delivery `d` has sent. */
  function Terminals(log: seq<Event>, d: nat): nat {
    if log == [] then 0 else Terminals(log[..|log| - 1], d) + One(IsTerminal(log[|log| - 1], d))
  }

  /** How many running results delivery `d` has sent. */
  function Yields(log: seq<Event>, d: nat): nat {
    if log == [] then 0 else Yields(log[..|log| - 1], d) + One(IsYield(log[|log| - 1], d))
  }

  lemma CountsAppend(log: seq<Event>, e: Event, d: nat)
    ensures Terminals(log + [e], d) == Terminals(log, d) + One(IsTerminal(e, d))
    ensures Yields(log + [e], d) == Yields(log, d) + One(IsYield(e, d))
  {
    assert (log + [e])[..|log|] == log;
  }

  predicate ExitBefore(log: seq<Event>, j: nat, sid: string)
    requires j <= |log|
  {
    exists i :: 0 <= i < j && log[i].Exit? && log[i].sid == sid
  }

  /** The session was marked exited before `j`, with code 0 exactly if `status` says completed. */
  predicate ExitFits(log: seq<Event>, j: nat, sid: string, status: Status)
    requires j <= |log|
  {
    exists i :: 0 <= i < j && log[i].Exit? && log[i].sid == sid && (log[i].code == 0 <==> status == Completed)
  }

  predicate TermBefore(log: seq<Event>, j: nat, sid: string)
    requires j <= |log|
  {
    exists i :: 0 <= i < j && log[i].Term? && log[i].sid == sid && log[i].ok
  }

  // ---- reading the appended chunks ----

  function Datas(pieces: seq<Piece>): seq<Bytes> {
    if pieces == [] then [] else Datas(pieces[..|pieces| - 1]) + [pieces[|pieces| - 1].data]
  }

  /** The chunks of one stream, in the order they were appended. */
  function Of(pieces: seq<Piece>, isErr: bool): seq<Bytes> {
    if pieces == [] then []
    else
      var last := pieces[|pieces| - 1];
      Of(pieces[..|pieces| - 1], isErr) + if last.isErr == isErr then [last.data] else []
  }

  function InFlight(pc: ReaderPc): Bytes {
    if pc.Appended? then pc.data else []
  }

  /** What a reader has read but not yet passed to its callback. */
  function Held(pc: ReaderPc): Bytes {
    if pc.Got? || pc.Appended? then pc.data else []
  }

  lemma FlattenSnoc(chunks: seq<Bytes>, c: Bytes)
    ensures Flatten(chunks + [c]) == Flatten(chunks) + c
  {
    assert (chunks + [c])[..|chunks|] == chunks;
  }

  lemma PieceSnoc(pieces: seq<Piece>, p: Piece)
    ensures Flatten(Datas(pieces + [p])) == Flatten(Datas(pieces)) + p.data
    ensures Flatten(Of(pieces + [p], p.isErr)) == Flatten(Of(pieces, p.isErr)) + p.data
    ensures Of(pieces + [p], !p.isErr) == Of(pieces, !p.isErr)
  {
    assert (pieces + [p])[..|pieces|] == pieces;
    FlattenSnoc(Datas(pieces), p.data);
    FlattenSnoc(Of(pieces, p.isErr), p.data);
  }

  // ---- one delivery ----

  predicate ActorsOff(v: Delivery) {
    v.out.Off? && v.err.Off? && v.yielder.YieldOff? && v.timeout.TimeoutOff? && v.wait.WaitOff?
  }

  predicate Finished(pc: HandlerPc) {
    pc.Insert? || pc.Done?
  }

  /** The handler has failed to spawn and has marked the session exited. */
  predicate SpawnFailed(v: Delivery) {
    v.sid.Some? && (v.handler.FailDelete? || v.handler.FailSend? || (Finished(v.handler) && v.wait.WaitOff?))
  }

  /** The wait goroutine has marked the session exited and is due to report a status. */
  predicate HasStatus(v: Delivery) {
    v.wait.WaitMarked? || v.wait.WaitDeleted? || v.wait.WaitRead? || v.wait.WaitDue?
  }

  predicate WaitExited(v: Delivery) {
    HasStatus(v) || v.wait.WaitEnded?
  }

  predicate TimeoutExited(v: Delivery) {
    v.timeout.TimeoutMarked? || v.timeout.TimeoutDeleted? || v.timeout.TimeoutRead? || v.timeout.TimeoutDue? ||
      v.timeout.TimeoutEnded?
  }

  /** The yield callback has marked the session backgrounded. */
  predicate Backgrounds(v: Delivery) {
    v.yielder.MarkedBackground? || v.yielder.YieldRead? || v.yielder.YieldDue? || v.yielder.YieldSent?
  }

  /** What the callbacks have read from the builders is still a prefix of them. */
  predicate Snapshots(v: Delivery) {
    && (v.yielder.YieldRead? || v.yielder.YieldDue? ==> v.yielder.out <= v.outBuf)
    && (v.yielder.YieldDue? ==> v.yielder.err <= v.errBuf)
    && (v.timeout.TimeoutRead? || v.timeout.TimeoutDue? ==> v.timeout.out <= v.outBuf)
    && (v.timeout.TimeoutDue? ==> v.timeout.err <= v.errBuf)
    && (v.wait.WaitRead? || v.wait.WaitDue? ==> v.wait.out <= v.outBuf)
    && (v.wait.WaitDue? ==> v.wait.err <= v.errBuf)
  }

  /** session.Pid has been written. */
  predicate ProcessUp(v: Delivery) {
    || v.handler.AttachPty? || v.handler.ArmTimeout? || v.handler.ArmYield?
    || v.handler.StartOut? || v.handler.StartErr? || v.handler.StartWait?
    || !v.wait.WaitOff?
  }

  /** session.Stdin has been written. */
  predicate StdinUp(v: Delivery) {
    if WantsPty(v) then ProcessUp(v) && !v.handler.AttachPty?
    else v.handler.Spawning? || v.handler.Spawned? || ProcessUp(v)
  }

  predicate SmallChunk(pc: ReaderPc) {
    (pc.Got? || pc.Appended?) ==> 0 < |pc.data| <= CHUNK_MAX
  }

  /** Which combinations of program counters can occur. */
  predicate Shape(v: Delivery) {
    && Snapshots(v)
    && (v.handler.Reply? ==> v.handler.status != Running)
    && (v.handler.Spawned? ==> v.handler.newPid > 0)
    && (v.sid.None? ==>
          && ActorsOff(v) && v.outBuf == [] && v.errBuf == [] && v.appended == []
          && !NeedsSession(v.handler)
          && (v.handler.Start? || v.handler.Adding? || v.handler.KillCheck? || v.handler.KillPid? ||
               v.handler.KillTerm? || v.handler.Reply? || v.handler.Done?)
          && (v.handler.Adding? ==> v.req.Exec?)
          && ((v.handler.KillCheck? || v.handler.KillPid? || v.handler.KillTerm?) ==> v.req.KillProcess?))
    && (v.sid.Some? ==>
          && v.req.Exec?
          && (v.handler.Opening? || v.handler.Spawning? || v.handler.Spawned? || ProcessUp(v) || v.handler.FailMark? ||
               SpawnFailed(v))
          && (!v.wait.WaitOff? ==> Finished(v.handler))
          && (!v.out.Off? <==> v.handler.StartErr? || v.handler.StartWait? || !v.wait.WaitOff?)
          && (!v.err.Off? <==> !v.req.pty && (v.handler.StartWait? || !v.wait.WaitOff?))
          && (!v.yielder.YieldOff? ==>
                  v.req.yieldMs > 0 &&
                  (v.handler.StartOut? || v.handler.StartErr? || v.handler.StartWait? || !v.wait.WaitOff?))
          && (!v.timeout.TimeoutOff? <==>
                v.req.pty && (v.handler.ArmYield? || v.handler.StartOut? || v.handler.StartWait? || !v.wait.WaitOff?))
          && ((v.handler.AttachPty? || v.handler.ArmTimeout?) ==> v.req.pty)
          && ((v.handler.Spawning? || v.handler.StartErr?) ==> !v.req.pty)
          && (v.wait.Returned? || v.wait.TimerStopped? ==> v.req.pty)
          && (v.wait.Exiting? && v.wait.timedOut ==> !v.req.pty && v.wait.code == 1)
          && (HasStatus(v) ==> v.wait.status != Running)
          && ((v.wait.TimerStopped? || v.wait.Exiting? || WaitExited(v)) ==> !v.timeout.TimeoutArmed?)
          && SmallChunk(v.out) && SmallChunk(v.err))
  }

  /** The session agrees with the program counters of the goroutines that write it. */
  ghost predicate SessionAgrees(v: Delivery, ss: SessionState) {
    && (ss.exited <==> SpawnFailed(v) || WaitExited(v) || TimeoutExited(v))
    && ExitRecorded(ss)
    && (ss.pid > 0 <==> ProcessUp(v))
    && (ss.backgrounded <==> Backgrounds(v))
    && (!ss.exited && StdinUp(v) ==> ss.stdinOpen)
    && (ss.stdinOpen ==> StdinUp(v) || v.handler.FailMark?)
    && Refines(ss.output, Flatten(Datas(v.appended)))
  }

  /** The stdout and stderr builders trail the session buffer by at most the chunk in flight. */
  ghost predicate BuildersAgree(v: Delivery) {
    && StreamAgrees(Of(v.appended, false), v.outBuf, v.outRead, v.out)
    && StreamAgrees(Of(v.appended, true), v.errBuf, v.errRead, v.err)
  }

  predicate StreamAgrees(chunks: seq<Bytes>, buf: Bytes, read: Bytes, pc: ReaderPc) {
    Flatten(chunks) == buf + InFlight(pc) && read == buf + Held(pc)
  }

  /** How many terminal results the program counters account for. */
  function DueTerminals(v: Delivery): nat {
    if v.sid.None? then One(v.handler.Done?)
    else One(Finished(v.handler) && v.wait.WaitOff?) + One(v.wait.WaitEnded?) + One(v.timeout.TimeoutEnded?)
  }

  ghost predicate LogAgrees(v: Delivery, d: nat, log: seq<Event>) {
    && Terminals(log, d) == DueTerminals(v)
    && Yields(log, d) == One(v.yielder.YieldSent?)
    && (forall j :: 0 <= j < |log| && log[j].Result? && log[j].d == d ==>
          log[j].id == v.id && log[j].out <= v.outBuf && log[j].err <= v.errBuf)
    && (v.sid.Some? ==> forall j :: 0 <= j < |log| && IsTerminal(log[j], d) ==>
         ExitFits(log, j, v.sid.value, log[j].status))
  }

  /** The recorded exit code and signal are those of some MarkExited call on this session. */
  ghost predicate ExitLogged(sid: string, ss: SessionState, log: seq<Event>) {
    ss.exited ==>
      ss.exitCode.Some? && exists i :: 0 <= i < |log| && log[i] == Exit(sid, ss.exitCode.value, ss.exitSignal)
  }

  /** The status a goroutine is about to report fits an exit it has recorded. */
  ghost predicate ReportsFit(v: Delivery, log: seq<Event>) {
    v.sid.Some? ==>
      && (HasStatus(v) ==> ExitFits(log, |log|, v.sid.value, v.wait.status))
      && (SpawnFailed(v) ==> ExitFits(log, |log|, v.sid.value, Failed))
      && (TimeoutExited(v) ==> ExitFits(log, |log|, v.sid.value, Failed))
  }

  ghost predicate DeliveryInv(s: State, d: nat)
    requires d < |s.deliveries|
  {
    var v := s.deliveries[d];
    && Shape(v)
    && BuildersAgree(v)
    && LogAgrees(v, d, s.log)
    && ReportsFit(v, s.log)
    && (v.sid.Some? ==> HasSession(s, d) && SessionAgrees(v, Sess(s, d)) && ExitLogged(v.sid.value, Sess(s, d), s.log))
  }

  // ---- the whole state ----

  ghost predicate Owned(s: State) {
    forall d, e :: (0 <= d < |s.deliveries| && 0 <= e < |s.deliveries| && s.deliveries[d].sid.Some?
                    && s.deliveries[d].sid == s.deliveries[e].sid) ==> d == e
  }

  /** The handler has written its activeCommands entry. */
  predicate Registered(s: State, d: nat) {
    HasSession(s, d) && s.deliveries[d].handler.Done?
  }

  /** No other delivery carries the command id of `d`. */
  ghost predicate UniqueId(s: State, d: nat) {
    && d < |s.deliveries|
    && forall e :: 0 <= e < |s.deliveries| && s.deliveries[e].id == s.deliveries[d].id ==> e == d
  }

  ghost predicate EntriesRegistered(s: State) {
    forall id :: id in s.active ==>
      exists d: nat :: Registered(s, d) && s.deliveries[d].id == id && s.deliveries[d].sid.value == s.active[id]
  }

  /** The entry of a command is bound to the command's own session. */
  predicate Bound(s: State, d: nat)
    requires HasSession(s, d)
  {
    s.deliveries[d].id in s.active && s.active[s.deliveries[d].id] == s.deliveries[d].sid.value
  }

  ghost predicate Covered(s: State) {
    !s.stop.Stopped? ==>
      forall d: nat :: Registered(s, d) && !Sess(s, d).exited && UniqueId(s, d) ==> Bound(s, d)
  }

  ghost predicate KillsOrdered(log: seq<Event>) {
    forall j :: 0 <= j < |log| && log[j].Kill? ==> TermBefore(log, j, log[j].sid) && !ExitBefore(log, j, log[j].sid)
  }

  ghost predicate LogGrounded(s: State) {
    && (forall j :: 0 <= j < |s.log| && s.log[j].Exit? ==>
         s.log[j].sid in s.sessions && s.sessions[s.log[j].sid].exited)
    && (forall j :: 0 <= j < |s.log| && s.log[j].Result? ==> s.log[j].d < |s.deliveries|)
    && (forall k :: 0 <= k < |s.killers| ==> TermBefore(s.log, |s.log|, s.killers[k].sid))
  }

  ghost predicate StopSane(s: State) {
    s.stop.Stopping? ==> s.stop.todo <= s.active.Keys
  }

  /** `pid` is the recorded, non-zero pid of the session. */
  predicate Aims(s: State, sid: string, pid: nat) {
    sid in s.sessions && s.sessions[sid].pid == pid && pid > 0
  }

  predicate AimsRight(s: State, v: Delivery) {
    v.handler.KillTerm? ==> v.req.KillProcess? && Aims(s, v.req.target, v.handler.seenPid)
  }

  /** Every signal sent, or about to be sent, by KillSession goes to the session's own process. */
  ghost predicate Aimed(s: State) {
    && (forall j :: 0 <= j < |s.log| ==>
          (s.log[j].Term? ==> Aims(s, s.log[j].sid, s.log[j].pid)) &&
            (s.log[j].Kill? ==> Aims(s, s.log[j].sid, s.log[j].pid)))
    && (forall d :: 0 <= d < |s.deliveries| ==> AimsRight(s, s.deliveries[d]))
    && (s.stop.Stopping? && s.stop.at.SendTerm? ==> Aims(s, s.stop.at.sid, s.stop.at.pid))
  }

  ghost predicate Inv(s: State) {
    && (forall d :: 0 <= d < |s.deliveries| ==> DeliveryInv(s, d))
    && Owned(s)
    && EntriesRegistered(s)
    && Covered(s)
    && KillsOrdered(s.log)
    && LogGrounded(s)
    && StopSane(s)
    && Aimed(s)
  }

  // ---- frames ----

  predicate Extends(log: seq<Event>, log': seq<Event>) {
    log' == log || (|log'| == |log| + 1 && log'[..|log|] == log)
  }

  /** `e` says nothing about delivery `d`, whose session is `sid`. */
  predicate Foreign(e: Event, d: nat, sid: Option<string>) {
    (e.Result? ==> e.d != d) && (e.Exit? && sid.Some? ==> e.sid != sid.value)
  }

  lemma OrderKept(log: seq<Event>, log': seq<Event>)
    requires Extends(log, log')
    ensures forall j, sid :: 0 <= j <= |log| ==> ExitBefore(log', j, sid) == ExitBefore(log, j, sid)
    ensures forall j, sid :: 0 <= j <= |log| ==> TermBefore(log', j, sid) == TermBefore(log, j, sid)
    ensures forall sid :: TermBefore(log, |log|, sid) ==> TermBefore(log', |log'|, sid)
    ensures forall j, sid, status :: 0 <= j <= |log| ==> ExitFits(log', j, sid, status) == ExitFits(log, j, sid, status)
    ensures forall sid, status :: ExitFits(log, |log|, sid, status) ==> ExitFits(log', |log'|, sid, status)
  {
    assert forall i :: 0 <= i < |log| ==> log'[i] == log[i];
  }

  lemma LogFrame(v: Delivery, d: nat, log: seq<Event>, log': seq<Event>)
    requires LogAgrees(v, d, log)
    requires Extends(log, log')
    requires |log'| > |log| ==> Foreign(log'[|log|], d, v.sid)
    ensures LogAgrees(v, d, log')
  {
    if log' != log {
      assert log' == log + [log'[|log|]];
      CountsAppend(log, log'[|log|], d);
      OrderKept(log, log');
      assert forall i :: 0 <= i < |log| ==> log'[i] == log[i];
    }
  }

  lemma DeliveryFrame(s: State, s': State, d: nat)
    requires d < |s.deliveries| && DeliveryInv(s, d)
    requires d < |s'.deliveries| && s'.deliveries[d] == s.deliveries[d]
    requires HasSession(s, d) ==> HasSession(s', d) && Sess(s', d) == Sess(s, d)
    requires Extends(s.log, s'.log)
    requires |s'.log| > |s.log| ==> Foreign(s'.log[|s.log|], d, s.deliveries[d].sid)
    ensures DeliveryInv(s', d)
  {
    LogFrame(s.deliveries[d], d, s.log, s'.log);
    OrderKept(s.log, s'.log);
    assert forall i :: 0 <= i < |s.log| ==> s'.log[i] == s.log[i];
  }

  /** A step taken by one goroutine of delivery `d`, seen from everyone else. */
  ghost predicate LocalStep(s: State, s': State, d: nat) {
    && d < |s.deliveries| == |s'.deliveries|
    && (forall e :: 0 <= e < |s.deliveries| && e != d ==> s'.deliveries[e] == s.deliveries[e])
    && var v, v' := s.deliveries[d], s'.deliveries[d];
    && v'.id == v.id && v'.req == v.req
    && (v.sid.Some? ==> v'.sid == v.sid)
    && AimsRight(s, v')
    && (v.sid.None? && v'.sid.Some? ==> v'.sid.value !in s.sessions)
    && (forall k :: k in s.sessions ==> k in s'.sessions && (Some(k) != v.sid ==> s'.sessions[k] == s.sessions[k]))
    && (forall k :: k in s.sessions && s.sessions[k].exited ==> s'.sessions[k].exited)
    && (forall k :: k in s.sessions && s.sessions[k].pid != 0 ==> s'.sessions[k].pid == s.sessions[k].pid)
    && Extends(s.log, s'.log)
    && (|s'.log| > |s.log| ==>
          var e := s'.log[|s.log|];
          && !e.Kill?
          && (e.Term? ==> Aims(s, e.sid, e.pid))
          && (e.Result? ==> e.d == d)
          && (e.Exit? ==> Some(e.sid) == v.sid && e.sid in s'.sessions && s'.sessions[e.sid].exited))
    && (s'.killers == s.killers ||
        exists k: Killer :: s'.killers == s.killers + [k] && |s'.log| > |s.log| && s'.log[|s.log|].Term? &&
                            s'.log[|s.log|].sid == k.sid && s'.log[|s.log|].ok)
    && s'.stop == s.stop
    && (Registered(s, d) ==> Registered(s', d))
    && ActiveStep(s, s', d)
  }

  ghost predicate ActiveStep(s: State, s': State, d: nat)
    requires d < |s.deliveries| == |s'.deliveries|
  {
    var v := s'.deliveries[d];
    || (s'.active == s.active && (Registered(s', d) ==> Registered(s, d)))
    || (s'.active == s.active - {v.id} && MuFree(s) && HasSession(s', d) && Sess(s', d).exited &&
         (Registered(s', d) ==> Registered(s, d)))
    || (Registered(s', d) && s'.active == s.active[v.id := v.sid.value] && MuFree(s))
  }

  lemma LocalKeepsOthers(s: State, s': State, d: nat)
    requires Inv(s) && LocalStep(s, s', d)
    ensures forall e :: 0 <= e < |s.deliveries| && e != d ==> DeliveryInv(s', e)
  {
    forall e | 0 <= e < |s.deliveries| && e != d
      ensures DeliveryInv(s', e)
    {
      assert DeliveryInv(s, e);
      DeliveryFrame(s, s', e);
    }
  }

  lemma LocalKeepsLog(s: State, s': State, d: nat)
    requires Inv(s) && LocalStep(s, s', d)
    ensures KillsOrdered(s'.log) && LogGrounded(s')
  {
    OrderKept(s.log, s'.log);
    assert forall i :: 0 <= i < |s.log| ==> s'.log[i] == s.log[i];
    assert s'.killers != s.killers ==> TermBefore(s'.log, |s'.log|, s'.killers[|s.killers|].sid);
  }

  lemma LocalKeepsAimed(s: State, s': State, d: nat)
    requires Inv(s) && LocalStep(s, s', d)
    ensures Aimed(s')
  {
    assert forall sid, pid :: Aims(s, sid, pid) ==> Aims(s', sid, pid);
    assert forall i :: 0 <= i < |s.log| ==> s'.log[i] == s.log[i];
  }

  lemma LocalKeepsOwned(s: State, s': State, d: nat)
    requires Inv(s) && LocalStep(s, s', d)
    ensures Owned(s')
  {
    forall e, f | (0 <= e < |s'.deliveries| && 0 <= f < |s'.deliveries| && s'.deliveries[e].sid.Some?
                   && s'.deliveries[e].sid == s'.deliveries[f].sid)
      ensures e == f
    {
      assert DeliveryInv(s, e) && DeliveryInv(s, f);
    }
  }

  lemma RegisteredStable(s: State, s': State, d: nat, e: nat)
    requires Inv(s) && LocalStep(s, s', d)
    ensures Registered(s, e) ==>
          Registered(s', e) && s'.deliveries[e].id == s.deliveries[e].id &&
          s'.deliveries[e].sid == s.deliveries[e].sid
    ensures Registered(s', e) && e != d ==> Registered(s, e) && s.deliveries[e] == s'.deliveries[e]
  {
    if e < |s.deliveries| { assert DeliveryInv(s, e); }
  }

  lemma LocalKeepsEntries(s: State, s': State, d: nat)
    requires Inv(s) && LocalStep(s, s', d)
    ensures EntriesRegistered(s')
  {
    forall id | id in s'.active
      ensures exists e: nat ::
            Registered(s', e) && s'.deliveries[e].id == id &&
            s'.deliveries[e].sid.value == s'.active[id]
    {
      if id in s.active && s'.active[id] == s.active[id] {
        var e: nat :| Registered(s, e) && s.deliveries[e].id == id && s.deliveries[e].sid.value == s.active[id];
        RegisteredStable(s, s', d, e);
        assert Registered(s', e);
      } else {
        assert Registered(s', d);
      }
    }
  }

  lemma LocalKeepsCovered(s: State, s': State, d: nat)
    requires Inv(s) && LocalStep(s, s', d)
    ensures Covered(s')
  {
    if !s'.stop.Stopped? {
      assert forall e :: 0 <= e < |s.deliveries| ==> s'.deliveries[e].id == s.deliveries[e].id;
      forall e: nat | Registered(s', e) && !Sess(s', e).exited && UniqueId(s', e)
        ensures Bound(s', e)
      {
        RegisteredStable(s, s', d, e);
        if e != d {
          assert UniqueId(s, e);
          assert Registered(s, e) && Bound(s, e);
          assert s'.deliveries[e].id != s'.deliveries[d].id;
        } else if Registered(s, d) {
          assert UniqueId(s, d);
          assert Bound(s, d);
        }
      }
    }
  }

  /** The invariant still holds and only delivery `d`'s own goroutine has moved. */
  ghost predicate Kept(s: State, s': State, d: nat) {
    Inv(s') && LocalStep(s, s', d)
  }

  lemma LocalKeeps(s: State, s': State, d: nat)
    requires Inv(s) && LocalStep(s, s', d) && DeliveryInv(s', d)
    ensures Kept(s, s', d)
  {
    LocalKeepsOthers(s, s', d);
    LocalKeepsLog(s, s', d);
    LocalKeepsOwned(s, s', d);
    LocalKeepsEntries(s, s', d);
    LocalKeepsCovered(s, s', d);
    LocalKeepsAimed(s, s', d);
  }
}
