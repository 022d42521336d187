/** The kinds of step a goroutine of one delivery takes, and why each keeps the invariant. */
module ExecSteps {
  import opened Basics
  import opened Sessions
  import opened RollingBuffer
  import opened ExecLifecycle
  import opened ExecInvariant

  predicate SameOutput(v: Delivery, v': Delivery) {
    && v'.id == v.id && v'.sid == v.sid && v'.req == v.req
    && v'.outBuf == v.outBuf && v'.errBuf == v.errBuf && v'.appended == v.appended
    && v'.outRead == v.outRead && v'.errRead == v.errRead
    && InFlight(v'.out) == InFlight(v.out) && InFlight(v'.err) == InFlight(v.err)
    && Held(v'.out) == Held(v.out) && Held(v'.err) == Held(v.err)
  }

  predicate SameCounts(v: Delivery, v': Delivery) {
    DueTerminals(v') == DueTerminals(v) && v'.yielder.YieldSent? == v.yielder.YieldSent?
  }

  predicate MarkedBy(v: Delivery) {
    SpawnFailed(v) || WaitExited(v) || TimeoutExited(v)
  }

  predicate SameDone(v: Delivery, v': Delivery) {
    v.sid.Some? ==> v'.handler.Done? == v.handler.Done?
  }

  predicate SameProcess(v: Delivery, v': Delivery) {
    v.sid.Some? ==>
      && MarkedBy(v') == MarkedBy(v) && ProcessUp(v') == ProcessUp(v)
      && Backgrounds(v') == Backgrounds(v) && (StdinUp(v') ==> StdinUp(v))
      && (StdinUp(v) || v.handler.FailMark? ==> StdinUp(v') || v'.handler.FailMark?)
  }

  /** What `v'` is about to report, `v` was about to report. */
  predicate SameReports(v: Delivery, v': Delivery) {
    v.sid.Some? ==>
      && (HasStatus(v') ==> HasStatus(v) && v'.wait.status == v.wait.status)
      && (SpawnFailed(v') ==> SpawnFailed(v)) && (TimeoutExited(v') ==> TimeoutExited(v))
  }

  /** `v'` differs from `v` only in program counters that say nothing about the session or the log. */
  predicate Moved(v: Delivery, v': Delivery) {
    && SameOutput(v, v') && SameCounts(v, v') && SameProcess(v, v') && SameReports(v, v') && SameDone(v, v') &&
         Shape(v')
  }

  lemma ShapeOf(s: State, d: nat)
    requires Inv(s) && d < |s.deliveries|
    ensures Shape(s.deliveries[d])
    ensures s.deliveries[d].sid.Some? ==> HasSession(s, d) && SessionAgrees(s.deliveries[d], Sess(s, d))
  {
    assert DeliveryInv(s, d);
  }

  lemma MoveOwn(s: State, d: nat, v': Delivery)
    requires d < |s.deliveries| && DeliveryInv(s, d) && Moved(s.deliveries[d], v')
    ensures DeliveryInv(SetDelivery(s, d, v'), d)
  {
    MovedRecord(s.deliveries[d], v', d, s.log);
    if v'.sid.Some? { MovedSession(s.deliveries[d], v', Sess(s, d)); }
  }

  lemma MovedRecord(v: Delivery, v': Delivery, d: nat, log: seq<Event>)
    requires SameOutput(v, v') && SameCounts(v, v') && SameReports(v, v')
    requires BuildersAgree(v) && LogAgrees(v, d, log) && ReportsFit(v, log)
    ensures BuildersAgree(v') && LogAgrees(v', d, log) && ReportsFit(v', log)
  {
  }

  lemma MovedSession(v: Delivery, v': Delivery, ss: SessionState)
    requires SameOutput(v, v') && SameProcess(v, v') && v.sid.Some? && SessionAgrees(v, ss)
    ensures SessionAgrees(v', ss)
  {
  }

  lemma MoveLocal(s: State, d: nat, v': Delivery)
    requires d < |s.deliveries| && AimsRight(s, v') && SameDone(s.deliveries[d], v')
    requires v'.id == s.deliveries[d].id && v'.sid == s.deliveries[d].sid && v'.req == s.deliveries[d].req
    ensures LocalStep(s, SetDelivery(s, d, v'), d)
  {
  }

  /** Only the delivery record changes, and nothing the session or the log depends on. */
  lemma MoveKeeps(s: State, d: nat, v': Delivery)
    requires Inv(s) && d < |s.deliveries|
    requires Moved(s.deliveries[d], v') && AimsRight(s, v')
    ensures Kept(s, SetDelivery(s, d, v'), d)
  {
    assert DeliveryInv(s, d);
    MoveOwn(s, d, v');
    MoveLocal(s, d, v');
    LocalKeeps(s, SetDelivery(s, d, v'), d);
  }

  lemma WriteLocal(s: State, d: nat, v': Delivery, ss: SessionState)
    requires HasSession(s, d)
    requires v'.id == s.deliveries[d].id && v'.sid == s.deliveries[d].sid && v'.req == s.deliveries[d].req
    requires SameDone(s.deliveries[d], v')
    requires !v'.handler.KillTerm?
    requires Sess(s, d).exited ==> ss.exited
    requires Sess(s, d).pid != 0 ==> ss.pid == Sess(s, d).pid
    ensures LocalStep(s, SetDelivery(UpdateSess(s, d, ss), d, v'), d)
  {
  }

  lemma WriteOwn(s: State, d: nat, v': Delivery, ss: SessionState)
    requires HasSession(s, d) && DeliveryInv(s, d)
    requires SameOutput(s.deliveries[d], v') && SameCounts(s.deliveries[d], v')
    requires SameReports(s.deliveries[d], v') && Shape(v')
    requires SessionAgrees(v', ss)
    requires ss.exited == Sess(s, d).exited && ss.exitCode == Sess(s, d).exitCode
    requires ss.exitSignal == Sess(s, d).exitSignal
    ensures DeliveryInv(SetDelivery(UpdateSess(s, d, ss), d, v'), d)
  {
  }

  /** A field of the delivery's own session is written; its exit record is not touched. */
  lemma WriteKeeps(s: State, d: nat, v': Delivery, ss: SessionState)
    requires Inv(s) && HasSession(s, d)
    requires SameOutput(s.deliveries[d], v') && SameCounts(s.deliveries[d], v')
    requires SameDone(s.deliveries[d], v') && SameReports(s.deliveries[d], v') && Shape(v')
    requires SessionAgrees(v', ss) && (Sess(s, d).pid != 0 ==> ss.pid == Sess(s, d).pid)
    requires ss.exited == Sess(s, d).exited && ss.exitCode == Sess(s, d).exitCode
    requires ss.exitSignal == Sess(s, d).exitSignal
    ensures Kept(s, SetDelivery(UpdateSess(s, d, ss), d, v'), d)
  {
    assert DeliveryInv(s, d);
    WriteOwn(s, d, v', ss);
    WriteLocal(s, d, v', ss);
    LocalKeeps(s, SetDelivery(UpdateSess(s, d, ss), d, v'), d);
  }

  /** What `v'` is about to report and `v` was not, fits the exit code being recorded. */
  predicate NewReports(v: Delivery, v': Delivery, code: int) {
    && (HasStatus(v') ==> v'.wait == v.wait || (code == 0 <==> v'.wait.status == Completed))
    && (SpawnFailed(v') ==> SpawnFailed(v) || code != 0)
    && (TimeoutExited(v') ==> TimeoutExited(v) || code != 0)
  }

  lemma ReportsExtend(v: Delivery, v': Delivery, log: seq<Event>, code: int, signal: string)
    requires ReportsFit(v, log) && v.sid.Some? && v'.sid == v.sid && NewReports(v, v', code)
    ensures ReportsFit(v', log + [Exit(v.sid.value, code, signal)])
  {
    var e := Exit(v.sid.value, code, signal);
    OrderKept(log, log + [e]);
    assert (log + [e])[|log|] == e;
  }

  lemma ExitOwn(s: State, d: nat, v': Delivery, code: int, signal: string)
    requires HasSession(s, d) && DeliveryInv(s, d)
    requires SameOutput(s.deliveries[d], v') && SameCounts(s.deliveries[d], v') && Shape(v')
    requires MarkedBy(v') && ProcessUp(v') == ProcessUp(s.deliveries[d]) && v'.yielder == s.deliveries[d].yielder
    requires NewReports(s.deliveries[d], v', code)
    ensures DeliveryInv(SetDelivery(Exited(s, d, code, signal), d, v'), d)
  {
    var sid := v'.sid.value;
    LogFrameOwn(s.deliveries[d], v', d, s.log, Exit(sid, code, signal));
    ReportsExtend(s.deliveries[d], v', s.log, code, signal);
    assert (s.log + [Exit(sid, code, signal)])[|s.log|] == Exit(sid, code, signal);
  }

  lemma ExitLocal(s: State, d: nat, v': Delivery, code: int, signal: string)
    requires HasSession(s, d) && !v'.handler.KillTerm?
    requires v'.id == s.deliveries[d].id && v'.sid == s.deliveries[d].sid && v'.req == s.deliveries[d].req
    requires SameDone(s.deliveries[d], v')
    ensures LocalStep(s, SetDelivery(Exited(s, d, code, signal), d, v'), d)
  {
  }

  /** MarkExited on the delivery's own session. */
  lemma ExitKeeps(s: State, d: nat, v': Delivery, code: int, signal: string)
    requires Inv(s) && HasSession(s, d)
    requires SameOutput(s.deliveries[d], v') && SameCounts(s.deliveries[d], v')
    requires SameDone(s.deliveries[d], v') && Shape(v')
    requires MarkedBy(v') && ProcessUp(v') == ProcessUp(s.deliveries[d]) && v'.yielder == s.deliveries[d].yielder
    requires NewReports(s.deliveries[d], v', code)
    ensures Kept(s, SetDelivery(Exited(s, d, code, signal), d, v'), d)
  {
    ExitOwn(s, d, v', code, signal);
    ExitLocal(s, d, v', code, signal);
    LocalKeeps(s, SetDelivery(Exited(s, d, code, signal), d, v'), d);
  }

  lemma LogFrameOwn(v: Delivery, v': Delivery, d: nat, log: seq<Event>, e: Event)
    requires LogAgrees(v, d, log) && SameOutput(v, v') && SameCounts(v, v') && !e.Result?
    ensures LogAgrees(v', d, log + [e])
  {
    CountsAppend(log, e, d);
    OrderKept(log, log + [e]);
    assert forall i :: 0 <= i < |log| ==> (log + [e])[i] == log[i];
  }

  lemma ResultFrameOwn(v: Delivery, v': Delivery, d: nat, log: seq<Event>, status: Status, out: Bytes, err: Bytes)
    requires LogAgrees(v, d, log) && SameOutput(v, v') && out <= v.outBuf && err <= v.errBuf
    requires DueTerminals(v') == DueTerminals(v) + One(status != Running)
    requires One(v'.yielder.YieldSent?) == One(v.yielder.YieldSent?) + One(status == Running)
    requires v.sid.Some? && status != Running ==> ExitFits(log, |log|, v.sid.value, status)
    ensures LogAgrees(v', d, log + [Result(d, v.id, status, out, err)])
  {
    var e := Result(d, v.id, status, out, err);
    CountsAppend(log, e, d);
    OrderKept(log, log + [e]);
    assert forall i :: 0 <= i < |log| ==> (log + [e])[i] == log[i];
  }

  /** The status is the one a goroutine of `v` is due to report. */
  predicate Reports(v: Delivery, status: Status) {
    (HasStatus(v) && v.wait.status == status) || (status == Failed && (SpawnFailed(v) || TimeoutExited(v)))
  }

  lemma ReportsKept(v: Delivery, v': Delivery, log: seq<Event>, e: Event)
    requires ReportsFit(v, log) && v'.sid == v.sid && SameReports(v, v')
    ensures ReportsFit(v', log + [e])
  {
    OrderKept(log, log + [e]);
  }

  lemma SendOwn(s: State, d: nat, v': Delivery, status: Status, out: Bytes, err: Bytes)
    requires d < |s.deliveries| && DeliveryInv(s, d) && out <= s.deliveries[d].outBuf && err <= s.deliveries[d].errBuf
    requires SameOutput(s.deliveries[d], v') && Shape(v')
    requires SameProcess(s.deliveries[d], v') && SameReports(s.deliveries[d], v')
    requires DueTerminals(v') == DueTerminals(s.deliveries[d]) + One(status != Running)
    requires One(v'.yielder.YieldSent?) == One(s.deliveries[d].yielder.YieldSent?) + One(status == Running)
    requires v'.sid.Some? && status != Running ==> Reports(s.deliveries[d], status)
    ensures DeliveryInv(SetDelivery(SendResult(s, d, status, out, err), d, v'), d)
  {
    var v, e := s.deliveries[d], Result(d, s.deliveries[d].id, status, out, err);
    SentRecord(v, v', d, s.log, status, out, err);
    if v'.sid.Some? {
      MovedSession(v, v', Sess(s, d));
      ExitStaysLogged(v.sid.value, Sess(s, d), s.log, e);
    }
  }

  lemma SentRecord(v: Delivery, v': Delivery, d: nat, log: seq<Event>, status: Status, out: Bytes, err: Bytes)
    requires BuildersAgree(v) && LogAgrees(v, d, log) && ReportsFit(v, log) && out <= v.outBuf && err <= v.errBuf
    requires SameOutput(v, v') && SameReports(v, v') && DueTerminals(v') == DueTerminals(v) + One(status != Running)
    requires One(v'.yielder.YieldSent?) == One(v.yielder.YieldSent?) + One(status == Running)
    requires v'.sid.Some? && status != Running ==> Reports(v, status)
    ensures
      var log' := log + [Result(d, v.id, status, out, err)];
      BuildersAgree(v') && LogAgrees(v', d, log') && ReportsFit(v', log')
  {
    if v.sid.Some? && status != Running { SentFits(v, log, status); }
    ResultFrameOwn(v, v', d, log, status, out, err);
    ReportsKept(v, v', log, Result(d, v.id, status, out, err));
  }

  lemma ExitStaysLogged(sid: string, ss: SessionState, log: seq<Event>, e: Event)
    requires ExitLogged(sid, ss, log)
    ensures ExitLogged(sid, ss, log + [e])
  {
    assert forall i :: 0 <= i < |log| ==> (log + [e])[i] == log[i];
  }

  lemma SentFits(v: Delivery, log: seq<Event>, status: Status)
    requires ReportsFit(v, log) && v.sid.Some? && Reports(v, status)
    ensures ExitFits(log, |log|, v.sid.value, status)
  {
  }

  lemma SendLocal(s: State, d: nat, v': Delivery, status: Status, out: Bytes, err: Bytes)
    requires d < |s.deliveries| && AimsRight(s, v')
    requires SameOutput(s.deliveries[d], v') && SameDone(s.deliveries[d], v')
    requires v'.sid.None? || HasSession(s, d)
    ensures LocalStep(s, SetDelivery(SendResult(s, d, status, out, err), d, v'), d)
  {
  }

  /** sendResult with what was read from the builders. */
  lemma SendKeeps(s: State, d: nat, v': Delivery, status: Status, out: Bytes, err: Bytes)
    requires Inv(s) && d < |s.deliveries| && out <= s.deliveries[d].outBuf && err <= s.deliveries[d].errBuf
    requires SameOutput(s.deliveries[d], v') && Shape(v')
    requires SameProcess(s.deliveries[d], v') && SameReports(s.deliveries[d], v') && SameDone(s.deliveries[d], v')
    requires AimsRight(s, v')
    requires DueTerminals(v') == DueTerminals(s.deliveries[d]) + One(status != Running)
    requires One(v'.yielder.YieldSent?) == One(s.deliveries[d].yielder.YieldSent?) + One(status == Running)
    requires v'.sid.Some? && status != Running ==> Reports(s.deliveries[d], status)
    ensures Kept(s, SetDelivery(SendResult(s, d, status, out, err), d, v'), d)
  {
    assert DeliveryInv(s, d);
    SendOwn(s, d, v', status, out, err);
    SendLocal(s, d, v', status, out, err);
    LocalKeeps(s, SetDelivery(SendResult(s, d, status, out, err), d, v'), d);
  }

  lemma DeleteOwn(s: State, d: nat, v': Delivery)
    requires d < |s.deliveries| && DeliveryInv(s, d) && Moved(s.deliveries[d], v')
    ensures DeliveryInv(SetDelivery(s.(active := s.active - {v'.id}), d, v'), d)
  {
    MovedRecord(s.deliveries[d], v', d, s.log);
    if v'.sid.Some? { MovedSession(s.deliveries[d], v', Sess(s, d)); }
  }

  lemma DeleteLocal(s: State, d: nat, v': Delivery)
    requires HasSession(s, d) && MuFree(s) && SameDone(s.deliveries[d], v') && AimsRight(s, v') && Sess(s, d).exited
    requires v'.id == s.deliveries[d].id && v'.sid == s.deliveries[d].sid && v'.req == s.deliveries[d].req
    ensures LocalStep(s, SetDelivery(s.(active := s.active - {v'.id}), d, v'), d)
  {
  }

  /** The activeCommands entry is deleted after the session has exited. */
  lemma DeleteKeeps(s: State, d: nat, v': Delivery)
    requires Inv(s) && d < |s.deliveries| && MuFree(s)
    requires Moved(s.deliveries[d], v') && AimsRight(s, v') && v'.sid.Some? && MarkedBy(v')
    ensures Kept(s, SetDelivery(s.(active := s.active - {v'.id}), d, v'), d)
  {
    ShapeOf(s, d);
    DeleteOwn(s, d, v');
    DeleteLocal(s, d, v');
    LocalKeeps(s, SetDelivery(s.(active := s.active - {v'.id}), d, v'), d);
  }

  lemma InsertOwn(s: State, d: nat, v': Delivery)
    requires HasSession(s, d) && DeliveryInv(s, d) && s.deliveries[d].handler.Insert?
    requires v' == s.deliveries[d].(handler := Done)
    ensures DeliveryInv(SetDelivery(s.(active := s.active[v'.id := v'.sid.value]), d, v'), d)
  {
    InsertMoves(s.deliveries[d]);
    MovedRecord(s.deliveries[d], v', d, s.log);
    MovedSession(s.deliveries[d], v', Sess(s, d));
  }

  lemma InsertMoves(v: Delivery)
    requires Shape(v) && v.handler.Insert? && v.sid.Some?
    ensures
      var v' := v.(handler := Done);
      Shape(v') && SameOutput(v, v') && SameCounts(v, v') && SameReports(v, v') && SameProcess(v, v')
  {
  }

  lemma InsertLocal(s: State, d: nat, v': Delivery)
    requires HasSession(s, d) && MuFree(s) && v' == s.deliveries[d].(handler := Done)
    ensures LocalStep(s, SetDelivery(s.(active := s.active[v'.id := v'.sid.value]), d, v'), d)
  {
  }

  /** The handler's last step: bind the command id to its session. */
  lemma InsertKeeps(s: State, d: nat, v': Delivery)
    requires Inv(s) && d < |s.deliveries| && MuFree(s) && s.deliveries[d].handler.Insert? && HasSession(s, d)
    requires v' == s.deliveries[d].(handler := Done)
    ensures Kept(s, SetDelivery(s.(active := s.active[v'.id := v'.sid.value]), d, v'), d)
  {
    assert DeliveryInv(s, d);
    InsertOwn(s, d, v');
    InsertLocal(s, d, v');
    LocalKeeps(s, SetDelivery(s.(active := s.active[v'.id := v'.sid.value]), d, v'), d);
  }

  /** AddSession registers a fresh session for the delivery. */
  lemma AddKeeps(s: State, d: nat, slug: string)
    requires Inv(s) && d < |s.deliveries| && s.deliveries[d].handler.Adding? && slug !in s.sessions
    ensures Kept(s, SetDelivery(SetSession(s, slug, NewSession(0)), d,
      s.deliveries[d].(handler := Opening, sid := Some(slug))), d)
  {
    var v' := s.deliveries[d].(handler := Opening, sid := Some(slug));
    var s' := SetDelivery(SetSession(s, slug, NewSession(0)), d, v');
    AddOwn(s, d, slug);
    assert s.deliveries[d].sid.None? by { assert DeliveryInv(s, d); }
    assert LocalStep(s, s', d);
    LocalKeeps(s, s', d);
  }

  lemma AddOwn(s: State, d: nat, slug: string)
    requires d < |s.deliveries| && DeliveryInv(s, d) && s.deliveries[d].handler.Adding?
    ensures DeliveryInv(SetDelivery(SetSession(s, slug, NewSession(0)), d,
      s.deliveries[d].(handler := Opening, sid := Some(slug))), d)
  {
    AddValues(s.deliveries[d], slug);
    AddLog(s.deliveries[d], d, s.log, slug);
  }

  lemma AddValues(v: Delivery, slug: string)
    requires Shape(v) && BuildersAgree(v) && v.handler.Adding?
    ensures
      var v' := v.(handler := Opening, sid := Some(slug));
      Shape(v') && BuildersAgree(v') && SessionAgrees(v', NewSession(0))
  {
  }

  lemma AddLog(v: Delivery, d: nat, log: seq<Event>, slug: string)
    requires Shape(v) && LogAgrees(v, d, log) && v.handler.Adding?
    ensures LogAgrees(v.(handler := Opening, sid := Some(slug)), d, log)
    ensures ReportsFit(v.(handler := Opening, sid := Some(slug)), log)
  {
    NoTerminal(log, d);
  }

  lemma {:induction false} NoTerminal(log: seq<Event>, d: nat)
    requires Terminals(log, d) == 0
    ensures forall j :: 0 <= j < |log| ==> !IsTerminal(log[j], d)
  {
    if log != [] { NoTerminal(log[..|log| - 1], d); }
  }

  /** KillSession called by a process "kill" command. */
  lemma KillKeeps(s: State, d: nat, v': Delivery, sid: string, pid: nat, ok: bool, byStop: bool)
    requires Inv(s) && d < |s.deliveries|
    requires SameOutput(s.deliveries[d], v') && SameCounts(s.deliveries[d], v') && Shape(v') && v'.sid.None?
    requires Aims(s, sid, pid) && !v'.handler.KillTerm?
    ensures Kept(s, SetDelivery(Terminate(s, sid, pid, ok, byStop), d, v'), d)
  {
    var s' := SetDelivery(Terminate(s, sid, pid, ok, byStop), d, v');
    assert DeliveryInv(s, d);
    assert s'.log == s.log + [Term(sid, pid, ok, byStop)];
    LogFrameOwn(s.deliveries[d], v', d, s.log, Term(sid, pid, ok, byStop));
    assert DeliveryInv(s', d);
    assert ok ==> s'.killers == s.killers + [Killer(sid, false)] && s'.log[|s.log|].sid == Killer(sid, false).sid;
    assert LocalStep(s, s', d);
    LocalKeeps(s, s', d);
  }

  function PcOf(v: Delivery, isErr: bool): ReaderPc {
    if isErr then v.err else v.out
  }

  /** The delivery after a reader has appended `data` to the session. */
  function WithPiece(v: Delivery, isErr: bool, data: Bytes, last: bool): Delivery {
    SetReader(v, isErr, ReaderPc.Appended(data, last)).(appended := v.appended + [Piece(isErr, data)])
  }

  lemma PieceBuilders(v: Delivery, isErr: bool, data: Bytes, last: bool)
    requires BuildersAgree(v) && PcOf(v, isErr) == Got(data, last)
    ensures BuildersAgree(WithPiece(v, isErr, data, last))
  {
    var v' := WithPiece(v, isErr, data, last);
    PieceSnoc(v.appended, Piece(isErr, data));
    if isErr {
      StreamPiece(Of(v.appended, true), Of(v'.appended, true), v.errBuf, v.errRead, data, last);
    } else {
      StreamPiece(Of(v.appended, false), Of(v'.appended, false), v.outBuf, v.outRead, data, last);
    }
  }

  lemma StreamPiece(chunks: seq<Bytes>, chunks': seq<Bytes>, buf: Bytes, read: Bytes, data: Bytes, last: bool)
    requires StreamAgrees(chunks, buf, read, Got(data, last)) && Flatten(chunks') == Flatten(chunks) + data
    ensures StreamAgrees(chunks', buf, read, ReaderPc.Appended(data, last))
  {
  }

  lemma AppendOwn(s: State, d: nat, isErr: bool, data: Bytes, last: bool)
    requires HasSession(s, d) && DeliveryInv(s, d) && PcOf(s.deliveries[d], isErr) == Got(data, last)
    ensures DeliveryInv(SetDelivery(UpdateSess(s, d, AppendOutput(Sess(s, d), data)), d,
      WithPiece(s.deliveries[d], isErr, data, last)), d)
  {
    var v := s.deliveries[d];
    PieceBuilders(v, isErr, data, last);
    PieceSession(v, Sess(s, d), isErr, data, last);
    PieceLog(v, d, s.log, isErr, data, last);
  }

  lemma PieceLog(v: Delivery, d: nat, log: seq<Event>, isErr: bool, data: Bytes, last: bool)
    requires LogAgrees(v, d, log) && ReportsFit(v, log)
    ensures LogAgrees(WithPiece(v, isErr, data, last), d, log) && ReportsFit(WithPiece(v, isErr, data, last), log)
  {
  }

  /** A reader appends the chunk it read to the session buffer. */
  lemma AppendKeeps(s: State, d: nat, isErr: bool, data: Bytes, last: bool)
    requires Inv(s) && HasSession(s, d) && PcOf(s.deliveries[d], isErr) == Got(data, last)
    ensures Kept(s, SetDelivery(UpdateSess(s, d, AppendOutput(Sess(s, d), data)), d,
      WithPiece(s.deliveries[d], isErr, data, last)), d)
  {
    var s' := SetDelivery(UpdateSess(s, d, AppendOutput(Sess(s, d), data)), d,
      WithPiece(s.deliveries[d], isErr, data, last));
    AppendOwn(s, d, isErr, data, last);
    WriteLocal(s, d, WithPiece(s.deliveries[d], isErr, data, last), AppendOutput(Sess(s, d), data));
    LocalKeeps(s, s', d);
  }

  lemma PieceSession(v: Delivery, ss: SessionState, isErr: bool, data: Bytes, last: bool)
    requires SessionAgrees(v, ss) && PcOf(v, isErr) == Got(data, last) && Shape(v) && v.sid.Some?
    ensures SessionAgrees(WithPiece(v, isErr, data, last), AppendOutput(ss, data))
    ensures Shape(WithPiece(v, isErr, data, last))
  {
    PieceSnoc(v.appended, Piece(isErr, data));
    AppendRefines(ss.output, Flatten(Datas(v.appended)), data);
  }

  /** The delivery after a reader's callback: the appended chunk is now in the builder. */
  function WithCallback(v: Delivery, isErr: bool, pc: ReaderPc): Delivery
    requires PcOf(v, isErr).Appended?
  {
    if isErr then v.(err := pc, errBuf := v.errBuf + v.err.data) else v.(out := pc, outBuf := v.outBuf + v.out.data)
  }

  lemma CallbackValues(v: Delivery, d: nat, log: seq<Event>, isErr: bool, pc: ReaderPc)
    requires BuildersAgree(v) && LogAgrees(v, d, log) && Shape(v) && v.sid.Some?
    requires PcOf(v, isErr).Appended? && (pc.Reading? || pc.Closed?)
    ensures BuildersAgree(WithCallback(v, isErr, pc)) && LogAgrees(WithCallback(v, isErr, pc), d, log)
    ensures Shape(WithCallback(v, isErr, pc))
  {
    var v' := WithCallback(v, isErr, pc);
    assert v.outBuf <= v'.outBuf && v.errBuf <= v'.errBuf;
    CallbackBuilders(v, isErr, pc);
    CallbackShape(v, isErr, pc);
  }

  lemma CallbackBuilders(v: Delivery, isErr: bool, pc: ReaderPc)
    requires BuildersAgree(v) && PcOf(v, isErr).Appended? && (pc.Reading? || pc.Closed?)
    ensures BuildersAgree(WithCallback(v, isErr, pc))
  {
    if isErr {
      StreamCallback(Of(v.appended, true), v.errBuf, v.errRead, v.err, pc);
    } else {
      StreamCallback(Of(v.appended, false), v.outBuf, v.outRead, v.out, pc);
    }
  }

  lemma StreamCallback(chunks: seq<Bytes>, buf: Bytes, read: Bytes, from: ReaderPc, pc: ReaderPc)
    requires StreamAgrees(chunks, buf, read, from) && from.Appended? && (pc.Reading? || pc.Closed?)
    ensures StreamAgrees(chunks, buf + from.data, read, pc)
  {
  }

  lemma CallbackShape(v: Delivery, isErr: bool, pc: ReaderPc)
    requires Shape(v) && v.sid.Some? && PcOf(v, isErr).Appended? && (pc.Reading? || pc.Closed?)
    ensures Shape(WithCallback(v, isErr, pc))
  {
    var v' := WithCallback(v, isErr, pc);
    assert v.outBuf <= v'.outBuf && v.errBuf <= v'.errBuf;
  }

  lemma CallbackOwn(s: State, d: nat, isErr: bool, pc: ReaderPc)
    requires HasSession(s, d) && DeliveryInv(s, d) && (pc.Reading? || pc.Closed?)
    requires PcOf(s.deliveries[d], isErr).Appended?
    ensures DeliveryInv(SetDelivery(s, d, WithCallback(s.deliveries[d], isErr, pc)), d)
  {
    CallbackValues(s.deliveries[d], d, s.log, isErr, pc);
  }

  /** A reader's callback moves the appended chunk into its builder. */
  lemma CallbackKeeps(s: State, d: nat, isErr: bool, pc: ReaderPc)
    requires Inv(s) && HasSession(s, d) && (pc.Reading? || pc.Closed?) && PcOf(s.deliveries[d], isErr).Appended?
    ensures Kept(s, SetDelivery(s, d, WithCallback(s.deliveries[d], isErr, pc)), d)
  {
    var s' := SetDelivery(s, d, WithCallback(s.deliveries[d], isErr, pc));
    CallbackOwn(s, d, isErr, pc);
    MoveLocal(s, d, WithCallback(s.deliveries[d], isErr, pc));
    LocalKeeps(s, s', d);
  }

  lemma ReadShape(v: Delivery, isErr: bool, data: Bytes, last: bool)
    requires Shape(v) && v.sid.Some? && PcOf(v, isErr).Reading? && |data| <= CHUNK_MAX
    ensures Shape(AfterRead(v, isErr, data, last))
  {
  }

  lemma ReadBuilders(v: Delivery, isErr: bool, data: Bytes, last: bool)
    requires BuildersAgree(v) && PcOf(v, isErr).Reading?
    ensures BuildersAgree(AfterRead(v, isErr, data, last))
  {
    if isErr {
      StreamRead(Of(v.appended, true), v.errBuf, v.errRead, data, last);
    } else {
      StreamRead(Of(v.appended, false), v.outBuf, v.outRead, data, last);
    }
  }

  lemma StreamRead(chunks: seq<Bytes>, buf: Bytes, read: Bytes, data: Bytes, last: bool)
    requires StreamAgrees(chunks, buf, read, Reading)
    ensures StreamAgrees(chunks, buf, read + data, Got(data, last)) &&
      (forall pc: ReaderPc :: pc.Reading? || pc.Closed? ==> StreamAgrees(chunks, buf, read, pc))
  {
  }

  lemma ReadOwn(s: State, d: nat, isErr: bool, data: Bytes, last: bool)
    requires HasSession(s, d) && DeliveryInv(s, d) && PcOf(s.deliveries[d], isErr).Reading? && |data| <= CHUNK_MAX
    ensures DeliveryInv(SetDelivery(s, d, AfterRead(s.deliveries[d], isErr, data, last)), d)
  {
    var v := s.deliveries[d];
    ReadShape(v, isErr, data, last);
    ReadBuilders(v, isErr, data, last);
    ReadAgrees(v, d, s.log, Sess(s, d), isErr, data, last);
  }

  lemma ReadAgrees(v: Delivery, d: nat, log: seq<Event>, ss: SessionState, isErr: bool, data: Bytes, last: bool)
    requires v.sid.Some? && LogAgrees(v, d, log) && ReportsFit(v, log) && SessionAgrees(v, ss)
    ensures
      var v' := AfterRead(v, isErr, data, last);
      LogAgrees(v', d, log) && ReportsFit(v', log) && SessionAgrees(v', ss)
  {
  }

  /** A reader's Read returns. */
  lemma ReadKeeps(s: State, d: nat, isErr: bool, data: Bytes, last: bool)
    requires Inv(s) && HasSession(s, d) && PcOf(s.deliveries[d], isErr).Reading? && |data| <= CHUNK_MAX
    ensures Kept(s, SetDelivery(s, d, AfterRead(s.deliveries[d], isErr, data, last)), d)
  {
    ReadOwn(s, d, isErr, data, last);
    MoveLocal(s, d, AfterRead(s.deliveries[d], isErr, data, last));
    LocalKeeps(s, SetDelivery(s, d, AfterRead(s.deliveries[d], isErr, data, last)), d);
  }

  lemma ReaderKeeps(s: State, d: nat, isErr: bool, env: Env)
    requires Inv(s) && ReaderEnabled(s, d, isErr, env)
    ensures Kept(s, ReaderStep(s, d, isErr, env), d)
  {
    var v := s.deliveries[d];
    ShapeOf(s, d);
    match if isErr then v.err else v.out
    case Reading => ReadKeeps(s, d, isErr, env.data, env.last);
    case Got(data, last) => AppendKeeps(s, d, isErr, data, last);
    case Appended(data, last) => CallbackKeeps(s, d, isErr, if last then Closed else Reading);
    case _ =>
  }

  lemma YieldSendKeeps(s: State, d: nat)
    requires Inv(s) && YieldEnabled(s, d) && s.deliveries[d].yielder.YieldDue?
    ensures Kept(s, YieldStep(s, d), d)
  {
    var v := s.deliveries[d];
    ShapeOf(s, d);
    YieldSentMoves(v);
    SendKeeps(s, d, v.(yielder := YieldSent), Running, v.yielder.out, v.yielder.err);
  }

  lemma YieldSentMoves(v: Delivery)
    requires Shape(v) && v.sid.Some? && v.yielder.YieldDue?
    ensures
      var v' := v.(yielder := YieldSent);
      && SameOutput(v, v') && Shape(v') && SameProcess(v, v') && SameReports(v, v') && SameDone(v, v')
      && DueTerminals(v') == DueTerminals(v)
  {
  }

  lemma YieldMarkKeeps(s: State, d: nat)
    requires Inv(s) && YieldEnabled(s, d) && s.deliveries[d].yielder.SawLive?
    ensures Kept(s, YieldStep(s, d), d)
  {
    ShapeOf(s, d);
    WriteKeeps(s, d, s.deliveries[d].(yielder := MarkedBackground), Sessions.MarkBackgrounded(Sess(s, d)));
  }

  lemma YieldReadKeeps(s: State, d: nat)
    requires Inv(s) && YieldEnabled(s, d)
    requires s.deliveries[d].yielder.MarkedBackground? || s.deliveries[d].yielder.YieldRead?
    ensures Kept(s, YieldStep(s, d), d)
  {
    var v := s.deliveries[d];
    ShapeOf(s, d);
    MoveKeeps(s, d, v.(yielder := if v.yielder.YieldRead? then YieldDue(v.yielder.out, v.errBuf)
      else YieldRead(v.outBuf)));
  }

  lemma YieldKeeps(s: State, d: nat)
    requires Inv(s) && YieldEnabled(s, d)
    ensures Kept(s, YieldStep(s, d), d)
  {
    var v := s.deliveries[d];
    match v.yielder
    case YieldArmed =>
      ShapeOf(s, d);
      MoveKeeps(s, d, v.(yielder := if Sess(s, d).exited then YieldSkipped else SawLive));
    case SawLive => YieldMarkKeeps(s, d);
    case YieldDue(_, _) => YieldSendKeeps(s, d);
    case _ => YieldReadKeeps(s, d);
  }

  lemma WaitSendKeeps(s: State, d: nat, env: Env)
    requires Inv(s) && WaitEnabled(s, d) && s.deliveries[d].wait.WaitDue?
    ensures Kept(s, WaitStep(s, d, env), d)
  {
    var v := s.deliveries[d];
    ShapeOf(s, d);
    SendKeeps(s, d, v.(wait := WaitEnded), v.wait.status, v.wait.out, v.wait.err);
  }

  lemma WaitReadKeeps(s: State, d: nat, env: Env)
    requires Inv(s) && WaitEnabled(s, d) && (s.deliveries[d].wait.WaitDeleted? || s.deliveries[d].wait.WaitRead?)
    ensures Kept(s, WaitStep(s, d, env), d)
  {
    var v := s.deliveries[d];
    ShapeOf(s, d);
    MoveKeeps(s, d, v.(wait := if v.wait.WaitRead? then WaitDue(v.wait.status, v.wait.out, v.errBuf)
      else WaitRead(v.wait.status, v.outBuf)));
  }

  lemma ReturnedKeeps(s: State, d: nat, env: Env)
    requires Inv(s) && WaitEnabled(s, d) && (s.deliveries[d].wait.Returned? || s.deliveries[d].wait.TimerStopped?)
    ensures Kept(s, WaitStep(s, d, env), d)
  {
    var v := s.deliveries[d];
    ShapeOf(s, d);
    if v.wait.Returned? {
      var timeout := if v.timeout.TimeoutArmed? then Cancelled else v.timeout;
      MoveKeeps(s, d, v.(wait := TimerStopped(v.wait.code), timeout := timeout));
    } else {
      MoveKeeps(s, d, v.(wait := Exiting(false, v.wait.code)));
    }
  }

  lemma WaitingKeeps(s: State, d: nat, env: Env)
    requires Inv(s) && WaitEnabled(s, d) && s.deliveries[d].wait.Waiting?
    ensures Kept(s, WaitStep(s, d, env), d)
  {
    var v := s.deliveries[d];
    ShapeOf(s, d);
    MoveKeeps(s, d, v.(wait := if WantsPty(v) then Returned(env.code)
      else Exiting(env.ok, if env.ok then 1 else env.code)));
  }

  lemma WaitExitKeeps(s: State, d: nat, env: Env)
    requires Inv(s) && WaitEnabled(s, d) && s.deliveries[d].wait.Exiting?
    ensures Kept(s, WaitStep(s, d, env), d)
  {
    var v := s.deliveries[d];
    var failed := v.wait.timedOut || v.wait.code != 0;
    ShapeOf(s, d);
    var signal := if v.wait.timedOut then "SIGTERM" else "";
    ExitKeeps(s, d, v.(wait := WaitMarked(if failed then Failed else Completed)), v.wait.code, signal);
  }

  lemma WaitKeeps(s: State, d: nat, env: Env)
    requires Inv(s) && WaitEnabled(s, d)
    ensures Kept(s, WaitStep(s, d, env), d)
  {
    var v := s.deliveries[d];
    ShapeOf(s, d);
    match v.wait
    case Exiting(_, _) => WaitExitKeeps(s, d, env);
    case WaitMarked(status) => DeleteKeeps(s, d, v.(wait := WaitDeleted(status)));
    case WaitDue(_, _, _) => WaitSendKeeps(s, d, env);
    case Waiting => WaitingKeeps(s, d, env);
    case Returned(_) => ReturnedKeeps(s, d, env);
    case TimerStopped(_) => ReturnedKeeps(s, d, env);
    case _ => WaitReadKeeps(s, d, env);
  }

  lemma TimeoutFiresKeeps(s: State, d: nat)
    requires Inv(s) && TimeoutEnabled(s, d) && (s.deliveries[d].timeout.TimeoutArmed? || s.deliveries[d].timeout.Fired?)
    ensures Kept(s, TimeoutStep(s, d), d)
  {
    var v := s.deliveries[d];
    ShapeOf(s, d);
    if v.timeout.TimeoutArmed? {
      NoteKeeps(s, d, v.(timeout := Fired), TimeoutKill(v.sid.value));
    } else {
      ExitKeeps(s, d, v.(timeout := TimeoutMarked), 1, "SIGKILL");
    }
  }

  lemma TimeoutDeleteKeeps(s: State, d: nat)
    requires Inv(s) && TimeoutEnabled(s, d) && s.deliveries[d].timeout.TimeoutMarked?
    ensures Kept(s, TimeoutStep(s, d), d)
  {
    ShapeOf(s, d);
    DeleteKeeps(s, d, s.deliveries[d].(timeout := TimeoutDeleted));
  }

  lemma TimeoutSendKeeps(s: State, d: nat)
    requires Inv(s) && TimeoutEnabled(s, d) && s.deliveries[d].timeout.TimeoutDue?
    ensures Kept(s, TimeoutStep(s, d), d)
  {
    var v := s.deliveries[d];
    ShapeOf(s, d);
    SendKeeps(s, d, v.(timeout := TimeoutEnded), Failed, v.timeout.out, v.timeout.err);
  }

  lemma TimeoutReadKeeps(s: State, d: nat)
    requires Inv(s) && TimeoutEnabled(s, d)
    requires s.deliveries[d].timeout.TimeoutDeleted? || s.deliveries[d].timeout.TimeoutRead?
    ensures Kept(s, TimeoutStep(s, d), d)
  {
    var v := s.deliveries[d];
    ShapeOf(s, d);
    MoveKeeps(s, d, v.(timeout := if v.timeout.TimeoutRead? then TimeoutDue(v.timeout.out, v.errBuf)
      else TimeoutRead(v.outBuf)));
  }

  lemma TimeoutKeeps(s: State, d: nat)
    requires Inv(s) && TimeoutEnabled(s, d)
    ensures Kept(s, TimeoutStep(s, d), d)
  {
    match s.deliveries[d].timeout
    case TimeoutArmed => TimeoutFiresKeeps(s, d);
    case Fired => TimeoutFiresKeeps(s, d);
    case TimeoutMarked => TimeoutDeleteKeeps(s, d);
    case TimeoutDue(_, _) => TimeoutSendKeeps(s, d);
    case _ => TimeoutReadKeeps(s, d);
  }

  lemma NoteOwn(s: State, d: nat, v': Delivery, e: Event)
    requires d < |s.deliveries| && DeliveryInv(s, d) && Moved(s.deliveries[d], v') && e.TimeoutKill?
    ensures DeliveryInv(SetDelivery(Log(s, e), d, v'), d)
  {
    LogFrameOwn(s.deliveries[d], v', d, s.log, e);
    ReportsKept(s.deliveries[d], v', s.log, e);
    assert forall i :: 0 <= i < |s.log| ==> (s.log + [e])[i] == s.log[i];
  }

  lemma NoteLocal(s: State, d: nat, v': Delivery, e: Event)
    requires d < |s.deliveries| && AimsRight(s, v') && SameDone(s.deliveries[d], v') && e.TimeoutKill?
    requires v'.id == s.deliveries[d].id && v'.sid == s.deliveries[d].sid && v'.req == s.deliveries[d].req
    ensures LocalStep(s, SetDelivery(Log(s, e), d, v'), d)
  {
  }

  /** A signal that the PTY timeout callback sends. */
  lemma NoteKeeps(s: State, d: nat, v': Delivery, e: Event)
    requires Inv(s) && d < |s.deliveries| && e.TimeoutKill?
    requires Moved(s.deliveries[d], v') && AimsRight(s, v')
    ensures Kept(s, SetDelivery(Log(s, e), d, v'), d)
  {
    assert DeliveryInv(s, d);
    NoteOwn(s, d, v', e);
    NoteLocal(s, d, v', e);
    LocalKeeps(s, SetDelivery(Log(s, e), d, v'), d);
  }

  lemma OpeningKeeps(s: State, d: nat, env: Env)
    requires Inv(s) && HandlerEnabled(s, d, env) && s.deliveries[d].handler.Opening?
    ensures Kept(s, Launch(s, d, env), d)
  {
    var v := s.deliveries[d];
    if env.ok && !WantsPty(v) {
      PipesKeeps(s, d, env);
    } else {
      ShapeOf(s, d);
      MoveKeeps(s, d, v.(handler := if env.ok then Spawned(env.pid) else FailMark));
    }
  }

  lemma PipesKeeps(s: State, d: nat, env: Env)
    requires Inv(s) && HandlerEnabled(s, d, env) && s.deliveries[d].handler.Opening? && env.ok
    requires !WantsPty(s.deliveries[d])
    ensures Kept(s, Launch(s, d, env), d)
  {
    ShapeOf(s, d);
    WriteKeeps(s, d, s.deliveries[d].(handler := Spawning), Sess(s, d).(stdinOpen := true));
  }

  lemma SpawnedKeeps(s: State, d: nat, env: Env)
    requires Inv(s) && HandlerEnabled(s, d, env) && s.deliveries[d].handler.Spawned?
    ensures Kept(s, Launch(s, d, env), d)
  {
    var v := s.deliveries[d];
    ShapeOf(s, d);
    WriteKeeps(s, d, v.(handler := if WantsPty(v) then AttachPty else ArmYield), Sess(s, d).(pid := v.handler.newPid));
  }

  lemma AttachKeeps(s: State, d: nat, env: Env)
    requires Inv(s) && HandlerEnabled(s, d, env) && s.deliveries[d].handler.AttachPty?
    ensures Kept(s, Launch(s, d, env), d)
  {
    var v := s.deliveries[d];
    ShapeOf(s, d);
    WriteKeeps(s, d, v.(handler := ArmTimeout), Sess(s, d).(stdinOpen := true));
  }

  lemma LaunchKeeps(s: State, d: nat, env: Env)
    requires Inv(s) && HandlerEnabled(s, d, env)
    ensures Kept(s, Launch(s, d, env), d)
  {
    var v := s.deliveries[d];
    match v.handler
    case Adding => AddKeeps(s, d, env.slug);
    case Opening => OpeningKeeps(s, d, env);
    case Spawned(_) => SpawnedKeeps(s, d, env);
    case AttachPty => AttachKeeps(s, d, env);
    case _ =>
  }

  lemma FailDeleteKeeps(s: State, d: nat, env: Env)
    requires Inv(s) && HandlerEnabled(s, d, env) && s.deliveries[d].handler.FailDelete?
    ensures Kept(s, Settle(s, d, env), d)
  {
    ShapeOf(s, d);
    DeleteKeeps(s, d, s.deliveries[d].(handler := FailSend));
  }

  lemma FailSendKeeps(s: State, d: nat, env: Env)
    requires Inv(s) && HandlerEnabled(s, d, env) && s.deliveries[d].handler.FailSend?
    ensures Kept(s, Settle(s, d, env), d)
  {
    var v := s.deliveries[d];
    ShapeOf(s, d);
    SendKeeps(s, d, v.(handler := Insert), Failed, v.outBuf, v.errBuf);
  }

  lemma FailKeeps(s: State, d: nat, env: Env)
    requires Inv(s) && HandlerEnabled(s, d, env)
    requires s.deliveries[d].handler.FailMark? || s.deliveries[d].handler.FailDelete? ||
      s.deliveries[d].handler.FailSend?
    ensures Kept(s, Settle(s, d, env), d)
  {
    match s.deliveries[d].handler
    case FailMark =>
      ShapeOf(s, d);
      ExitKeeps(s, d, s.deliveries[d].(handler := FailDelete), 1, "");
    case FailDelete => FailDeleteKeeps(s, d, env);
    case _ => FailSendKeeps(s, d, env);
  }

  lemma ReplyKeeps(s: State, d: nat, env: Env)
    requires Inv(s) && HandlerEnabled(s, d, env) && s.deliveries[d].handler.Reply?
    ensures Kept(s, Settle(s, d, env), d)
  {
    var v := s.deliveries[d];
    ShapeOf(s, d);
    SendKeeps(s, d, v.(handler := Done), v.handler.status, [], []);
  }

  lemma KillTermKeeps(s: State, d: nat, env: Env)
    requires Inv(s) && HandlerEnabled(s, d, env) && s.deliveries[d].handler.KillTerm?
    ensures Kept(s, Settle(s, d, env), d)
  {
    var v := s.deliveries[d];
    ShapeOf(s, d);
    assert AimsRight(s, v);
    var v' := v.(handler := Reply(if env.ok then Completed else Failed));
    KillKeeps(s, d, v', v.req.target, v.handler.seenPid, env.ok, false);
  }

  lemma SettleKeeps(s: State, d: nat, env: Env)
    requires Inv(s) && HandlerEnabled(s, d, env)
    requires !OnlyMoves(s.deliveries[d].handler) && !s.deliveries[d].handler.Adding?
    requires !s.deliveries[d].handler.Opening?
    requires !s.deliveries[d].handler.Spawned? && !s.deliveries[d].handler.AttachPty?
    ensures Kept(s, Settle(s, d, env), d)
  {
    var v := s.deliveries[d];
    match v.handler
    case Insert => InsertKeeps(s, d, v.(handler := Done));
    case KillTerm(_) => KillTermKeeps(s, d, env);
    case Reply(_) => ReplyKeeps(s, d, env);
    case _ => FailKeeps(s, d, env);
  }

  lemma MoveShape(s: State, v: Delivery, env: Env)
    requires OnlyMoves(v.handler) && Shape(v) && (v.handler.Spawning? && env.ok ==> env.pid > 0)
    ensures Shape(Move(s, v, env))
  {
  }

  lemma MoveFacts(s: State, v: Delivery, env: Env)
    requires OnlyMoves(v.handler) && Shape(v)
    ensures SameOutput(v, Move(s, v, env)) && SameCounts(v, Move(s, v, env)) && SameDone(v, Move(s, v, env))
    ensures AimsRight(s, Move(s, v, env))
  {
    MoveOutput(s, v, env);
    MoveCounts(s, v, env);
  }

  lemma MoveOutput(s: State, v: Delivery, env: Env)
    requires OnlyMoves(v.handler) && Shape(v)
    ensures SameOutput(v, Move(s, v, env))
  {
  }

  lemma MoveCounts(s: State, v: Delivery, env: Env)
    requires OnlyMoves(v.handler) && Shape(v)
    ensures SameCounts(v, Move(s, v, env)) && SameDone(v, Move(s, v, env))
  {
  }

  lemma MoveProcess(s: State, v: Delivery, env: Env)
    requires OnlyMoves(v.handler) && Shape(v)
    ensures SameProcess(v, Move(s, v, env)) && SameReports(v, Move(s, v, env))
  {
  }

  lemma HandlerKeeps(s: State, d: nat, env: Env)
    requires Inv(s) && HandlerEnabled(s, d, env)
    ensures Kept(s, HandlerStep(s, d, env), d)
  {
    var v := s.deliveries[d];
    if OnlyMoves(v.handler) {
      ShapeOf(s, d);
      MoveShape(s, v, env);
      MoveFacts(s, v, env);
      MoveProcess(s, v, env);
      MoveKeeps(s, d, Move(s, v, env));
    } else if v.handler.Adding? || v.handler.Opening? || v.handler.Spawned? || v.handler.AttachPty? {
      LaunchKeeps(s, d, env);
    } else {
      SettleKeeps(s, d, env);
    }
  }

  // ---- the steps that belong to no delivery ----

  /** Nothing a delivery's invariant reads has changed, except for events about no delivery. */
  lemma OutsideKeepsDeliveries(s: State, s': State)
    requires Inv(s)
    requires s'.deliveries == s.deliveries && s'.sessions == s.sessions
    requires Extends(s.log, s'.log) && (|s'.log| > |s.log| ==> s'.log[|s.log|].Term? || s'.log[|s.log|].Kill?)
    ensures forall d :: 0 <= d < |s'.deliveries| ==> DeliveryInv(s', d)
    ensures Owned(s')
  {
    forall d | 0 <= d < |s'.deliveries|
      ensures DeliveryInv(s', d)
    {
      assert DeliveryInv(s, d);
      DeliveryFrame(s, s', d);
    }
  }

  /** A step of `Stop` or of a delayed SIGKILL goroutine, seen from everyone else. */
  ghost predicate OutsideStep(s: State, s': State) {
    && s'.deliveries == s.deliveries && s'.sessions == s.sessions
    && Extends(s.log, s'.log)
    && (|s'.log| > |s.log| ==>
          var e := s'.log[|s.log|];
          e.Term? || (e.Kill? && TermBefore(s.log, |s.log|, e.sid) && !ExitBefore(s.log, |s.log|, e.sid)))
    && (forall k :: 0 <= k < |s'.killers| ==> TermBefore(s'.log, |s'.log|, s'.killers[k].sid))
    && (s'.active == s.active || (s'.active == map[] && s'.stop.Stopped?))
    && (s.stop.Stopped? ==> s'.stop.Stopped?)
    && StopSane(s')
    && Aimed(s')
  }

  lemma OutsideKeeps(s: State, s': State)
    requires Inv(s) && OutsideStep(s, s')
    ensures Inv(s')
  {
    OutsideKeepsDeliveries(s, s');
    OrderKept(s.log, s'.log);
    assert forall i :: 0 <= i < |s.log| ==> s'.log[i] == s.log[i];
    assert forall d: nat :: Registered(s', d) == Registered(s, d);
    assert forall d: nat :: Registered(s', d) && UniqueId(s', d) ==> UniqueId(s, d);
  }

  lemma WakeKeeps(s: State, k: nat)
    requires Inv(s) && WakeEnabled(s, k)
    ensures Inv(WakeStep(s, k)) && OutsideStep(s, WakeStep(s, k))
  {
    OrderKept(s.log, WakeStep(s, k).log);
    OutsideKeeps(s, WakeStep(s, k));
  }

  lemma TerminateGrounds(s: State, sid: string, pid: nat, ok: bool, byStop: bool)
    requires LogGrounded(s)
    ensures
      var s' := Terminate(s, sid, pid, ok, byStop);
      forall k :: 0 <= k < |s'.killers| ==> TermBefore(s'.log, |s'.log|, s'.killers[k].sid)
  {
    var s' := Terminate(s, sid, pid, ok, byStop);
    OrderKept(s.log, s'.log);
    assert s'.log[|s.log|] == Term(sid, pid, ok, byStop);
  }

  lemma StopSignals(s: State, id: string, ok: bool)
    requires Inv(s) && s.stop.Stopping? && s.stop.at.SendTerm?
    ensures OutsideStep(s, NextStop(s, id, ok))
  {
    TerminateGrounds(s, s.stop.at.sid, s.stop.at.pid, ok, true);
  }

  lemma StopQuiet(s: State, id: string, ok: bool)
    requires Inv(s) && StopEnabled(s, id) && !(s.stop.Stopping? && s.stop.at.SendTerm?)
    ensures OutsideStep(s, NextStop(s, id, ok))
  {
  }

  lemma StopKeeps(s: State, id: string, ok: bool)
    requires Inv(s) && StopEnabled(s, id)
    ensures Inv(NextStop(s, id, ok)) && OutsideStep(s, NextStop(s, id, ok))
  {
    StopOutside(s, id, ok);
    OutsideKeeps(s, NextStop(s, id, ok));
  }

  lemma StopOutside(s: State, id: string, ok: bool)
    requires Inv(s) && StopEnabled(s, id)
    ensures OutsideStep(s, NextStop(s, id, ok))
  {
    if s.stop.Stopping? && s.stop.at.SendTerm? {
      StopSignals(s, id, ok);
    } else {
      StopQuiet(s, id, ok);
    }
  }

  lemma DeliverKeeps(s: State, id: string, req: Request)
    requires Inv(s)
    ensures Inv(Next(s, Deliver(id, req)))
  {
    var s' := Next(s, Deliver(id, req));
    var n := |s.deliveries|;
    NoResults(s.log, n);
    forall d | 0 <= d <= n
      ensures DeliveryInv(s', d)
    {
      if d < n {
        assert DeliveryInv(s, d);
        DeliveryFrame(s, s', d);
      }
    }
    DeliverKeepsEntries(s, id, req);
  }

  lemma DeliverKeepsEntries(s: State, id: string, req: Request)
    requires EntriesRegistered(s) && Covered(s)
    ensures EntriesRegistered(Next(s, Deliver(id, req))) && Covered(Next(s, Deliver(id, req)))
  {
    var s' := Next(s, Deliver(id, req));
    assert forall d :: 0 <= d < |s.deliveries| ==> s'.deliveries[d] == s.deliveries[d];
    assert forall d: nat :: Registered(s', d) == Registered(s, d);
    assert forall d: nat :: Registered(s', d) && UniqueId(s', d) ==> UniqueId(s, d);
  }

  lemma {:induction false} NoResults(log: seq<Event>, n: nat)
    requires forall j :: 0 <= j < |log| && log[j].Result? ==> log[j].d < n
    ensures Terminals(log, n) == 0 && Yields(log, n) == 0
  {
    if log != [] { NoResults(log[..|log| - 1], n); }
  }

  lemma InitHolds(brain: bool)
    ensures Inv(Init(brain))
  {
  }

  lemma StepKeeps(s: State, a: Action)
    requires Inv(s) && Enabled(s, a)
    ensures Inv(Next(s, a))
    ensures a.Act? ==> LocalStep(s, Next(s, a), a.d)
    ensures a.Wake? || a.StopStep? ==> OutsideStep(s, Next(s, a))
  {
    match a
    case Deliver(id, req) => DeliverKeeps(s, id, req);
    case Act(d, actor, env) =>
      match actor {
        case Handler => HandlerKeeps(s, d, env);
        case StdoutReader => ReaderKeeps(s, d, false, env);
        case StderrReader => ReaderKeeps(s, d, true, env);
        case YieldTimer => YieldKeeps(s, d);
        case TimeoutTimer => TimeoutKeeps(s, d);
        case Waiter => WaitKeeps(s, d, env);
      }
    case Wake(k) => WakeKeeps(s, k);
    case StopStep(id, ok) => StopKeeps(s, id, ok);
  }

  lemma {:induction false} RunKeeps(s: State, run: seq<Action>)
    requires Inv(s) && Legal(s, run)
    ensures Inv(After(s, run))
    decreases run
  {
    if run != [] {
      StepKeeps(s, run[0]);
      RunKeeps(Next(s, run[0]), run[1..]);
    }
  }

  /** The invariant holds after every run from the start. */
  lemma ReachableInv(brain: bool, run: seq<Action>)
    requires Legal(Init(brain), run)
    ensures Inv(After(Init(brain), run))
  {
    InitHolds(brain);
    RunKeeps(Init(brain), run);
  }
}
