/**
 The command lifecycle as an interleaved step system: one handler goroutine per delivered command,
 and for each spawned process two readers, a wait goroutine, a yield timer and (PTY only) a timeout
 timer, next to `Stop`, `KillSession` and its delayed SIGKILL goroutines. One step is one
 mutex-held block, one unlocked access, or one call into the operating system.
 */
module ExecLifecycle {
  import opened Basics
  import opened Sessions
  import opened Slugs

  const CHUNK_MAX: nat := 8192

  datatype Status = Completed | Failed | Running

  datatype Request =
    | Exec(emptyCommand: bool, pty: bool, yieldMs: int)
    | KillProcess(target: string)
    | Simple(ok: bool)  // every capability, or unreadable payload, that only computes one reply

  /** Where the goroutine running handleCommand is. */
  datatype HandlerPc =
    | Start
    | Adding                 // before Registry.AddSession
    | Opening                // before the pipes exist, or before pty.Start
    | Spawning               // pipes open, before cmd.Start
    | Spawned(newPid: nat)   // process running, before session.Pid is written
    | AttachPty              // before session.Ptmx and session.Stdin are written
    | ArmTimeout
    | ArmYield
    | StartOut
    | StartErr
    | StartWait
    | FailMark | FailDelete | FailSend   // spawn-failure branch, one step each
    | Insert                 // before the activeCommands entry is written
    | KillCheck | KillPid | KillTerm(seenPid: nat)
    | Reply(status: Status)
    | Done

  datatype ReaderPc =
    | Off | Reading
    | Got(data: Bytes, last: bool)       // chunk read, before AppendOutput
    | Appended(data: Bytes, last: bool)  // appended, before the OnStdout/OnStderr callback
    | Closed

  /** A callback reads the stdout builder, then the stderr builder, then sends what it has read. */
  datatype YieldPc =
    | YieldOff | YieldArmed | YieldSkipped
    | SawLive
    | MarkedBackground                       // before the stdout builder is read
    | YieldRead(out: Bytes)                  // before the stderr builder is read
    | YieldDue(out: Bytes, err: Bytes)       // before sendResult
    | YieldSent

  datatype TimeoutPc =
    | TimeoutOff | TimeoutArmed | Cancelled
    | Fired
    | TimeoutMarked                          // before the activeCommands delete
    | TimeoutDeleted
    | TimeoutRead(out: Bytes)
    | TimeoutDue(out: Bytes, err: Bytes)
    | TimeoutEnded

  datatype WaitPc =
    | WaitOff | Waiting
    | Returned(code: int)                   // PTY: cmd.Wait returned, before timer.Stop
    | TimerStopped(code: int)               // PTY: before ptmx.Close
    | Exiting(timedOut: bool, code: int)    // before MarkExited
    | WaitMarked(status: Status)            // before the activeCommands delete
    | WaitDeleted(status: Status)
    | WaitRead(status: Status, out: Bytes)
    | WaitDue(status: Status, out: Bytes, err: Bytes)
    | WaitEnded

  /** A chunk appended to a session, tagged with the reader that appended it. */
  datatype Piece = Piece(isErr: bool, data: Bytes)

  datatype Delivery = Delivery(
    id: string,
    req: Request,
    handler: HandlerPc,
    sid: Option<string>,
    out: ReaderPc,
    err: ReaderPc,
    yielder: YieldPc,
    timeout: TimeoutPc,
    wait: WaitPc,
    outRead: Bytes,          // history: everything read from the process's stdout
    errRead: Bytes,          // history: everything read from its stderr
    outBuf: Bytes,           // the stdout builder of handleExec
    errBuf: Bytes,           // the stderr builder of handleExec
    appended: seq<Piece>)    // history: every chunk appended for this command, in order

  datatype Killer = Killer(sid: string, fired: bool)

  /** `Stop` holds Actuator.mu from the first step of `Stopping` to the step into `Stopped`. */
  datatype StopPc = NotStarted | Stopping(todo: set<string>, at: ClosurePc) | Stopped

  /** Where the kill closure that `Stop` is running is. */
  datatype ClosurePc = Between | ReadExited(sid: string) | ReadPid(sid: string) | SendTerm(sid: string, pid: nat)

  /** Everything observable, in the order it happened. */
  datatype Event =
    | Result(d: nat, id: string, status: Status, out: Bytes, err: Bytes)
    | Exit(sid: string, code: int, signal: string)
    | Term(sid: string, pid: nat, ok: bool, byStop: bool)
    | Kill(sid: string, pid: nat)
    | TimeoutKill(sid: string)

  datatype State = State(
    brain: bool,
    deliveries: seq<Delivery>,
    sessions: map<string, SessionState>,
    active: map<string, string>,
    killers: seq<Killer>,
    stop: StopPc,
    log: seq<Event>)

  datatype Actor = Handler | StdoutReader | StderrReader | YieldTimer | TimeoutTimer | Waiter

  /** What the environment decides in a step: random slug, success of a system call, pid, exit code, data read. */
  datatype Env = Env(slug: string, ok: bool, pid: nat, code: int, data: Bytes, last: bool)

  datatype Action =
    | Deliver(id: string, req: Request)
    | Act(d: nat, actor: Actor, env: Env)
    | Wake(k: nat)                  // a delayed SIGKILL goroutine runs
    | StopStep(id: string, ok: bool)

  function Init(brain: bool): State {
    State(brain, [], map[], map[], [], NotStarted, [])
  }

  function NewDelivery(id: string, req: Request): Delivery {
    Delivery(id, req, Start, None, Off, Off, YieldOff, TimeoutOff, WaitOff, [], [], [], [], [])
  }

  /** Actuator.mu is free unless `Stop` is inside its critical section. */
  predicate MuFree(s: State) {
    !s.stop.Stopping?
  }

  function Log(s: State, e: Event): State {
    s.(log := s.log + [e])
  }

  function SetDelivery(s: State, d: nat, v: Delivery): State
    requires d < |s.deliveries|
  {
    s.(deliveries := s.deliveries[d := v])
  }

  function SetSession(s: State, sid: string, v: SessionState): State {
    s.(sessions := s.sessions[sid := v])
  }

  /** `syscall.Kill(pid, SIGTERM)` and, on success, the goroutine that waits to send SIGKILL. */
  function Terminate(s: State, sid: string, pid: nat, ok: bool, byStop: bool): State {
    var logged := Log(s, Term(sid, pid, ok, byStop));
    if ok then logged.(killers := logged.killers + [Killer(sid, false)]) else logged
  }

  function SendResult(s: State, d: nat, status: Status, out: Bytes, err: Bytes): State
    requires d < |s.deliveries|
  {
    Log(s, Result(d, s.deliveries[d].id, status, out, err))
  }

  /** The session of a delivery that has one; every step below that needs it is enabled only then. */
  predicate HasSession(s: State, d: nat) {
    d < |s.deliveries| && s.deliveries[d].sid.Some? && s.deliveries[d].sid.value in s.sessions
  }

  function Sess(s: State, d: nat): SessionState
    requires HasSession(s, d)
  {
    s.sessions[s.deliveries[d].sid.value]
  }

  function UpdateSess(s: State, d: nat, v: SessionState): State
    requires HasSession(s, d)
  {
    SetSession(s, s.deliveries[d].sid.value, v)
  }

  function Exited(s: State, d: nat, code: int, signal: string): State
    requires HasSession(s, d)
  {
    Log(UpdateSess(s, d, MarkExited(Sess(s, d), code, signal)), Exit(s.deliveries[d].sid.value, code, signal))
  }

  // ---- the handler goroutine ----

  predicate NeedsSession(pc: HandlerPc) {
    pc.Opening? || pc.Spawning? || pc.Spawned? || pc.AttachPty? || pc.FailMark? || pc.Insert?
  }

  predicate HandlerEnabled(s: State, d: nat, env: Env) {
    && d < |s.deliveries|
    && var v := s.deliveries[d];
    && (NeedsSession(v.handler) ==> HasSession(s, d))
    && match v.handler
       case Adding => IsSlug(env.slug) && env.slug !in s.sessions
       case Opening => env.ok && WantsPty(v) ==> env.pid > 0
       case Spawning => env.ok ==> env.pid > 0
       case FailDelete => MuFree(s)
       case Insert => MuFree(s)
       case Done => false
       case _ => true
  }

  predicate WantsPty(v: Delivery) {
    v.req.Exec? && v.req.pty
  }

  /** Steps that only decide what comes next or start a goroutine or timer. */
  predicate OnlyMoves(pc: HandlerPc) {
    || pc.Start? || pc.Spawning? || pc.ArmTimeout? || pc.ArmYield? || pc.StartOut? || pc.StartErr?
    || pc.StartWait? || pc.KillCheck? || pc.KillPid?
  }

  function FirstStep(brain: bool, req: Request): HandlerPc {
    if brain then Reply(Failed)
    else
      match req
      case Simple(ok) => Reply(if ok then Completed else Failed)
      case KillProcess(_) => KillCheck
      case Exec(emptyCommand, _, _) => if emptyCommand then Reply(Failed) else Adding
  }

  function Move(s: State, v: Delivery, env: Env): Delivery {
    match v.handler
    case Start => v.(handler := FirstStep(s.brain, v.req))
    case Spawning => v.(handler := if env.ok then Spawned(env.pid) else FailMark)
    case ArmTimeout => v.(handler := ArmYield, timeout := TimeoutArmed)
    case ArmYield =>
      v.(handler := StartOut, yielder := if v.req.Exec? && v.req.yieldMs > 0 then YieldArmed else YieldOff)
    case StartOut => v.(handler := if WantsPty(v) then StartWait else StartErr, out := Reading)
    case StartErr => v.(handler := StartWait, err := Reading)
    case StartWait => v.(handler := Insert, wait := Waiting)
    case KillCheck =>
      var alive := v.req.KillProcess? && v.req.target in s.sessions && !s.sessions[v.req.target].exited;
      v.(handler := if alive then KillPid else Reply(Failed))
    case KillPid =>
      var known := v.req.KillProcess? && v.req.target in s.sessions && s.sessions[v.req.target].pid != 0;
      v.(handler := if known then KillTerm(s.sessions[v.req.target].pid) else Reply(Failed))
    case _ => v
  }

  /** Steps that create the session or write its fields without a lock. */
  function Launch(s: State, d: nat, env: Env): State
    requires HandlerEnabled(s, d, env)
  {
    var v := s.deliveries[d];
    match v.handler
    case Adding =>
      SetDelivery(SetSession(s, env.slug, NewSession(0)), d, v.(handler := Opening, sid := Some(env.slug)))
    case Opening =>
      if !env.ok then SetDelivery(s, d, v.(handler := FailMark))
      else if WantsPty(v) then SetDelivery(s, d, v.(handler := Spawned(env.pid)))
      else SetDelivery(UpdateSess(s, d, Sess(s, d).(stdinOpen := true)), d, v.(handler := Spawning))
    case Spawned(pid) =>
      SetDelivery(UpdateSess(s, d, Sess(s, d).(pid := pid)), d,
        v.(handler := if WantsPty(v) then AttachPty else ArmYield))
    case AttachPty =>
      SetDelivery(UpdateSess(s, d, Sess(s, d).(stdinOpen := true)), d, v.(handler := ArmTimeout))
    case _ => s
  }

  /** The spawn-failure branch, whose builders no reader has touched, the activeCommands insert, and the replies. */
  function Settle(s: State, d: nat, env: Env): State
    requires HandlerEnabled(s, d, env)
  {
    var v := s.deliveries[d];
    match v.handler
    case FailMark =>
      SetDelivery(Exited(s, d, 1, ""), d, v.(handler := FailDelete))
    case FailDelete =>
      SetDelivery(s.(active := s.active - {v.id}), d, v.(handler := FailSend))
    case FailSend =>
      SetDelivery(SendResult(s, d, Failed, v.outBuf, v.errBuf), d, v.(handler := Insert))
    case Insert =>
      SetDelivery(s.(active := s.active[v.id := v.sid.value]), d, v.(handler := Done))
    case KillTerm(pid) =>
      var target := if v.req.KillProcess? then v.req.target else "";
      SetDelivery(Terminate(s, target, pid, env.ok, false), d,
        v.(handler := Reply(if env.ok then Completed else Failed)))
    case Reply(status) =>
      SetDelivery(SendResult(s, d, status, [], []), d, v.(handler := Done))
    case _ => s
  }

  function HandlerStep(s: State, d: nat, env: Env): State
    requires HandlerEnabled(s, d, env)
  {
    var v := s.deliveries[d];
    if OnlyMoves(v.handler) then SetDelivery(s, d, Move(s, v, env))
    else if v.handler.Adding? || v.handler.Opening? || v.handler.Spawned? || v.handler.AttachPty? then Launch(s, d, env)
    else Settle(s, d, env)
  }

  // ---- the two output readers ----

  /** cmd.Wait closes the pipes before it returns; the wait goroutine of a PTY closes ptmx after timer.Stop. */
  predicate PipesClosed(v: Delivery) {
    !v.wait.WaitOff? && !v.wait.Waiting? && !v.wait.Returned? && !v.wait.TimerStopped?
  }

  /** On a closed pipe a read only fails. */
  predicate ReaderEnabled(s: State, d: nat, isErr: bool, env: Env) {
    && HasSession(s, d)
    && var pc := if isErr then s.deliveries[d].err else s.deliveries[d].out;
    && !pc.Off? && !pc.Closed?
    && |env.data| <= CHUNK_MAX
    && (pc.Reading? && PipesClosed(s.deliveries[d]) ==> env.data == [] && env.last)
  }

  function SetReader(v: Delivery, isErr: bool, pc: ReaderPc): Delivery {
    if isErr then v.(err := pc) else v.(out := pc)
  }

  /** `Read` returned: with data, with an error (`last`), with both, or with neither. */
  function AfterRead(v: Delivery, isErr: bool, data: Bytes, last: bool): Delivery {
    if data == [] then SetReader(v, isErr, if last then Closed else Reading)
    else if isErr then v.(err := Got(data, last), errRead := v.errRead + data)
    else v.(out := Got(data, last), outRead := v.outRead + data)
  }

  function ReaderStep(s: State, d: nat, isErr: bool, env: Env): State
    requires ReaderEnabled(s, d, isErr, env)
  {
    var v := s.deliveries[d];
    match if isErr then v.err else v.out
    case Off => s
    case Closed => s
    case Reading => SetDelivery(s, d, AfterRead(v, isErr, env.data, env.last))
    case Got(data, last) =>
      SetDelivery(UpdateSess(s, d, AppendOutput(Sess(s, d), data)), d,
                  SetReader(v, isErr, Appended(data, last)).(appended := v.appended + [Piece(isErr, data)]))
    case Appended(data, last) =>
      var w := SetReader(v, isErr, if last then Closed else Reading);
      SetDelivery(s, d, if isErr then w.(errBuf := w.errBuf + data) else w.(outBuf := w.outBuf + data))
  }

  // ---- timers and the wait goroutine ----

  predicate YieldEnabled(s: State, d: nat) {
    && HasSession(s, d)
    && !s.deliveries[d].yielder.YieldOff? && !s.deliveries[d].yielder.YieldSkipped? &&
         !s.deliveries[d].yielder.YieldSent?
  }

  function YieldStep(s: State, d: nat): State
    requires YieldEnabled(s, d)
  {
    var v := s.deliveries[d];
    match v.yielder
    case YieldArmed => SetDelivery(s, d, v.(yielder := if Sess(s, d).exited then YieldSkipped else SawLive))
    case SawLive => SetDelivery(UpdateSess(s, d, Sessions.MarkBackgrounded(Sess(s, d))), d,
      v.(yielder := MarkedBackground))
    case MarkedBackground => SetDelivery(s, d, v.(yielder := YieldRead(v.outBuf)))
    case YieldRead(out) => SetDelivery(s, d, v.(yielder := YieldDue(out, v.errBuf)))
    case YieldDue(out, err) => SetDelivery(SendResult(s, d, Running, out, err), d, v.(yielder := YieldSent))
    case _ => s
  }

  predicate TimeoutEnabled(s: State, d: nat) {
    && HasSession(s, d)
    && !s.deliveries[d].timeout.TimeoutOff? && !s.deliveries[d].timeout.Cancelled? &&
         !s.deliveries[d].timeout.TimeoutEnded?
    && (s.deliveries[d].timeout.TimeoutMarked? ==> MuFree(s))
  }

  function TimeoutStep(s: State, d: nat): State
    requires TimeoutEnabled(s, d)
  {
    var v := s.deliveries[d];
    match v.timeout
    case TimeoutArmed => SetDelivery(Log(s, TimeoutKill(v.sid.value)), d, v.(timeout := Fired))
    case Fired => SetDelivery(Exited(s, d, 1, "SIGKILL"), d, v.(timeout := TimeoutMarked))
    case TimeoutMarked => SetDelivery(s.(active := s.active - {v.id}), d, v.(timeout := TimeoutDeleted))
    case TimeoutDeleted => SetDelivery(s, d, v.(timeout := TimeoutRead(v.outBuf)))
    case TimeoutRead(out) => SetDelivery(s, d, v.(timeout := TimeoutDue(out, v.errBuf)))
    case TimeoutDue(out, err) => SetDelivery(SendResult(s, d, Failed, out, err), d, v.(timeout := TimeoutEnded))
    case _ => s
  }

  predicate WaitEnabled(s: State, d: nat) {
    && HasSession(s, d)
    && !s.deliveries[d].wait.WaitOff? && !s.deliveries[d].wait.WaitEnded?
    && (s.deliveries[d].wait.WaitMarked? ==> MuFree(s))
  }

  /** `env.ok` says whether the context deadline had passed when cmd.Wait returned. */
  function WaitStep(s: State, d: nat, env: Env): State
    requires WaitEnabled(s, d)
  {
    var v := s.deliveries[d];
    match v.wait
    case Waiting =>
      var next := if WantsPty(v) then Returned(env.code)
                  else Exiting(env.ok, if env.ok then 1 else env.code);
      SetDelivery(s, d, v.(wait := next))
    case Returned(code) =>
      var timeout := if v.timeout.TimeoutArmed? then Cancelled else v.timeout;
      SetDelivery(s, d, v.(wait := TimerStopped(code), timeout := timeout))
    case TimerStopped(code) => SetDelivery(s, d, v.(wait := Exiting(false, code)))
    case Exiting(timedOut, code) =>
      SetDelivery(Exited(s, d, code, if timedOut then "SIGTERM" else ""), d,
                  v.(wait := WaitMarked(if timedOut || code != 0 then Failed else Completed)))
    case WaitMarked(status) =>
      SetDelivery(s.(active := s.active - {v.id}), d, v.(wait := WaitDeleted(status)))
    case WaitDeleted(status) => SetDelivery(s, d, v.(wait := WaitRead(status, v.outBuf)))
    case WaitRead(status, out) => SetDelivery(s, d, v.(wait := WaitDue(status, out, v.errBuf)))
    case WaitDue(status, out, err) => SetDelivery(SendResult(s, d, status, out, err), d, v.(wait := WaitEnded))
    case _ => s
  }

  // ---- the delayed SIGKILL goroutines and Stop ----

  predicate WakeEnabled(s: State, k: nat) {
    k < |s.killers| && !s.killers[k].fired
  }

  function WakeStep(s: State, k: nat): State
    requires WakeEnabled(s, k)
  {
    var sid := s.killers[k].sid;
    var woken := s.(killers := s.killers[k := Killer(sid, true)]);
    if sid in s.sessions && !s.sessions[sid].exited && s.sessions[sid].pid != 0
    then Log(woken, Kill(sid, s.sessions[sid].pid))
    else woken
  }

  predicate StopEnabled(s: State, id: string) {
    match s.stop
    case NotStarted => true
    case Stopping(todo, at) => at.Between? && todo != {} ==> id in todo && id in s.active
    case Stopped => false
  }

  /** `id` is the entry that the map iteration yields next. */
  function NextStop(s: State, id: string, ok: bool): State
    requires StopEnabled(s, id)
  {
    match s.stop
    case NotStarted => s.(stop := Stopping(s.active.Keys, Between))
    case Stopped => s
    case Stopping(todo, at) =>
      match at
      case Between =>
        if todo == {} then s.(stop := Stopped, active := map[])
        else
          var sid := s.active[id];
          var known := sid in s.sessions && s.sessions[sid].pid != 0;
          s.(stop := Stopping(todo - {id}, if known then ReadExited(sid) else Between))
      case ReadExited(sid) =>
        var alive := sid in s.sessions && !s.sessions[sid].exited;
        s.(stop := Stopping(todo, if alive then ReadPid(sid) else Between))
      case ReadPid(sid) =>
        var known := sid in s.sessions && s.sessions[sid].pid != 0;
        s.(stop := Stopping(todo, if known then SendTerm(sid, s.sessions[sid].pid) else Between))
      case SendTerm(sid, pid) =>
        Terminate(s, sid, pid, ok, true).(stop := Stopping(todo, Between))
  }

  // ---- runs ----

  predicate Enabled(s: State, a: Action) {
    match a
    case Deliver(_, _) => true
    case Act(d, actor, env) => (
      match actor
      case Handler => HandlerEnabled(s, d, env)
      case StdoutReader => ReaderEnabled(s, d, false, env)
      case StderrReader => ReaderEnabled(s, d, true, env)
      case YieldTimer => YieldEnabled(s, d)
      case TimeoutTimer => TimeoutEnabled(s, d)
      case Waiter => WaitEnabled(s, d))
    case Wake(k) => WakeEnabled(s, k)
    case StopStep(id, _) => StopEnabled(s, id)
  }

  function Next(s: State, a: Action): State
    requires Enabled(s, a)
  {
    match a
    case Deliver(id, req) => s.(deliveries := s.deliveries + [NewDelivery(id, req)])
    case Act(d, actor, env) => (
      match actor
      case Handler => HandlerStep(s, d, env)
      case StdoutReader => ReaderStep(s, d, false, env)
      case StderrReader => ReaderStep(s, d, true, env)
      case YieldTimer => YieldStep(s, d)
      case TimeoutTimer => TimeoutStep(s, d)
      case Waiter => WaitStep(s, d, env))
    case Wake(k) => WakeStep(s, k)
    case StopStep(id, ok) => NextStop(s, id, ok)
  }

  /** Every action of `run` is enabled in the state it is taken in, starting from `s`. */
  predicate Legal(s: State, run: seq<Action>)
    decreases run
  {
    run == [] || (Enabled(s, run[0]) && Legal(Next(s, run[0]), run[1..]))
  }

  function After(s: State, run: seq<Action>): State
    requires Legal(s, run)
    decreases run
  {
    if run == [] then s else After(Next(s, run[0]), run[1..])
  }
}
