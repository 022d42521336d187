/** The process capability: log windows, key input and kills on registered sessions. */
module ProcessHandlers {
  import opened Basics
  import opened RollingBuffer
  import opened Lines
  import opened Paging
  import opened ProcessRegistry
  import opened Keys

  datatype ProcessError = IdRequired | KeysRequired | SessionNotFound | AlreadyExited | InputRefused | KillFailed

  datatype LogResult = LogError(error: ProcessError) | LogPanics | Log(output: Bytes)

  class ProcessHandler {
    const registry: Registry

    constructor (registry: Registry)
      ensures this.registry == registry
    {
      this.registry := registry;
    }

    /** The requested line window of the last 200,000 bytes ever appended to the session. */
    method GetSessionLog(id: string, offset: Option<int>, limit: Option<int>) returns (r: LogResult)
      requires registry.Valid()
      ensures id == "" ==> r == LogError(IdRequired)
      ensures id != "" && id !in registry.sessions ==> r == LogError(SessionNotFound)
      ensures id != "" && id in registry.sessions && offset.None? && limit.None? ==>
                r == Log(LastN(registry.sessions[id].history, 200_000))
      ensures id != "" && id in registry.sessions && (offset.Some? || limit.Some?) ==>
                var lines := Split(LastN(registry.sessions[id].history, 200_000), 10);
                var start := if offset.Some? && offset.value >= 2 then offset.value - 1 else 0;
                && (start >= |lines| ==> r == Log([]))
                && (start < |lines| && limit.None? ==> r == Log(Join(lines[start..], 10)))
                && (start < |lines| && limit.Some? && limit.value < 0 ==> r == LogPanics)
                && (start < |lines| && limit.Some? && limit.value >= 0 ==>
                      r == Log(Join(lines[start..start + Min(limit.value, |lines| - start)], 10)))
    {
      if id == "" { return LogError(IdRequired); }
      if id !in registry.sessions { return LogError(SessionNotFound); }
      var output := registry.GetOutput(id);
      ghost var start: nat := if offset.Some? && offset.value >= 2 then offset.value - 1 else 0;
      LogExactly(output, offset, limit, start);
      var w := LogWindow(output, offset, limit);
      return if w.Some? then Log(w.value) else LogPanics;
    }

    /**
     Sends the converted keys one by one until the session refuses one; `accepted` is how many writes its
     pipe takes.
     */
    method SendKeys(id: string, keys: seq<Bytes>, accepted: nat) returns (e: Option<ProcessError>)
      requires registry.Valid()
      modifies registry.At(id)
      ensures registry.Valid()
      ensures e == Some(IdRequired) <==> id == ""
      ensures e == Some(KeysRequired) <==> id != "" && keys == []
      ensures e == Some(SessionNotFound) <==> id != "" && keys != [] && id !in registry.sessions
      ensures e == Some(AlreadyExited) <==>
            id != "" && keys != [] && id in registry.sessions &&
            old(registry.sessions[id].exited)
      ensures e.None? || e == Some(InputRefused) ==>
                var taken := if old(registry.sessions[id].stdinOpen) then Min(accepted, |keys|) else 0;
                && (e.None? <==> taken == |keys|)
                && registry.sessions[id].written == old(registry.sessions[id].written) + ConvertAll(keys)[..taken]
      ensures e.None? || e.value in {IdRequired, KeysRequired, SessionNotFound, AlreadyExited, InputRefused}
      ensures id in registry.sessions ==>
                && registry.sessions[id].State() == old(registry.sessions[id].State())
                && registry.sessions[id].history == old(registry.sessions[id].history)
    {
      if id == "" { return Some(IdRequired); }
      if keys == [] { return Some(KeysRequired); }
      if id !in registry.sessions { return Some(SessionNotFound); }
      var s := registry.sessions[id];
      if s.exited { return Some(AlreadyExited); }
      for k := 0 to |keys|
        invariant registry.Valid()
        invariant k > 0 ==> s.stdinOpen && k <= accepted
        invariant s.written == old(s.written) + ConvertAll(keys)[..k]
        invariant s.State() == old(s.State()) && s.history == old(s.history)
      {
        var ok := s.WriteStdin(Convert(keys[k]), k < accepted);
        if !ok { return Some(InputRefused); }
      }
      assert ConvertAll(keys)[..|keys|] == ConvertAll(keys);
      return None;
    }

    /** A kill request reaches KillSession only for a session that has not exited. */
    method Kill(id: string, delivered: bool) returns (e: Option<ProcessError>)
      requires registry.Valid()
      modifies registry`signals
      ensures registry.Valid()
      ensures e == Some(IdRequired) <==> id == ""
      ensures e == Some(SessionNotFound) <==> id != "" && id !in registry.sessions
      ensures e == Some(AlreadyExited) <==> id != "" && id in registry.sessions && registry.sessions[id].exited
      ensures e.None? <==>
            id != "" && id in registry.sessions && !registry.sessions[id].exited &&
            registry.sessions[id].pid != 0 && delivered
      ensures e.None? || e.value in {IdRequired, SessionNotFound, AlreadyExited, KillFailed}
      ensures registry.signals == old(registry.signals) +
                if id != "" && id in registry.sessions && !registry.sessions[id].exited &&
                  registry.sessions[id].pid != 0
                then [Term(id, registry.sessions[id].pid, delivered)] else []
    {
      if id == "" { return Some(IdRequired); }
      if id !in registry.sessions { return Some(SessionNotFound); }
      if registry.sessions[id].exited { return Some(AlreadyExited); }
      var ok := registry.KillSession(id, delivered);
      return if ok then None else Some(KillFailed);
    }
  }
}
