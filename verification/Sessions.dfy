/** The fields of one session, and what each mutex-held block of the registry does to them. */
module Sessions {
  import opened Basics
  import opened RollingBuffer

  datatype SessionState = SessionState(
    pid: nat,
    exited: bool,
    exitCode: Option<int>,
    exitSignal: string,
    backgrounded: bool,
    stdinOpen: bool,
    output: Buffers)

  function NewSession(pid: nat): SessionState {
    SessionState(pid, false, None, "", false, false, Buffers([], []))
  }

  function MarkExited(s: SessionState, code: int, signal: string): SessionState {
    s.(exited := true, exitCode := Some(code), exitSignal := signal, stdinOpen := false)
  }

  function MarkBackgrounded(s: SessionState): SessionState {
    s.(backgrounded := true)
  }

  function AppendOutput(s: SessionState, data: Bytes): SessionState {
    s.(output := Append(s.output, data))
  }

  /** What "the process has ended" promises about the other fields. */
  predicate ExitRecorded(s: SessionState) {
    if s.exited then s.exitCode.Some? && !s.stdinOpen else s.exitCode.None? && s.exitSignal == ""
  }
}
