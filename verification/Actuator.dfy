/** The actuator object: the critical sections of Actuator.mu, one call at a time. */
module Actuators {
  import opened Basics
  import opened ProcessRegistry
  import opened Tokens
  import R = Reconnect

  /** The sessions a sequence of signals goes to. */
  function Sessions(signals: seq<Signal>): set<string> {
    if signals == [] then {} else Sessions(signals[..|signals| - 1]) + {signals[|signals| - 1].session}
  }

  /** The sessions named under the ids that are not in `todo`. */
  ghost function TargetsBut(m: map<string, Option<string>>, todo: set<string>): set<string> {
    set id | id in m && id !in todo && m[id].Some? :: m[id].value
  }

  lemma TargetsGrow(m: map<string, Option<string>>, todo: set<string>, id: string)
    requires id in m && id in todo
    ensures TargetsBut(m, todo - {id}) == TargetsBut(m, todo) + if m[id].Some? then {m[id].value} else {}
  {
  }

  predicate Terms(signals: seq<Signal>) {
    forall k :: 0 <= k < |signals| ==> signals[k].Term?
  }

  /**
   `all` is `before` followed by SIGTERMs to exactly the sessions named under the ids that are not
   in `todo`.
   */
  ghost predicate Signalled(m: map<string, Option<string>>, todo: set<string>, before: seq<Signal>, all: seq<Signal>) {
    && |before| <= |all| && all[..|before|] == before
    && Terms(all[|before|..]) && Sessions(all[|before|..]) == TargetsBut(m, todo)
  }

  lemma OneSignalled(m: map<string, Option<string>>, todo: set<string>, id: string, before: seq<Signal>,
      all: seq<Signal>, more: seq<Signal>)
    requires Signalled(m, todo, before, all) && id in m && id in todo
    requires if m[id].Some? then |more| == 1 && more[0].Term? && more[0].session == m[id].value else more == []
    ensures Signalled(m, todo - {id}, before, all + more)
  {
    TargetsGrow(m, todo, id);
    var sent := all[|before|..];
    if more == [] {
      assert all + more == all;
    } else {
      assert (all + more)[|before|..] == sent + more;
      assert (sent + more)[..|sent|] == sent;
    }
  }

  class Actuator {
    const registry: Registry
    const reconnect: R.ReconnectManager
    const tokenFile: bool
    var conn: Option<nat>
    var agentToken: string
    var file: Option<string>                   // contents of the token file
    var activeCommands: map<string, Session>   // command id to the session its kill closure captured
    var destroyed: bool

    constructor (token: string, tokenFile: bool, file: Option<string>)
      ensures Valid() && fresh(registry) && fresh(reconnect)
      ensures agentToken == token && this.tokenFile == tokenFile && this.file == file
      ensures conn == None && activeCommands == map[] && !destroyed
    {
      registry := new Registry();
      reconnect := new R.ReconnectManager(0.0, 0.0, 0);
      this.tokenFile, this.file, agentToken := tokenFile, file, token;
      conn, activeCommands, destroyed := None, map[], false;
    }

    ghost predicate Valid()
      reads this`activeCommands, registry`sessions, registry.sessions.Values
    {
      && registry.Valid()
      && forall id :: id in activeCommands ==>
           activeCommands[id].id in registry.sessions && registry.sessions[activeCommands[id].id] == activeCommands[id]
    }

    /** handleExec's last block. */
    method Insert(id: string, s: Session)
      requires Valid() && s.id in registry.sessions && registry.sessions[s.id] == s
      modifies this`activeCommands
      ensures Valid() && activeCommands == old(activeCommands)[id := s]
    {
      activeCommands := activeCommands[id := s];
    }

    /** OnDone's and OnError's block. */
    method Remove(id: string)
      requires Valid()
      modifies this`activeCommands
      ensures Valid() && activeCommands == old(activeCommands) - {id}
    {
      activeCommands := activeCommands - {id};
    }

    /** For each command id, the session its kill closure would signal now, if any. */
    ghost function Killables(): map<string, Option<string>>
      reads this`activeCommands, activeCommands.Values
    {
      map id | id in activeCommands ::
        if activeCommands[id].pid != 0 && !activeCommands[id].exited then Some(activeCommands[id].id) else None
    }

    /** One kill closure. */
    method RunClosure(s: Session, delivered: bool)
      requires registry.Valid() && s.id in registry.sessions && registry.sessions[s.id] == s
      modifies registry`signals
      ensures registry.signals == old(registry.signals) +
                if s.pid != 0 && !s.exited then [Term(s.id, s.pid, delivered)] else []
      ensures Killables() == old(Killables())
    {
      if s.pid != 0 && !s.exited {
        var _ := registry.KillSession(s.id, delivered);
      }
    }

    /** Runs every kill closure; `delivered` is what the system call reports for each session. */
    method KillAll(delivered: string -> bool)
      requires Valid()
      modifies registry`signals
      ensures Signalled(old(Killables()), {}, old(registry.signals), registry.signals)
    {
      var todo := activeCommands.Keys;
      ghost var killables := Killables();
      while todo != {}
        invariant todo <= activeCommands.Keys && Killables() == killables
        invariant Signalled(killables, todo, old(registry.signals), registry.signals)
        decreases todo
      {
        var id :| id in todo;
        var s := activeCommands[id];
        ghost var more := if s.pid != 0 && !s.exited then [Term(s.id, s.pid, delivered(s.id))] else [];
        OneSignalled(killables, todo, id, old(registry.signals), registry.signals, more);
        RunClosure(s, delivered(s.id));
        todo := todo - {id};
      }
    }

    /**
     Stop: exactly the killable sessions of the active commands are signalled, the pending
     reconnect timer is cancelled, and the connection is handed out to be closed.
     */
    method Stop(delivered: string -> bool) returns (toClose: Option<nat>)
      requires Valid()
      modifies this`destroyed, this`activeCommands, this`conn, registry`signals, reconnect
      ensures Valid() && destroyed && activeCommands == map[] && conn == None && toClose == old(conn)
      ensures reconnect.attempt == 0 && reconnect.timer == None
      ensures old(reconnect.timer).Some? ==> old(reconnect.timer).value !in reconnect.armed
      ensures Signalled(old(Killables()), {}, old(registry.signals), registry.signals)
    {
      ghost var killables, signals := Killables(), registry.signals;
      destroyed := true;
      reconnect.Reset();
      assert Killables() == killables && registry.signals == signals;
      KillAll(delivered);
      assert Signalled(killables, {}, signals, registry.signals);
      activeCommands := map[];
      toClose := conn;
      conn := None;
    }

    /** handleTokenRotated; a failed write may leave other contents behind. */
    method HandleTokenRotated(newToken: string, ok: bool, left: Option<string>)
      modifies this`agentToken, this`file
      ensures newToken == "" ==> agentToken == old(agentToken) && file == old(file)
      ensures newToken != "" ==> agentToken == newToken
      ensures newToken != "" && tokenFile && ok ==> file == Some(FileText(newToken))
      ensures newToken != "" && tokenFile && ok && Tidy(newToken) ==> forall env :: LoadToken(file, env) == newToken
      ensures !tokenFile || (!ok && left.None?) ==> file == old(file)
      ensures newToken != "" && tokenFile && !ok && left.Some? ==> file == left
    {
      if newToken == "" { return; }
      agentToken := newToken;
      if !tokenFile { return; }
      if ok {
        file := Some(FileText(newToken));
        TrimResult(newToken);
      } else if left.Some? {
        file := left;
      }
    }

    /** scheduleReconnect: no timer is armed once destroyed is set. */
    method ScheduleReconnect(jitter: real, id: nat)
      modifies reconnect
      ensures destroyed ==> reconnect.armed == old(reconnect.armed) && reconnect.State() == old(reconnect.State())
      ensures !destroyed ==> reconnect.State() == R.Step(old(reconnect.State()), R.Op.Schedule(jitter))
      ensures !destroyed ==>
                reconnect.armed == old(reconnect.armed) +
                  if R.StepNote(old(reconnect.State()), R.Op.Schedule(jitter)).Armed? then {id} else {}
      ensures
        var note := R.StepNote(old(reconnect.State()), R.Op.Schedule(jitter));
        && reconnect.delays == old(reconnect.delays) + (if !destroyed && note.Armed? then [note.delay] else [])
        && reconnect.timer == if !destroyed && note.Armed? then Some(id) else old(reconnect.timer)
    {
      if destroyed { return; }
      var _ := reconnect.Schedule(jitter, id);
    }
  }
}
