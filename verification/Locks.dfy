/**
 The four kinds of mutex and the blocks of code that hold them. Any number of goroutines, each
 running any sequence of these blocks, can never all be waiting for each other.
 */
module Locks {

  datatype Lock = SendMu | ActuatorMu | RegistryMu | SessionMu(sid: string)

  function Rank(l: Lock): nat {
    match l
    case SendMu => 0
    case ActuatorMu => 1
    case RegistryMu => 2
    case SessionMu(_) => 3
  }

  datatype Op = Acquire(lock: Lock, shared: bool) | Release(lock: Lock) | Work

  /** Pieces of code between which a goroutine holds no lock. */
  datatype Block =
    | Unlocked                     // system calls, channel-free computation
    | Lookup                       // GetSession, ListSessions
    | Register                     // AddSession
    | OnSession(sid: string)       // GetSession, then a block under the session's mutex
    | SessionOnly(sid: string)     // ToProcessInfo, or the body of the delayed SIGKILL goroutine
    | ActuatorBlock                // a short block under Actuator.mu
    | Send                         // send: reads the connection under Actuator.mu, writes under sendMu
    | StopBlock(sids: seq<string>) // Stop: KillSession for each entry, all under Actuator.mu

  function LookupOps(): seq<Op> {
    [Acquire(RegistryMu, true), Release(RegistryMu)]
  }

  function KillOps(sids: seq<string>): seq<Op> {
    if sids == [] then [] else LookupOps() + [Work] + KillOps(sids[1..])
  }

  function OpsOf(b: Block): seq<Op> {
    match b
    case Unlocked => [Work]
    case Lookup => LookupOps()
    case Register => [Acquire(RegistryMu, false), Work, Release(RegistryMu)]
    case OnSession(sid) => LookupOps() + [Acquire(SessionMu(sid), false), Work, Release(SessionMu(sid))]
    case SessionOnly(sid) => [Acquire(SessionMu(sid), false), Work, Release(SessionMu(sid))]
    case ActuatorBlock => [Acquire(ActuatorMu, false), Work, Release(ActuatorMu)]
    case Send => [Acquire(SendMu, false), Acquire(ActuatorMu, false), Release(ActuatorMu), Work, Release(SendMu)]
    case StopBlock(sids) => [Acquire(ActuatorMu, false)] + (KillOps(sids) + [Release(ActuatorMu)])
  }

  function ProgramOf(blocks: seq<Block>): seq<Op> {
    if blocks == [] then [] else OpsOf(blocks[0]) + ProgramOf(blocks[1..])
  }

  // ---- the system ----

  /** A goroutine: the operations still to do, and the locks held, true meaning shared. */
  datatype Thread = Thread(todo: seq<Op>, held: map<Lock, bool>)

  type State = seq<Thread>

  /** A goroutine may be any sequence of blocks, so every path through every function is included. */
  datatype Action = Spawn(blocks: seq<Block>) | Step(t: nat)

  predicate WantsExclusive(th: Thread, l: Lock) {
    th.todo != [] && th.todo[0] == Acquire(l, false)
  }

  /** Go's rules: a reader also waits while a writer is waiting. */
  predicate Available(s: State, t: nat, l: Lock, shared: bool) {
    forall u :: 0 <= u < |s| && u != t ==>
      if shared then (l in s[u].held ==> s[u].held[l]) && !WantsExclusive(s[u], l)
      else l !in s[u].held
  }

  predicate CanStep(s: State, t: nat) {
    && t < |s| && s[t].todo != []
    && (s[t].todo[0].Acquire? ==> Available(s, t, s[t].todo[0].lock, s[t].todo[0].shared))
  }

  function StepThread(th: Thread): Thread
    requires th.todo != []
  {
    match th.todo[0]
    case Acquire(l, shared) => Thread(th.todo[1..], th.held[l := shared])
    case Release(l) => Thread(th.todo[1..], th.held - {l})
    case Work => Thread(th.todo[1..], th.held)
  }

  predicate Enabled(s: State, a: Action) {
    a.Step? ==> CanStep(s, a.t)
  }

  function Next(s: State, a: Action): State
    requires Enabled(s, a)
  {
    match a
    case Spawn(blocks) => s + [Thread(ProgramOf(blocks), map[])]
    case Step(t) => s[t := StepThread(s[t])]
  }

  predicate Legal(s: State, run: seq<Action>)
    decreases run
  {
    run == [] || (Enabled(s, run[0]) && Legal(Next(s, run[0]), run[1..]))
  }

  function After(s: State, run: seq<Action>): State
    requires Legal(s, run)
    decreases run
  {
    if run == [] then s else After(Next(s, run[0]), run[1..])
  }

  // ---- every program respects the order ----

  /** Locks are taken in increasing rank, released only when held, and all released at the end. */
  predicate Ordered(todo: seq<Op>, held: set<Lock>)
    decreases todo
  {
    if todo == [] then held == {}
    else
      match todo[0]
      case Acquire(l, _) => (forall h :: h in held ==> Rank(h) < Rank(l)) && Ordered(todo[1..], held + {l})
      case Release(l) => l in held && Ordered(todo[1..], held - {l})
      case Work => Ordered(todo[1..], held)
  }

  lemma {:induction false} OrderedConcat(p: seq<Op>, q: seq<Op>, held: set<Lock>)
    requires Ordered(p, held) && Ordered(q, {})
    ensures Ordered(p + q, held)
    decreases p
  {
    if p == [] {
      assert p + q == q;
    } else {
      assert (p + q)[1..] == p[1..] + q;
      match p[0]
      case Acquire(l, _) => OrderedConcat(p[1..], q, held + {l});
      case Release(l) => OrderedConcat(p[1..], q, held - {l});
      case Work => OrderedConcat(p[1..], q, held);
    }
  }

  /** The kills inside `Stop` take the registry lock under Actuator.mu, one after another. */
  lemma {:induction false} KillsOrdered(sids: seq<string>)
    ensures Ordered(KillOps(sids) + [Release(ActuatorMu)], {ActuatorMu})
  {
    if sids == [] {
      assert {ActuatorMu} - {ActuatorMu} == {};
      assert KillOps(sids) + [Release(ActuatorMu)] == [Release(ActuatorMu)];
    } else {
      KillsOrdered(sids[1..]);
      var rest := KillOps(sids[1..]) + [Release(ActuatorMu)];
      var all := KillOps(sids) + [Release(ActuatorMu)];
      assert all == [Acquire(RegistryMu, true), Release(RegistryMu), Work] + rest;
      assert {ActuatorMu} + {RegistryMu} - {RegistryMu} == {ActuatorMu};
      assert all[1..][1..][1..] == rest;
      assert Ordered(all[1..][1..], {ActuatorMu});
      assert Ordered(all[1..], {ActuatorMu} + {RegistryMu});
    }
  }

  lemma SectionOrdered(l: Lock, shared: bool)
    ensures Ordered([Acquire(l, shared), Work, Release(l)], {})
    ensures Ordered([Acquire(l, shared), Release(l)], {})
  {
    var p, q := [Acquire(l, shared), Work, Release(l)], [Acquire(l, shared), Release(l)];
    assert {} + {l} - {l} == {};
    assert p[1..] == [Work, Release(l)] && p[1..][1..] == [Release(l)] && q[1..] == [Release(l)];
    assert Ordered([Release(l)], {} + {l});
  }

  lemma SendOrdered()
    ensures Ordered(OpsOf(Send), {})
  {
    var p := OpsOf(Send);
    var held := {} + {SendMu};
    assert held + {ActuatorMu} - {ActuatorMu} == held && held - {SendMu} == {};
    assert p[4..] == [Release(SendMu)] && p[4..][1..] == [];
    assert Ordered(p[4..], held);
    assert p[3..][1..] == p[4..];
    assert Ordered(p[3..], held);
    assert p[2..][1..] == p[3..];
    assert Ordered(p[2..], held + {ActuatorMu});
    assert p[1..][1..] == p[2..];
    assert Ordered(p[1..], held);
  }

  lemma BlockOrdered(b: Block)
    ensures Ordered(OpsOf(b), {})
  {
    match b
    case Unlocked => assert [Work][1..] == [];
    case Lookup => SectionOrdered(RegistryMu, true);
    case Register => SectionOrdered(RegistryMu, false);
    case OnSession(sid) =>
      SectionOrdered(RegistryMu, true);
      SectionOrdered(SessionMu(sid), false);
      OrderedConcat(LookupOps(), [Acquire(SessionMu(sid), false), Work, Release(SessionMu(sid))], {});
    case SessionOnly(sid) => SectionOrdered(SessionMu(sid), false);
    case ActuatorBlock => SectionOrdered(ActuatorMu, false);
    case Send => SendOrdered();
    case StopBlock(sids) =>
      KillsOrdered(sids);
      assert {} + {ActuatorMu} == {ActuatorMu};
      assert OpsOf(b)[1..] == KillOps(sids) + [Release(ActuatorMu)];
  }

  /** Whatever blocks a goroutine runs, in whatever number, it follows the lock order. */
  lemma {:induction false} ProgramOrdered(blocks: seq<Block>)
    ensures Ordered(ProgramOf(blocks), {})
  {
    if blocks != [] {
      BlockOrdered(blocks[0]);
      ProgramOrdered(blocks[1..]);
      OrderedConcat(OpsOf(blocks[0]), ProgramOf(blocks[1..]), {});
    }
  }

  // ---- no deadlock ----

  ghost predicate AllOrdered(s: State) {
    forall t :: 0 <= t < |s| ==> Ordered(s[t].todo, s[t].held.Keys)
  }

  lemma StepKeeps(s: State, a: Action)
    requires AllOrdered(s) && Enabled(s, a)
    ensures AllOrdered(Next(s, a))
  {
    match a
    case Spawn(blocks) =>
      ProgramOrdered(blocks);
      assert Thread(ProgramOf(blocks), map[]).held.Keys == {};
    case Step(t) =>
      var th := s[t];
      assert Ordered(th.todo, th.held.Keys);
      match th.todo[0] {
        case Acquire(l, shared) => assert th.held[l := shared].Keys == th.held.Keys + {l};
        case Release(l) => assert (th.held - {l}).Keys == th.held.Keys - {l};
        case Work =>
      }
  }

  lemma {:induction false} RunKeeps(s: State, run: seq<Action>)
    requires AllOrdered(s) && Legal(s, run)
    ensures AllOrdered(After(s, run))
    decreases run
  {
    if run != [] {
      StepKeeps(s, run[0]);
      RunKeeps(Next(s, run[0]), run[1..]);
    }
  }

  function WantedRank(th: Thread): nat {
    if th.todo != [] && th.todo[0].Acquire? then Rank(th.todo[0].lock) else 4
  }

  /** A goroutine that waits, waits for one that wants something of higher rank, or for a writer that does. */
  lemma {:induction false} SomeoneSteps(s: State, t: nat)
    requires AllOrdered(s) && t < |s| && s[t].todo != []
    ensures exists u: nat :: CanStep(s, u)
    decreases 4 - WantedRank(s[t]), if s[t].todo[0].Acquire? && s[t].todo[0].shared then 1 else 0
  {
    if !CanStep(s, t) {
      var l, shared := s[t].todo[0].lock, s[t].todo[0].shared;
      var u: nat :| u < |s| && u != t &&
                    !(if shared then (l in s[u].held ==> s[u].held[l]) && !WantsExclusive(s[u], l)
                      else l !in s[u].held);
      assert Ordered(s[u].todo, s[u].held.Keys);
      if l in s[u].held {
        assert s[u].todo != [];
        assert s[u].todo[0].Acquire? ==> Rank(l) < Rank(s[u].todo[0].lock);
      }
      SomeoneSteps(s, u);
    }
  }

  /**
   No reachable state is a deadlock: however many goroutines run and however they are interleaved,
   as long as one of them is unfinished some goroutine can take a step.
   */
  lemma DeadlockFree(run: seq<Action>, t: nat)
    requires Legal([], run) && t < |After([], run)| && After([], run)[t].todo != []
    ensures exists u: nat :: CanStep(After([], run), u)
  {
    RunKeeps([], run);
    SomeoneSteps(After([], run), t);
  }

  // ---- what is done under which lock ----

  /** The locks held just before operation `k` of a goroutine that started with none. */
  function HeldBefore(ops: seq<Op>, k: nat): set<Lock>
    requires k <= |ops|
  {
    if k == 0 then {}
    else
      match ops[k - 1]
      case Acquire(l, _) => HeldBefore(ops, k - 1) + {l}
      case Release(l) => HeldBefore(ops, k - 1) - {l}
      case Work => HeldBefore(ops, k - 1)
  }

  /** Operation `k` is the work of the block, done while holding exactly `held`. */
  predicate WorksUnder(ops: seq<Op>, k: nat, held: set<Lock>) {
    k < |ops| && ops[k].Work? && HeldBefore(ops, k) == held
  }

  lemma HeldStep(ops: seq<Op>, k: nat)
    requires k < |ops|
    ensures HeldBefore(ops, k + 1) == match ops[k]
                                      case Acquire(l, _) => HeldBefore(ops, k) + {l}
                                      case Release(l) => HeldBefore(ops, k) - {l}
                                      case Work => HeldBefore(ops, k)
  {
  }

  /** The registry's own lock is for registering; a session's block holds only that session's lock. */
  lemma SessionWorkIsLocked(sid: string)
    ensures WorksUnder(OpsOf(Register), 1, {RegistryMu}) && OpsOf(Register)[0] == Acquire(RegistryMu, false)
    ensures WorksUnder(OpsOf(OnSession(sid)), 3, {SessionMu(sid)})
    ensures OpsOf(OnSession(sid))[2] == Acquire(SessionMu(sid), false)
    ensures WorksUnder(OpsOf(SessionOnly(sid)), 1, {SessionMu(sid)})
    ensures OpsOf(SessionOnly(sid))[0] == Acquire(SessionMu(sid), false)
    ensures OpsOf(Lookup)[0] == Acquire(RegistryMu, true)
    ensures WorksUnder(OpsOf(Unlocked), 0, {})
  {
    HeldStep(OpsOf(Register), 0);
    HeldStep(OpsOf(SessionOnly(sid)), 0);
    var ops := OpsOf(OnSession(sid));
    HeldStep(ops, 0);
    HeldStep(ops, 1);
    HeldStep(ops, 2);
  }

  /** A message is written under sendMu alone, with the connection read before under Actuator.mu. */
  lemma SendWorkIsLocked()
    ensures WorksUnder(OpsOf(Send), 3, {SendMu}) && HeldBefore(OpsOf(Send), 2) == {SendMu, ActuatorMu}
    ensures OpsOf(Send)[0] == Acquire(SendMu, false) && OpsOf(Send)[1] == Acquire(ActuatorMu, false)
    ensures WorksUnder(OpsOf(ActuatorBlock), 1, {ActuatorMu}) && OpsOf(ActuatorBlock)[0] == Acquire(ActuatorMu, false)
  {
    HeldStep(OpsOf(ActuatorBlock), 0);
    var ops := OpsOf(Send);
    HeldStep(ops, 0);
    HeldStep(ops, 1);
    HeldStep(ops, 2);
  }

  lemma {:induction false} KillsKeepMu(sids: seq<string>)
    ensures forall k :: 0 <= k < |KillOps(sids)| ==> KillOps(sids)[k] != Release(ActuatorMu)
    ensures |KillOps(sids)| == 3 * |sids|
    ensures forall k :: 0 <= k < |sids| ==> KillOps(sids)[3 * k + 2].Work?
  {
    if sids != [] {
      KillsKeepMu(sids[1..]);
      var rest := KillOps(sids[1..]);
      assert KillOps(sids) == LookupOps() + [Work] + rest;
      forall k | 0 <= k < |sids|
        ensures KillOps(sids)[3 * k + 2].Work?
      {
        if k > 0 { assert KillOps(sids)[3 * k + 2] == rest[3 * (k - 1) + 2]; }
      }
    }
  }

  /** Stop makes one KillSession call for each entry, and holds Actuator.mu from before the first to after the last. */
  lemma {:induction false} StopWorkIsLocked(sids: seq<string>, k: nat)
    requires 0 < k < |OpsOf(StopBlock(sids))|
    ensures ActuatorMu in HeldBefore(OpsOf(StopBlock(sids)), k)
    ensures |OpsOf(StopBlock(sids))| == 3 * |sids| + 2 && OpsOf(StopBlock(sids))[0] == Acquire(ActuatorMu, false)
    ensures forall i :: 0 <= i < |sids| ==> OpsOf(StopBlock(sids))[3 * i + 3].Work?
  {
    var ops := OpsOf(StopBlock(sids));
    KillsKeepMu(sids);
    HeldStep(ops, k - 1);
    if k > 1 {
      StopWorkIsLocked(sids, k - 1);
      assert ops[k - 1] == KillOps(sids)[k - 2];
    }
  }

  /** A goroutine runs the operations of its blocks one after another. */
  lemma {:induction false} ProgramIsBlocks(blocks: seq<Block>, more: seq<Block>)
    ensures ProgramOf(blocks + more) == ProgramOf(blocks) + ProgramOf(more)
    decreases blocks
  {
    if blocks == [] {
      NoBlocks(more);
    } else {
      ProgramIsBlocks(blocks[1..], more);
      AnotherBlock(blocks[0], blocks[1..], more);
      assert [blocks[0]] + blocks[1..] == blocks;
    }
  }

  lemma NoBlocks(more: seq<Block>)
    ensures ProgramOf([] + more) == ProgramOf([]) + ProgramOf(more)
  {
    assert [] + more == more;
  }

  lemma AnotherBlock(b: Block, rest: seq<Block>, more: seq<Block>)
    requires ProgramOf(rest + more) == ProgramOf(rest) + ProgramOf(more)
    ensures ProgramOf([b] + rest + more) == ProgramOf([b] + rest) + ProgramOf(more)
  {
    SameSum([b], rest, more);
    FirstBlock(b, rest);
    FirstBlock(b, rest + more);
    SameSum(OpsOf(b), ProgramOf(rest), ProgramOf(more));
  }

  lemma SameSum<T>(p: seq<T>, q: seq<T>, r: seq<T>)
    ensures p + q + r == p + (q + r)
  {
  }

  lemma FirstBlock(b: Block, rest: seq<Block>)
    ensures ProgramOf([b] + rest) == OpsOf(b) + ProgramOf(rest)
  {
    assert ([b] + rest)[1..] == rest;
  }

  lemma ProgramOfOne(b: Block)
    ensures ProgramOf([b]) == OpsOf(b)
  {
    assert [b][1..] == [] && OpsOf(b) + [] == OpsOf(b);
  }

  // ---- what a run has done ----

  /** The programs of the goroutines started in the course of `run`. */
  function Started(run: seq<Action>): seq<seq<Op>> {
    if run == [] then [] else (if run[0].Spawn? then [ProgramOf(run[0].blocks)] else []) + Started(run[1..])
  }

  /** How many steps goroutine `t` takes in the course of `run`. */
  function StepsOf(run: seq<Action>, t: nat): nat {
    if run == [] then 0 else (if run[0] == Step(t) then 1 else 0) + StepsOf(run[1..], t)
  }

  /** The goroutine has done the first `k` operations of `program`, and holds what they leave held. */
  ghost predicate At(th: Thread, program: seq<Op>, k: nat) {
    k <= |program| && th.todo == program[k..] && th.held.Keys == HeldBefore(program, k)
  }

  lemma StepAt(th: Thread, program: seq<Op>, k: nat)
    requires At(th, program, k) && th.todo != []
    ensures At(StepThread(th), program, k + 1)
  {
    HeldStep(program, k);
    assert th.todo[0] == program[k] && th.todo[1..] == program[k + 1..];
    match program[k]
    case Acquire(l, shared) => assert th.held[l := shared].Keys == th.held.Keys + {l};
    case Release(l) => assert (th.held - {l}).Keys == th.held.Keys - {l};
    case Work =>
  }

  ghost predicate AllAt(s: State, programs: seq<seq<Op>>, at: seq<nat>) {
    |programs| == |s| && |at| == |s| && forall t :: 0 <= t < |s| ==> At(s[t], programs[t], at[t])
  }

  /** Where goroutine `t` is after `run`, started at `at` or in the run. */
  function Place(at: seq<nat>, run: seq<Action>, t: nat): nat {
    (if t < |at| then at[t] else 0) + StepsOf(run, t)
  }

  lemma SpawnAllAt(s: State, blocks: seq<Block>, programs: seq<seq<Op>>, at: seq<nat>)
    requires AllAt(s, programs, at)
    ensures AllAt(Next(s, Spawn(blocks)), programs + [ProgramOf(blocks)], at + [0])
  {
    var th := Next(s, Spawn(blocks))[|s|];
    assert At(th, ProgramOf(blocks), 0);
  }

  lemma StepAllAt(s: State, u: nat, programs: seq<seq<Op>>, at: seq<nat>)
    requires AllAt(s, programs, at) && CanStep(s, u)
    ensures AllAt(Next(s, Step(u)), programs, at[u := at[u] + 1])
  {
    StepAt(s[u], programs[u], at[u]);
  }

  ghost predicate Reached(s: State, programs: seq<seq<Op>>, at: seq<nat>, run: seq<Action>) {
    |s| == |programs| && forall t :: 0 <= t < |s| ==> At(s[t], programs[t], Place(at, run, t))
  }

  lemma SpawnReached(s: State, programs: seq<seq<Op>>, at: seq<nat>, blocks: seq<Block>, run: seq<Action>)
    requires Reached(s, programs + [ProgramOf(blocks)] + Started(run), at + [0], run)
    ensures Reached(s, programs + Started([Spawn(blocks)] + run), at, [Spawn(blocks)] + run)
  {
    var all := [Spawn(blocks)] + run;
    assert all[1..] == run;
    assert programs + [ProgramOf(blocks)] + Started(run) == programs + Started(all);
    forall t | 0 <= t < |s|
      ensures Place(at, all, t) == Place(at + [0], run, t)
    {
    }
  }

  lemma StepReached(s: State, programs: seq<seq<Op>>, at: seq<nat>, u: nat, run: seq<Action>)
    requires u < |at| && Reached(s, programs + Started(run), at[u := at[u] + 1], run)
    ensures Reached(s, programs + Started([Step(u)] + run), at, [Step(u)] + run)
  {
    var all := [Step(u)] + run;
    assert all[1..] == run;
    assert Started(all) == Started(run);
    forall t | 0 <= t < |s|
      ensures Place(at, all, t) == Place(at[u := at[u] + 1], run, t)
    {
    }
  }

  lemma {:induction false} RunDoes(s: State, run: seq<Action>, programs: seq<seq<Op>>, at: seq<nat>)
    requires Legal(s, run) && AllAt(s, programs, at)
    ensures Reached(After(s, run), programs + Started(run), at, run)
    decreases run
  {
    if run == [] {
      assert programs + [] == programs;
    } else {
      var a, rest := run[0], run[1..];
      assert run == [a] + rest;
      match a
      case Spawn(blocks) =>
        SpawnAllAt(s, blocks, programs, at);
        RunDoes(Next(s, a), rest, programs + [ProgramOf(blocks)], at + [0]);
        SpawnReached(After(s, run), programs, at, blocks, rest);
      case Step(u) =>
        StepAllAt(s, u, programs, at);
        RunDoes(Next(s, a), rest, programs, at[u := at[u] + 1]);
        StepReached(After(s, run), programs, at, u, rest);
    }
  }

  /**
   Whatever is interleaved, every goroutine started is there, has done one operation of its program
   for each of its steps, in order, and holds exactly the locks it took and has not released.
   */
  lemma ProgramsAreRun(run: seq<Action>, t: nat)
    requires Legal([], run) && t < |Started(run)|
    ensures |After([], run)| == |Started(run)|
    ensures At(After([], run)[t], Started(run)[t], StepsOf(run, t))
  {
    RunDoes([], run, [], []);
    assert [] + Started(run) == Started(run);
  }

  /** The order in words: sendMu, Actuator.mu, Registry.mu, Session.mu. */
  lemma RanksFollowOrder(sid: string)
    ensures Rank(SendMu) < Rank(ActuatorMu) < Rank(RegistryMu) < Rank(SessionMu(sid))
  {
  }

  // ---- who may hold a lock with whom ----

  /** Only the registry's lock is ever asked for, or held, for reading. */
  predicate ReadsRegistryOnly(th: Thread) {
    && (forall k :: 0 <= k < |th.todo| && th.todo[k].Acquire? && th.todo[k].shared ==> th.todo[k].lock == RegistryMu)
    && (forall l :: l in th.held && th.held[l] ==> l == RegistryMu)
  }

  lemma {:induction false} KillsReadRegistry(sids: seq<string>)
    ensures forall k :: 0 <= k < |KillOps(sids)| && KillOps(sids)[k].Acquire? && KillOps(sids)[k].shared ==>
              KillOps(sids)[k].lock == RegistryMu
  {
    if sids != [] { KillsReadRegistry(sids[1..]); }
  }

  lemma {:induction false} ProgramReadsRegistry(blocks: seq<Block>)
    ensures ReadsRegistryOnly(Thread(ProgramOf(blocks), map[]))
    decreases blocks
  {
    if blocks != [] {
      ProgramReadsRegistry(blocks[1..]);
      var first, rest := OpsOf(blocks[0]), ProgramOf(blocks[1..]);
      if blocks[0].StopBlock? { KillsReadRegistry(blocks[0].sids); }
      assert Thread(rest, map[]).todo == rest;
      assert forall k :: 0 <= k < |first| && first[k].Acquire? && first[k].shared ==> first[k].lock == RegistryMu;
    }
  }

  /** Two goroutines hold the same lock only if it is the registry's and both hold it for reading. */
  ghost predicate Apart(s: State) {
    && (forall t :: 0 <= t < |s| ==> ReadsRegistryOnly(s[t]))
    && (forall t, u, l :: 0 <= t < |s| && 0 <= u < |s| && t != u && l in s[t].held && l in s[u].held ==>
          s[t].held[l] && s[u].held[l])
  }

  lemma StepApart(s: State, a: Action)
    requires Apart(s) && Enabled(s, a)
    ensures Apart(Next(s, a))
  {
    match a
    case Spawn(blocks) => ProgramReadsRegistry(blocks);
    case Step(t) =>
      var th, th' := s[t], StepThread(s[t]);
      assert forall k :: 0 <= k < |th'.todo| ==> th'.todo[k] == th.todo[k + 1];
      assert ReadsRegistryOnly(th');
  }

  lemma {:induction false} RunApart(s: State, run: seq<Action>)
    requires Apart(s) && Legal(s, run)
    ensures Apart(After(s, run))
    decreases run
  {
    if run != [] {
      StepApart(s, run[0]);
      RunApart(Next(s, run[0]), run[1..]);
    }
  }

  /**
   No session's block, no send and no Actuator block is ever run by two goroutines at once: whatever
   is interleaved, two goroutines hold the same lock only for looking something up in the registry.
   */
  lemma BlocksExclude(run: seq<Action>, t: nat, u: nat, l: Lock)
    requires Legal([], run) && t < |After([], run)| && u < |After([], run)| && t != u
    requires l in After([], run)[t].held && l in After([], run)[u].held
    ensures l == RegistryMu && After([], run)[t].held[l] && After([], run)[u].held[l]
  {
    RunApart([], run);
  }

  /** A lookup waits while another goroutine waits to register. */
  lemma WritersFirst(s: State, t: nat, u: nat)
    requires t < |s| && u < |s| && t != u && s[t].todo != [] && s[u].todo != []
    requires s[t].todo[0] == Acquire(RegistryMu, true) && s[u].todo[0] == Acquire(RegistryMu, false)
    ensures !CanStep(s, t)
  {
  }

  // ---- every goroutine finishes ----

  function OpsLeft(s: State): nat {
    if s == [] then 0 else OpsLeft(s[..|s| - 1]) + |s[|s| - 1].todo|
  }

  lemma {:induction false} OneLess(s: State, t: nat, th: Thread)
    requires t < |s| && |th.todo| == |s[t].todo| - 1
    ensures OpsLeft(s[t := th]) == OpsLeft(s) - 1
  {
    var n := |s| - 1;
    if t == n {
      assert s[t := th][..n] == s[..n];
    } else {
      OneLess(s[..n], t, th);
      assert s[t := th][..n] == s[..n][t := th];
    }
  }

  lemma {:induction false} NoneLeft(s: State)
    requires forall t :: 0 <= t < |s| ==> s[t].todo == []
    ensures OpsLeft(s) == 0
  {
    if s != [] { NoneLeft(s[..|s| - 1]); }
  }

  /**
   Every goroutine can finish: from any reachable state, without starting another, there is a run of
   exactly as many steps as there are operations left, after which all have finished.
   */
  lemma {:induction false} AllFinish(s: State) returns (run: seq<Action>)
    requires AllOrdered(s)
    ensures Legal(s, run) && |run| == OpsLeft(s) && (forall i :: 0 <= i < |run| ==> run[i].Step?)
    ensures forall t :: 0 <= t < |After(s, run)| ==> After(s, run)[t].todo == []
    decreases OpsLeft(s)
  {
    if t: nat :| t < |s| && s[t].todo != [] {
      SomeoneSteps(s, t);
      var u: nat :| CanStep(s, u);
      var a := Step(u);
      OneLess(s, u, StepThread(s[u]));
      StepKeeps(s, a);
      var rest := AllFinish(Next(s, a));
      run := [a] + rest;
      assert After(s, run) == After(Next(s, a), rest);
    } else {
      NoneLeft(s);
      run := [];
    }
  }
}
