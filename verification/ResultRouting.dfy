/**
 The mock broker's result router: reader goroutines offer results to a bounded channel and fall
 back to an overflow map; waiters take from both and park what is not theirs.
 */
module ResultRouting {
  import opened Basics

  const CHANNEL_CAPACITY: nat := 64

  datatype Entry = Entry(id: string, result: string)

  /** Where a WaitForResult call is. */
  datatype Waiter =
    | Starting(id: string)               // before the look into the map
    | Waiting(id: string)
    | Parking(id: string, e: Entry)      // took another id's result, before it is put in the map
    | Returned(id: string, e: Entry)
    | TimedOut(id: string)

  datatype State = State(
    channel: seq<Entry>,
    results: map<string, string>,
    readers: seq<Option<Entry>>,   // a result whose reader found the channel full
    waiters: seq<Waiter>,
    received: seq<Entry>,          // history: every command_result read
    lost: multiset<Entry>)         // history: results overwritten in the map

  datatype Action =
    | NewReader
    | Receive(r: nat, e: Entry)
    | Overflow(r: nat)
    | NewWaiter(id: string)
    | Look(w: nat)
    | Take(w: nat)
    | Park(w: nat)
    | Timeout(w: nat)

  const INIT := State([], map[], [], [], [], multiset{})

  /** results[e.id] = e.result, remembering what it replaces. */
  function Put(s: State, e: Entry): State {
    s.(results := s.results[e.id := e.result],
       lost := if e.id in s.results then s.lost + multiset{Entry(e.id, s.results[e.id])} else s.lost)
  }

  predicate Enabled(s: State, a: Action) {
    match a
    case NewReader => true
    case Receive(r, _) => r < |s.readers| && s.readers[r].None?
    case Overflow(r) => r < |s.readers| && s.readers[r].Some?
    case NewWaiter(_) => true
    case Look(w) => w < |s.waiters| && s.waiters[w].Starting?
    case Take(w) => w < |s.waiters| && s.waiters[w].Waiting? && s.channel != []
    case Park(w) => w < |s.waiters| && s.waiters[w].Parking?
    case Timeout(w) => w < |s.waiters| && s.waiters[w].Waiting?
  }

  function Next(s: State, a: Action): State
    requires Enabled(s, a)
  {
    match a
    case NewReader => s.(readers := s.readers + [None])
    case Receive(r, e) =>
      var noted := s.(received := s.received + [e]);
      if |s.channel| < CHANNEL_CAPACITY then noted.(channel := s.channel + [e])
      else noted.(readers := s.readers[r := Some(e)])
    case Overflow(r) => Put(s, s.readers[r].value).(readers := s.readers[r := None])
    case NewWaiter(id) => s.(waiters := s.waiters + [Starting(id)])
    case Look(w) =>
      var id := s.waiters[w].id;
      if id in s.results
      then s.(results := s.results - {id}, waiters := s.waiters[w := Returned(id, Entry(id, s.results[id]))])
      else s.(waiters := s.waiters[w := Waiting(id)])
    case Take(w) =>
      var id, e := s.waiters[w].id, s.channel[0];
      s.(channel := s.channel[1..], waiters := s.waiters[w := if e.id == id then Returned(id, e) else Parking(id, e)])
    case Park(w) => Put(s, s.waiters[w].e).(waiters := s.waiters[w := Waiting(s.waiters[w].id)])
    case Timeout(w) => s.(waiters := s.waiters[w := TimedOut(s.waiters[w].id)])
  }

  predicate Legal(s: State, run: seq<Action>)
    decreases run
  {
    run == [] || (Enabled(s, run[0]) && Legal(Next(s, run[0]), run[1..]))
  }

  function After(s: State, run: seq<Action>): State
    requires Legal(s, run)
    decreases run
  {
    if run == [] then s else After(Next(s, run[0]), run[1..])
  }

  // ---- where results are ----

  /** What a WaitForResult call holds or has returned. */
  function Hand(w: Waiter): Option<Entry> {
    if w.Parking? || w.Returned? then Some(w.e) else None
  }

  function Hands(waiters: seq<Waiter>): seq<Option<Entry>> {
    seq(|waiters|, i requires 0 <= i < |waiters| => Hand(waiters[i]))
  }

  /** How often `x` is among the given hands. */
  function Held(hands: seq<Option<Entry>>, x: Entry): nat {
    if hands == [] then 0 else Held(hands[..|hands| - 1], x) + One(hands[|hands| - 1] == Some(x))
  }

  function InMap(m: map<string, string>, x: Entry): nat {
    One(x.id in m && m[x.id] == x.result)
  }

  /** How often result `x` is in the channel, in the map, in a reader's or waiter's hand, or returned. */
  function Places(s: State, x: Entry): nat {
    multiset(s.channel)[x] + InMap(s.results, x) + Held(s.readers, x) + Held(Hands(s.waiters), x)
  }

  lemma HeldAppend(hands: seq<Option<Entry>>, h: Option<Entry>, x: Entry)
    ensures Held(hands + [h], x) == Held(hands, x) + One(h == Some(x))
  {
    assert (hands + [h])[..|hands|] == hands;
  }

  lemma {:induction false} HeldUpdate(hands: seq<Option<Entry>>, i: nat, h: Option<Entry>, x: Entry)
    requires i < |hands|
    ensures Held(hands[i := h], x) == Held(hands, x) - One(hands[i] == Some(x)) + One(h == Some(x))
  {
    var n := |hands| - 1;
    if i == n {
      assert hands[i := h][..n] == hands[..n];
    } else {
      HeldUpdate(hands[..n], i, h, x);
      assert hands[i := h][..n] == hands[..n][i := h];
    }
  }

  lemma HandsUpdate(waiters: seq<Waiter>, w: nat, v: Waiter, x: Entry)
    requires w < |waiters|
    ensures Held(Hands(waiters[w := v]), x) == Held(Hands(waiters), x) - One(Hand(waiters[w]) == Some(x)) +
      One(Hand(v) == Some(x))
  {
    HeldUpdate(Hands(waiters), w, Hand(v), x);
    assert Hands(waiters[w := v]) == Hands(waiters)[w := Hand(v)];
  }

  // ---- conservation ----

  predicate Conserved(s: State, x: Entry) {
    multiset(s.received)[x] == Places(s, x) + s.lost[x]
  }

  lemma PutCounts(s: State, e: Entry, x: Entry)
    ensures InMap(Put(s, e).results, x) + Put(s, e).lost[x] == InMap(s.results, x) + s.lost[x] + One(e == x)
  {
  }

  lemma ReceiveConserves(s: State, r: nat, e: Entry, x: Entry)
    requires Conserved(s, x) && Enabled(s, Receive(r, e))
    ensures Conserved(Next(s, Receive(r, e)), x)
  {
    HeldUpdate(s.readers, r, Some(e), x);
  }

  lemma OverflowConserves(s: State, r: nat, x: Entry)
    requires Conserved(s, x) && Enabled(s, Overflow(r))
    ensures Conserved(Next(s, Overflow(r)), x)
  {
    PutCounts(s, s.readers[r].value, x);
    HeldUpdate(s.readers, r, None, x);
  }

  lemma LookConserves(s: State, w: nat, x: Entry)
    requires Conserved(s, x) && Enabled(s, Look(w))
    ensures Conserved(Next(s, Look(w)), x)
  {
    HandsUpdate(s.waiters, w, Next(s, Look(w)).waiters[w], x);
  }

  lemma TakeConserves(s: State, w: nat, x: Entry)
    requires Conserved(s, x) && Enabled(s, Take(w))
    ensures Conserved(Next(s, Take(w)), x)
  {
    assert s.channel == [s.channel[0]] + s.channel[1..];
    HandsUpdate(s.waiters, w, Next(s, Take(w)).waiters[w], x);
  }

  lemma ParkConserves(s: State, w: nat, x: Entry)
    requires Conserved(s, x) && Enabled(s, Park(w))
    ensures Conserved(Next(s, Park(w)), x)
  {
    PutCounts(s, s.waiters[w].e, x);
    HandsUpdate(s.waiters, w, Waiting(s.waiters[w].id), x);
  }

  lemma StepConserves(s: State, a: Action, x: Entry)
    requires Conserved(s, x) && Enabled(s, a)
    ensures Conserved(Next(s, a), x)
  {
    match a
    case NewReader => HeldAppend(s.readers, None, x);
    case Receive(r, e) => ReceiveConserves(s, r, e, x);
    case Overflow(r) => OverflowConserves(s, r, x);
    case NewWaiter(id) =>
      HeldAppend(Hands(s.waiters), None, x);
      assert Hands(s.waiters + [Starting(id)]) == Hands(s.waiters) + [None];
    case Look(w) => LookConserves(s, w, x);
    case Take(w) => TakeConserves(s, w, x);
    case Park(w) => ParkConserves(s, w, x);
    case Timeout(w) => HandsUpdate(s.waiters, w, TimedOut(s.waiters[w].id), x);
  }

  // ---- distinct ids ----

  predicate DistinctIds(entries: seq<Entry>) {
    forall i, j :: 0 <= i < j < |entries| ==> entries[i].id != entries[j].id
  }

  lemma {:induction false} DistinctCounts(entries: seq<Entry>, x: Entry)
    requires DistinctIds(entries)
    ensures multiset(entries)[x] <= 1
  {
    if entries != [] {
      var n := |entries| - 1;
      assert entries == entries[..n] + [entries[n]];
      DistinctCounts(entries[..n], x);
    }
  }

  lemma {:induction false} HeldAt(hands: seq<Option<Entry>>, i: nat, x: Entry)
    requires i < |hands| && hands[i] == Some(x)
    ensures Held(hands, x) >= 1
  {
    if i < |hands| - 1 { HeldAt(hands[..|hands| - 1], i, x); }
  }

  lemma {:induction false} HeldAtTwo(hands: seq<Option<Entry>>, i: nat, j: nat, x: Entry)
    requires i < j < |hands| && hands[i] == Some(x) && hands[j] == Some(x)
    ensures Held(hands, x) >= 2
  {
    var n := |hands| - 1;
    if j < n { HeldAtTwo(hands[..n], i, j, x); } else { HeldAt(hands[..n], i, x); }
  }

  /** Two results that are in two places, with distinct ids received, have different ids. */
  lemma TwoPlacesTwoIds(s: State, x: Entry, y: Entry)
    requires DistinctIds(s.received) && Conserved(s, x) && Conserved(s, y)
    requires Places(s, x) >= 1 && Places(s, y) >= 1 && (x == y ==> Places(s, x) >= 2)
    ensures x.id != y.id
  {
    DistinctCounts(s.received, x);
    assert x in s.received && y in s.received;
    var i :| 0 <= i < |s.received| && s.received[i] == x;
    var j :| 0 <= j < |s.received| && s.received[j] == y;
    assert i != j;
  }

  ghost predicate Inv(s: State) {
    && (forall x :: Conserved(s, x))
    && (DistinctIds(s.received) ==> s.lost == multiset{})
    && (forall w :: 0 <= w < |s.waiters| && s.waiters[w].Returned? ==> s.waiters[w].e.id == s.waiters[w].id)
    && (forall w :: 0 <= w < |s.waiters| && s.waiters[w].Parking? ==> s.waiters[w].e.id != s.waiters[w].id)
    && |s.channel| <= CHANNEL_CAPACITY
  }

  /** With distinct ids nothing in the map is ever overwritten. */
  lemma NothingReplaced(s: State, e: Entry)
    requires Inv(s) && DistinctIds(s.received)
    requires Held(s.readers, e) + Held(Hands(s.waiters), e) >= 1
    ensures e.id !in s.results
  {
    if e.id in s.results {
      TwoPlacesTwoIds(s, e, Entry(e.id, s.results[e.id]));
    }
  }

  lemma LostKept(s: State, a: Action)
    requires Inv(s) && Enabled(s, a) && DistinctIds(Next(s, a).received)
    ensures Next(s, a).lost == multiset{}
  {
    var s' := Next(s, a);
    assert DistinctIds(s.received) by {
      assert forall i :: 0 <= i < |s.received| ==> s'.received[i] == s.received[i];
    }
    match a
    case Overflow(r) =>
      HeldAt(s.readers, r, s.readers[r].value);
      NothingReplaced(s, s.readers[r].value);
    case Park(w) =>
      HeldAt(Hands(s.waiters), w, s.waiters[w].e);
      NothingReplaced(s, s.waiters[w].e);
    case _ =>
  }

  lemma StepKeeps(s: State, a: Action)
    requires Inv(s) && Enabled(s, a)
    ensures Inv(Next(s, a))
  {
    forall x
      ensures Conserved(Next(s, a), x)
    {
      StepConserves(s, a, x);
    }
    if DistinctIds(Next(s, a).received) { LostKept(s, a); }
  }

  lemma {:induction false} RunKeeps(s: State, run: seq<Action>)
    requires Inv(s) && Legal(s, run)
    ensures Inv(After(s, run))
    decreases run
  {
    if run != [] {
      StepKeeps(s, run[0]);
      RunKeeps(Next(s, run[0]), run[1..]);
    }
  }

  /**
   Nothing is created or dropped: over every run, with any number of readers, waiters and
   timeouts, each received result is as often in the channel, the map, a hand or a return value,
   or overwritten in the map, as it was received; and the channel never exceeds its capacity.
   */
  lemma ResultsConserved(run: seq<Action>, x: Entry)
    requires Legal(INIT, run)
    ensures
      var s := After(INIT, run);
      multiset(s.received)[x] == Places(s, x) + s.lost[x] && |s.channel| <= CHANNEL_CAPACITY
  {
    RunKeeps(INIT, run);
    assert Conserved(After(INIT, run), x);
  }

  /** When the received ids are distinct, each received result is in exactly one place. */
  lemma ExactlyOnePlace(run: seq<Action>, x: Entry)
    requires Legal(INIT, run) && DistinctIds(After(INIT, run).received)
    ensures
      var s := After(INIT, run);
      Places(s, x) == if x in s.received then 1 else 0
  {
    RunKeeps(INIT, run);
    var s := After(INIT, run);
    assert Conserved(s, x);
    DistinctCounts(s.received, x);
  }

  /** A waiter returns a result of its own id that was received, and no two waiters return the same id. */
  lemma ReturnedOnce(run: seq<Action>, v: nat, w: nat)
    requires Legal(INIT, run) && DistinctIds(After(INIT, run).received)
    requires v < w < |After(INIT, run).waiters| && After(INIT, run).waiters[v].Returned?
    requires After(INIT, run).waiters[w].Returned?
    ensures
      var s := After(INIT, run);
      && s.waiters[v].e in s.received && s.waiters[v].e.id == s.waiters[v].id
      && s.waiters[w].e in s.received && s.waiters[w].e.id == s.waiters[w].id
      && s.waiters[v].id != s.waiters[w].id
  {
    RunKeeps(INIT, run);
    var s := After(INIT, run);
    var x, y := s.waiters[v].e, s.waiters[w].e;
    assert Conserved(s, x) && Conserved(s, y);
    HeldAt(Hands(s.waiters), v, x);
    HeldAt(Hands(s.waiters), w, y);
    if x == y { HeldAtTwo(Hands(s.waiters), v, w, x); }
    TwoPlacesTwoIds(s, x, y);
  }

  // ---- what the run delivered ----

  /** The results that the readers took off their connections in the course of `run`. */
  function Sent(run: seq<Action>): seq<Entry> {
    if run == [] then [] else (if run[0].Receive? then [run[0].e] else []) + Sent(run[1..])
  }

  /** Every result sent was received, in the order of the reads. */
  lemma {:induction false} SentIsReceived(s: State, run: seq<Action>)
    requires Legal(s, run)
    ensures After(s, run).received == s.received + Sent(run)
    decreases run
  {
    if run != [] { SentIsReceived(Next(s, run[0]), run[1..]); }
  }

  // ---- nobody has to hold on to a result ----

  /** The readers below `n` hold nothing. */
  predicate ReadersFree(s: State, n: nat) {
    forall r :: 0 <= r < n && r < |s.readers| ==> s.readers[r].None?
  }

  /** The calls below `n` are not about to park anything. */
  predicate NoneParks(s: State, n: nat) {
    forall w :: 0 <= w < n && w < |s.waiters| ==> !s.waiters[w].Parking?
  }

  lemma {:induction false} ReadersLetGo(s: State, from: nat) returns (more: seq<Action>)
    requires from <= |s.readers| && ReadersFree(s, from)
    ensures Legal(s, more) && ReadersFree(After(s, more), |s.readers|)
    ensures After(s, more).channel == s.channel && After(s, more).waiters == s.waiters
    ensures |After(s, more).readers| == |s.readers| && Sent(more) == []
    decreases |s.readers| - from
  {
    if from == |s.readers| { return []; }
    if s.readers[from].None? {
      more := ReadersLetGo(s, from + 1);
    } else {
      var a := Overflow(from);
      var rest := ReadersLetGo(Next(s, a), from + 1);
      assert ([a] + rest)[1..] == rest;
      more := [a] + rest;
    }
  }

  lemma {:induction false} CallsPark(s: State, from: nat) returns (more: seq<Action>)
    requires from <= |s.waiters| && NoneParks(s, from)
    ensures Legal(s, more) && NoneParks(After(s, more), |s.waiters|)
    ensures After(s, more).channel == s.channel && After(s, more).readers == s.readers
    ensures |After(s, more).waiters| == |s.waiters| && Sent(more) == []
    decreases |s.waiters| - from
  {
    if from == |s.waiters| { return []; }
    if !s.waiters[from].Parking? {
      more := CallsPark(s, from + 1);
    } else {
      var a := Park(from);
      var rest := CallsPark(Next(s, a), from + 1);
      assert ([a] + rest)[1..] == rest;
      more := [a] + rest;
    }
  }

  /**
   From every state, without a delivery and without touching the channel, all readers and calls can
   put what they hold where it is kept.
   */
  lemma HandsCanEmpty(s: State)
    ensures
      exists more ::
        && Legal(s, more) && Sent(more) == [] && After(s, more).channel == s.channel
        && ReadersFree(After(s, more), |After(s, more).readers|) && NoneParks(After(s, more), |After(s, more).waiters|)
  {
    var first := ReadersLetGo(s, 0);
    var t := After(s, first);
    var second := CallsPark(t, 0);
    Joined(s, first, second);
    SentJoined(first, second);
    assert Legal(s, first + second) && Sent(first + second) == [];
  }

  lemma {:induction false} Joined(s: State, first: seq<Action>, second: seq<Action>)
    requires Legal(s, first) && Legal(After(s, first), second)
    ensures Legal(s, first + second) && After(s, first + second) == After(After(s, first), second)
    decreases first
  {
    if first == [] {
      assert first + second == second;
    } else {
      Joined(Next(s, first[0]), first[1..], second);
      assert first + second == [first[0]] + (first[1..] + second);
      FirstStep(s, first[0], first[1..] + second);
    }
  }

  lemma FirstStep(s: State, a: Action, rest: seq<Action>)
    requires Enabled(s, a) && Legal(Next(s, a), rest)
    ensures Legal(s, [a] + rest) && After(s, [a] + rest) == After(Next(s, a), rest)
  {
    assert ([a] + rest)[1..] == rest;
  }

  lemma {:induction false} SentJoined(first: seq<Action>, second: seq<Action>)
    ensures Sent(first + second) == Sent(first) + Sent(second)
    decreases first
  {
    if first == [] {
      assert first + second == second;
    } else {
      SentJoined(first[1..], second);
      assert (first + second)[1..] == first[1..] + second;
    }
  }

  // ---- what the router does not promise ----

  lemma {:induction false} Then(run: seq<Action>, s: State, t: State, a: Action)
    requires Legal(s, run) && After(s, run) == t && Enabled(t, a)
    ensures Legal(s, run + [a]) && After(s, run + [a]) == Next(t, a)
    decreases run
  {
    if run == [] {
      assert ([] + [a])[1..] == [];
    } else {
      Then(run[1..], Next(s, run[0]), t, a);
      assert (run + [a])[0] == run[0] && (run + [a])[1..] == run[1..] + [a];
    }
  }

  /** One reader and two calls that have both looked into the map and are waiting. */
  lemma TwoWaiters(a: string, b: string) returns (run: seq<Action>, t: State)
    ensures Legal(INIT, run) && After(INIT, run) == t
    ensures t == INIT.(readers := [None], waiters := [Waiting(a), Waiting(b)])
  {
    Then([], INIT, INIT, NewReader);
    var t1 := INIT.(readers := [None]);
    Then([NewReader], INIT, t1, NewWaiter(a));
    var t2 := t1.(waiters := [Starting(a)]);
    var r2 := [NewReader] + [NewWaiter(a)];
    Then(r2, INIT, t2, NewWaiter(b));
    var t3 := t1.(waiters := [Starting(a), Starting(b)]);
    assert Next(t2, NewWaiter(b)) == t3;
    Then(r2 + [NewWaiter(b)], INIT, t3, Look(0));
    var t4 := t1.(waiters := [Waiting(a), Starting(b)]);
    assert Next(t3, Look(0)) == t4;
    Then(r2 + [NewWaiter(b)] + [Look(0)], INIT, t4, Look(1));
    run, t := r2 + [NewWaiter(b)] + [Look(0)] + [Look(1)], Next(t4, Look(1));
  }

  /** A call can time out although its result was received: the other waiter parked it where it no longer looks. */
  lemma ParkedResultMissed()
    ensures exists run :: Legal(INIT, run) &&
              var s := After(INIT, run);
              |s.waiters| == 2 && s.waiters[1] == TimedOut("b") && "b" in s.results && Entry("b", "ok") in s.received
  {
    var run, t := TwoWaiters("a", "b");
    var e := Entry("b", "ok");
    Then(run, INIT, t, Receive(0, e)); run := run + [Receive(0, e)];
    var t1 := t.(channel := [e], received := [e]);
    Then(run, INIT, t1, Take(0)); run := run + [Take(0)];
    var t2 := t.(received := [e], waiters := [Parking("a", e), Waiting("b")]);
    assert Next(t1, Take(0)) == t2;
    Then(run, INIT, t2, Park(0)); run := run + [Park(0)];
    var t3 := t.(received := [e], results := map["b" := "ok"]);
    assert Next(t2, Park(0)) == t3;
    Then(run, INIT, t3, Timeout(1)); run := run + [Timeout(1)];
    assert After(INIT, run) == Next(t3, Timeout(1));
  }

  /** A result for `id` is in the channel. */
  predicate InChannel(channel: seq<Entry>, id: string) {
    exists k :: 0 <= k < |channel| && channel[k].id == id
  }

  /** With no further delivery, `run` ends with waiter `w` having returned. */
  predicate Serves(s: State, run: seq<Action>, w: nat) {
    && Legal(s, run) && (forall i :: 0 <= i < |run| ==> !run[i].Receive?)
    && w < |After(s, run).waiters| && After(s, run).waiters[w].Returned?
  }

  /** The call is past its look into the map and the channel holds nothing for it. */
  predicate Missed(s: State, w: nat, id: string) {
    && w < |s.waiters| && !InChannel(s.channel, id)
    && (s.waiters[w] == Waiting(id) || s.waiters[w] == TimedOut(id) || (s.waiters[w].Parking? && s.waiters[w].id == id))
  }

  lemma MissedStep(s: State, a: Action, w: nat, id: string)
    requires Missed(s, w, id) && Enabled(s, a) && !a.Receive?
    ensures Missed(Next(s, a), w, id)
  {
    if a.Take? {
      assert forall k :: 0 <= k < |Next(s, a).channel| ==> Next(s, a).channel[k] == s.channel[k + 1];
      assert s.channel[0].id != id;
    }
  }

  lemma {:induction false} MissedForGood(s: State, run: seq<Action>, w: nat, id: string)
    requires Missed(s, w, id) && Legal(s, run) && forall i :: 0 <= i < |run| ==> !run[i].Receive?
    ensures Missed(After(s, run), w, id)
    decreases run
  {
    if run != [] {
      assert !run[0].Receive?;
      MissedStep(s, run[0], w, id);
      MissedForGood(Next(s, run[0]), run[1..], w, id);
    }
  }

  /** A waiting call that takes and parks until it meets its own result. */
  lemma {:induction false} TakesItsOwn(s: State, w: nat) returns (run: seq<Action>)
    requires w < |s.waiters| && s.waiters[w].Waiting? && InChannel(s.channel, s.waiters[w].id)
    ensures Serves(s, run, w)
    decreases |s.channel|
  {
    var id, t := s.waiters[w].id, Next(s, Take(w));
    if s.channel[0].id == id {
      run := [Take(w)];
      assert After(s, run) == t;
    } else {
      var u := Next(t, Park(w));
      assert InChannel(u.channel, id) by {
        var k :| 0 <= k < |s.channel| && s.channel[k].id == id;
        assert u.channel[k - 1] == s.channel[k];
      }
      var rest := TakesItsOwn(u, w);
      var tail := [Park(w)] + rest;
      assert After(t, tail) == After(u, rest);
      run := [Take(w)] + tail;
      assert After(s, run) == After(t, tail);
    }
  }

  /**
   Which calls can still be served, exactly: with no further delivery, a call that has looked into
   the map can return a result if and only if the channel holds one with its id; a result that was
   parked or overflowed into the map meanwhile does not help it.
   */
  lemma ServedExactly(s: State, w: nat)
    requires w < |s.waiters| && s.waiters[w].Waiting?
    ensures (exists run :: Serves(s, run, w)) <==> InChannel(s.channel, s.waiters[w].id)
  {
    if InChannel(s.channel, s.waiters[w].id) {
      var run := TakesItsOwn(s, w);
    } else if run :| Serves(s, run, w) {
      MissedForGood(s, run, w, s.waiters[w].id);
    }
  }

  // ---- the broker object, one call at a time ----

  /** The map after the given results have been parked in it, in order. */
  function ParkAll(results: map<string, string>, entries: seq<Entry>): map<string, string> {
    if entries == [] then results
    else
      var last := entries[|entries| - 1];
      ParkAll(results, entries[..|entries| - 1])[last.id := last.result]
  }

  /** The index of the first result for `id`. */
  predicate FirstFor(channel: seq<Entry>, id: string, k: nat) {
    k < |channel| && channel[k].id == id && forall j :: 0 <= j < k ==> channel[j].id != id
  }

  class MockBroker {
    var results: map<string, string>
    var resultCh: seq<Entry>

    constructor ()
      ensures results == map[] && resultCh == []
    {
      results, resultCh := map[], [];
    }

    /** readLoop on a command_result. */
    method Deliver(e: Entry)
      modifies this
      ensures |old(resultCh)| < CHANNEL_CAPACITY ==> resultCh == old(resultCh) + [e] && results == old(results)
      ensures |old(resultCh)| >= CHANNEL_CAPACITY ==>
        resultCh == old(resultCh) && results == old(results)[e.id := e.result]
    {
      if |resultCh| < CHANNEL_CAPACITY {
        resultCh := resultCh + [e];
      } else {
        results := results[e.id := e.result];
      }
    }

    /**
     WaitForResult with nobody else running: a stored result is removed from the map; otherwise the
     first match is taken from the channel, and everything in front of it, or everything when there
     is no match before the deadline, ends up in the map.
     */
    method WaitForResult(id: string) returns (r: Option<string>)
      modifies this
      ensures id in old(results) ==>
                r == Some(old(results)[id]) && results == old(results) - {id} && resultCh == old(resultCh)
      ensures id !in old(results) && r.None? ==>
                && (forall k :: 0 <= k < |old(resultCh)| ==> old(resultCh)[k].id != id)
                && resultCh == [] && results == ParkAll(old(results), old(resultCh))
      ensures id !in old(results) && r.Some? ==>
                exists k: nat :: FirstFor(old(resultCh), id, k) && r.value == old(resultCh)[k].result &&
                  resultCh == old(resultCh)[k + 1..] && results == ParkAll(old(results), old(resultCh)[..k])
    {
      if id in results {
        r := Some(results[id]);
        results := results - {id};
        return;
      }
      ghost var k := 0;
      while resultCh != []
        invariant k <= |old(resultCh)| && resultCh == old(resultCh)[k..]
        invariant forall j :: 0 <= j < k ==> old(resultCh)[j].id != id
        invariant results == ParkAll(old(results), old(resultCh)[..k])
        decreases |resultCh|
      {
        var entry := resultCh[0];
        resultCh := resultCh[1..];
        if entry.id == id {
          assert FirstFor(old(resultCh), id, k);
          return Some(entry.result);
        }
        assert old(resultCh)[..k + 1][..k] == old(resultCh)[..k];
        results := results[entry.id := entry.result];
        k := k + 1;
      }
      assert old(resultCh)[..k] == old(resultCh);
      return None;
    }
  }
}
