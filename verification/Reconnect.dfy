/** Exponential backoff with jitter, and what it guarantees over any run of Schedule and Reset calls. */
module Reconnect {
  import opened Basics

  const JITTER_MS := 1000.0

  datatype Backoff = Backoff(attempt: nat, baseMs: real, maxMs: real, maxAttempts: int)

  /** NewReconnectManager: zero options mean one second, thirty seconds and no attempt cap. */
  function New(baseMs: real, maxMs: real, maxAttempts: int): Backoff {
    Backoff(0,
            if baseMs == 0.0 then 1000.0 else baseMs,
            if maxMs == 0.0 then 30000.0 else maxMs,
            if maxAttempts == 0 then -1 else maxAttempts)
  }

  function Pow2(k: nat): real {
    if k == 0 then 1.0 else 2.0 * Pow2(k - 1)
  }

  function MinReal(a: real, b: real): real {
    if a <= b then a else b
  }

  predicate AtCap(b: Backoff) {
    b.maxAttempts > 0 && b.attempt >= b.maxAttempts
  }

  datatype Op = Schedule(jitter: real) | Reset

  /** What a call did: armed a timer, reported the cap, or cleared the counter. */
  datatype Note = Armed(delay: real) | Refused | Cleared

  function DelayNow(b: Backoff, jitter: real): real {
    MinReal(b.baseMs * Pow2(b.attempt) + jitter, b.maxMs)
  }

  function StepNote(b: Backoff, op: Op): Note {
    match op
    case Reset => Cleared
    case Schedule(jitter) => if AtCap(b) then Refused else Armed(DelayNow(b, jitter))
  }

  function Step(b: Backoff, op: Op): Backoff {
    match op
    case Reset => b.(attempt := 0)
    case Schedule(_) => if AtCap(b) then b else b.(attempt := b.attempt + 1)
  }

  function Run(b: Backoff, ops: seq<Op>): Backoff {
    if ops == [] then b else Step(Run(b, ops[..|ops| - 1]), ops[|ops| - 1])
  }

  function Trace(b: Backoff, ops: seq<Op>): (t: seq<Note>)
    ensures |t| == |ops|
  {
    if ops == [] then []
    else Trace(b, ops[..|ops| - 1]) + [StepNote(Run(b, ops[..|ops| - 1]), ops[|ops| - 1])]
  }

  /** How many timers have been armed since the last Reset. */
  function ArmedSinceReset(t: seq<Note>): nat {
    if t == [] || t[|t| - 1].Cleared? then 0
    else ArmedSinceReset(t[..|t| - 1]) + One(t[|t| - 1].Armed?)
  }

  function Lower(b: Backoff, k: nat): real {
    MinReal(b.baseMs * Pow2(k), b.maxMs)
  }

  function Upper(b: Backoff, k: nat): real {
    MinReal(b.baseMs * Pow2(k) + JITTER_MS, b.maxMs)
  }

  predicate Jittered(ops: seq<Op>) {
    forall i :: 0 <= i < |ops| && ops[i].Schedule? ==> 0.0 <= ops[i].jitter < JITTER_MS
  }

  /** Over any run from a fresh manager, the attempt counter is the number of timers armed since the last Reset. */
  lemma {:induction false} AttemptCounts(b: Backoff, ops: seq<Op>)
    requires b.attempt == 0
    ensures Run(b, ops) == b.(attempt := ArmedSinceReset(Trace(b, ops)))
    ensures b.maxAttempts > 0 ==> ArmedSinceReset(Trace(b, ops)) <= b.maxAttempts
  {
    if ops != [] {
      AttemptCounts(b, ops[..|ops| - 1]);
      assert Trace(b, ops)[..|ops| - 1] == Trace(b, ops[..|ops| - 1]);
    }
  }

  /** What a call may do when `k` timers have been armed since the last Reset. */
  predicate Fits(b: Backoff, k: nat, op: Op, note: Note) {
    match note
    case Armed(d) => op.Schedule? && Lower(b, k) <= d <= Upper(b, k) && !(b.maxAttempts > 0 && k >= b.maxAttempts)
    case Refused => op.Schedule? && b.maxAttempts > 0 && k == b.maxAttempts
    case Cleared => op.Reset?
  }

  /**
   Over any run, the k-th timer since a Reset waits between the k-th bounds, and a call is refused
   exactly when the cap is positive and that many timers have been armed.
   */
  lemma {:induction false} RunFits(b: Backoff, ops: seq<Op>, i: nat)
    requires b.attempt == 0 && Jittered(ops) && i < |ops|
    ensures Fits(b, ArmedSinceReset(Trace(b, ops)[..i]), ops[i], Trace(b, ops)[i])
  {
    var n := |ops| - 1;
    assert Trace(b, ops)[..n] == Trace(b, ops[..n]);
    AttemptCounts(b, ops[..n]);
    if i < n {
      RunFits(b, ops[..n], i);
      assert Trace(b, ops)[..i] == Trace(b, ops[..n])[..i];
    } else if ops[n].Schedule? {
      DelayBetween(b, ArmedSinceReset(Trace(b, ops[..n])), ops[n].jitter);
    }
  }

  lemma DelayBetween(b: Backoff, k: nat, jitter: real)
    requires 0.0 <= jitter < JITTER_MS
    ensures Lower(b, k) <= DelayNow(b.(attempt := k), jitter) <= Upper(b, k)
  {
  }

  lemma {:induction false} Pow2Grows(k: nat)
    ensures Pow2(k) >= k as real + 1.0
  {
    if k > 0 { Pow2Grows(k - 1); }
  }

  /** For every bound there is an attempt from which base * 2^k stays above it. */
  lemma Outgrows(baseMs: real, bound: real) returns (from: nat)
    requires baseMs > 0.0
    ensures forall k: nat :: k >= from ==> baseMs * Pow2(k) >= bound
  {
    var q := Quotient(baseMs, bound);
    from := if q <= 0.0 then 0 else q.Floor;
    forall k: nat | k >= from
      ensures baseMs * Pow2(k) >= bound
    {
      Pow2Grows(k);
      Scales(baseMs, q, Pow2(k));
    }
  }

  lemma Quotient(a: real, b: real) returns (q: real)
    requires a > 0.0
    ensures a * q == b
  {
    q := b / a;
  }

  lemma Scales(a: real, x: real, y: real)
    requires a > 0.0 && x <= y
    ensures a * x <= a * y
  {
  }

  /** The bounds never decrease from one attempt to the next if and only if the base is not negative. */
  lemma BoundsMonotone(b: Backoff)
    ensures b.baseMs >= 0.0 <==> forall k: nat :: Lower(b, k) <= Lower(b, k + 1)
    ensures b.baseMs >= 0.0 ==> forall k: nat :: Upper(b, k) <= Upper(b, k + 1)
  {
    if b.baseMs >= 0.0 {
      forall k: nat
        ensures Lower(b, k) <= Lower(b, k + 1) && Upper(b, k) <= Upper(b, k + 1)
      {
        Pow2Grows(k);
        Doubles(b.baseMs, k);
        assert b.baseMs * Pow2(k) >= 0.0;
      }
    } else {
      var k := Outgrows(-b.baseMs, if b.maxMs < 0.0 then -b.maxMs else 1.0);
      Falls(b, k);
    }
  }

  lemma Falls(b: Backoff, k: nat)
    requires b.baseMs < 0.0 && -b.baseMs * Pow2(k) >= if b.maxMs < 0.0 then -b.maxMs else 1.0
    ensures Lower(b, k + 1) < Lower(b, k)
  {
    var x := b.baseMs * Pow2(k);
    assert -b.baseMs * Pow2(k) == -x;
    Doubles(b.baseMs, k);
  }

  lemma Doubles(baseMs: real, k: nat)
    ensures baseMs * Pow2(k + 1) == 2.0 * (baseMs * Pow2(k))
  {
    assert baseMs * (2.0 * Pow2(k)) == 2.0 * (baseMs * Pow2(k));
  }

  /** From attempt `from` on, every delay is the maximum, whatever the jitter. */
  ghost predicate SaturatedFrom(b: Backoff, from: nat) {
    forall k: nat, jitter: real :: k >= from && 0.0 <= jitter ==> DelayNow(b.(attempt := k), jitter) == b.maxMs
  }

  /** With a positive base the delays saturate. */
  lemma Saturates(b: Backoff)
    requires b.baseMs > 0.0
    ensures exists from: nat :: SaturatedFrom(b, from)
  {
    var from := Outgrows(b.baseMs, b.maxMs);
    assert SaturatedFrom(b, from);
  }

  /** The default manager, never capped, waits the full thirty seconds from its sixth attempt on. */
  lemma DefaultsSaturateAtSix(k: nat, jitter: real)
    requires k >= 5 && 0.0 <= jitter
    ensures DelayNow(New(0.0, 0.0, 0).(attempt := k), jitter) == 30000.0
    ensures !AtCap(New(0.0, 0.0, 0).(attempt := k))
  {
    Pow2From5(k);
  }

  lemma {:induction false} Pow2From5(k: nat)
    requires k >= 5
    ensures Pow2(k) >= 32.0
  {
    if k > 5 { Pow2From5(k - 1); } else { assert Pow2(3) == 8.0; }
  }

  /** Options that are given are kept; only the zero ones are replaced. */
  lemma OptionsKept(baseMs: real, maxMs: real, maxAttempts: int)
    ensures
      var b := New(baseMs, maxMs, maxAttempts);
      && b.attempt == 0
      && (baseMs != 0.0 ==> b.baseMs == baseMs) && (maxMs != 0.0 ==> b.maxMs == maxMs)
      && (maxAttempts != 0 ==> b.maxAttempts == maxAttempts)
      && New(0.0, 0.0, 0) == Backoff(0, 1000.0, 30000.0, -1)
  {
  }

  /** The first five delays of the default manager, in milliseconds: one to two seconds, two to three, and so on. */
  lemma DefaultDelays(jitter: real)
    requires 0.0 <= jitter < 1000.0
    ensures
      var b := New(0.0, 0.0, 0);
      && b.attempt == 0 && DelayNow(b, jitter) == 1000.0 + jitter
      && DelayNow(b.(attempt := 1), jitter) == 2000.0 + jitter
      && DelayNow(b.(attempt := 2), jitter) == 4000.0 + jitter
      && DelayNow(b.(attempt := 3), jitter) == 8000.0 + jitter
      && DelayNow(b.(attempt := 4), jitter) == 16000.0 + jitter
  {
    assert Pow2(1) == 2.0 && Pow2(2) == 4.0 && Pow2(3) == 8.0 && Pow2(4) == 16.0;
  }

  /** The manager itself; `armed` holds the timers that have neither fired nor been stopped. */
  class ReconnectManager {
    var attempt: nat
    const baseMs: real
    const maxMs: real
    const maxAttempts: int
    var timer: Option<nat>
    var armed: set<nat>
    var delays: seq<real>

    constructor (baseMs: real, maxMs: real, maxAttempts: int)
      ensures State() == New(baseMs, maxMs, maxAttempts) && timer == None && armed == {} && delays == []
    {
      var b := New(baseMs, maxMs, maxAttempts);
      attempt, this.baseMs, this.maxMs, this.maxAttempts := 0, b.baseMs, b.maxMs, b.maxAttempts;
      timer, armed, delays := None, {}, [];
    }

    function State(): Backoff
      reads this
    {
      Backoff(attempt, baseMs, maxMs, maxAttempts)
    }

    /** `id` names the new timer; `jitter` is the random draw. */
    method Schedule(jitter: real, id: nat) returns (ok: bool)
      modifies this
      ensures State() == Step(old(State()), Op.Schedule(jitter))
      ensures ok <==> StepNote(old(State()), Op.Schedule(jitter)).Armed?
      ensures ok ==>
            delays == old(delays) + [StepNote(old(State()), Op.Schedule(jitter)).delay] && timer == Some(id) &&
            armed == old(armed) + {id}
      ensures !ok ==> delays == old(delays) && timer == old(timer) && armed == old(armed)
    {
      if maxAttempts > 0 && attempt >= maxAttempts { return false; }
      delays := delays + [DelayNow(State(), jitter)];
      attempt := attempt + 1;
      timer := Some(id);
      armed := armed + {id};
      return true;
    }

    method Reset()
      modifies this
      ensures State() == Step(old(State()), Op.Reset)
      ensures timer == None && armed == (if old(timer).Some? then old(armed) - {old(timer).value} else old(armed))
      ensures delays == old(delays)
    {
      attempt := 0;
      if timer.Some? {
        armed := armed - {timer.value};
        timer := None;
      }
    }
  }
}
