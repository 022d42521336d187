/** The capped output buffer of a session, as a function of everything ever appended to it. */
module RollingBuffer {
  import opened Basics

  const MAX_OUTPUT_CHARS: nat := 200_000
  const TAIL_CHARS: nat := 4000

  /** The last `n` elements of `s`, or all of `s` when it is shorter. */
  function LastN<T>(s: seq<T>, n: nat): seq<T> {
    if |s| <= n then s else s[|s| - n..]
  }

  lemma LastNIsSuffix<T>(s: seq<T>, n: nat)
    ensures |LastN(s, n)| == (if |s| < n then |s| else n) && LastN(s, n) == s[|s| - |LastN(s, n)|..]
  {
  }

  /** The two capped buffers a session keeps. */
  datatype Buffers = Buffers(aggregated: Bytes, tail: Bytes)

  /** The effect of one AppendOutput call: append, trim to the cap, then recompute the tail. */
  function Append(b: Buffers, data: Bytes): Buffers {
    var grown := b.aggregated + data;
    var trimmed := if |grown| > MAX_OUTPUT_CHARS then grown[|grown| - MAX_OUTPUT_CHARS..] else grown;
    var tail := if |trimmed| <= TAIL_CHARS then trimmed else trimmed[|trimmed| - TAIL_CHARS..];
    Buffers(trimmed, tail)
  }

  function AppendAll(chunks: seq<Bytes>): Buffers {
    if chunks == [] then Buffers([], []) else Append(AppendAll(chunks[..|chunks| - 1]), chunks[|chunks| - 1])
  }

  function Flatten(chunks: seq<Bytes>): Bytes {
    if chunks == [] then [] else Flatten(chunks[..|chunks| - 1]) + chunks[|chunks| - 1]
  }

  /** The buffers are the two suffixes of the uncapped history `h`. */
  ghost predicate Refines(b: Buffers, h: Bytes) {
    b.aggregated == LastN(h, MAX_OUTPUT_CHARS) && b.tail == LastN(h, TAIL_CHARS)
  }

  /** One append keeps the refinement: trimming early loses nothing that a later trim would keep. */
  lemma AppendRefines(b: Buffers, h: Bytes, data: Bytes)
    requires Refines(b, h)
    ensures Refines(Append(b, data), h + data)
  {
    var all := h + data;
    if |h| > MAX_OUTPUT_CHARS {
      assert h == h[..|h| - MAX_OUTPUT_CHARS] + b.aggregated;
      assert all == h[..|h| - MAX_OUTPUT_CHARS] + (b.aggregated + data);
    }
    assert Append(b, data).aggregated == LastN(all, MAX_OUTPUT_CHARS);
    assert Append(b, data).tail == LastN(all, TAIL_CHARS);
  }

  /** After any sequence of appends the buffers are the suffixes of everything appended. */
  lemma {:induction false} BuffersRefineHistory(chunks: seq<Bytes>)
    ensures Refines(AppendAll(chunks), Flatten(chunks))
  {
    if chunks == [] {
    } else {
      BuffersRefineHistory(chunks[..|chunks| - 1]);
      AppendRefines(AppendAll(chunks[..|chunks| - 1]), Flatten(chunks[..|chunks| - 1]), chunks[|chunks| - 1]);
    }
  }

  /** With the caps written out: at most 200,000 and 4,000 bytes, the newest ones, and all of a shorter history. */
  lemma CapsAreExact(chunks: seq<Bytes>)
    ensures
      var b, h := AppendAll(chunks), Flatten(chunks);
      && |b.aggregated| == (if |h| < 200_000 then |h| else 200_000) && b.aggregated == h[|h| - |b.aggregated|..]
      && |b.tail| == (if |h| < 4_000 then |h| else 4_000) && b.tail == h[|h| - |b.tail|..]
  {
    BuffersRefineHistory(chunks);
    CapsOf(AppendAll(chunks), Flatten(chunks));
  }

  lemma CapsOf(b: Buffers, h: Bytes)
    requires Refines(b, h)
    ensures |b.aggregated| == (if |h| < 200_000 then |h| else 200_000) && b.aggregated == h[|h| - |b.aggregated|..]
    ensures |b.tail| == (if |h| < 4_000 then |h| else 4_000) && b.tail == h[|h| - |b.tail|..]
  {
  }

  /** How the output was cut into chunks does not matter. */
  lemma ChunkingIsInvisible(c1: seq<Bytes>, c2: seq<Bytes>)
    requires Flatten(c1) == Flatten(c2)
    ensures AppendAll(c1) == AppendAll(c2)
  {
    BuffersRefineHistory(c1);
    BuffersRefineHistory(c2);
  }
}
