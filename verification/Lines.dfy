/** Splitting on a separator, joining back, and searching, as Go's strings package defines them. */
module Lines {
  import opened Basics

  function Split<T(==)>(s: seq<T>, sep: T): (r: seq<seq<T>>)
    ensures |r| >= 1
  {
    if s == [] then [[]]
    else Prepend(s[0], Split(s[1..], sep), sep)
  }

  /** The parts of a text with `c` put in front of it. */
  function Prepend<T(==)>(c: T, parts: seq<seq<T>>, sep: T): (r: seq<seq<T>>)
    requires |parts| >= 1
    ensures |r| >= 1
  {
    if c == sep then [[]] + parts else [[c] + parts[0]] + parts[1..]
  }

  function Join<T>(parts: seq<seq<T>>, sep: T): seq<T> {
    if parts == [] then []
    else if |parts| == 1 then parts[0]
    else parts[0] + [sep] + Join(parts[1..], sep)
  }

  predicate Free<T(==)>(parts: seq<seq<T>>, sep: T) {
    forall i :: 0 <= i < |parts| ==> sep !in parts[i]
  }

  lemma {:induction false} JoinSplit<T>(s: seq<T>, sep: T)
    ensures Join(Split(s, sep), sep) == s
  {
    if s != [] {
      JoinSplit(s[1..], sep);
      JoinPrepend(s[0], Split(s[1..], sep), sep);
    }
  }

  lemma JoinPrepend<T>(c: T, parts: seq<seq<T>>, sep: T)
    requires |parts| >= 1
    ensures Join(Prepend(c, parts, sep), sep) == [c] + Join(parts, sep)
  {
    if c == sep {
      JoinCons([], parts, sep);
    } else if |parts| == 1 {
      assert Prepend(c, parts, sep) == [[c] + parts[0]];
    } else {
      JoinLonger(c, parts[0], parts[1..], sep);
      assert parts == [parts[0]] + parts[1..];
    }
  }

  lemma JoinLonger<T>(c: T, p: seq<T>, rest: seq<seq<T>>, sep: T)
    requires |rest| >= 1
    ensures Join([[c] + p] + rest, sep) == [c] + Join([p] + rest, sep)
  {
    JoinCons([c] + p, rest, sep);
    JoinCons(p, rest, sep);
    ConcatAssociates([c], p, [sep] + Join(rest, sep));
  }

  lemma ConcatAssociates<T>(a: seq<T>, b: seq<T>, c: seq<T>)
    ensures (a + b) + c == a + (b + c)
  {
  }

  lemma JoinCons<T>(p: seq<T>, rest: seq<seq<T>>, sep: T)
    requires |rest| >= 1
    ensures Join([p] + rest, sep) == p + ([sep] + Join(rest, sep))
  {
    assert ([p] + rest)[1..] == rest;
    ConcatAssociates(p, [sep], Join(rest, sep));
  }

  lemma {:induction false} SplitFree<T>(s: seq<T>, sep: T)
    ensures Free(Split(s, sep), sep)
  {
    if s != [] {
      SplitFree(s[1..], sep);
    }
  }

  lemma {:induction false} SplitPlain<T>(s: seq<T>, sep: T)
    requires sep !in s
    ensures Split(s, sep) == [s]
  {
    if s != [] {
      SplitPlain(s[1..], sep);
      assert [s[0]] + s[1..] == s;
    }
  }

  lemma SplitStep<T>(c: T, s: seq<T>, sep: T)
    ensures Split([c] + s, sep) == Prepend(c, Split(s, sep), sep)
  {
    assert ([c] + s)[1..] == s;
  }

  lemma {:induction false} SplitConcat<T>(a: seq<T>, b: seq<T>, sep: T)
    ensures Split(a + [sep] + b, sep) == Split(a, sep) + Split(b, sep)
  {
    if a == [] {
      SplitStep(sep, b, sep);
      assert [] + [sep] + b == [sep] + b;
    } else {
      var t := a[1..] + [sep] + b;
      SplitConcat(a[1..], b, sep);
      assert a + [sep] + b == [a[0]] + t;
      SplitStep(a[0], t, sep);
      PrependConcat(a[0], Split(a[1..], sep), Split(b, sep), sep);
    }
  }

  lemma PrependConcat<T>(c: T, parts: seq<seq<T>>, more: seq<seq<T>>, sep: T)
    requires |parts| >= 1
    ensures Prepend(c, parts + more, sep) == Prepend(c, parts, sep) + more
  {
    assert (parts + more)[0] == parts[0] && (parts + more)[1..] == parts[1..] + more;
  }

  lemma {:induction false} SplitJoin<T>(parts: seq<seq<T>>, sep: T)
    requires |parts| >= 1 && Free(parts, sep)
    ensures Split(Join(parts, sep), sep) == parts
  {
    SplitPlain(parts[0], sep);
    if |parts| > 1 {
      SplitJoin(parts[1..], sep);
      SplitConcat(parts[0], Join(parts[1..], sep), sep);
      assert [parts[0]] + parts[1..] == parts;
    }
  }

  lemma {:induction false} JoinConcat<T>(a: seq<seq<T>>, b: seq<seq<T>>, sep: T)
    requires |a| >= 1 && |b| >= 1
    ensures Join(a + b, sep) == Join(a, sep) + [sep] + Join(b, sep)
  {
    if |a| == 1 {
      assert (a + b)[1..] == b;
    } else {
      JoinConcat(a[1..], b, sep);
      assert (a + b)[1..] == a[1..] + b;
    }
  }

  // ---- pages of k parts ----

  /** The texts of consecutive windows of `k` parts. */
  function Windows<T>(parts: seq<seq<T>>, k: nat, sep: T): (r: seq<seq<T>>)
    requires k >= 1
    ensures |r| >= 1
    decreases |parts|
  {
    if |parts| <= k then [Join(parts, sep)] else [Join(parts[..k], sep)] + Windows(parts[k..], k, sep)
  }

  lemma {:induction false} WindowsRejoin<T>(parts: seq<seq<T>>, k: nat, sep: T)
    requires k >= 1
    ensures Join(Windows(parts, k, sep), sep) == Join(parts, sep)
    decreases |parts|
  {
    if |parts| > k {
      WindowsRejoin(parts[k..], k, sep);
      JoinCons(Join(parts[..k], sep), Windows(parts[k..], k, sep), sep);
      JoinParts(parts, k, sep);
    }
  }

  lemma JoinParts<T>(parts: seq<seq<T>>, k: nat, sep: T)
    requires 1 <= k < |parts|
    ensures Join(parts, sep) == Join(parts[..k], sep) + ([sep] + Join(parts[k..], sep))
  {
    JoinConcat(parts[..k], parts[k..], sep);
    assert parts[..k] + parts[k..] == parts;
    ConcatAssociates(Join(parts[..k], sep), [sep], Join(parts[k..], sep));
  }

  /** Window `i` starts at part `i * k`; there are just enough windows to reach the end. */
  lemma {:induction false} WindowsAt<T>(parts: seq<seq<T>>, k: nat, sep: T, i: nat, from: nat)
    requires k >= 1 && i < |Windows(parts, k, sep)| && from == i * k
    ensures i > 0 ==> from < |parts|
    ensures from <= Min(from + k, |parts|)
    ensures Windows(parts, k, sep)[i] == Join(parts[from..Min(from + k, |parts|)], sep)
    ensures from + k >= |parts| <==> i == |Windows(parts, k, sep)| - 1
    decreases |parts|
  {
    if i == 0 {
      assert parts[0..|parts|] == parts;
    } else {
      var rest := parts[k..];
      TimesPred(i, k);
      WindowsAt(rest, k, sep, i - 1, from - k);
      SliceShift(parts, k, from - k, Min(from, |rest|));
    }
  }

  lemma TimesPred(i: nat, k: nat)
    requires i > 0
    ensures i * k == (i - 1) * k + k
  {
  }

  lemma SliceShift<T>(s: seq<T>, k: nat, a: nat, b: nat)
    requires a <= b && k + b <= |s|
    ensures s[k..][a..b] == s[k + a..k + b]
  {
  }

  // ---- searching ----

  predicate Matches<T(==)>(s: seq<T>, t: seq<T>, i: int) {
    0 <= i && i + |t| <= |s| && s[i..i + |t|] == t
  }

  /** The least index at which `t` occurs in `s`, searching from `from`. */
  function IndexFrom<T(==)>(s: seq<T>, t: seq<T>, from: nat): (r: Option<nat>)
    requires from <= |s|
    ensures r.Some? ==>
          from <= r.value && Matches(s, t, r.value) &&
          forall j :: from <= j < r.value ==> !Matches(s, t, j)
    ensures r.None? ==> forall j :: from <= j ==> !Matches(s, t, j)
    decreases |s| - from
  {
    if Matches(s, t, from) then Some(from)
    else if from == |s| then None
    else IndexFrom(s, t, from + 1)
  }

  function Index<T(==)>(s: seq<T>, t: seq<T>): Option<nat> {
    IndexFrom(s, t, 0)
  }
}
