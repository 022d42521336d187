/** The session identifiers that createSlug draws: eight symbols out of thirty-six. */
module Slugs {
  const SLUG_LENGTH: nat := 8
  const SLUG_COUNT: nat := 36 * 36 * 36 * 36 * 36 * 36 * 36 * 36

  /** One outcome of the random generator: eight draws below 36. */
  type Roll = r: seq<nat> | |r| == 8 && forall i :: 0 <= i < 8 ==> r[i] < 36 witness [0, 0, 0, 0, 0, 0, 0, 0]

  /** The alphabet: a to z, then 0 to 9. */
  function Symbol(i: nat): char
    requires i < 36
  {
    if i < 26 then ('a' as int + i) as char else ('0' as int + i - 26) as char
  }

  predicate IsSymbol(c: char) {
    'a' <= c <= 'z' || '0' <= c <= '9'
  }

  function SlugOf(draws: seq<nat>): string
    requires forall i :: 0 <= i < |draws| ==> draws[i] < 36
  {
    seq(|draws|, i requires 0 <= i < |draws| => Symbol(draws[i]))
  }

  predicate IsSlug(s: string) {
    |s| == SLUG_LENGTH && forall i :: 0 <= i < |s| ==> IsSymbol(s[i])
  }

  /** The draws that spell `k` in base 36, least significant first. */
  function Digits(k: nat, n: nat): (d: seq<nat>)
    ensures |d| == n && forall i :: 0 <= i < n ==> d[i] < 36
  {
    if n == 0 then [] else [k % 36] + Digits(k / 36, n - 1)
  }

  function Power36(n: nat): nat {
    if n == 0 then 1 else 36 * Power36(n - 1)
  }

  lemma {:induction false} DigitsInjective(j: nat, k: nat, n: nat)
    requires j < Power36(n) && k < Power36(n) && Digits(j, n) == Digits(k, n)
    ensures j == k
  {
    if n > 0 {
      assert Digits(j, n)[0] == j % 36 && Digits(k, n)[0] == k % 36;
      assert Digits(j, n)[1..] == Digits(j / 36, n - 1) && Digits(k, n)[1..] == Digits(k / 36, n - 1);
      DigitsInjective(j / 36, k / 36, n - 1);
    }
  }

  lemma SlugInjective(a: seq<nat>, b: seq<nat>)
    requires |a| == |b| && (forall i :: 0 <= i < |a| ==> a[i] < 36) && (forall i :: 0 <= i < |b| ==> b[i] < 36)
    requires SlugOf(a) == SlugOf(b)
    ensures a == b
  {
    forall i | 0 <= i < |a|
      ensures a[i] == b[i]
    {
      assert SlugOf(a)[i] == SlugOf(b)[i];
      assert Symbol(a[i]) == Symbol(b[i]);
    }
  }

  /** The slugs spelled by the numbers below `n`. */
  ghost function FirstSlugs(n: nat): set<string> {
    if n == 0 then {} else FirstSlugs(n - 1) + {SlugOf(Digits(n - 1, 8))}
  }

  lemma {:induction false} FirstSlugsSpelled(n: nat, s: string)
    requires s in FirstSlugs(n)
    ensures IsSlug(s) && exists k: nat :: k < n && s == SlugOf(Digits(k, 8))
  {
    if s == SlugOf(Digits(n - 1, 8)) {
      assert n - 1 < n;
    } else {
      FirstSlugsSpelled(n - 1, s);
    }
  }

  lemma {:induction false} FirstSlugsCount(n: nat)
    requires n <= SLUG_COUNT
    ensures |FirstSlugs(n)| == n
  {
    if n > 0 {
      FirstSlugsCount(n - 1);
      var s := SlugOf(Digits(n - 1, 8));
      if s in FirstSlugs(n - 1) {
        FirstSlugsSpelled(n - 1, s);
        var k: nat :| k < n - 1 && s == SlugOf(Digits(k, 8));
        SlugInjective(Digits(k, 8), Digits(n - 1, 8));
        assert Power36(8) == SLUG_COUNT;
        DigitsInjective(k, n - 1, 8);
        assert false;
      }
    }
  }

  lemma {:induction false} SubsetSize(a: set<string>, b: set<string>)
    requires a <= b
    ensures |a| <= |b|
  {
    if x :| x in a {
      SubsetSize(a - {x}, b - {x});
    }
  }

  /** While fewer than 36^8 identifiers are in use, createSlug has a draw to make that spells a free one. */
  lemma FreeSlugExists(used: set<string>)
    requires |used| < SLUG_COUNT
    ensures exists r: Roll :: SlugOf(r) !in used && IsSlug(SlugOf(r))
  {
    FirstSlugsCount(SLUG_COUNT);
    if FirstSlugs(SLUG_COUNT) <= used {
      SubsetSize(FirstSlugs(SLUG_COUNT), used);
    } else {
      var s :| s in FirstSlugs(SLUG_COUNT) && s !in used;
      FirstSlugsSpelled(SLUG_COUNT, s);
      var k: nat :| k < SLUG_COUNT && s == SlugOf(Digits(k, 8));
      var r: Roll := Digits(k, 8);
      assert SlugOf(r) == s;
    }
  }
}
