/** Lexical path cleaning, and the containment check that FileExecutor makes with it. */
module Paths {
  import opened Basics
  import opened Lines

  const SLASH := '/'

  /** A path as its kind and its components. */
  datatype Path = Path(abs: bool, comps: seq<string>)

  /** The effect of one component on the components so far. */
  function Enter(abs: bool, at: seq<string>, c: string): seq<string> {
    if c == "" || c == "." then at
    else if c == ".." then
      if at != [] && at[|at| - 1] != ".." then at[..|at| - 1]
      else if abs then at
      else at + [c]
    else at + [c]
  }

  /** Walk through `comps` one after another, starting at `at`. */
  function Walk(abs: bool, at: seq<string>, comps: seq<string>): seq<string>
    decreases comps
  {
    if comps == [] then at else Walk(abs, Enter(abs, at, comps[0]), comps[1..])
  }

  predicate Absolute(p: string) {
    p != "" && p[0] == SLASH
  }

  function Parse(p: string): Path {
    Path(Absolute(p), Walk(Absolute(p), [], Split(p, SLASH)))
  }

  function Render(p: Path): string {
    if p.abs then [SLASH] + Join(p.comps, SLASH)
    else if p.comps == [] then "."
    else Join(p.comps, SLASH)
  }

  /** filepath.Clean. */
  function Clean(p: string): string {
    Render(Parse(p))
  }

  /** filepath.Join of two elements: empty elements are dropped before joining and cleaning. */
  function JoinPath(a: string, b: string): string {
    if a != "" then Clean(a + [SLASH] + b)
    else if b != "" then Clean(b)
    else ""
  }

  function CommonPrefix(a: seq<string>, b: seq<string>): (n: nat)
    ensures n <= |a| && n <= |b| && a[..n] == b[..n]
    ensures n < |a| && n < |b| ==> a[n] != b[n]
  {
    if a != [] && b != [] && a[0] == b[0] then 1 + CommonPrefix(a[1..], b[1..]) else 0
  }

  function Ups(n: nat): (u: seq<string>)
    ensures |u| == n && forall i :: 0 <= i < n ==> u[i] == ".."
  {
    seq(n, i => "..")
  }

  /** The words of a cleaned target: the empty relative path is written as a single dot. */
  function Words(p: Path): seq<string> {
    if !p.abs && p.comps == [] then ["."] else p.comps
  }

  /** filepath.Rel, on the cleaned paths of its two arguments; None is its error result. */
  function Rel(base: Path, target: Path): Option<string> {
    if base == target then Some(".")
    else if base.abs != target.abs then None
    else
      var words := Words(target);
      var n := CommonPrefix(base.comps, words);
      if n < |base.comps| && base.comps[n] == ".." then None
      else Some(Join(Ups(|base.comps| - n) + words[n..], SLASH))
  }

  predicate StartsDotDot(s: string) {
    |s| >= 2 && s[0] == '.' && s[1] == '.'
  }

  /** validatePath: the resolved path, or None when access is refused. */
  function ValidatePath(root: string, input: string): Option<string> {
    var resolved := Clean(JoinPath(root, input));
    match Rel(Parse(root), Parse(resolved))
    case None => None
    case Some(rel) => if StartsDotDot(rel) then None else Some(resolved)
  }

  // ---- what cleaned components look like ----

  predicate Plain(c: string) {
    c != "" && c != "." && c != ".." && SLASH !in c
  }

  /** Plain components, preceded in a relative path by any number of "..". */
  predicate Cleaned(abs: bool, comps: seq<string>) {
    forall i :: 0 <= i < |comps| ==>
      Plain(comps[i]) || (!abs && comps[i] == ".." && forall j :: 0 <= j < i ==> comps[j] == "..")
  }

  lemma {:induction false} WalkCleaned(abs: bool, at: seq<string>, comps: seq<string>)
    requires Cleaned(abs, at) && Free(comps, SLASH)
    ensures Cleaned(abs, Walk(abs, at, comps))
    decreases comps
  {
    if comps != [] {
      var next := Enter(abs, at, comps[0]);
      assert Cleaned(abs, next) by {
        if |next| > |at| && comps[0] == ".." && at != [] {
          assert at[|at| - 1] == "..";
        }
      }
      WalkCleaned(abs, next, comps[1..]);
    }
  }

  lemma ParseCleaned(p: string)
    ensures Cleaned(Parse(p).abs, Parse(p).comps)
  {
    SplitFree(p, SLASH);
    WalkCleaned(Absolute(p), [], Split(p, SLASH));
  }

  lemma {:induction false} WalkConcat(abs: bool, at: seq<string>, a: seq<string>, b: seq<string>)
    ensures Walk(abs, at, a + b) == Walk(abs, Walk(abs, at, a), b)
    decreases a
  {
    if a == [] {
      assert a + b == b;
    } else {
      WalkConcat(abs, Enter(abs, at, a[0]), a[1..], b);
      assert (a + b)[1..] == a[1..] + b;
    }
  }

  /** Walking cleaned components only appends them. */
  lemma {:induction false} WalkAppends(abs: bool, at: seq<string>, comps: seq<string>)
    requires Cleaned(abs, at + comps)
    ensures Walk(abs, at, comps) == at + comps
    decreases comps
  {
    if comps != [] {
      var c := comps[0];
      assert (at + comps)[|at|] == c;
      if c == ".." && at != [] {
        assert (at + comps)[|at| - 1] == at[|at| - 1];
      }
      assert Enter(abs, at, c) == at + [c];
      assert at + [c] + comps[1..] == at + comps;
      WalkAppends(abs, at + [c], comps[1..]);
    } else {
      assert at + comps == at;
    }
  }

  lemma CleanedFree(abs: bool, comps: seq<string>)
    requires Cleaned(abs, comps)
    ensures Free(comps, SLASH)
  {
  }

  lemma JoinHead(parts: seq<string>)
    requires |parts| >= 1 && parts[0] != "" && SLASH !in parts[0]
    ensures Join(parts, SLASH) != "" && Join(parts, SLASH)[0] == parts[0][0]
    ensures StartsDotDot(Join(parts, SLASH)) <==> StartsDotDot(parts[0])
  {
  }

  /** Rendering a cleaned path and parsing it again gives it back. */
  lemma ParseRender(p: Path)
    requires Cleaned(p.abs, p.comps)
    ensures Parse(Render(p)) == p
  {
    CleanedFree(p.abs, p.comps);
    assert [] + p.comps == p.comps;
    WalkAppends(p.abs, [], p.comps);
    if p.abs {
      var s := Join(p.comps, SLASH);
      SplitStep(SLASH, s, SLASH);
      if p.comps != [] {
        SplitJoin(p.comps, SLASH);
        assert ([""] + p.comps)[1..] == p.comps;
      } else {
        assert Split<char>([], SLASH) == [[]];
        assert Split(Render(p), SLASH) == [""] + [""];
        assert ([""] + [""])[1..] == [""];
        assert Walk(true, [], [""]) == [];
      }
    } else if p.comps == [] {
      SplitPlain(".", SLASH);
    } else {
      JoinHead(p.comps);
      SplitJoin(p.comps, SLASH);
    }
  }

  /** Cleaning is idempotent. */
  lemma CleanIdempotent(p: string)
    ensures Parse(Clean(p)) == Parse(p) && Clean(Clean(p)) == Clean(p)
  {
    ParseCleaned(p);
    ParseRender(Parse(p));
  }

  /** Where `input` leads: walk its components from the cleaned root. */
  function Target(root: string, input: string): Path {
    if root == "" then Parse(input)
    else Path(Absolute(root), Walk(Absolute(root), Parse(root).comps, Split(input, SLASH)))
  }

  lemma ResolvedIsTarget(root: string, input: string)
    ensures Cleaned(Target(root, input).abs, Target(root, input).comps)
    ensures Parse(Clean(JoinPath(root, input))) == Target(root, input)
    ensures Clean(JoinPath(root, input)) == Render(Target(root, input))
  {
    if root != "" {
      var whole := root + [SLASH] + input;
      SplitConcat(root, input, SLASH);
      WalkConcat(Absolute(root), [], Split(root, SLASH), Split(input, SLASH));
      assert Parse(whole) == Target(root, input);
      CleanIdempotent(whole);
      ParseCleaned(whole);
    } else {
      CleanIdempotent(input);
      ParseCleaned(input);
    }
    CleanIdempotent(JoinPath(root, input));
  }

  /** The target has the root's components as a prefix, and what follows does not begin with two dots. */
  predicate Inside(root: Path, target: Path) {
    && target.abs == root.abs
    && root.comps <= target.comps
    && (|target.comps| > |root.comps| ==> !StartsDotDot(target.comps[|root.comps|]))
  }

  lemma RelInside(base: Path, target: Path)
    requires Cleaned(base.abs, base.comps) && Cleaned(target.abs, target.comps)
    ensures Inside(base, target) <==> Rel(base, target).Some? && !StartsDotDot(Rel(base, target).value)
    ensures Inside(base, target) && base != target ==>
      Rel(base, target).value == Join(target.comps[|base.comps|..], SLASH)
  {
    if base != target && base.abs == target.abs {
      if CommonPrefix(base.comps, Words(target)) == |base.comps| {
        RelBelow(base, target);
      } else {
        RelElsewhere(base, target);
      }
    }
  }

  /** The target's words continue the base's components. */
  lemma RelBelow(base: Path, target: Path)
    requires Cleaned(base.abs, base.comps) && Cleaned(target.abs, target.comps)
    requires base != target && base.abs == target.abs && CommonPrefix(base.comps, Words(target)) == |base.comps|
    ensures |base.comps| < |target.comps| && base.comps <= target.comps
    ensures Rel(base, target) == Some(Join(target.comps[|base.comps|..], SLASH))
    ensures StartsDotDot(Rel(base, target).value) <==> StartsDotDot(target.comps[|base.comps|])
  {
    var words, n := Words(target), |base.comps|;
    assert n > 0 ==> base.comps[0] == words[0];
    assert words == target.comps;
    assert base.comps == words[..n];
    assert words[..|words|] == words;
    assert Ups(0) + words[n..] == words[n..];
    JoinHead(words[n..]);
  }

  /** They do not: the relative path starts by going up. */
  lemma RelElsewhere(base: Path, target: Path)
    requires Cleaned(base.abs, base.comps) && Cleaned(target.abs, target.comps)
    requires base != target && base.abs == target.abs && CommonPrefix(base.comps, Words(target)) < |base.comps|
    ensures !(base.comps <= target.comps)
    ensures Rel(base, target).Some? ==> StartsDotDot(Rel(base, target).value)
  {
    var words := Words(target);
    var n := CommonPrefix(base.comps, words);
    assert n < |target.comps| ==> base.comps[n] != target.comps[n];
    var parts := Ups(|base.comps| - n) + words[n..];
    assert parts[0] == "..";
    JoinHead(parts);
  }

  /**
   Containment, both directions, for every root and every input: access is granted exactly when
   the input leads inside the root, and what is granted is the path it leads to.
   */
  lemma ValidateExactly(root: string, input: string)
    ensures ValidatePath(root, input).Some? <==> Inside(Parse(root), Target(root, input))
    ensures ValidatePath(root, input).Some? ==> ValidatePath(root, input).value == Render(Target(root, input))
  {
    ResolvedIsTarget(root, input);
    ParseCleaned(root);
    RelInside(Parse(root), Target(root, input));
  }

  /** A granted path re-parses to itself, and below the root it consists of plain names only. */
  lemma GrantedIsPlain(root: string, input: string)
    requires ValidatePath(root, input).Some?
    ensures
      var r, t := Parse(root), Parse(ValidatePath(root, input).value);
      && t.abs == r.abs && r.comps <= t.comps
      && (forall i :: |r.comps| <= i < |t.comps| ==> Plain(t.comps[i]))
      && (r.abs ==> forall i :: 0 <= i < |t.comps| ==> Plain(t.comps[i]))
  {
    ValidateExactly(root, input);
    ResolvedIsTarget(root, input);
    ParseRender(Target(root, input));
    var r, t := Parse(root), Target(root, input);
    forall i | |r.comps| <= i < |t.comps|
      ensures Plain(t.comps[i])
    {
      assert t.comps[|r.comps|] != "..";
    }
  }

  lemma EmptyParses()
    ensures Parse("") == Path(false, []) && Parse(".") == Path(false, [])
  {
    assert Split<char>([], SLASH) == [""] && Walk(false, [], [""]) == [];
    SplitPlain(".", SLASH);
    assert Walk(false, [], ["."]) == [];
  }

  /** Walking the relative part from the root leads to the same target. */
  lemma RelativePartLeadsBack(root: string, input: string)
    requires Inside(Parse(root), Target(root, input))
    ensures
      var rel := Rel(Parse(root), Target(root, input));
      rel.Some? && Target(root, rel.value) == Target(root, input)
  {
    ResolvedIsTarget(root, input);
    ParseCleaned(root);
    EmptyParses();
    var r, t := Parse(root), Target(root, input);
    RelInside(r, t);
    if r == t {
      SplitPlain(".", SLASH);
      assert Walk(r.abs, r.comps, ["."]) == r.comps;
    } else {
      var rest := t.comps[|r.comps|..];
      assert t.comps == r.comps + rest;
      CleanedFree(t.abs, t.comps);
      SplitJoin(rest, SLASH);
      JoinHead(rest);
      WalkAppends(t.abs, r.comps, rest);
    }
  }

  /** The relative part of a granted path is granted again, with the same result. */
  lemma RelativePartIsGranted(root: string, input: string)
    requires ValidatePath(root, input).Some?
    ensures
      var rel := Rel(Parse(root), Target(root, input));
      rel.Some? && ValidatePath(root, rel.value) == ValidatePath(root, input)
  {
    ValidateExactly(root, input);
    RelativePartLeadsBack(root, input);
    ValidateExactly(root, Rel(Parse(root), Target(root, input)).value);
  }

  /** The check is stricter than containment: a plain name that begins with two dots is refused. */
  lemma DottedNameRefused()
    ensures ValidatePath("/r", "..a").None? && Target("/r", "..a") == Path(true, ["r", "..a"])
  {
    SplitPlain("r", SLASH);
    SplitStep(SLASH, "r", SLASH);
    assert "/r" == [SLASH] + "r";
    assert Split("/r", SLASH) == [""] + ["r"];
    assert ([""] + ["r"])[1..] == ["r"];
    assert Walk(true, [], ["r"]) == ["r"];
    assert Parse("/r") == Path(true, ["r"]);
    SplitPlain("..a", SLASH);
    assert Walk(true, ["r"], ["..a"]) == ["r", "..a"];
    ValidateExactly("/r", "..a");
  }
}
