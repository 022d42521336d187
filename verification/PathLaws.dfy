/** What cleaning and validation do to the text of a path, said without the component walk. */
module PathLaws {
  import opened Basics
  import opened Lines
  import opened Paths

  predicate EndsWith(s: string, t: string) {
    |t| <= |s| && s[|s| - |t|..] == t
  }

  lemma SplitUnder(p: string, c: string)
    requires SLASH !in c
    ensures Split(p + "/" + c, SLASH) == Split(p, SLASH) + [c]
  {
    SplitConcat(p, c, SLASH);
    SplitPlain(c, SLASH);
    assert p + "/" + c == p + [SLASH] + c;
  }

  /** The components of a path with one more component written behind it. */
  lemma ParseUnder(p: string, c: string)
    requires p != "" && SLASH !in c
    ensures Parse(p + "/" + c) == Path(Parse(p).abs, Enter(Parse(p).abs, Parse(p).comps, c))
  {
    SplitUnder(p, c);
    WalkConcat(Absolute(p), [], Split(p, SLASH), [c]);
    assert [c][1..] == [];
  }

  /** Rendering cleaned components with one more appended. */
  lemma RenderUnder(p: Path, c: string)
    requires Cleaned(p.abs, p.comps) && c != "" && SLASH !in c
    ensures
      var text := Render(p);
      Render(Path(p.abs, p.comps + [c])) == if text == "/" then "/" + c else if text == "." then c else text + "/" + c
  {
    if p.comps == [] {
      assert p.comps + [c] == [c];
    } else {
      JoinConcat(p.comps, [c], SLASH);
      JoinHead(p.comps);
      RenderNotBare(p);
    }
  }

  lemma RenderNotBare(p: Path)
    requires Cleaned(p.abs, p.comps) && p.comps != []
    ensures Render(p) != "/" && Render(p) != "."
  {
    JoinHead(p.comps);
    CleanedFree(p.abs, p.comps);
    SplitJoin(p.comps, SLASH);
    if !p.abs && Join(p.comps, SLASH) == "." { SplitPlain(".", SLASH); }
  }

  /** Going down: a plain name is written behind the cleaned path. */
  lemma CleanDown(p: string, c: string)
    requires p != "" && Plain(c)
    ensures Clean(p + "/" + c) == if Clean(p) == "/" then "/" + c else if Clean(p) == "." then c else Clean(p) + "/" + c
  {
    ParseUnder(p, c);
    ParseCleaned(p);
    RenderUnder(Parse(p), c);
  }

  /** Going down and up again leads nowhere. */
  lemma CleanDownUp(p: string, c: string)
    requires p != "" && Plain(c)
    ensures Clean(p + "/" + c + "/..") == Clean(p)
  {
    ParseUnder(p, c);
    ParseUnder(p + "/" + c, "..");
    assert p + "/" + c + "/" + ".." == p + "/" + c + "/..";
    var at := Parse(p).comps;
    assert (at + [c])[..|at|] == at;
  }

  /** Staying, and empty components, change nothing. */
  lemma CleanStays(p: string, c: string)
    requires p != "" && SLASH !in c
    ensures Clean(p + "/.") == Clean(p) && Clean(p + "/") == Clean(p) && Clean(p + "//" + c) == Clean(p + "/" + c)
  {
    ParseUnder(p, ".");
    assert p + "/" + "." == p + "/.";
    ParseUnder(p, "");
    assert p + "/" + "" == p + "/";
    ParseUnder(p, c);
    ParseUnder(p + "/", c);
    assert p + "/" + "/" + c == p + "//" + c;
  }

  /** Going up from the root stays there; going up from a relative path that cannot, is written out. */
  lemma CleanUpPast(p: string)
    requires p != ""
    ensures Clean(p) == "/" ==> Clean(p + "/..") == "/"
    ensures Clean(p) == "." ==> Clean(p + "/..") == ".."
    ensures Clean(p) == ".." || EndsWith(Clean(p), "/..") ==> Clean(p + "/..") == Clean(p) + "/.."
  {
    ParseUnder(p, "..");
    assert p + "/" + ".." == p + "/..";
    ParseCleaned(p);
    var q := Parse(p);
    if q.comps == [] {
      assert q.comps + [".."] == [".."];
    } else {
      RenderNotBare(q);
    }
    if Clean(p) == ".." || EndsWith(Clean(p), "/..") {
      LastUp(q);
      RenderUnder(q, "..");
    }
  }

  /** A cleaned path whose text ends with a step up is relative, and that is its last component. */
  lemma LastUp(q: Path)
    requires Cleaned(q.abs, q.comps) && (Render(q) == ".." || EndsWith(Render(q), "/.."))
    ensures !q.abs && q.comps != [] && q.comps[|q.comps| - 1] == ".."
  {
    LastIs(q, "..");
  }

  lemma LastIs(q: Path, c: string)
    requires Cleaned(q.abs, q.comps) && c != "" && c != "." && SLASH !in c
    requires Render(q) == c || EndsWith(Render(q), "/" + c)
    ensures q.comps != [] && q.comps[|q.comps| - 1] == c
  {
    var text := Render(q);
    if q.comps == [] { assert false; }
    RenderSplits(q);
    if text == c {
      SplitPlain(c, SLASH);
    } else {
      var front := text[..|text| - |c| - 1];
      assert text == front + ("/" + c) && front + ("/" + c) == front + "/" + c;
      SplitUnder(front, c);
      var parts := Split(text, SLASH);
      assert parts[|parts| - 1] == c;
    }
  }

  /** The last part of a cleaned path's text is its last component. */
  lemma RenderSplits(q: Path)
    requires Cleaned(q.abs, q.comps) && q.comps != []
    ensures Split(Render(q), SLASH) == (if q.abs then [""] else []) + q.comps
  {
    CleanedFree(q.abs, q.comps);
    SplitJoin(q.comps, SLASH);
    if q.abs {
      SplitStep(SLASH, Join(q.comps, SLASH), SLASH);
    } else {
      assert [] + q.comps == q.comps;
    }
  }

  /** The shortest paths. */
  lemma CleanBase(c: string)
    requires Plain(c)
    ensures Clean("") == "." && Clean(".") == "." && Clean("..") == ".." && Clean("/") == "/" && Clean("/..") == "/"
    ensures Clean(c) == c && Clean("/" + c) == "/" + c
  {
    EmptyParses();
    SplitPlain("..", SLASH);
    assert Walk(false, [], [".."]) == [] + [".."];
    SplitPlain(c, SLASH);
    assert Walk(false, [], [c]) == [] + [c];
    RootParses("");
    RootParses("..");
    RootParses(c);
    assert "/" + "" == "/" && "/" + ".." == "/..";
    assert [] + [c] == [c];
  }

  lemma RootParses(c: string)
    requires SLASH !in c
    ensures Parse("/" + c) == Path(true, Enter(true, [], c))
  {
    SplitPlain(c, SLASH);
    SplitStep(SLASH, c, SLASH);
    assert "/" + c == [SLASH] + c;
    WalkConcat(true, [], [""], [c]);
    WalkOne(true, [], "");
    WalkOne(true, [], c);
  }

  lemma WalkOne(abs: bool, at: seq<string>, c: string)
    ensures Walk(abs, at, [c]) == Enter(abs, at, c)
  {
    assert [c][1..] == [];
  }

  // ---- validation ----

  /** From an absolute root a step up leads out, unless it leads straight back in. */
  lemma ParentRefused(root: string, c: string)
    requires Absolute(root) && Plain(c) && Clean(root) != "/" && !EndsWith(Clean(root), "/" + c)
    ensures ValidatePath(root, "../" + c).None?
  {
    ValidateExactly(root, "../" + c);
    ParseCleaned(root);
    var r := Parse(root);
    SplitUnder("..", c);
    SplitPlain("..", SLASH);
    assert "../" + c == ".." + "/" + c;
    var n := |r.comps| - 1;
    WalkConcat(true, r.comps, [".."], [c]);
    WalkOne(true, r.comps, "..");
    WalkOne(true, r.comps[..n], c);
    assert Target(root, "../" + c).comps == r.comps[..n] + [c];
    if r.comps[n] == c { EndsIn(r, n, c); }
  }

  lemma EndsIn(r: Path, n: nat, c: string)
    requires r.abs && Cleaned(true, r.comps) && |r.comps| == n + 1 && r.comps[n] == c && Plain(c)
    ensures EndsWith(Render(r), "/" + c)
  {
    var up := Path(true, r.comps[..n]);
    assert r.comps == up.comps + [c];
    RenderUnder(up, c);
    EndsAfter(Render(up), c);
  }

  lemma EndsAfter(text: string, c: string)
    ensures EndsWith(text + "/" + c, "/" + c) && EndsWith("/" + c, "/" + c)
  {
    assert text + "/" + c == text + ("/" + c);
  }

  /** Below an absolute root a single name is granted, with its place, exactly when it does not begin with two dots. */
  lemma ChildExactly(root: string, c: string)
    requires Absolute(root) && Plain(c)
    ensures ValidatePath(root, c) == if ".." <= c then None else Some(Clean(root + "/" + c))
  {
    ValidateExactly(root, c);
    ResolvedIsTarget(root, c);
    SplitPlain(c, SLASH);
    var r := Parse(root);
    assert Walk(true, r.comps, [c]) == r.comps + [c];
    assert root + "/" + c == root + [SLASH] + c;
    CleanIdempotent(root + "/" + c);
  }

  /** The root itself is granted. */
  lemma RootGranted(root: string)
    requires root != ""
    ensures ValidatePath(root, "") == Some(Clean(root)) && ValidatePath(root, ".") == Some(Clean(root))
  {
    ValidateExactly(root, "");
    ValidateExactly(root, ".");
    SplitPlain(".", SLASH);
    var r := Parse(root);
    assert Split<char>("", SLASH) == [""];
    assert Walk(r.abs, r.comps, [""]) == r.comps && Walk(r.abs, r.comps, ["."]) == r.comps;
  }

  // ---- relative paths ----

  lemma {:induction false} WalkUps(abs: bool, at: seq<string>, n: nat)
    requires n <= |at| && forall i :: |at| - n <= i < |at| ==> at[i] != ".."
    ensures Walk(abs, at, Ups(n)) == at[..|at| - n]
    decreases n
  {
    if n == 0 {
      assert at[..|at|] == at;
    } else {
      var up := at[..|at| - 1];
      assert Ups(n)[1..] == Ups(n - 1);
      WalkUps(abs, up, n - 1);
      assert up[..|up| - (n - 1)] == at[..|at| - n];
    }
  }

  /** Past the common part of a cleaned base, one step up means all. */
  lemma NoUpsAfter(base: Path, n: nat)
    requires Cleaned(base.abs, base.comps) && n <= |base.comps| && (n < |base.comps| ==> base.comps[n] != "..")
    ensures forall i :: n <= i < |base.comps| ==> base.comps[i] != ".."
  {
  }

  /** Where the words of a relative path lead from the base. */
  lemma WordsLeadBack(base: Path, target: Path)
    requires Cleaned(base.abs, base.comps) && Cleaned(target.abs, target.comps) && base.abs == target.abs
    requires base != target && Rel(base, target).Some?
    ensures
      var n := CommonPrefix(base.comps, Words(target));
      Walk(base.abs, base.comps, Ups(|base.comps| - n) + Words(target)[n..]) == target.comps
  {
    var words := Words(target);
    var n := CommonPrefix(base.comps, words);
    WalkConcat(base.abs, base.comps, Ups(|base.comps| - n), words[n..]);
    NoUpsAfter(base, n);
    WalkUps(base.abs, base.comps, |base.comps| - n);
    WordsRestore(base, target, n);
  }

  lemma WordsRestore(base: Path, target: Path, n: nat)
    requires Cleaned(base.abs, base.comps) && Cleaned(target.abs, target.comps) && base.abs == target.abs
    requires n <= |base.comps| && n <= |Words(target)| && base.comps[..n] == Words(target)[..n]
    ensures Walk(base.abs, base.comps[..n], Words(target)[n..]) == target.comps
  {
    var words := Words(target);
    if n > 0 { FirstAgrees(base.comps, words, n); }
    if target.comps == [] && !target.abs {
      assert words[0..] == ["."] && base.comps[..0] == [];
      WalkOne(base.abs, [], ".");
    } else {
      assert base.comps[..n] + words[n..] == words;
      WalkAppends(base.abs, base.comps[..n], words[n..]);
    }
  }

  /** No part of a relative path contains a slash. */
  lemma RelPartsFree(base: Path, target: Path, n: nat)
    requires Cleaned(target.abs, target.comps) && n <= |Words(target)| && n <= |base.comps|
    ensures Free(Ups(|base.comps| - n) + Words(target)[n..], SLASH)
  {
    CleanedFree(target.abs, target.comps);
  }

  /**
   What filepath.Rel promises, for all cleaned paths: it fails exactly for paths of different kinds,
   or when the base steps up where the target does not; otherwise the relative path, written behind
   the base, leads to the target; and it is a dot exactly for equal paths.
   */
  lemma RelExactly(base: Path, target: Path)
    requires Cleaned(base.abs, base.comps) && Cleaned(target.abs, target.comps)
    ensures
      var n := CommonPrefix(base.comps, Words(target));
      Rel(base, target).None? <==>
        base != target && (base.abs != target.abs || (n < |base.comps| && base.comps[n] == ".."))
    ensures base == target ==> Rel(base, target) == Some(".")
    ensures base != target && Rel(base, target).Some? ==>
              Walk(base.abs, base.comps, Split(Rel(base, target).value, SLASH)) == target.comps
  {
    if base != target && Rel(base, target).Some? {
      var n := CommonPrefix(base.comps, Words(target));
      var parts := Ups(|base.comps| - n) + Words(target)[n..];
      WordsLeadBack(base, target);
      RelPartsFree(base, target, n);
      if parts == [] {
        SamePath(base, target, n);
      } else {
        SplitJoin(parts, SLASH);
      }
    }
  }

  lemma SamePath(base: Path, target: Path, n: nat)
    requires n == |base.comps| == |Words(target)| && base.comps[..n] == Words(target)[..n] && base.abs == target.abs
    requires Cleaned(base.abs, base.comps)
    ensures base == target
  {
    assert base.comps[..n] == base.comps && Words(target)[..n] == Words(target);
    if n > 0 { FirstAgrees(base.comps, Words(target), n); }
  }

  lemma FirstAgrees(a: seq<string>, b: seq<string>, n: nat)
    requires 0 < n <= |a| && n <= |b| && a[..n] == b[..n]
    ensures a[0] == b[0]
  {
    assert a[..n][0] == a[0];
  }
}
