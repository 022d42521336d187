/** The token file: written with a newline by persistToken, trimmed when the program starts. */
module Tokens {
  import opened Basics

  /** unicode.IsSpace. */
  predicate IsSpace(c: char) {
    || c == ' ' || '\U{9}' <= c <= '\U{D}' || c == '\U{85}' || c == '\U{A0}' || c == '\U{1680}'
    || '\U{2000}' <= c <= '\U{200A}' || c == '\U{2028}' || c == '\U{2029}' || c == '\U{202F}' || c == '\U{205F}' ||
         c == '\U{3000}'
  }

  /** The characters with the White_Space property, one by one. */
  lemma SpaceTable(c: char)
    ensures IsSpace(c) <==>
              c as int in [9, 10, 11, 12, 13, 32, 133, 160, 5760, 8192, 8193, 8194, 8195, 8196, 8197, 8198, 8199, 8200,
                           8201, 8202, 8232, 8233, 8239, 8287, 12288]
  {
  }

  function TrimLeft(s: string): string {
    if s != "" && IsSpace(s[0]) then TrimLeft(s[1..]) else s
  }

  function TrimRight(s: string): string {
    if s != "" && IsSpace(s[|s| - 1]) then TrimRight(s[..|s| - 1]) else s
  }

  function TrimSpace(s: string): string {
    TrimRight(TrimLeft(s))
  }

  /** What persistToken writes. */
  function FileText(token: string): string {
    token + "\n"
  }

  /** The token a starting program uses: the file's contents, trimmed, unless nothing is left of them. */
  function LoadToken(file: Option<string>, env: string): string {
    if file.Some? && TrimSpace(file.value) != "" then TrimSpace(file.value) else env
  }

  predicate Blank(s: string) {
    forall i :: 0 <= i < |s| ==> IsSpace(s[i])
  }

  /** Neither empty nor surrounded by whitespace. */
  predicate Tidy(s: string) {
    s != "" && !IsSpace(s[0]) && !IsSpace(s[|s| - 1])
  }

  lemma {:induction false} TrimLeftResult(s: string)
    ensures Blank(s) ==> TrimLeft(s) == ""
    ensures !Blank(s) ==> TrimLeft(s) != "" && !IsSpace(TrimLeft(s)[0]) && TrimLeft(s)[|TrimLeft(s)| - 1] == s[|s| - 1]
    ensures TrimLeft(s) == s <==> s == "" || !IsSpace(s[0])
    ensures |TrimLeft(s)| <= |s|
  {
    if s != "" && IsSpace(s[0]) {
      TrimLeftResult(s[1..]);
      if !Blank(s) {
        var i :| 0 <= i < |s| && !IsSpace(s[i]);
        assert s[1..][i - 1] == s[i];
      }
    }
  }

  lemma {:induction false} TrimRightResult(s: string)
    ensures s != "" && !IsSpace(s[0]) ==>
          TrimRight(s) != "" && TrimRight(s)[0] == s[0] &&
          !IsSpace(TrimRight(s)[|TrimRight(s)| - 1])
    ensures TrimRight(s) == s <==> s == "" || !IsSpace(s[|s| - 1])
    ensures |TrimRight(s)| <= |s|
  {
    if s != "" && IsSpace(s[|s| - 1]) {
      TrimRightResult(s[..|s| - 1]);
    }
  }

  /** Trimming a persisted token gives something tidy, or nothing when the token was blank. */
  lemma TrimResult(token: string)
    ensures TrimSpace(FileText(token)) == "" <==> Blank(token)
    ensures !Blank(token) ==> Tidy(TrimSpace(FileText(token)))
    ensures Tidy(token) ==> TrimSpace(FileText(token)) == token
  {
    var s := FileText(token);
    assert s[|token|] == '\n';
    if Blank(token) {
      assert Blank(s);
    } else {
      var i :| 0 <= i < |token| && !IsSpace(token[i]);
      assert s[i] == token[i];
    }
    TrimLeftResult(s);
    TrimRightResult(TrimLeft(s));
    if Tidy(token) {
      assert TrimLeft(s) == s;
      assert TrimRight(s) == TrimRight(s[..|s| - 1]) && s[..|s| - 1] == token;
      TrimRightResult(token);
    }
  }

  /**
   A persisted token survives a restart if and only if it has no surrounding whitespace, or is
   blank and happens to be the environment's token.
   */
  lemma RestartRoundTrip(token: string, env: string)
    ensures LoadToken(Some(FileText(token)), env) == token <==> Tidy(token) || (Blank(token) && env == token)
  {
    TrimResult(token);
  }

  // ---- in plain characters ----

  predicate Blanks(s: string) {
    forall i :: 0 <= i < |s| ==> s[i] in {' ', '\t', '\n', '\r'}
  }

  predicate Printable(s: string) {
    forall i :: 0 <= i < |s| ==> '!' <= s[i] <= '~'
  }

  lemma {:induction false} TrimsLeft(pre: string, s: string)
    requires Blanks(pre) && s != "" && Printable(s[..1])
    ensures TrimLeft(pre + s) == s
  {
    if pre == "" {
      assert pre + s == s && s[0] == s[..1][0];
    } else {
      TrimsLeft(pre[1..], s);
      assert (pre + s)[1..] == pre[1..] + s;
    }
  }

  lemma {:induction false} TrimsRight(s: string, post: string)
    requires Blanks(post) && s != "" && '!' <= s[|s| - 1] <= '~'
    ensures TrimRight(s + post) == s
  {
    if post == "" {
      assert s + post == s;
    } else {
      var n := |post| - 1;
      TrimsRight(s, post[..n]);
      assert (s + post)[..|s + post| - 1] == s + post[..n];
      assert (s + post)[|s + post| - 1] == post[n];
    }
  }

  /**
   What a start makes of the token file: a printable token is found between any blanks and line ends;
   without a file, or with one of blanks alone, the environment's token is used.
   */
  lemma LoadExactly(pre: string, token: string, post: string, env: string)
    requires Blanks(pre) && Blanks(post) && Printable(token)
    ensures LoadToken(Some(pre + token + post), env) == if token == "" then env else token
    ensures LoadToken(None, env) == env
  {
    if token == "" {
      var s := pre + token + post;
      assert Blank(s);
      TrimLeftResult(s);
    } else {
      assert pre + token + post == pre + (token + post);
      assert (token + post)[..1] == token[..1];
      TrimsLeft(pre, token + post);
      TrimsRight(token, post);
    }
  }
}
