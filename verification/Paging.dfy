/** The line windows that file reads and session logs return. */
module Paging {
  import opened Basics
  import opened Lines

  const NEWLINE: byte := 10
  const MAX_FILE_SIZE: nat := 50 * 1024
  const MAX_LINES: nat := 2000

  /** `Panics` is Go's slice-bounds failure: the window would end before it starts. */
  datatype Outcome = Panics | Page(content: Bytes, linesRead: nat, truncated: bool)

  function Content(r: Outcome): Bytes {
    if r.Page? then r.content else []
  }

  function StartLine(offset: Option<int>): nat {
    if offset.Some? && offset.value > 1 then offset.value - 1 else 0
  }

  function ReadLimit(limit: Option<int>): int {
    if limit.Some? && limit.value < MAX_LINES then limit.value else MAX_LINES
  }

  /** What FileExecutor.Read makes of a file's contents. */
  function ReadPage(data: Bytes, offset: Option<int>, limit: Option<int>): Outcome {
    var lines := Split(data, NEWLINE);
    var start := StartLine(offset);
    if start >= |lines| then Page([], 0, false)
    else
      var end := Min(start + ReadLimit(limit), |lines|);
      if end < start then Panics
      else
        var result := Join(lines[start..end], NEWLINE);
        if |result| > MAX_FILE_SIZE then Page(result[..MAX_FILE_SIZE], end - start, true)
        else Page(result, end - start, end < |lines|)
  }

  /** What getSessionLog makes of a session's output. */
  function LogWindow(output: Bytes, offset: Option<int>, limit: Option<int>): Option<Bytes> {
    if offset.None? && limit.None? then Some(output)
    else
      var lines := Split(output, NEWLINE);
      var start := StartLine(offset);
      var end := if limit.Some? then Min(start + limit.value, |lines|) else |lines|;
      if start >= |lines| then Some([])
      else if end < start then None
      else Some(Join(lines[start..end], NEWLINE))
  }

  /** The contents from line `start` (counted from 0) to the end. */
  function Rest(data: Bytes, start: nat): Bytes {
    var lines := Split(data, NEWLINE);
    if start >= |lines| then [] else Join(lines[start..], NEWLINE)
  }

  /** Reads stay within both caps, and panic exactly for a negative limit on an existing line. */
  lemma ReadBounds(data: Bytes, offset: Option<int>, limit: Option<int>)
    ensures
      var r := ReadPage(data, offset, limit);
      && (r.Panics? <==> limit.Some? && limit.value < 0 && StartLine(offset) < |Split(data, NEWLINE)|)
      && (r.Page? ==> |r.content| <= MAX_FILE_SIZE && r.linesRead <= MAX_LINES)
  {
  }

  /**
   What a read returns, exactly. A missing offset, or one below two, means the first line; a missing
   limit, or a larger one, means 2000 lines; the text is cut at 51,200 bytes.
   */
  lemma PageExactly(data: Bytes, offset: Option<int>, limit: Option<int>, start: nat, n: int)
    requires start == if offset.Some? && offset.value >= 2 then offset.value - 1 else 0
    requires n == if limit.Some? && limit.value < 2000 then limit.value else 2000
    ensures
      var lines, r := Split(data, 10), ReadPage(data, offset, limit);
      && (start >= |lines| ==> r == Page([], 0, false))
      && (start < |lines| && n < 0 ==> r == Panics)
      && (start < |lines| && n >= 0 ==>
            var taken := if n <= |lines| - start then n else |lines| - start;
            var text := Join(lines[start..start + taken], 10);
            var more := start + taken < |lines|;
            r == if |text| > 51_200 then Page(text[..51_200], taken, true) else Page(text, taken, more))
  {
    PageOutside(data, offset, limit, start, n);
    if start < |Split(data, 10)| && n >= 0 {
      var lines := Split(data, 10);
      PageInside(data, offset, limit, start, n, if n <= |lines| - start then n else |lines| - start);
    }
  }

  lemma PageInside(data: Bytes, offset: Option<int>, limit: Option<int>, start: nat, n: nat, taken: nat)
    requires start == StartLine(offset) && n == ReadLimit(limit) && start < |Split(data, 10)|
    requires taken == if n <= |Split(data, 10)| - start then n else |Split(data, 10)| - start
    ensures
      var lines := Split(data, 10);
      var text := Join(lines[start..start + taken], 10);
      var more := start + taken < |lines|;
      ReadPage(data, offset, limit) ==
        if |text| > 51_200 then Page(text[..51_200], taken, true) else Page(text, taken, more)
  {
    PageOf(data, offset, limit, start, n);
  }

  lemma PageOutside(data: Bytes, offset: Option<int>, limit: Option<int>, start: nat, n: int)
    requires start == if offset.Some? && offset.value >= 2 then offset.value - 1 else 0
    requires n == if limit.Some? && limit.value < 2000 then limit.value else 2000
    ensures StartLine(offset) == start && ReadLimit(limit) == n
    ensures start >= |Split(data, 10)| ==> ReadPage(data, offset, limit) == Page([], 0, false)
    ensures start < |Split(data, 10)| && n < 0 ==> ReadPage(data, offset, limit) == Panics
  {
  }

  /**
   What a log request returns, exactly: everything without arguments; otherwise the lines from the
   offset on, no more than the limit, and nothing past the last line.
   */
  lemma LogExactly(output: Bytes, offset: Option<int>, limit: Option<int>, start: nat)
    requires start == if offset.Some? && offset.value >= 2 then offset.value - 1 else 0
    ensures
      var lines, r := Split(output, 10), LogWindow(output, offset, limit);
      && (offset.None? && limit.None? ==> r == Some(output))
      && ((offset.Some? || limit.Some?) && start >= |lines| ==> r == Some([]))
      && (limit.None? && offset.Some? && start < |lines| ==> r == Some(Join(lines[start..], 10)))
      && (limit.Some? && limit.value < 0 && start < |lines| ==> r == None)
      && (limit.Some? && limit.value >= 0 && start < |lines| ==>
            var taken := if limit.value <= |lines| - start then limit.value else |lines| - start;
            r == Some(Join(lines[start..start + taken], 10)))
  {
    if limit.None? && offset.Some? && start < |Split(output, 10)| {
      assert Split(output, 10)[start..|Split(output, 10)|] == Split(output, 10)[start..];
    }
  }

  /** Leaving lines out at the end always leaves text out. */
  lemma CutShort(lines: seq<Bytes>, start: nat, end: nat)
    requires start < end < |lines|
    ensures |Join(lines[start..end], NEWLINE)| < |Join(lines[start..], NEWLINE)|
  {
    assert lines[start..end] + lines[end..] == lines[start..];
    JoinConcat(lines[start..end], lines[end..], NEWLINE);
  }

  /**
   With a limit of at least one line, or none, a page that starts inside the file is marked
   truncated exactly when it is not everything from there to the end.
   */
  lemma TruncatedIsExact(data: Bytes, offset: Option<int>, limit: Option<int>)
    requires limit.Some? ==> limit.value >= 1
    requires StartLine(offset) < |Split(data, NEWLINE)|
    ensures
      var r := ReadPage(data, offset, limit);
      r.Page? && (r.truncated <==> r.content != Rest(data, StartLine(offset)))
  {
    var lines := Split(data, NEWLINE);
    var start := StartLine(offset);
    var end := Min(start + ReadLimit(limit), |lines|);
    PageOf(data, offset, limit, start, ReadLimit(limit));
    if end < |lines| {
      CutShort(lines, start, end);
    } else {
      assert lines[start..end] == lines[start..];
    }
  }

  /** A window's text as a page: cut at the byte cap. */
  function Capped(text: Bytes, linesRead: nat, more: bool): Outcome {
    if |text| > MAX_FILE_SIZE then Page(text[..MAX_FILE_SIZE], linesRead, true) else Page(text, linesRead, more)
  }

  lemma PageOf(data: Bytes, offset: Option<int>, limit: Option<int>, start: nat, n: nat)
    requires start == StartLine(offset) && n == ReadLimit(limit) && start < |Split(data, NEWLINE)|
    ensures
      var lines := Split(data, NEWLINE);
      var end := Min(start + n, |lines|);
      ReadPage(data, offset, limit) == Capped(Join(lines[start..end], NEWLINE), end - start, end < |lines|)
  {
  }

  /** The read does not panic, and `truncated` says exactly whether something after the start line was left out. */
  predicate TruncatedIsTrue(data: Bytes, offset: Option<int>, limit: Option<int>) {
    var r := ReadPage(data, offset, limit);
    r.Page? && (r.truncated <==> r.content != Rest(data, StartLine(offset)))
  }

  /**
   When `truncated` can be trusted, exactly: for a start line inside the file, unless the limit is
   negative, which panics, or the limit is zero and nothing but an empty last line follows.
   */
  lemma TruncatedExactly(data: Bytes, offset: Option<int>, limit: Option<int>)
    requires StartLine(offset) < |Split(data, NEWLINE)|
    ensures TruncatedIsTrue(data, offset, limit) <==>
              !(limit.Some? && (limit.value < 0 || (limit.value == 0 && Rest(data, StartLine(offset)) == [])))
  {
    if limit.Some? && limit.value <= 0 {
      ReadBounds(data, offset, limit);
      if limit.value == 0 { ReadsNothing(data, offset); }
    } else {
      TruncatedIsExact(data, offset, limit);
    }
  }

  lemma ReadsNothing(data: Bytes, offset: Option<int>)
    requires StartLine(offset) < |Split(data, NEWLINE)|
    ensures ReadPage(data, offset, Some(0)) == Page([], 0, true)
  {
    var lines, start := Split(data, NEWLINE), StartLine(offset);
    assert lines[start..start] == [];
  }

  /** The shortest case: an empty file read with limit zero is complete but marked truncated. */
  lemma ZeroLimitMarksTruncated()
    ensures ReadPage([], None, Some(0)) == Page([], 0, true) && Rest([], 0) == []
  {
    assert Split<byte>([], NEWLINE) == [[]];
  }

  /** Whatever the limit, an untruncated page is everything from its start line to the end. */
  lemma UntruncatedIsComplete(data: Bytes, offset: Option<int>, limit: Option<int>)
    requires StartLine(offset) < |Split(data, NEWLINE)|
    requires ReadPage(data, offset, limit).Page? && !ReadPage(data, offset, limit).truncated
    ensures ReadPage(data, offset, limit).content == Rest(data, StartLine(offset))
    ensures ReadPage(data, offset, limit).linesRead == |Split(data, NEWLINE)| - StartLine(offset)
  {
    var lines := Split(data, NEWLINE);
    assert lines[StartLine(offset)..|lines|] == lines[StartLine(offset)..];
  }

  /** The number of windows of `k` lines that cover `data`. */
  function PageCount(data: Bytes, k: nat): nat
    requires k >= 1
  {
    |Windows(Split(data, NEWLINE), k, NEWLINE)|
  }

  /** The page count is the least number of windows of `k` lines that reaches the last line. */
  lemma PageCountCovers(data: Bytes, k: nat)
    requires k >= 1
    ensures
      var n, lines := PageCount(data, k), |Split(data, NEWLINE)|;
      n >= 1 && (n - 1) * k < lines <= n * k
  {
    var lines := Split(data, NEWLINE);
    var n := PageCount(data, k);
    WindowsAt(lines, k, NEWLINE, n - 1, (n - 1) * k);
    TimesPred(n, k);
  }

  lemma {:induction false} JoinShrinks(a: seq<Bytes>, b: seq<Bytes>)
    requires |a| == |b| && forall i :: 0 <= i < |a| ==> |a[i]| <= |b[i]|
    ensures |Join(a, NEWLINE)| <= |Join(b, NEWLINE)|
    ensures (exists i :: 0 <= i < |a| && |a[i]| < |b[i]|) ==> |Join(a, NEWLINE)| < |Join(b, NEWLINE)|
  {
    if |a| > 1 {
      JoinShrinks(a[1..], b[1..]);
      if i :| 0 <= i < |a| && |a[i]| < |b[i]| {
        assert i > 0 ==> a[1..][i - 1] == a[i] && b[1..][i - 1] == b[i];
      }
    }
  }

  lemma PagesAgainstWindows(data: Bytes, k: nat, pages: seq<Bytes>)
    requires 1 <= k <= MAX_LINES && |pages| == PageCount(data, k)
    requires forall i :: 0 <= i < |pages| ==> pages[i] == Content(ReadPage(data, Some(i * k + 1), Some(k)))
    ensures
      var windows := Windows(Split(data, NEWLINE), k, NEWLINE);
      forall i :: 0 <= i < |pages| ==>
        |pages[i]| == Min(|windows[i]|, MAX_FILE_SIZE) && (|windows[i]| <= MAX_FILE_SIZE ==> pages[i] == windows[i])
  {
    forall i | 0 <= i < |pages|
      ensures
        var w := Windows(Split(data, NEWLINE), k, NEWLINE)[i];
        |pages[i]| == Min(|w|, MAX_FILE_SIZE) && (|w| <= MAX_FILE_SIZE ==> pages[i] == w)
    {
      WindowPage(data, k, i, i * k);
    }
  }

  /**
   Paging through a file with any page size the line cap allows, and joining the pages with
   newlines, gives the file back if and only if no window overflows the byte cap.
   */
  lemma ReadPagesRebuild(data: Bytes, k: nat, pages: seq<Bytes>)
    requires 1 <= k <= MAX_LINES && |pages| == PageCount(data, k)
    requires forall i :: 0 <= i < |pages| ==> pages[i] == Content(ReadPage(data, Some(i * k + 1), Some(k)))
    ensures Join(pages, NEWLINE) == data <==>
              forall i :: 0 <= i < |pages| ==> |Windows(Split(data, NEWLINE), k, NEWLINE)[i]| <= MAX_FILE_SIZE
  {
    var windows := Windows(Split(data, NEWLINE), k, NEWLINE);
    PagesAgainstWindows(data, k, pages);
    WindowsWhole(data, k);
    if forall i :: 0 <= i < |pages| ==> |windows[i]| <= MAX_FILE_SIZE {
      assert pages == windows;
    } else {
      JoinShrinks(pages, windows);
    }
  }

  lemma PageFrom(data: Bytes, start: nat, k: nat)
    requires 1 <= k && start < |Split(data, NEWLINE)|
    ensures
      var lines := Split(data, NEWLINE);
      var end := Min(start + k, |lines|);
      var w := Join(lines[start..end], NEWLINE);
      && LogWindow(data, Some(start + 1), Some(k)) == Some(w)
      && (k <= MAX_LINES ==> ReadPage(data, Some(start + 1), Some(k)) == Capped(w, end - start, end < |lines|))
  {
    LogFrom(data, start, k);
    if k <= MAX_LINES { ReadFrom(data, start, k); }
  }

  lemma LogFrom(data: Bytes, start: nat, k: nat)
    requires start < |Split(data, NEWLINE)|
    ensures
      var lines := Split(data, NEWLINE);
      LogWindow(data, Some(start + 1), Some(k)) == Some(Join(lines[start..Min(start + k, |lines|)], NEWLINE))
  {
    assert StartLine(Some(start + 1)) == start;
  }

  lemma ReadFrom(data: Bytes, start: nat, k: nat)
    requires k <= MAX_LINES && start < |Split(data, NEWLINE)|
    ensures
      var lines := Split(data, NEWLINE);
      var end := Min(start + k, |lines|);
      ReadPage(data, Some(start + 1), Some(k)) == Capped(Join(lines[start..end], NEWLINE), end - start, end < |lines|)
  {
    PageOf(data, Some(start + 1), Some(k), start, k);
  }

  lemma WindowPage(data: Bytes, k: nat, i: nat, start: nat)
    requires 1 <= k && i < PageCount(data, k) && start == i * k
    ensures
      var w, r := Windows(Split(data, NEWLINE), k, NEWLINE)[i], ReadPage(data, Some(start + 1), Some(k));
      && LogWindow(data, Some(start + 1), Some(k)) == Some(w)
      && (k <= MAX_LINES ==>
              r.Page? && |r.content| == Min(|w|, MAX_FILE_SIZE) &&
              (|w| <= MAX_FILE_SIZE ==> r.content == w))
  {
    WindowsAt(Split(data, NEWLINE), k, NEWLINE, i, start);
    PageFrom(data, start, k);
  }

  /** getSessionLog panics exactly for a negative limit on an existing line. */
  lemma LogPanics(output: Bytes, offset: Option<int>, limit: Option<int>)
    ensures LogWindow(output, offset, limit).None? <==>
              limit.Some? && limit.value < 0 && StartLine(offset) < |Split(output, NEWLINE)|
  {
  }

  lemma LogPageIs(output: Bytes, k: nat, i: nat, start: nat)
    requires 1 <= k && i < PageCount(output, k) && start == i * k
    ensures LogWindow(output, Some(start + 1), Some(k)) == Some(Windows(Split(output, NEWLINE), k, NEWLINE)[i])
  {
    WindowsAt(Split(output, NEWLINE), k, NEWLINE, i, start);
    LogFrom(output, start, k);
  }

  /** Paging through a session's output rebuilds it, with no limit on the page size. */
  lemma LogPagesRebuild(output: Bytes, k: nat, pages: seq<Bytes>)
    requires k >= 1 && |pages| == PageCount(output, k)
    requires forall i :: 0 <= i < |pages| ==> LogWindow(output, Some(i * k + 1), Some(k)) == Some(pages[i])
    ensures Join(pages, NEWLINE) == output
  {
    LogPagesAreWindows(output, k, pages);
    WindowsWhole(output, k);
  }

  lemma LogPagesAreWindows(output: Bytes, k: nat, pages: seq<Bytes>)
    requires k >= 1 && |pages| == PageCount(output, k)
    requires forall i :: 0 <= i < |pages| ==> LogWindow(output, Some(i * k + 1), Some(k)) == Some(pages[i])
    ensures pages == Windows(Split(output, NEWLINE), k, NEWLINE)
  {
    forall i | 0 <= i < |pages|
      ensures pages[i] == Windows(Split(output, NEWLINE), k, NEWLINE)[i]
    {
      LogPageIs(output, k, i, i * k);
    }
  }

  lemma WindowsWhole(data: Bytes, k: nat)
    requires k >= 1
    ensures Join(Windows(Split(data, NEWLINE), k, NEWLINE), NEWLINE) == data
  {
    WindowsRejoin(Split(data, NEWLINE), k, NEWLINE);
    JoinSplit(data, NEWLINE);
  }

  // ---- edit ----

  /** What Edit makes of a file's contents; None when the old text does not occur. */
  function EditText(content: Bytes, oldText: Bytes, newText: Bytes): Option<Bytes> {
    match Index(content, oldText)
    case None => None
    case Some(i) => Some(content[..i] + newText + content[i + |oldText|..])
  }

  lemma Replaced(content: Bytes, i: nat, n: nat, text: Bytes)
    requires i + n <= |content|
    ensures
      var r := content[..i] + text + content[i + n..];
      |r| == |content| - n + |text| && Matches(r, text, i) && r[..i] == content[..i] &&
        r[i + |text|..] == content[i + n..]
  {
    var r := content[..i] + text + content[i + n..];
    assert r[i..i + |text|] == text;
  }

  /** Edit fails exactly when there is no match; otherwise it replaces the least one and nothing else. */
  lemma EditReplacesFirst(content: Bytes, oldText: Bytes, newText: Bytes)
    ensures EditText(content, oldText, newText).None? <==> forall i :: !Matches(content, oldText, i)
    ensures EditText(content, oldText, newText).Some? ==>
              exists i: nat ::
                && Matches(content, oldText, i) && (forall j :: Matches(content, oldText, j) ==> i <= j)
                && var r := EditText(content, oldText, newText).value;
                && |r| == |content| - |oldText| + |newText|
                && Matches(r, newText, i) && r[..i] == content[..i] && r[i + |newText|..] == content[i + |oldText|..]
  {
    if Index(content, oldText).Some? {
      var i := Index(content, oldText).value;
      Replaced(content, i, |oldText|, newText);
      assert forall j :: Matches(content, oldText, j) ==> i <= j;
    }
  }

  /** The reverse edit restores the file if and only if the new text first occurs where it was put. */
  lemma ReverseEditRestores(content: Bytes, oldText: Bytes, newText: Bytes)
    requires Index(content, oldText).Some?
    ensures
      var edited := EditText(content, oldText, newText).value;
      EditText(edited, newText, oldText) == Some(content) <==> Index(edited, newText) == Index(content, oldText)
  {
    var i := Index(content, oldText).value;
    var edited := EditText(content, oldText, newText).value;
    Replaced(content, i, |oldText|, newText);
    var j := Index(edited, newText).value;
    Replaced(edited, j, |newText|, oldText);
    if j == i {
      assert content == content[..i] + oldText + content[i + |oldText|..];
    }
  }
}
