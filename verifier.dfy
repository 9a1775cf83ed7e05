/**
 * The in-memory file verifier: looks a path up in its table and reports
 * the content's size and line count.
 */
module Verifier {
  import opened Domain
  import opened Utf8

  /** Information about a verified file; `size` is in bytes. */
  datatype FileInfo = FileInfo(path: string, size: int, lines: int)

  /** The number of '\n' characters in `s`. */
  function CountNewlines(s: string): (n: nat)
    ensures n <= |s|
  {
    if |s| == 0 then 0
    else (if s[0] == '\n' then 1 else 0) + CountNewlines(s[1..])
  }

  /**
   * The line count of the in-memory verifier: zero for empty content;
   * otherwise newlines plus one, less one for a trailing newline, and at
   * least one.
   */
  function LineCount(content: string): (n: nat)
  {
    if |content| == 0 then 0
    else
      var counted := CountNewlines(content) + 1;
      var trimmed := if content[|content| - 1] == '\n' then counted - 1 else counted;
      if trimmed == 0 then 1 else trimmed
  }

  /** The index of the first '\n' of `s`, or |s| when there is none. */
  function LineEnd(s: string): (i: nat)
    ensures i <= |s|
    ensures i < |s| ==> s[i] == '\n'
    ensures forall j :: 0 <= j < i ==> s[j] != '\n'
  {
    if |s| == 0 || s[0] == '\n' then 0 else 1 + LineEnd(s[1..])
  }

  /**
   * Lines as a line scanner reads them: each line ends at a '\n' or at the
   * end of the text, and a text that ends with '\n' has no empty last line.
   */
  function ScannedLines(s: string): nat
    decreases |s|
  {
    if |s| == 0 then 0
    else
      var i := LineEnd(s);
      if i == |s| then 1 else 1 + ScannedLines(s[i + 1..])
  }

  /** Counting newlines distributes over concatenation. */
  lemma {:induction false} CountNewlinesAppend(s: string, t: string)
    ensures CountNewlines(s + t) == CountNewlines(s) + CountNewlines(t)
  {
    if |s| > 0 {
      assert (s + t)[1..] == s[1..] + t;
      CountNewlinesAppend(s[1..], t);
    } else {
      assert s + t == t;
    }
  }

  /** A text holding a '\n' before position `i` has a newline count of at least one. */
  lemma {:induction false} NewlineCounted(s: string, i: nat)
    requires i < |s| && s[i] == '\n'
    ensures CountNewlines(s) >= 1
  {
    if i > 0 {
      NewlineCounted(s[1..], i - 1);
    }
  }

  /** Non-empty content reports at least one line before the final clamp is applied. */
  lemma NonEmptyHasALine(content: string)
    requires |content| > 0
    ensures CountNewlines(content) + 1 - (if content[|content| - 1] == '\n' then 1 else 0) >= 1
    ensures LineCount(content) >= 1
  {
    if content[|content| - 1] == '\n' {
      NewlineCounted(content, |content| - 1);
    }
  }

  /** The verifier's arithmetic count agrees with a line scanner's. */
  lemma {:induction false} LineCountMatchesScanner(s: string)
    ensures LineCount(s) == ScannedLines(s)
    decreases |s|
  {
    if |s| > 0 {
      var i := LineEnd(s);
      if i == |s| {
        assert CountNewlines(s) == 0 by {
          if CountNewlines(s) > 0 {
            NoNewlineNoCount(s);
          }
        }
      } else {
        var head, rest := s[..i + 1], s[i + 1..];
        assert s == head + rest;
        CountNewlinesAppend(head, rest);
        assert head == s[..i] + ['\n'];
        CountNewlinesAppend(s[..i], ['\n']);
        NoNewlineNoCount(s[..i]);
        if |rest| > 0 {
          LineCountMatchesScanner(rest);
          NonEmptyHasALine(rest);
          assert s[|s| - 1] == rest[|rest| - 1];
        }
      }
    }
  }

  /** A text without '\n' has a newline count of zero. */
  lemma {:induction false} NoNewlineNoCount(s: string)
    requires forall j :: 0 <= j < |s| ==> s[j] != '\n'
    ensures CountNewlines(s) == 0
  {
    if |s| > 0 {
      NoNewlineNoCount(s[1..]);
    }
  }

  /** Newline counts of four texts joined by a separator `sep` used twice. */
  lemma CountNewlinesJoin(a: string, b: string, c: string, sep: string)
    ensures CountNewlines(a + sep + b + sep + c) ==
              CountNewlines(a) + CountNewlines(b) + CountNewlines(c) + 2 * CountNewlines(sep)
  {
    CountNewlinesAppend(a + sep + b + sep, c);
    CountNewlinesAppend(a + sep + b, sep);
    CountNewlinesAppend(a + sep, b);
    CountNewlinesAppend(a, sep);
  }

  /** A trailing newline adds no line. */
  lemma TrailingNewlineExample()
    ensures LineCount("line1\nline2\n") == 2
  {
  }

  /** The blank-lines example is three lines joined by blank lines. */
  lemma BlankLinesPieces()
    ensures "# Title\n\n## Section\n\nContent" == "# Title" + "\n\n" + "## Section" + "\n\n" + "Content"
  {
  }

  /** The newline counts of the pieces of the blank-lines example. */
  lemma BlankLinesPieceCounts()
    ensures CountNewlines("# Title") == 0 && CountNewlines("## Section") == 0
    ensures CountNewlines("Content") == 0 && CountNewlines("\n\n") == 2
  {
  }

  /** Blank lines count, and a last line without '\n' counts. */
  lemma BlankLinesExample()
    ensures LineCount("# Title\n\n## Section\n\nContent") == 5
  {
    BlankLinesPieces();
    BlankLinesPieceCounts();
    CountNewlinesJoin("# Title", "## Section", "Content", "\n\n");
  }

  /** InMemoryFileVerifier: a path to content table. */
  class InMemoryFileVerifier {
    var Files: map<string, string>

    /** A nil table becomes an empty one. */
    constructor (files: Option<map<string, string>>)
      ensures files.None? ==> Files == map[]
      ensures files.Some? ==> Files == files.value
    {
      Files := if files.Some? then files.value else map[];
    }

    /** Verify: look the path up and report its size and line count. */
    method Verify(path: string) returns (r: Result<FileInfo>)
      ensures path !in Files ==> r == Err(FileNotFound)
      ensures path in Files ==> r.Ok?
      ensures r.Ok? ==> r.value.path == path && r.value.size == ByteLen(Files[path])
      ensures r.Ok? ==> r.value.lines == LineCount(Files[path])
    {
      if path !in Files {
        return Err(FileNotFound);
      }
      var content := Files[path];
      var lines := LineCount(content);
      return Ok(FileInfo(path, ByteLen(content), lines));
    }
  }
}
