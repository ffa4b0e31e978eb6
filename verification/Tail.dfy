/** The window over openconnect's output of pkg/openconnect/tail.go. */
module Tail {
  import opened Strings

  const TAIL_LINES := 10

  // ---- the reference: a whole stream, split once ----

  /** The complete lines of s, without their newlines. */
  function Complete(s: string): seq<string>
    decreases |s|
  {
    var i := Index(s, '\n');
    if i < 0 then [] else [s[..i]] + Complete(s[i + 1..])
  }

  /** What is left of s after its complete lines. */
  function Rest(s: string): string
    decreases |s|
  {
    var i := Index(s, '\n');
    if i < 0 then s else Rest(s[i + 1..])
  }

  function Terminated(lines: seq<string>): string {
    if lines == [] then "" else lines[0] + "\n" + Terminated(lines[1..])
  }

  /** Each line trimmed, blank ones dropped. */
  function NonBlank(lines: seq<string>): seq<string> {
    if lines == [] then []
    else (if TrimSpace(lines[0]) == "" then [] else [TrimSpace(lines[0])]) + NonBlank(lines[1..])
  }

  /** What is kept of lines is, in their order, what trimming leaves of those that are not blank. */
  lemma {:induction false} KeptAreNonBlank(lines: seq<string>, x: string)
    ensures x in NonBlank(lines) <==> x != "" && exists i :: 0 <= i < |lines| && TrimSpace(lines[i]) == x
    ensures |lines| == 1 ==> NonBlank(lines) == if TrimSpace(lines[0]) == "" then [] else [TrimSpace(lines[0])]
  {
    if lines != [] {
      KeptAreNonBlank(lines[1..], x);
      if i :| 0 <= i < |lines| && TrimSpace(lines[i]) == x && i > 0 {
        assert lines[1..][i - 1] == lines[i];
      }
    }
  }

  /** The lines of s worth showing. */
  function Shown(s: string): seq<string> { NonBlank(Complete(s)) }

  function LastTen(lines: seq<string>): seq<string> {
    if |lines| <= TAIL_LINES then lines else lines[|lines| - TAIL_LINES..]
  }

  /** The last ten are at the end, and are all there are, or ten. */
  lemma LastTenAreLast(lines: seq<string>)
    ensures exists before :: lines == before + LastTen(lines)
    ensures |LastTen(lines)| == if |lines| < 10 then |lines| else 10
  {
    assert lines == lines[..|lines| - |LastTen(lines)|] + LastTen(lines);
  }

  lemma FirstComplete(line: string, more: string)
    requires '\n' !in line
    ensures Complete(line + ['\n'] + more) == [line] + Complete(more)
  {
    var s := line + ['\n'] + more;
    assert s[..|line|] == line && s[|line| + 1..] == more;
    IndexIs(s, '\n', |line|);
  }

  lemma FirstNonBlank(line: string, more: seq<string>)
    ensures NonBlank([line] + more) == NonBlank([line]) + NonBlank(more)
  {
    assert ([line] + more)[1..] == more;
  }

  lemma FirstShown(line: string, more: string)
    requires '\n' !in line
    ensures Shown(line + ['\n'] + more) == NonBlank([line]) + Shown(more)
  {
    FirstComplete(line, more);
    FirstNonBlank(line, Complete(more));
  }

  lemma RestOfMore(line: string, more: string)
    requires '\n' !in line
    ensures Rest(line + ['\n'] + more) == Rest(more)
  {
    var s := line + ['\n'] + more;
    assert s[..|line|] == line && s[|line| + 1..] == more;
    IndexIs(s, '\n', |line|);
  }

  lemma NoLine(s: string)
    requires '\n' !in s
    ensures Complete(s) == [] && Shown(s) == [] && Rest(s) == s
  {
  }

  /** s up to its first newline, and what follows that. */
  lemma SplitFirst(s: string) returns (line: string, more: string)
    requires '\n' in s
    ensures s == line + ['\n'] + more && '\n' !in line
  {
    var i := Index(s, '\n');
    line, more := s[..i], s[i + 1..];
  }

  /** Complete and Rest take s apart without loss, and no piece holds a newline. With SplitIsUnique: they
      are the one way to split s into lines. */
  lemma {:induction false} LinesAreSplit(s: string)
    ensures Terminated(Complete(s)) + Rest(s) == s
    ensures '\n' !in Rest(s) && forall line <- Complete(s) :: '\n' !in line
    decreases |s|
  {
    if '\n' in s {
      var line, more := SplitFirst(s);
      LinesAreSplit(more);
      FirstComplete(line, more);
      RestOfMore(line, more);
      TerminatedFirst(line, Complete(more));
    } else {
      NoLine(s);
    }
  }

  lemma {:induction false} SplitIsUnique(lines: seq<string>, rest: string)
    requires '\n' !in rest && forall line <- lines :: '\n' !in line
    ensures Complete(Terminated(lines) + rest) == lines && Rest(Terminated(lines) + rest) == rest
  {
    if lines == [] {
      assert "" + rest == rest;
      NoLine(rest);
    } else {
      var more := Terminated(lines[1..]) + rest;
      assert Terminated(lines) + rest == lines[0] + ['\n'] + more;
      SplitIsUnique(lines[1..], rest);
      FirstComplete(lines[0], more);
      RestOfMore(lines[0], more);
    }
  }

  lemma TerminatedFirst(line: string, more: seq<string>)
    ensures Terminated([line] + more) == line + ['\n'] + Terminated(more)
  {
    assert ([line] + more)[1..] == more;
  }

  /** What is left of s after its complete lines is what follows its last newline. */
  lemma RestIsAfterLast(s: string)
    ensures Rest(s) == s[LastIndex(s, '\n') + 1..]
  {
    LinesAreSplit(s);
    var head := Terminated(Complete(s));
    TerminatedEnds(Complete(s));
    if head == "" {
      assert s == Rest(s);
    } else {
      assert s[|head| - 1] == '\n' && s[|head|..] == Rest(s);
      LastIndexIs(s, '\n', |head| - 1);
    }
  }

  lemma {:induction false} TerminatedEnds(lines: seq<string>)
    ensures Terminated(lines) == "" || Terminated(lines)[|Terminated(lines)| - 1] == '\n'
  {
    if lines != [] {
      TerminatedEnds(lines[1..]);
    }
  }

  /** Text after s makes complete lines after those of s. */
  lemma {:induction false} CompleteAfter(s: string, more: string)
    ensures Complete(s + more) == Complete(s) + Complete(Rest(s) + more)
    decreases |s|
  {
    if '\n' in s {
      var line, u := SplitFirst(s);
      CompleteAfter(u, more);
      FirstComplete(line, u);
      FirstComplete(line, u + more);
      RestOfMore(line, u);
      Assoc(line + ['\n'], u, more);
      Assoc([line], Complete(u), Complete(Rest(u) + more));
    } else {
      NoLine(s);
    }
  }

  lemma {:induction false} RestAfter(s: string, more: string)
    ensures Rest(s + more) == Rest(Rest(s) + more)
    decreases |s|
  {
    if '\n' in s {
      var line, u := SplitFirst(s);
      RestAfter(u, more);
      RestOfMore(line, u);
      RestOfMore(line, u + more);
      Assoc(line + ['\n'], u, more);
    } else {
      NoLine(s);
    }
  }

  lemma {:induction false} NonBlankAppend(a: seq<string>, b: seq<string>)
    ensures NonBlank(a + b) == NonBlank(a) + NonBlank(b)
  {
    if a == [] {
      assert a + b == b;
    } else {
      var head, more := a[0], a[1..];
      NonBlankAppend(more, b);
      FirstNonBlank(head, more);
      FirstNonBlank(head, more + b);
      assert a == [head] + more;
      Assoc([head], more, b);
      Assoc(NonBlank([head]), NonBlank(more), NonBlank(b));
    }
  }

  lemma ShownAfter(s: string, more: string)
    ensures Shown(s + more) == Shown(s) + Shown(Rest(s) + more)
  {
    CompleteAfter(s, more);
    NonBlankAppend(Complete(s), Complete(Rest(s) + more));
  }

  lemma LastTenTwice(lines: seq<string>, more: seq<string>)
    ensures LastTen(LastTen(lines) + more) == LastTen(lines + more)
  {
  }

  lemma Regroup(lines: seq<string>, more: seq<string>, rest: seq<string>)
    ensures LastTen(lines + (more + rest)) == LastTen(LastTen(lines + more) + rest)
  {
    assert lines + (more + rest) == lines + more + rest;
    LastTenTwice(lines + more, rest);
  }

  // ---- the writer ----

  /** The fields of a tail as a value, and what one Write of b makes of them. */
  datatype Window = Window(buf: string, lines: seq<string>)

  const EMPTY := Window("", [])

  /** w with its complete lines moved to the window. */
  function Settled(w: Window): Window { Window(Rest(w.buf), LastTen(w.lines + Shown(w.buf))) }

  function Written(w: Window, b: string): Window { Settled(Window(w.buf + b, w.lines)) }

  /** Moving one line leaves the outcome as it was. */
  lemma OneLineMoved(lines: seq<string>, line: string, more: string)
    requires '\n' !in line
    ensures Settled(Window(line + ['\n'] + more, lines)) == Settled(Window(more, LastTen(lines + NonBlank([line]))))
  {
    FirstShown(line, more);
    RestOfMore(line, more);
    Regroup(lines, NonBlank([line]), Shown(more));
  }

  class Tail {
    var buf: string
    var lines: seq<string>

    constructor ()
      ensures Value() == EMPTY
    {
      buf, lines := "", [];
    }

    ghost function Value(): Window
      reads this
    {
      Window(buf, lines)
    }

    method Write(b: string) returns (n: nat)
      requires |lines| <= TAIL_LINES
      modifies this
      ensures Value() == Written(old(Value()), b) && n == |b|
      ensures |lines| <= TAIL_LINES && '\n' !in buf
    {
      ghost var w := Written(Value(), b);
      buf := buf + b;
      while true
        invariant |lines| <= TAIL_LINES && Settled(Value()) == w
        decreases |buf|
      {
        var i := Index(buf, '\n');
        if i < 0 {
          break;
        }
        var line := TrimSpace(buf[..i]);
        assert buf == buf[..i] + ['\n'] + buf[i + 1..];
        OneLineMoved(lines, buf[..i], buf[i + 1..]);
        assert NonBlank([buf[..i]]) == if line == "" then [] else [line];
        buf := buf[i + 1..];
        if line == "" {
          assert lines + [] == lines;
          continue;
        }
        lines := lines + [line];
        if |lines| > TAIL_LINES {
          lines := lines[1..];
        }
      }
      NoLine(buf);
      return |b|;
    }

    /** What an error message carries: the lines kept, and the unfinished one if there is any. */
    method String() returns (s: string)
      ensures s == Join(lines + NonBlank([buf]), " | ")
    {
      var shown := lines;
      var rest := TrimSpace(buf);
      if rest != "" {
        shown := shown + [rest];
      }
      assert shown == lines + NonBlank([buf]);
      return Join(shown, " | ");
    }
  }

  // ---- chunking ----

  /** Two writes do what one write of both does, from any state. */
  lemma WrittenTwice(w: Window, a: string, b: string)
    ensures Written(Written(w, a), b) == Written(w, a + b)
  {
    var s := w.buf + a;
    assert w.buf + (a + b) == s + b;
    RestAfter(s, b);
    ShownAfter(s, b);
    Regroup(w.lines, Shown(s), Shown(Rest(s) + b));
  }

  function WrittenAll(w: Window, chunks: seq<string>): Window
    decreases |chunks|
  {
    if chunks == [] then w else WrittenAll(Written(w, chunks[0]), chunks[1..])
  }

  function Stream(chunks: seq<string>): string {
    if chunks == [] then "" else chunks[0] + Stream(chunks[1..])
  }

  /** However a stream is cut into writes, a new tail ends with what the whole of it leaves after its
      complete lines, and the last ten non-blank trimmed ones of these. */
  lemma ChunksDoNotMatter(chunks: seq<string>)
    ensures WrittenAll(EMPTY, chunks) == Window(Rest(Stream(chunks)), LastTen(Shown(Stream(chunks))))
  {
    var s := Stream(chunks);
    WrittenAllIsWritten(EMPTY, chunks);
    assert "" + s == s;
    assert [] + Shown(s) == Shown(s);
  }

  lemma {:induction false} WrittenAllIsWritten(w: Window, chunks: seq<string>)
    ensures chunks == [] || WrittenAll(w, chunks) == Written(w, Stream(chunks))
    decreases |chunks|
  {
    if chunks != [] {
      WrittenAllIsWritten(Written(w, chunks[0]), chunks[1..]);
      WrittenTwice(w, chunks[0], Stream(chunks[1..]));
      if chunks[1..] == [] {
        assert chunks[0] + "" == chunks[0];
      }
    }
  }
}
