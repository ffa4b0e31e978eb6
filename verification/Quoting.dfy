/** The quoters of pkg/openconnect/sudoers.go, against the readers they write for. */
module Quoting {
  import opened ConnTypes
  import opened Strings

  const SUDOERS_PATH := "/etc/sudoers.d/dockprox"
  const SUDOERS_DIR := "/etc/sudoers.d"

  /** strings.ReplaceAll for a single character. */
  function ReplaceAll(s: string, c: char, with: string): string {
    if s == "" then "" else (if s[0] == c then with else [s[0]]) + ReplaceAll(s[1..], c, with)
  }

  function ShellQuote(s: string): string { "'" + ReplaceAll(s, '\'', "'\\''") + "'" }

  function AppleScriptString(s: string): string {
    "\"" + ReplaceAll(ReplaceAll(s, '\\', "\\\\"), '"', "\\\"") + "\""
  }

  const BEFORE := "set -e; t=$(mktemp); printf '%s' "
  const AFTER := " " + "> \"$t\"; visudo -cf \"$t\" >/dev/null; mkdir -p " + SUDOERS_DIR
    + "; install -m 0440 -o root \"$t\" " + SUDOERS_PATH + "; rm -f \"$t\""

  function InstallScript(content: string): string { BEFORE + ShellQuote(content) + AFTER }

  // ---- the shell's reader ----

  /** The characters that end a word (sections 2.2 and 2.3 of the POSIX Shell Command Language). */
  predicate EndsWord(c: char) { c in {' ', '\t', '\n', '|', '&', ';', '<', '>', '(', ')'} }

  datatype Quotes = Plain | Single | Double

  function Prepend(c: char, r: Option<(string, string)>): Option<(string, string)> {
    match r
    case None => None
    case Some((word, rest)) => Some(([c] + word, rest))
  }

  /** Quote removal on the word s starts with: its value, and what follows it. None for an unfinished word
      and for one that asks for an expansion. */
  function ReadWord(s: string, q: Quotes): Option<(string, string)>
    decreases |s|
  {
    if s == "" then (if q.Plain? then Some(("", "")) else None)
    else
      match q
      case Plain =>
        if EndsWord(s[0]) then Some(("", s))
        else if s[0] == '\'' then ReadWord(s[1..], Single)
        else if s[0] == '"' then ReadWord(s[1..], Double)
        else if s[0] == '$' || s[0] == '`' then None
        else if s[0] != '\\' then Prepend(s[0], ReadWord(s[1..], Plain))
        else if |s| == 1 then None
        else if s[1] == '\n' then ReadWord(s[2..], Plain)
        else Prepend(s[1], ReadWord(s[2..], Plain))
      case Single =>
        if s[0] == '\'' then ReadWord(s[1..], Plain) else Prepend(s[0], ReadWord(s[1..], Single))
      case Double =>
        if s[0] == '"' then ReadWord(s[1..], Plain)
        else if s[0] == '$' || s[0] == '`' then None
        else if s[0] != '\\' || |s| == 1 then Prepend(s[0], ReadWord(s[1..], Double))
        else if s[1] == '\n' then ReadWord(s[2..], Double)
        else if s[1] in {'$', '`', '"', '\\'} then Prepend(s[1], ReadWord(s[2..], Double))
        else Prepend('\\', ReadWord(s[1..], Double))
  }

  /** r with s before its word. */
  function After(s: string, r: Option<(string, string)>): Option<(string, string)> {
    match r
    case None => None
    case Some((word, rest)) => Some((s + word, rest))
  }

  /** Inside single quotes the replaced text reads as s, and reading goes on inside them. */
  lemma {:induction false} QuotedReadsBack(s: string, rest: string)
    ensures ReadWord(ReplaceAll(s, '\'', "'\\''") + rest, Single) == After(s, ReadWord(rest, Single))
  {
    if s == "" {
      assert "" + rest == rest;
      NothingBefore(ReadWord(rest, Single));
    } else {
      var tail := ReplaceAll(s[1..], '\'', "'\\''");
      Assoc(Quoted(s[0]), tail, rest);
      CharReadsBack(s[0], tail + rest);
      QuotedReadsBack(s[1..], rest);
      OneBefore(s, ReadWord(rest, Single));
    }
  }

  lemma NothingBefore(r: Option<(string, string)>)
    ensures After("", r) == r
  {
    assert r.Some? ==> "" + r.value.0 == r.value.0;
  }

  lemma OneBefore(s: string, r: Option<(string, string)>)
    requires s != ""
    ensures After(s, r) == Prepend(s[0], After(s[1..], r))
  {
    assert r.Some? ==> [s[0]] + (s[1..] + r.value.0) == s + r.value.0;
  }

  /** What ShellQuote makes of one character. */
  function Quoted(c: char): string { if c == '\'' then "'\\''" else [c] }

  lemma CharReadsBack(c: char, more: string)
    ensures ReadWord(Quoted(c) + more, Single) == Prepend(c, ReadWord(more, Single))
  {
    if c == '\'' {
      assert Quoted(c) == ['\'', '\\', '\'', '\''];
      QuoteReadsBack(more);
    } else {
      assert ([c] + more)[1..] == more;
    }
  }

  lemma QuoteReadsBack(more: string)
    ensures ReadWord(['\'', '\\', '\'', '\''] + more, Single) == Prepend('\'', ReadWord(more, Single))
  {
    var t := ['\'', '\\', '\'', '\''] + more;
    var u := ['\\', '\'', '\''] + more;
    var v := ['\''] + more;
    assert t[1..] == u && u[2..] == v && v[1..] == more;
    assert ReadWord(t, Single) == ReadWord(u, Plain) == Prepend('\'', ReadWord(v, Plain));
    assert ReadWord(v, Plain) == ReadWord(more, Single);
  }

  /** The shell reads the quoted form of any string as that string, whatever the word goes on with. */
  lemma ShellReadsQuoted(s: string, rest: string)
    ensures ReadWord(ShellQuote(s) + rest, Plain) == After(s, ReadWord(rest, Plain))
  {
    var body := ReplaceAll(s, '\'', "'\\''") + (['\''] + rest);
    assert ShellQuote(s) + rest == ['\''] + body;
    assert (['\''] + body)[1..] == body;
    assert (['\''] + rest)[1..] == rest;
    QuotedReadsBack(s, ['\''] + rest);
  }

  /** One word, equal to s, when what follows ends words. */
  lemma ShellReadsOneWord(s: string, rest: string)
    requires rest == "" || EndsWord(rest[0])
    ensures ReadWord(ShellQuote(s) + rest, Plain) == Some((s, rest))
  {
    ShellReadsQuoted(s, rest);
    assert s + "" == s;
  }

  // ---- AppleScript's reader ----

  /** The body of a string literal up to its closing quote: its value, and what follows. */
  function ReadLiteral(s: string): Option<(string, string)>
    decreases |s|
  {
    if s == "" then None
    else if s[0] == '"' then Some(("", s[1..]))
    else if s[0] != '\\' then Prepend(s[0], ReadLiteral(s[1..]))
    else if |s| == 1 then None
    else
      match s[1]
      case '\\' => Prepend('\\', ReadLiteral(s[2..]))
      case '"' => Prepend('"', ReadLiteral(s[2..]))
      case 'n' => Prepend('\n', ReadLiteral(s[2..]))
      case 'r' => Prepend('\r', ReadLiteral(s[2..]))
      case 't' => Prepend('\t', ReadLiteral(s[2..]))
      case _ => None
  }

  function Escaped(c: char): string { if c == '\\' then "\\\\" else if c == '"' then "\\\"" else [c] }

  function EscapedAll(s: string): string { if s == "" then "" else Escaped(s[0]) + EscapedAll(s[1..]) }

  lemma {:induction false} ReplaceAllAppend(a: string, b: string, c: char, with: string)
    ensures ReplaceAll(a + b, c, with) == ReplaceAll(a, c, with) + ReplaceAll(b, c, with)
  {
    if a == "" {
      assert a + b == b;
    } else {
      ReplaceAllAppend(a[1..], b, c, with);
      assert (a + b)[1..] == a[1..] + b;
      Assoc(if a[0] == c then with else [a[0]], ReplaceAll(a[1..], c, with), ReplaceAll(b, c, with));
    }
  }

  /** The two passes escape each character once: the second finds nothing of what the first put in. */
  lemma {:induction false} TwoPassesAreOne(s: string)
    ensures ReplaceAll(ReplaceAll(s, '\\', "\\\\"), '"', "\\\"") == EscapedAll(s)
  {
    if s != "" {
      var first := if s[0] == '\\' then "\\\\" else [s[0]];
      ReplaceAllAppend(first, ReplaceAll(s[1..], '\\', "\\\\"), '"', "\\\"");
      TwoPassesAreOne(s[1..]);
      assert first[1..] == "" || (first[1..] == "\\" && first[1..][1..] == "");
      assert ReplaceAll(first, '"', "\\\"") == Escaped(s[0]);
    }
  }

  /** A literal reads back as the string it was made from, and ends where it should. */
  lemma LiteralReadsBack(s: string, rest: string)
    ensures AppleScriptString(s) != "" && AppleScriptString(s)[0] == '"'
    ensures ReadLiteral(AppleScriptString(s)[1..] + rest) == Some((s, rest))
  {
    TwoPassesAreOne(s);
    assert AppleScriptString(s)[1..] + rest == EscapedAll(s) + (['"'] + rest);
    EscapedReadsBack(s, ['"'] + rest);
    assert (['"'] + rest)[1..] == rest;
    assert s + "" == s;
  }

  lemma {:induction false} EscapedReadsBack(s: string, rest: string)
    ensures ReadLiteral(EscapedAll(s) + rest) == After(s, ReadLiteral(rest))
  {
    if s == "" {
      assert "" + rest == rest;
      NothingBefore(ReadLiteral(rest));
    } else {
      EscapedReadsBack(s[1..], rest);
      EscapeReadsBack(s[0], EscapedAll(s[1..]) + rest);
      Assoc(Escaped(s[0]), EscapedAll(s[1..]), rest);
      OneBefore(s, ReadLiteral(rest));
    }
  }

  lemma EscapeReadsBack(c: char, more: string)
    ensures ReadLiteral(Escaped(c) + more) == Prepend(c, ReadLiteral(more))
  {
    var t := Escaped(c) + more;
    assert t[|Escaped(c)|..] == more;
  }

  // ---- both together ----

  /** What the authorization dialog runs is the install script, and the word that script hands to printf is
      the content. */
  lemma ScriptWritesContent(content: string, rest: string)
    ensures ReadLiteral(AppleScriptString(InstallScript(content))[1..] + rest) == Some((InstallScript(content), rest))
    ensures BEFORE <= InstallScript(content)
    ensures ReadWord(InstallScript(content)[|BEFORE|..], Plain) == Some((content, AFTER))
  {
    LiteralReadsBack(InstallScript(content), rest);
    assert InstallScript(content)[|BEFORE|..] == ShellQuote(content) + AFTER;
    assert AFTER[0] == ' ';
    ShellReadsOneWord(content, AFTER);
  }
}
