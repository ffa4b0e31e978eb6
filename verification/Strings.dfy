/** The operations of Go's strings package that the modelled files use, on ASCII text. */
module Strings {

  function LowerChar(c: char): char {
    if 'A' <= c <= 'Z' then c - 'A' + 'a' else c
  }

  /** strings.ToLower. */
  function Lower(s: string): (r: string)
    ensures |r| == |s| && forall i :: 0 <= i < |s| ==> r[i] == LowerChar(s[i])
  {
    seq(|s|, i requires 0 <= i < |s| => LowerChar(s[i]))
  }

  /** The characters differ at most in the case of an ASCII letter. */
  predicate SameLetter(a: char, b: char) {
    a == b || ('A' <= a <= 'Z' && b as int == a as int + 32) || ('A' <= b <= 'Z' && a as int == b as int + 32)
  }

  /** The strings differ at most in the case of their letters. */
  predicate SameButCase(s: string, t: string) { |s| == |t| && forall i :: 0 <= i < |s| ==> SameLetter(s[i], t[i]) }

  /** Lower-casing leaves no capital letter, and forgets the case of letters and nothing else. */
  lemma LowerIsExact(s: string, t: string)
    ensures Lower(s) == Lower(t) <==> SameButCase(s, t)
    ensures SameButCase(s, Lower(s)) && forall c <- Lower(s) :: !('A' <= c <= 'Z')
  {
    if Lower(s) == Lower(t) {
      forall i | 0 <= i < |s| ensures SameLetter(s[i], t[i]) {
        assert Lower(s)[i] == Lower(t)[i];
      }
    }
  }

  predicate HasPrefix(s: string, prefix: string) { prefix <= s }

  predicate HasSuffix(s: string, suffix: string) {
    |suffix| <= |s| && s[|s| - |suffix|..] == suffix
  }

  /** strings.Index for a single character: the first position of c, or -1. */
  function Index(s: string, c: char): (i: int)
    ensures -1 <= i < |s|
    ensures i >= 0 ==> s[i] == c && forall k :: 0 <= k < i ==> s[k] != c
    ensures i < 0 ==> c !in s
  {
    if s == "" then -1
    else if s[0] == c then 0
    else
      var j := Index(s[1..], c);
      if j < 0 then -1 else j + 1
  }

  /** strings.LastIndex for a single character: the last position of c, or -1. */
  function LastIndex(s: string, c: char): (i: int)
    ensures -1 <= i < |s|
    ensures i >= 0 ==> s[i] == c && forall k :: i < k < |s| ==> s[k] != c
    ensures i < 0 ==> c !in s
  {
    if s == "" then -1
    else if s[|s| - 1] == c then |s| - 1
    else LastIndex(s[..|s| - 1], c)
  }

  lemma IndexIs(s: string, c: char, k: nat)
    requires k < |s| && s[k] == c && c !in s[..k]
    ensures Index(s, c) == k
  {
    assert forall m :: 0 <= m < k ==> s[m] == s[..k][m];
  }

  lemma LastIndexIs(s: string, c: char, k: nat)
    requires k < |s| && s[k] == c && c !in s[k + 1..]
    ensures LastIndex(s, c) == k
  {
    assert forall m :: k < m < |s| ==> s[m] == s[k + 1..][m - k - 1];
  }

  lemma Assoc<T>(a: seq<T>, b: seq<T>, c: seq<T>)
    ensures a + b + c == a + (b + c)
  {
  }

  /** strings.Count for a single character. */
  function Count(s: string, c: char): nat {
    if s == "" then 0 else (if s[0] == c then 1 else 0) + Count(s[1..], c)
  }

  predicate IsSpace(c: char) { c in {' ', '\t', '\n', '\r', 11 as char, 12 as char} }

  predicate AllSpace(s: string) { forall c <- s :: IsSpace(c) }

  function TrimLeft(s: string): string {
    if s != "" && IsSpace(s[0]) then TrimLeft(s[1..]) else s
  }

  function TrimRight(s: string): string {
    if s != "" && IsSpace(s[|s| - 1]) then TrimRight(s[..|s| - 1]) else s
  }

  /** strings.TrimSpace. */
  function TrimSpace(s: string): string { TrimRight(TrimLeft(s)) }

  /** A space, or one of the control characters from tab to carriage return. */
  predicate Blank(c: char) { c == ' ' || 9 <= c as int <= 13 }

  predicate AllBlank(s: string) { forall c <- s :: Blank(c) }

  /** Trimming drops white space at the two ends, all of it, and nothing else. */
  lemma TrimSpaceIsExact(s: string)
    ensures exists u, v :: s == u + TrimSpace(s) + v && AllBlank(u) && AllBlank(v)
    ensures var r := TrimSpace(s); r != "" ==> !Blank(r[0]) && !Blank(r[|r| - 1])
    ensures TrimSpace(s) == "" <==> AllBlank(s)
  {
    assert forall x :: AllSpace(x) <==> AllBlank(x);
    var u := TrimLeftIsExact(s);
    var v := TrimRightIsExact(TrimLeft(s));
    var r := TrimSpace(s);
    assert s == u + r + v;
    if r != "" {
      assert TrimLeft(s)[0] == r[0];
      assert r[0] in s;
    }
  }

  lemma {:induction false} TrimLeftIsExact(s: string) returns (u: string)
    ensures s == u + TrimLeft(s) && AllSpace(u)
    ensures TrimLeft(s) != "" ==> !IsSpace(TrimLeft(s)[0])
  {
    u := "";
    if s != "" && IsSpace(s[0]) {
      var u' := TrimLeftIsExact(s[1..]);
      u := [s[0]] + u';
    }
  }

  lemma {:induction false} TrimRightIsExact(s: string) returns (v: string)
    ensures s == TrimRight(s) + v && AllSpace(v)
    ensures TrimRight(s) != "" ==> !IsSpace(TrimRight(s)[|TrimRight(s)| - 1])
  {
    v := "";
    if s != "" && IsSpace(s[|s| - 1]) {
      var v' := TrimRightIsExact(s[..|s| - 1]);
      v := v' + [s[|s| - 1]];
    }
  }

  /** strings.Join. */
  function Join(parts: seq<string>, sep: string): string {
    if parts == [] then "" else if |parts| == 1 then parts[0] else parts[0] + sep + Join(parts[1..], sep)
  }

  /** Join builds up from the right as well: each part but the first comes after one separator. */
  lemma {:induction false} JoinFromTheRight(parts: seq<string>, last: string, sep: string)
    ensures Join(parts + [last], sep) == if parts == [] then last else Join(parts, sep) + sep + last
  {
    if |parts| > 1 {
      JoinFromTheRight(parts[1..], last, sep);
      assert (parts + [last])[1..] == parts[1..] + [last];
      Assoc(parts[0] + sep, Join(parts[1..], sep), sep);
      Assoc(parts[0] + sep, Join(parts[1..], sep) + sep, last);
    } else if |parts| == 1 {
      assert (parts + [last])[1..] == [last];
    }
  }
}
