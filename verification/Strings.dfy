/** The part of Go's `strings` package that the modelled code relies on. A string is a sequence of bytes. */
module Strings {

  predicate AsciiSpace(c: char) {
    c in " \t\n\r" || c == '\U{0B}' || c == '\U{0C}'
  }

  /** The two-byte UTF-8 encodings of the other characters with Unicode's White_Space property. */
  predicate Space2(a: char, b: char) {
    a == '\U{C2}' && (b == '\U{85}' || b == '\U{A0}')
  }

  /** The three-byte encodings. */
  predicate Space3(a: char, b: char, c: char) {
    || (a == '\U{E1}' && b == '\U{9A}' && c == '\U{80}')
    || (a == '\U{E2}' && b == '\U{80}' && ('\U{80}' <= c <= '\U{8A}' || c == '\U{A8}' || c == '\U{A9}' || c == '\U{AF}'))
    || (a == '\U{E2}' && b == '\U{81}' && c == '\U{9F}')
    || (a == '\U{E3}' && b == '\U{80}' && c == '\U{80}')
  }

  /** Width of the white space character at the front; 0 when there is none. */
  function LeadingSpace(s: string): (n: nat)
    ensures n <= |s|
  {
    if |s| >= 1 && AsciiSpace(s[0]) then 1
    else if |s| >= 2 && Space2(s[0], s[1]) then 2
    else if |s| >= 3 && Space3(s[0], s[1], s[2]) then 3
    else 0
  }

  /** Width of the white space character at the end; 0 when there is none. */
  function TrailingSpace(s: string): (n: nat)
    ensures n <= |s|
  {
    var l := |s|;
    if l >= 1 && AsciiSpace(s[l - 1]) then 1
    else if l >= 2 && Space2(s[l - 2], s[l - 1]) then 2
    else if l >= 3 && Space3(s[l - 3], s[l - 2], s[l - 1]) then 3
    else 0
  }

  function TrimLeft(s: string): string
    decreases |s|
  {
    var n := LeadingSpace(s);
    if n > 0 then TrimLeft(s[n..]) else s
  }

  function TrimRight(s: string): string
    decreases |s|
  {
    var n := TrailingSpace(s);
    if n > 0 then TrimRight(s[..|s| - n]) else s
  }

  /** `strings.TrimSpace`. */
  function TrimSpace(s: string): string {
    TrimRight(TrimLeft(s))
  }

  /** No whitespace at either end. */
  predicate Trimmed(s: string) {
    LeadingSpace(s) == 0 && TrailingSpace(s) == 0
  }

  lemma {:induction false} TrimLeftTrims(s: string)
    ensures LeadingSpace(TrimLeft(s)) == 0
    ensures |TrimLeft(s)| <= |s| && TrimLeft(s) == s[|s| - |TrimLeft(s)|..]
    decreases |s|
  {
    var n := LeadingSpace(s);
    if n > 0 {
      TrimLeftTrims(s[n..]);
    }
  }

  lemma {:induction false} TrimRightTrims(s: string)
    ensures TrailingSpace(TrimRight(s)) == 0 && TrimRight(s) <= s
    decreases |s|
  {
    var n := TrailingSpace(s);
    if n > 0 {
      TrimRightTrims(s[..|s| - n]);
    }
  }

  /** A string that does not start with whitespace has no prefix that does. */
  lemma PrefixLeading(s: string, t: string)
    requires t <= s && LeadingSpace(s) == 0
    ensures LeadingSpace(t) == 0
  {
  }

  /** Trimming changes exactly the strings that have outer whitespace, shortens, and invents no characters. */
  lemma TrimSpaceFixpoint(s: string)
    ensures Trimmed(TrimSpace(s)) && |TrimSpace(s)| <= |s|
    ensures TrimSpace(s) == s <==> Trimmed(s)
    ensures forall c :: c in TrimSpace(s) ==> c in s
  {
    TrimLeftTrims(s);
    TrimRightTrims(TrimLeft(s));
    PrefixLeading(TrimLeft(s), TrimSpace(s));
  }

  /** One white space character at the end is trimmed away. */
  lemma TrimsLast(s: string, c: char)
    requires s != "" && Trimmed(s) && AsciiSpace(c)
    ensures TrimSpace(s + [c]) == s
  {
    var t := s + [c];
    assert LeadingSpace(t) == 0;
    assert t[..|t| - 1] == s;
    assert TrimRight(t) == TrimRight(s) == s;
  }

  predicate Blank(s: string) {
    forall k :: 0 <= k < |s| ==> s[k] == ' ' || '\t' <= s[k] <= '\r'
  }

  lemma {:induction false} TrimLeftBlank(a: string, s: string)
    requires Blank(a) && (s == "" || '!' <= s[0] <= '~')
    ensures TrimLeft(a + s) == s
  {
    if a == "" {
      assert a + s == s && LeadingSpace(s) == 0;
    } else {
      var t := a + s;
      assert t[0] == a[0] && LeadingSpace(t) == 1;
      assert t[1..] == a[1..] + s;
      TrimLeftBlank(a[1..], s);
    }
  }

  lemma TrimRightOne(s: string, c: char)
    requires AsciiSpace(c)
    ensures TrimRight(s + [c]) == TrimRight(s)
  {
    var t := s + [c];
    assert TrailingSpace(t) == 1 && t[..|t| - 1] == s;
  }

  lemma {:induction false} TrimRightBlank(s: string, b: string)
    requires Blank(b) && TrailingSpace(s) == 0
    ensures TrimRight(s + b) == s
    decreases |b|
  {
    if b == "" {
      assert s + b == s;
    } else {
      var n := |b| - 1;
      assert s + b == (s + b[..n]) + [b[n]];
      TrimRightOne(s + b[..n], b[n]);
      TrimRightBlank(s, b[..n]);
    }
  }

  /** Of ASCII text, trimming takes away the blanks, tabs, line breaks and feeds around it, and no printable character. */
  lemma TrimsAround(a: string, s: string, b: string)
    requires Blank(a) && Blank(b) && (s == "" || ('!' <= s[0] <= '~' && '!' <= s[|s| - 1] <= '~'))
    ensures TrimSpace(a + (s + b)) == s
  {
    if s == "" {
      assert a + (s + b) == (a + b) + "" && Blank(a + b);
      TrimLeftBlank(a + b, "");
    } else {
      assert (s + b)[0] == s[0];
      TrimLeftBlank(a, s + b);
      assert TrailingSpace(s) == 0;
      TrimRightBlank(s, b);
    }
  }

  /** Position of the first `c`, or the length when there is none. */
  function Index(s: string, c: char): (i: nat)
    ensures i <= |s| && (i < |s| ==> s[i] == c)
    ensures forall k :: 0 <= k < i ==> s[k] != c
  {
    if s == "" || s[0] == c then 0 else 1 + Index(s[1..], c)
  }

  lemma {:induction false} IndexIsFirst(a: string, c: char, b: string)
    requires c !in a
    ensures Index(a + [c] + b, c) == |a|
  {
    if a != "" {
      IndexIsFirst(a[1..], c, b);
      assert (a + [c] + b)[1..] == a[1..] + [c] + b;
    }
  }

  /** Two texts cut at their first separator agree exactly when both halves agree. */
  lemma CutUnique(a: string, b: string, c: char, x: string, y: string)
    requires c !in a && c !in b
    ensures a + [c] + x == b + [c] + y <==> a == b && x == y
  {
    if a + [c] + x == b + [c] + y {
      IndexIsFirst(a, c, x);
      IndexIsFirst(b, c, y);
      assert a == (a + [c] + x)[..|a|];
      assert b == (b + [c] + y)[..|b|];
      assert x == (a + [c] + x)[|a| + 1..];
      assert y == (b + [c] + y)[|b| + 1..];
    }
  }

  /** `strings.Split(s, c)`. */
  function Split(s: string, c: char): (parts: seq<string>)
    ensures parts != []
    decreases |s|
  {
    var i := Index(s, c);
    if i == |s| then
      assert s == s[..i];
      [s]
    else
      [s[..i]] + Split(s[i + 1..], c)
  }

  /** The first part ends where the first separator stands, or at the end. */
  lemma FirstPart(a: string, tail: string, c: char)
    requires c !in a && (tail == "" || tail[0] == c)
    ensures Split(a + tail, c)[0] == a
  {
    var i := Index(a + tail, c);
    assert tail != "" ==> (a + tail)[|a|] == c;
    assert i == |a|;
    assert (a + tail)[..i] == a;
  }

  /** The second part follows the first separator. */
  lemma SecondPart(a: string, b: string, tail: string, c: char)
    requires c !in a && c !in b && (tail == "" || tail[0] == c)
    ensures |Split(a + [c] + (b + tail), c)| >= 2 && Split(a + [c] + (b + tail), c)[1] == b
  {
    var s := a + [c] + (b + tail);
    IndexIsFirst(a, c, b + tail);
    assert s[|a| + 1..] == b + tail;
    FirstPart(b, tail, c);
    assert Split(s, c) == [s[..|a|]] + Split(b + tail, c);
  }

  /** `strings.Join(parts, c)`. */
  function Join(parts: seq<string>, c: char): string {
    if parts == [] then ""
    else if |parts| == 1 then parts[0]
    else parts[0] + [c] + Join(parts[1..], c)
  }

  lemma {:induction false} SplitJoin(parts: seq<string>, c: char)
    requires parts != [] && forall p :: p in parts ==> c !in p
    ensures Split(Join(parts, c), c) == parts
  {
    var s := Join(parts, c);
    assert parts[0] in parts;
    if |parts| > 1 {
      IndexIsFirst(parts[0], c, Join(parts[1..], c));
      assert s[|parts[0]| + 1..] == Join(parts[1..], c);
      assert s[..|parts[0]|] == parts[0];
      SplitJoin(parts[1..], c);
    }
  }

  /** A joined text contains only the separator and characters of its parts. */
  lemma {:induction false} JoinChars(parts: seq<string>, c: char, x: char)
    requires x != c && forall p :: p in parts ==> x !in p
    ensures x !in Join(parts, c)
  {
    if |parts| > 1 {
      assert parts[0] in parts;
      JoinChars(parts[1..], c, x);
    }
  }

  lemma BlankAfter(a: string, rest: string)
    requires a != "" && LeadingSpace(a) == 0
    ensures LeadingSpace(a + [' '] + rest) == 0
  {
  }

  lemma BlankBefore(front: string, b: string)
    requires b != "" && TrailingSpace(b) == 0
    ensures TrailingSpace(front + [' '] + b) == 0
  {
  }

  /** Trimmed parts joined with blanks give a trimmed text. */
  lemma {:induction false} JoinTrimmed(parts: seq<string>)
    requires parts != [] && forall p :: p in parts ==> p != "" && Trimmed(p)
    ensures Join(parts, ' ') != "" && Trimmed(Join(parts, ' '))
  {
    assert parts[0] in parts;
    if |parts| > 1 {
      var rest := Join(parts[1..], ' ');
      assert forall p :: p in parts[1..] ==> p in parts;
      JoinTrimmed(parts[1..]);
      BlankAfter(parts[0], rest);
      BlankBefore(parts[0], rest);
    }
  }

  predicate HasPrefix(s: string, p: string) {
    |p| <= |s| && s[..|p|] == p
  }
}
