/** The key under which an authorization is cached: token, `@`, URL of the repository. */
module AuthKey {
  import opened Options
  import opened Strings

  predicate IsByte(c: char) {
    c as int < 256
  }

  predicate Bytes(s: string) {
    forall k :: 0 <= k < |s| ==> IsByte(s[k])
  }

  /** Bytes that `url.PathEscape` leaves alone. */
  predicate Unreserved(c: char) {
    'a' <= c <= 'z' || 'A' <= c <= 'Z' || '0' <= c <= '9' || c in "-_.~$&+:=@"
  }

  function HexValue(c: char): int {
    if '0' <= c <= '9' then (c - '0') as int else if 'A' <= c <= 'F' then (c - 'A') as int + 10 else 0
  }

  function HexDigit(d: nat): (c: char)
    requires d < 16
    ensures c != '/' && c != '%' && HexValue(c) == d
  {
    if d < 10 then '0' + d as char else 'A' + (d - 10) as char
  }

  function EscapeByte(c: char): string
    requires IsByte(c)
  {
    if Unreserved(c) then [c] else ['%', HexDigit(c as int / 16), HexDigit(c as int % 16)]
  }

  /** `url.PathEscape`. */
  function PathEscape(s: string): (r: string)
    requires Bytes(s)
    ensures '/' !in r
  {
    if s == "" then "" else EscapeByte(s[0]) + PathEscape(s[1..])
  }

  function Unescape(s: string): string {
    if s == "" then ""
    else if s[0] == '%' && |s| >= 3 && 0 <= HexValue(s[1]) * 16 + HexValue(s[2]) < 256 then
      [(HexValue(s[1]) * 16 + HexValue(s[2])) as char] + Unescape(s[3..])
    else [s[0]] + Unescape(s[1..])
  }

  lemma {:induction false} UnescapeEscape(s: string)
    requires Bytes(s)
    ensures Unescape(PathEscape(s)) == s
  {
    if s != "" {
      UnescapeEscape(s[1..]);
      var c, r := s[0], PathEscape(s);
      var e := EscapeByte(c);
      assert r == e + PathEscape(s[1..]);
      assert r[|e|..] == PathEscape(s[1..]);
      assert forall k :: 0 <= k < |e| ==> r[k] == e[k];
      if !Unreserved(c) {
        assert (c as int / 16) * 16 + c as int % 16 == c as int;
      }
    }
  }

  /** Exactly letters, digits and ten signs are left alone; every other byte becomes a percent sign and two hex digits. */
  lemma EscapeExactly(c: char)
    requires IsByte(c)
    ensures PathEscape([c]) == [c] <==>
            ('a' <= c <= 'z' || 'A' <= c <= 'Z' || '0' <= c <= '9' || c == '-' || c == '_' || c == '.' || c == '~'
             || c == '$' || c == '&' || c == '+' || c == ':' || c == '=' || c == '@')
    ensures PathEscape([c]) != [c] ==> |PathEscape([c])| == 3 && PathEscape([c])[0] == '%'
  {
    assert [c][1..] == "";
    assert PathEscape([c]) == EscapeByte(c);
    if !Unreserved(c) {
      assert |EscapeByte(c)| == 3;
    }
  }

  const SITE := "https://github.com"

  function RepoUrl(owner: string, name: string): string
    requires Bytes(owner) && Bytes(name)
  {
    SITE + "/" + PathEscape(owner) + "/" + PathEscape(name)
  }

  function CacheKey(token: string, url: string): string {
    token + "@" + url
  }

  lemma EscapeInjective(s: string, t: string)
    requires Bytes(s) && Bytes(t)
    ensures PathEscape(s) == PathEscape(t) <==> s == t
  {
    UnescapeEscape(s);
    UnescapeEscape(t);
  }

  /** Cutting at the last separator. */
  lemma {:induction false} LastCut(a: string, b: string, c: char, x: string, y: string)
    requires c !in x && c !in y
    ensures a + [c] + x == b + [c] + y <==> a == b && x == y
    decreases |x|
  {
    var s, t := a + [c] + x, b + [c] + y;
    if x != "" && y != "" {
      var m, n := |x| - 1, |y| - 1;
      LastCut(a, b, c, x[..m], y[..n]);
      assert s == a + [c] + x[..m] + [x[m]] && t == b + [c] + y[..n] + [y[n]];
      assert s[..|s| - 1] == a + [c] + x[..m] && t[..|t| - 1] == b + [c] + y[..n];
      assert x == x[..m] + [x[m]] && y == y[..n] + [y[n]];
      assert s[|s| - 1] == x[m] && t[|t| - 1] == y[n];
    } else {
      assert x != "" ==> s[|s| - 1] == x[|x| - 1] && x[|x| - 1] in x;
      assert y != "" ==> t[|t| - 1] == y[|y| - 1] && y[|y| - 1] in y;
      assert x == "" ==> s[|s| - 1] == c && s[..|s| - 1] == a;
      assert y == "" ==> t[|t| - 1] == c && t[..|t| - 1] == b;
    }
  }

  const HOST := "@" + SITE

  lemma Regroup(a: string, b: string, c: string, slash: string, e: string, f: string)
    ensures a + b + (c + slash + e + slash + f) == (a + (b + c)) + slash + e + slash + f
  {
  }

  lemma KeyShape(token: string, owner: string, name: string)
    requires Bytes(owner) && Bytes(name)
    ensures CacheKey(token, RepoUrl(owner, name)) ==
            (token + HOST) + ['/'] + PathEscape(owner) + ['/'] + PathEscape(name)
  {
    Regroup(token, "@", SITE, "/", PathEscape(owner), PathEscape(name));
  }

  lemma SameSuffix(a: string, b: string, z: string)
    ensures a + z == b + z <==> a == b
  {
    if a + z == b + z {
      assert a == (a + z)[..|a|] && b == (b + z)[..|b|];
    }
  }

  /** Whatever the token contains, a key belongs to one token, one owner and one name. */
  lemma CacheKeyInjective(t: string, owner: string, name: string, t': string, owner': string, name': string)
    requires Bytes(owner) && Bytes(name) && Bytes(owner') && Bytes(name')
    ensures CacheKey(t, RepoUrl(owner, name)) == CacheKey(t', RepoUrl(owner', name'))
            <==> t == t' && owner == owner' && name == name'
  {
    KeyShape(t, owner, name);
    KeyShape(t', owner', name');
    LastCut((t + HOST) + ['/'] + PathEscape(owner), (t' + HOST) + ['/'] + PathEscape(owner'), '/',
            PathEscape(name), PathEscape(name'));
    LastCut(t + HOST, t' + HOST, '/', PathEscape(owner), PathEscape(owner'));
    SameSuffix(t, t', HOST);
    EscapeInjective(owner, owner');
    EscapeInjective(name, name');
  }
}
