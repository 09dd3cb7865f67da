/** Time stamps as object names: `%012d`, its inverse, and the byte order of strings. */
module Decimal {
  import opened Options

  const WIDTH := 12
  const STAMP_LIMIT := 1_000_000_000_000
  const MAX_INT64 := 0x7FFF_FFFF_FFFF_FFFF

  predicate IsDigit(c: char) {
    '0' <= c <= '9'
  }

  predicate Digits(s: string) {
    forall k :: 0 <= k < |s| ==> IsDigit(s[k])
  }

  function Digit(d: nat): (c: char)
    requires d < 10
    ensures IsDigit(c) && (c - '0') as int == d
  {
    '0' + d as char
  }

  function Pow10(w: nat): (p: nat)
    ensures p > 0
  {
    if w == 0 then 1 else 10 * Pow10(w - 1)
  }

  /** The last `w` decimal digits of `n`. */
  function Fixed(n: nat, w: nat): (s: string)
    ensures |s| == w && Digits(s)
  {
    if w == 0 then "" else Fixed(n / 10, w - 1) + [Digit(n % 10)]
  }

  /** How many digits `n` has. */
  function Length(n: nat): (w: nat)
    ensures w >= 1
  {
    if n < 10 then 1 else 1 + Length(n / 10)
  }

  /** `fmt.Sprintf("%012d", n)`. */
  function Format(n: nat): string {
    Fixed(n, if Length(n) < WIDTH then WIDTH else Length(n))
  }

  function Value(s: string): nat
    requires Digits(s)
  {
    if s == "" then 0 else Value(s[..|s| - 1]) * 10 + (s[|s| - 1] - '0') as int
  }

  /** A decimal number of any size, with an optional sign. */
  function Number(s: string): Option<int> {
    var signed := s != "" && (s[0] == '+' || s[0] == '-');
    var body := if signed then s[1..] else s;
    if body == "" || !Digits(body) then None
    else Some(if signed && s[0] == '-' then -(Value(body) as int) else Value(body) as int)
  }

  predicate IsInt64(v: int) {
    -MAX_INT64 - 1 <= v <= MAX_INT64
  }

  /** `strconv.ParseInt(s, 10, 64)`; `None` when it returns an error. */
  function ParseInt(s: string): Option<int> {
    if Number(s).Some? && IsInt64(Number(s).value) then Number(s) else None
  }

  /** The number `strconv.ParseInt` returns whether or not it also returns an error:
      out of range it is the nearest 64-bit number, for bad syntax 0. */
  function ParseAnyway(s: string): int {
    match Number(s)
    case None => 0
    case Some(v) => if v > MAX_INT64 then MAX_INT64 else if v < -MAX_INT64 - 1 then -MAX_INT64 - 1 else v
  }

  lemma {:induction false} ValueFixed(n: nat, w: nat)
    requires n < Pow10(w)
    ensures Value(Fixed(n, w)) == n
  {
    if w > 0 {
      ValueFixed(n / 10, w - 1);
      assert Fixed(n, w)[..w - 1] == Fixed(n / 10, w - 1);
    }
  }

  lemma {:induction false} FitsLength(n: nat)
    ensures n < Pow10(Length(n)) && (n >= 1 ==> Pow10(Length(n) - 1) <= n)
  {
    if n >= 10 {
      FitsLength(n / 10);
    }
  }

  lemma {:induction false} Pow10Monotone(v: nat, w: nat)
    requires v <= w
    ensures Pow10(v) <= Pow10(w)
  {
    if v < w {
      Pow10Monotone(v, w - 1);
    }
  }

  lemma LimitIsPow10()
    ensures Pow10(WIDTH) == STAMP_LIMIT
  {
    assert Pow10(4) == 10_000;
    assert Pow10(8) == 100_000_000;
  }

  lemma FormatWidth(n: nat)
    ensures |Format(n)| == 12 <==> n < 1_000_000_000_000
    ensures n < Pow10(|Format(n)|)
  {
    LimitIsPow10();
    FitsLength(n);
    if Length(n) <= WIDTH {
      Pow10Monotone(Length(n), WIDTH);
    } else {
      Pow10Monotone(WIDTH, Length(n) - 1);
    }
  }

  /** Parsing undoes formatting on every 64-bit time. */
  lemma ParseFormat(n: nat)
    requires n <= MAX_INT64
    ensures ParseInt(Format(n)) == Some(n)
  {
    FormatWidth(n);
    ValueFixed(n, |Format(n)|);
    assert IsDigit(Format(n)[0]);
  }

  // ----- the order of strings -----

  /** Strict byte order, as in Go's comparison of strings. */
  predicate Less(s: string, t: string) {
    t != "" && (s == "" || s[0] < t[0] || (s[0] == t[0] && Less(s[1..], t[1..])))
  }

  lemma {:induction false} LessTotal(s: string, t: string)
    ensures Less(s, t) || Less(t, s) || s == t
    ensures !(Less(s, t) && Less(t, s)) && !Less(s, s)
  {
    if s != "" && t != "" {
      LessTotal(s[1..], t[1..]);
      LessTotal(s[1..], s[1..]);
      if s[0] == t[0] && s[1..] == t[1..] {
        assert s == [s[0]] + s[1..] && t == [t[0]] + t[1..];
      }
    } else if s != "" {
      LessTotal(s[1..], s[1..]);
    }
  }

  lemma {:induction false} LessTransitive(s: string, t: string, u: string)
    requires Less(s, t) && Less(t, u)
    ensures Less(s, u)
  {
    if s != "" && s[0] == t[0] == u[0] {
      LessTransitive(s[1..], t[1..], u[1..]);
    }
  }

  lemma {:induction false} LessAtEnd(s: string, t: string, a: char, b: char)
    requires |s| == |t|
    ensures Less(s + [a], t + [b]) <==> Less(s, t) || (s == t && a < b)
  {
    if s == "" {
      assert (s + [a])[1..] == "" && (t + [b])[1..] == "";
    } else {
      LessAtEnd(s[1..], t[1..], a, b);
      assert (s + [a])[1..] == s[1..] + [a] && (t + [b])[1..] == t[1..] + [b];
      assert s == [s[0]] + s[1..] && t == [t[0]] + t[1..];
    }
  }

  /** On digit strings of one length, byte order is numeric order. */
  lemma {:induction false} LessIsNumeric(s: string, t: string)
    requires |s| == |t| && Digits(s) && Digits(t)
    ensures Less(s, t) <==> Value(s) < Value(t)
    ensures s == t <==> Value(s) == Value(t)
  {
    if s != "" {
      var n := |s| - 1;
      var s', t' := s[..n], t[..n];
      LessIsNumeric(s', t');
      LessAtEnd(s', t', s[n], t[n]);
      assert s == s' + [s[n]] && t == t' + [t[n]];
      assert IsDigit(s[n]) && IsDigit(t[n]);
    }
  }

  lemma FormatOrder(a: nat, b: nat)
    requires a < STAMP_LIMIT && b < STAMP_LIMIT
    ensures Less(Format(a), Format(b)) <==> a < b
  {
    FormatWidth(a);
    FormatWidth(b);
    ValueFixed(a, WIDTH);
    ValueFixed(b, WIDTH);
    LessIsNumeric(Format(a), Format(b));
  }

  ghost predicate OrderKeptBelow(limit: nat) {
    forall a: nat, b: nat :: a < limit && b < limit ==> (Less(Format(a), Format(b)) <==> a < b)
  }

  /** Dropping the last digit drops one power of ten from the bounds. */
  lemma DropsDigit(n: nat, p: nat, d: nat)
    requires d * (10 * p) <= n < (d + 1) * (10 * p)
    ensures d * p <= n / 10 < (d + 1) * p
  {
    var a, b := d * p, (d + 1) * p;
    assert d * (10 * p) == 10 * a;
    assert (d + 1) * (10 * p) == 10 * b;
  }

  lemma {:induction false} FirstDigit(n: nat, w: nat, d: nat)
    requires d < 10 && d * Pow10(w) <= n < (d + 1) * Pow10(w)
    ensures Fixed(n, w + 1)[0] == Digit(d)
  {
    if w > 0 {
      DropsDigit(n, Pow10(w - 1), d);
      FirstDigit(n / 10, w - 1, d);
      assert Fixed(n, w + 1) == Fixed(n / 10, w) + [Digit(n % 10)];
    }
  }

  lemma PowersUsed()
    ensures Pow10(11) == 100_000_000_000 && Pow10(12) == STAMP_LIMIT
  {
    assert Pow10(3) == 1000;
    assert Pow10(7) == 10_000_000;
  }

  lemma LimitHasThirteenDigits()
    ensures Length(STAMP_LIMIT) == 13
  {
    assert Length(100) == 3;
    assert Length(10_000_000) == 8;
  }

  /** The first stamp with thirteen digits sorts before the last one with twelve. */
  lemma OrderBreaksAtLimit()
    ensures Less(Format(STAMP_LIMIT), Format(STAMP_LIMIT - 1))
  {
    PowersUsed();
    LimitHasThirteenDigits();
    FirstDigit(STAMP_LIMIT, 12, 1);
    FirstDigit(STAMP_LIMIT - 1, 11, 9);
    FormatWidth(STAMP_LIMIT - 1);
  }

  /** Byte order of the names is the order of the stamps up to 10^12 seconds, and no further. */
  lemma OrderKeptExactly(limit: nat)
    ensures OrderKeptBelow(limit) <==> limit <= 1_000_000_000_000
  {
    if limit <= STAMP_LIMIT {
      forall a: nat, b: nat | a < limit && b < limit ensures Less(Format(a), Format(b)) <==> a < b {
        FormatOrder(a, b);
      }
    } else {
      OrderBreaksAtLimit();
    }
  }
}
