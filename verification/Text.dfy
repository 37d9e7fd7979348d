/** Strings as the services build and take apart: joined tokens, and decimal numbers. */
module Text {

  predicate Without(s: string, c: char) {
    forall i :: 0 <= i < |s| ==> s[i] != c
  }

  function Join(parts: seq<string>, c: char): string {
    if parts == [] then ""
    else if |parts| == 1 then parts[0]
    else parts[0] + [c] + Join(parts[1..], c)
  }

  /** `s.split(c)`: never empty, and one token when the separator is absent. */
  function Split(s: string, c: char): (parts: seq<string>)
    ensures |parts| >= 1
    ensures Join(parts, c) == s
    ensures forall p :: p in parts ==> Without(p, c)
    decreases |s|
  {
    if s == "" then [""] else
    var rest := Split(s[1..], c);
    if s[0] == c then
      assert Join([""] + rest, c) == [c] + s[1..];
      [""] + rest
    else
      var first := [s[0]] + rest[0];
      assert rest[0] in rest && Without(first, c);
      assert Join([first] + rest[1..], c) == [s[0]] + s[1..];
      [first] + rest[1..]
  }

  lemma {:induction false} SplitToken(p: string, c: char)
    requires Without(p, c)
    ensures Split(p, c) == [p]
  {
    if p != "" {
      assert Without(p[1..], c);
      SplitToken(p[1..], c);
    }
  }

  lemma SplitCons(h: char, t: string, c: char)
    requires h != c
    ensures Split([h] + t, c) == [[h] + Split(t, c)[0]] + Split(t, c)[1..]
  {
    assert ([h] + t)[1..] == t;
  }

  lemma {:induction false} SplitHead(p: string, c: char, rest: string)
    requires Without(p, c)
    ensures Split(p + [c] + rest, c) == [p] + Split(rest, c)
  {
    var s := p + [c] + rest;
    if p == "" {
      assert s[1..] == rest;
    } else {
      assert Without(p[1..], c);
      SplitHead(p[1..], c, rest);
      SplitCons(p[0], p[1..] + [c] + rest, c);
      assert s == [p[0]] + (p[1..] + [c] + rest) && [p[0]] + p[1..] == p;
      assert ([p[1..]] + Split(rest, c))[1..] == Split(rest, c);
    }
  }

  /** Splitting undoes joining when no part holds the separator. */
  lemma {:induction false} SplitJoined(parts: seq<string>, c: char)
    requires |parts| >= 1
    requires forall p :: p in parts ==> Without(p, c)
    ensures Split(Join(parts, c), c) == parts
  {
    if |parts| == 1 {
      SplitToken(parts[0], c);
    } else {
      SplitJoined(parts[1..], c);
      SplitHead(parts[0], c, Join(parts[1..], c));
    }
  }

  /** The same text before the first separator, and the same text after it. */
  lemma {:induction false} FirstSeparator(a: string, x: string, b: string, y: string, c: char)
    requires Without(a, c) && Without(b, c)
    requires a + [c] + x == b + [c] + y
    ensures a == b && x == y
  {
    var s := a + [c] + x;
    assert s[|a|] == c && s == b + [c] + y && s[|b|] == c;
    assert |b| <= |a| by {
      assert forall i :: 0 <= i < |b| ==> s[i] == b[i];
    }
    assert |a| <= |b| by {
      assert forall i :: 0 <= i < |a| ==> s[i] == a[i];
    }
    assert a == s[..|a|] && b == s[..|b|];
    assert x == s[|a| + 1..] && y == s[|b| + 1..];
  }

  function Digit(d: int): char
    requires 0 <= d < 10
  {
    '0' + d as char
  }

  function DigitValue(c: char): int {
    c as int - '0' as int
  }

  function DecimalNat(n: nat): (s: string)
    ensures |s| >= 1
    ensures forall i :: 0 <= i < |s| ==> '0' <= s[i] <= '9'
  {
    if n < 10 then [Digit(n)] else DecimalNat(n / 10) + [Digit(n % 10)]
  }

  function ParseNat(s: string): int {
    if s == "" then 0 else 10 * ParseNat(s[..|s| - 1]) + DigitValue(s[|s| - 1])
  }

  lemma {:induction false} ParseDecimalNat(n: nat)
    ensures ParseNat(DecimalNat(n)) == n
  {
    if n >= 10 {
      ParseDecimalNat(n / 10);
      var s := DecimalNat(n);
      assert s[..|s| - 1] == DecimalNat(n / 10);
    } else {
      assert DecimalNat(n)[..0] == "";
    }
  }

  /** A number in a template literal. */
  function Decimal(n: int): string {
    if n < 0 then "-" + DecimalNat(-n) else DecimalNat(n)
  }

  /** What a number in a text says. */
  function ParseInt(s: string): int {
    if s != "" && s[0] == '-' then -ParseNat(s[1..]) else ParseNat(s)
  }

  lemma ParseDecimal(n: int)
    ensures ParseInt(Decimal(n)) == n
  {
    ParseDecimalNat(if n < 0 then -n else n);
    assert n < 0 ==> Decimal(n)[1..] == DecimalNat(-n);
  }

  lemma DecimalInjective(a: int, b: int)
    requires Decimal(a) == Decimal(b)
    ensures a == b
  {
    ParseDecimal(a);
    ParseDecimal(b);
  }

  /** `String(n).padStart(2, "0")` for the two-digit numbers a calendar needs. */
  function Pad2(n: int): string
    requires 0 <= n < 100
  {
    [Digit(n / 10), Digit(n % 10)]
  }

  lemma ParsePad2(n: int)
    requires 0 <= n < 100
    ensures ParseNat(Pad2(n)) == n
  {
    var s := Pad2(n);
    assert s[..1] == [Digit(n / 10)] && s[..1][..0] == "";
    assert ParseNat(s[..1]) == n / 10;
  }
}
