/** The Python string operations the registration dialogue relies on. */
module Text {

  predicate IsDigit(c: char) {
    '0' <= c <= '9'
  }

  /** `str.isdigit()` on ASCII text: at least one character, and every character a decimal digit. */
  predicate IsDigits(s: string) {
    |s| > 0 && forall i :: 0 <= i < |s| ==> IsDigit(s[i])
  }

  function DigitValue(c: char): (d: nat)
    requires IsDigit(c)
    ensures d < 10
  {
    c as int - '0' as int
  }

  function DigitChar(d: nat): (c: char)
    requires d < 10
    ensures IsDigit(c) && DigitValue(c) == d
  {
    ('0' as int + d) as char
  }

  /** `int(s)` for a string of decimal digits: the value of the numeral, leading zeros ignored. */
  function ParseNat(s: string): nat
    requires forall i :: 0 <= i < |s| ==> IsDigit(s[i])
  {
    if s == [] then 0 else 10 * ParseNat(s[..|s| - 1]) + DigitValue(s[|s| - 1])
  }

  /** `str(n)` for a natural number: its decimal numeral, with no leading zero. */
  function NatToString(n: nat): (s: string)
    ensures IsDigits(s)
    ensures (s[0] == '0') == (n == 0)
    ensures (|s| == 1) == (n < 10)
  {
    if n < 10 then [DigitChar(n)] else NatToString(n / 10) + [DigitChar(n % 10)]
  }

  /** Printing a number and parsing it back gives the number. */
  lemma {:induction false} ParseNatToString(n: nat)
    ensures ParseNat(NatToString(n)) == n
  {
    if n >= 10 {
      var s := NatToString(n);
      assert s[..|s| - 1] == NatToString(n / 10);
      ParseNatToString(n / 10);
    }
  }

  /** A numeral without a leading zero is non-zero. */
  lemma {:induction false} ParseNatPositive(s: string)
    requires IsDigits(s) && s[0] != '0'
    ensures ParseNat(s) >= 1
    ensures |s| > 1 ==> ParseNat(s) >= 10
  {
    if |s| > 1 {
      ParseNatPositive(s[..|s| - 1]);
    }
  }

  /** Parsing a canonical numeral (no leading zero, or just "0") and printing it back gives the numeral. */
  lemma {:induction false} NatToStringParseNat(s: string)
    requires IsDigits(s) && (s[0] == '0' ==> |s| == 1)
    ensures NatToString(ParseNat(s)) == s
  {
    if |s| > 1 {
      var p := s[..|s| - 1];
      ParseNatPositive(s);
      NatToStringParseNat(p);
      var n := ParseNat(s);
      assert n / 10 == ParseNat(p) && n % 10 == DigitValue(s[|s| - 1]);
      assert s == p + [s[|s| - 1]];
    }
  }

  /** `sep.join(parts)`. */
  function Join(sep: string, parts: seq<string>): string {
    if |parts| == 0 then ""
    else if |parts| == 1 then parts[0]
    else parts[0] + sep + Join(sep, parts[1..])
  }

  /** `s.split(c)` for a one-character separator: the pieces between separators, never an empty list. */
  function SplitOn(c: char, s: string): (pieces: seq<string>)
    ensures |pieces| > 0
    ensures forall i :: 0 <= i < |pieces| ==> c !in pieces[i]
  {
    if s == [] then [""]
    else
      var rest := SplitOn(c, s[1..]);
      if s[0] == c then [""] + rest else [[s[0]] + rest[0]] + rest[1..]
  }

  lemma JoinCons(sep: string, a: string, rest: seq<string>)
    requires |rest| > 0
    ensures Join(sep, [a] + rest) == a + sep + Join(sep, rest)
  {
    assert ([a] + rest)[1..] == rest;
  }

  /** Joining two non-empty lists of pieces puts one separator between their joins. */
  lemma {:induction false} JoinAppend(sep: string, p: seq<string>, q: seq<string>)
    requires |p| > 0 && |q| > 0
    ensures Join(sep, p + q) == Join(sep, p) + sep + Join(sep, q)
  {
    if |p| == 1 {
      JoinCons(sep, p[0], q);
    } else {
      assert p + q == [p[0]] + (p[1..] + q);
      JoinCons(sep, p[0], p[1..] + q);
      JoinAppend(sep, p[1..], q);
      JoinCons(sep, p[0], p[1..]);
      assert p == [p[0]] + p[1..];
    }
  }

  /** Joining the pieces of a split gives back the split text. */
  lemma {:induction false} JoinSplitOn(c: char, s: string)
    ensures Join([c], SplitOn(c, s)) == s
  {
    if s != [] {
      var rest := SplitOn(c, s[1..]);
      JoinSplitOn(c, s[1..]);
      if s[0] == c {
        JoinCons([c], "", rest);
      } else if |rest| > 1 {
        JoinCons([c], rest[0], rest[1..]);
        assert rest == [rest[0]] + rest[1..];
        JoinCons([c], [s[0]] + rest[0], rest[1..]);
      }
    }
  }

  lemma {:induction false} SplitOnNoSeparator(c: char, s: string)
    requires c !in s
    ensures SplitOn(c, s) == [s]
  {
    if s != [] {
      SplitOnNoSeparator(c, s[1..]);
      assert s == [s[0]] + s[1..];
    }
  }

  /** A separator splits the text into the pieces before it followed by the pieces after it. */
  lemma {:induction false} SplitOnConcat(c: char, a: string, b: string)
    ensures SplitOn(c, a + [c] + b) == SplitOn(c, a) + SplitOn(c, b)
  {
    if a == [] {
      assert a + [c] + b == [c] + b;
      assert ([c] + b)[1..] == b;
    } else {
      assert (a + [c] + b)[1..] == a[1..] + [c] + b;
      SplitOnConcat(c, a[1..], b);
    }
  }

  /** Splitting the join of pieces that hold no separator gives back the pieces. */
  lemma {:induction false} SplitOnJoin(c: char, parts: seq<string>)
    requires |parts| > 0
    requires forall i :: 0 <= i < |parts| ==> c !in parts[i]
    ensures SplitOn(c, Join([c], parts)) == parts
  {
    SplitOnNoSeparator(c, parts[0]);
    if |parts| > 1 {
      SplitOnJoin(c, parts[1..]);
      SplitOnConcat(c, parts[0], Join([c], parts[1..]));
      assert parts == [parts[0]] + parts[1..];
    }
  }

  /** `str.isspace` for one character: the characters `str.split()` separates words on. */
  predicate IsSpace(c: char) {
    var n := c as int;
    || 0x09 <= n <= 0x0D || 0x1C <= n <= 0x20 || n == 0x85 || n == 0xA0 || n == 0x1680
    || 0x2000 <= n <= 0x200A || n == 0x2028 || n == 0x2029 || n == 0x202F || n == 0x205F || n == 0x3000
  }
}
