/**
 * Hexadecimal rendering as the sign driver uses it: Python's
 * `format(n, 'x').zfill(2)` and `'%02x' % n`, optionally upper-cased.
 * Both give the shortest hex spelling of `n`, left-padded with '0' to
 * at least two characters.
 */
module Hex {
  import opened Wrappers

  function Digit(d: nat, upper: bool): (c: char)
    requires d < 16
  {
    if d < 10 then ('0' as int + d) as char
    else if upper then ('A' as int + d - 10) as char
    else ('a' as int + d - 10) as char
  }

  /** Value of one hex digit of the given case, if it is one. */
  function DigitValue(c: char, upper: bool): (r: Option<nat>)
    ensures r.Some? ==> r.value < 16 && Digit(r.value, upper) == c
  {
    if '0' <= c <= '9' then Some(c as int - '0' as int)
    else if upper && 'A' <= c <= 'F' then Some(c as int - 'A' as int + 10)
    else if !upper && 'a' <= c <= 'f' then Some(c as int - 'a' as int + 10)
    else None
  }

  /** Shortest spelling of `n` in base 16 (Python's `format(n, 'x')`). */
  function Digits(n: nat, upper: bool): (s: string)
    decreases n
  {
    if n < 16 then [Digit(n, upper)] else Digits(n / 16, upper) + [Digit(n % 16, upper)]
  }

  /** `Digits` left-padded with '0' to at least two characters. */
  function Pad2(n: nat, upper: bool): (s: string)
  {
    var d := Digits(n, upper);
    if |d| < 2 then "0" + d else d
  }

  /** Reads a non-empty string of hex digits of one case. */
  function Parse(s: string, upper: bool): (r: Option<nat>)
  {
    if s == [] then None
    else if |s| == 1 then DigitValue(s[0], upper)
    else match (Parse(s[..|s| - 1], upper), DigitValue(s[|s| - 1], upper))
      case (Some(hi), Some(lo)) => Some(hi * 16 + lo)
      case _ => None
  }

  lemma {:induction false} DigitsLength(n: nat, upper: bool)
    ensures |Digits(n, upper)| >= 1
    ensures n < 16 <==> |Digits(n, upper)| == 1
    ensures n < 256 <==> |Digits(n, upper)| <= 2
    decreases n
  {
    if n >= 16 { DigitsLength(n / 16, upper); }
  }

  /** The padded rendering has exactly two characters precisely for byte values. */
  lemma Pad2Length(n: nat, upper: bool)
    ensures |Pad2(n, upper)| >= 2
    ensures |Pad2(n, upper)| == 2 <==> n < 256
  {
    DigitsLength(n, upper);
  }

  lemma {:induction false} ParseDigits(n: nat, upper: bool)
    ensures Parse(Digits(n, upper), upper) == Some(n)
    decreases n
  {
    if n >= 16 {
      var d := Digits(n, upper);
      DigitsLength(n / 16, upper);
      assert d[..|d| - 1] == Digits(n / 16, upper);
      ParseDigits(n / 16, upper);
    }
  }

  /** Reading back a rendered number gives the number. */
  lemma Pad2RoundTrip(n: nat, upper: bool)
    ensures Parse(Pad2(n, upper), upper) == Some(n)
  {
    var d := Digits(n, upper);
    ParseDigits(n, upper);
    DigitsLength(n, upper);
    if |d| < 2 {
      assert (if n >= 0 then "0" + d else d)[..1] == "0";
    }
  }

  /** Conversely, every two-digit spelling is the rendering of what it reads as. */
  lemma Pad2Canonical(s: string, upper: bool)
    requires |s| == 2 && Parse(s, upper).Some?
    ensures Pad2(Parse(s, upper).value, upper) == s
  {
    var hi := DigitValue(s[0], upper).value;
    var lo := DigitValue(s[1], upper).value;
    assert s[..1] == [s[0]];
    var n := hi * 16 + lo;
    assert Parse(s, upper) == Some(n);
    if hi == 0 {
      assert Digit(0, upper) == '0';
    } else {
      assert n / 16 == hi && n % 16 == lo;
      assert Digits(n, upper) == Digits(hi, upper) + [Digit(lo, upper)];
      assert Digits(n, upper) == [s[0], s[1]];
    }
  }
}
