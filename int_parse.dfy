/** Python's `int(s)` on a string, in base 10: surrounding whitespace is
    stripped, then an optional sign and at least one decimal digit must make
    up the rest; anything else raises `ValueError`, modelled as `None`.
    Also `str(n)`, the canonical decimal form, as the inverse partner. */
module IntParse {
  import opened Wrappers

  /** The characters `int` skips around the number. CPython first maps every
      non-ASCII `str.isspace` character to a space and leaves ASCII text as it
      is, then skips only the C-locale spaces: tab, line feed, vertical tab,
      form feed, carriage return and space. The ASCII separators U+001C to
      U+001F, which `str.isspace` accepts, are therefore not skipped. */
  function IsSpace(c: char): (b: bool)
    ensures b ==> !IsDigit(c) && !IsSign(c) && c != '/'
  {
    var n := c as int;
    (9 <= n <= 13) || n == 32 || n == 0x85 || n == 0xA0 || n == 0x1680
    || (0x2000 <= n <= 0x200A) || n == 0x2028 || n == 0x2029 || n == 0x202F
    || n == 0x205F || n == 0x3000
  }

  predicate IsDigit(c: char) {
    '0' <= c <= '9'
  }

  function DigitValue(c: char): (d: nat)
    requires IsDigit(c)
    ensures d < 10
  {
    c as int - '0' as int
  }

  function DigitChar(d: nat): (c: char)
    requires d < 10
    ensures IsDigit(c) && DigitValue(c) == d
  {
    ('0' as int + d) as char
  }

  predicate IsSign(c: char) {
    c == '+' || c == '-'
  }

  /** Leading whitespace removed: the result is the suffix of `s` that starts
      at the first non-space character. */
  function TrimStart(s: string): (r: string)
    ensures |r| <= |s| && r == s[|s| - |r|..]
    ensures forall i :: 0 <= i < |s| - |r| ==> IsSpace(s[i])
    ensures |r| > 0 ==> !IsSpace(r[0])
  {
    if |s| > 0 && IsSpace(s[0]) then TrimStart(s[1..]) else s
  }

  /** Trailing whitespace removed: the result is the prefix of `s` that ends
      at the last non-space character. */
  function TrimEnd(s: string): (r: string)
    ensures |r| <= |s| && r == s[..|r|]
    ensures forall i :: |r| <= i < |s| ==> IsSpace(s[i])
    ensures |r| > 0 ==> !IsSpace(r[|r| - 1])
  {
    if |s| > 0 && IsSpace(s[|s| - 1]) then TrimEnd(s[..|s| - 1]) else s
  }

  function Trim(s: string): string {
    TrimEnd(TrimStart(s))
  }

  predicate AllDigits(t: string) {
    forall i :: 0 <= i < |t| ==> IsDigit(t[i])
  }

  /** 10 to the power k. */
  function Pow10(k: nat): (p: nat)
    ensures p >= 1
  {
    if k == 0 then 1 else 10 * Pow10(k - 1)
  }

  /** The value of a run of decimal digits read from the most significant
      end: the first of k digits weighs 10^(k-1). */
  function DigitsValue(t: string): nat
    requires AllDigits(t)
  {
    if |t| == 0 then 0 else DigitValue(t[0]) * Pow10(|t| - 1) + DigitsValue(t[1..])
  }

  /** Reading the same digits from the least significant end: dropping the
      last digit divides the value by ten. */
  lemma {:induction false} DigitsValueLast(t: string)
    requires |t| > 0 && AllDigits(t)
    ensures DigitsValue(t) == 10 * DigitsValue(t[..|t| - 1]) + DigitValue(t[|t| - 1])
  {
    if |t| > 1 {
      var u := t[1..];
      var d := DigitValue(t[0]);
      DigitsValueLast(u);
      assert u[..|u| - 1] == t[..|t| - 1][1..];
      assert DigitsValue(t[..|t| - 1]) == d * Pow10(|t| - 2) + DigitsValue(u[..|u| - 1]);
      assert d * Pow10(|t| - 1) == 10 * (d * Pow10(|t| - 2));
    }
  }

  /** A non-empty run of decimal digits and its value; leading zeros are
      allowed, as in `int("007")`. */
  function ParseDigits(t: string): (r: Option<nat>)
    ensures r.Some? <==> |t| > 0 && AllDigits(t)
    ensures r.Some? ==> r.value == DigitsValue(t)
  {
    if |t| == 0 || !IsDigit(t[|t| - 1]) then None
    else if |t| == 1 then Some(DigitValue(t[0]))
    else match ParseDigits(t[..|t| - 1])
      case None => None
      case Some(n) =>
        DigitsValueLast(t);
        Some(10 * n + DigitValue(t[|t| - 1]))
  }

  /** What `int` accepts once the whitespace is gone: an optional sign
      followed by at least one digit, and nothing else. */
  predicate Numeral(t: string) {
    |t| > 0 && if IsSign(t[0]) then |t| > 1 && AllDigits(t[1..]) else AllDigits(t)
  }

  /** The value of a numeral: its digits' value, negated after a `-`. */
  function NumeralValue(t: string): int
    requires Numeral(t)
  {
    if t[0] == '-' then -(DigitsValue(t[1..]) as int)
    else if t[0] == '+' then DigitsValue(t[1..])
    else DigitsValue(t)
  }

  /** `int(s)`: `None` stands for the `ValueError` it raises. It accepts
      exactly a numeral with whitespace around it, and gives its value. */
  function ParseInt(s: string): (r: Option<int>)
    ensures r.Some? <==> Numeral(Trim(s))
    ensures r.Some? ==> r.value == NumeralValue(Trim(s))
  {
    ParseSigned(Trim(s))
  }

  function ParseSigned(t: string): (r: Option<int>)
    ensures r.Some? <==> Numeral(t)
    ensures r.Some? ==> r.value == NumeralValue(t)
    ensures r.Some? && |t| > 0 && t[0] == '-' ==> r.value <= 0
    ensures r.Some? && |t| > 0 && t[0] != '-' ==> r.value >= 0
  {
    if |t| > 0 && IsSign(t[0]) then
      match ParseDigits(t[1..])
      case None => None
      case Some(n) => Some(if t[0] == '-' then -(n as int) else n as int)
    else
      ParseDigits(t)
  }

  /** A `+` before the digits changes nothing, a `-` negates them. */
  lemma SignedDigits(t: string)
    ensures ParseSigned(['+'] + t).Some? <==> ParseDigits(t).Some?
    ensures ParseSigned(['-'] + t).Some? <==> ParseDigits(t).Some?
    ensures ParseDigits(t).Some? ==>
      ParseSigned(['+'] + t).value == ParseDigits(t).value
      && ParseSigned(['-'] + t).value == -(ParseDigits(t).value as int)
  {
    assert (['+'] + t)[1..] == t;
    assert (['-'] + t)[1..] == t;
  }

  /** A leading zero does not change the value: `int("080") == int("80")`. */
  lemma LeadingZero(t: string)
    requires |t| > 0 && AllDigits(t)
    ensures ParseDigits(['0'] + t) == ParseDigits(t)
  {
    var u := ['0'] + t;
    assert u[1..] == t;
    assert AllDigits(u);
    assert DigitsValue(u) == 0 * Pow10(|t|) + DigitsValue(t);
  }

  /** An ASCII information separator (U+001C to U+001F) in front of the text
      makes `int` fail, although `str.isspace` accepts it. */
  lemma SeparatorNotSkipped(c: char, s: string)
    requires 0x1C <= c as int <= 0x1F
    ensures ParseInt([c] + s) == None
  {
    var t := [c] + s;
    assert TrimStart(t) == t;
    assert TrimEnd(t)[0] == c;
  }

  /** The digits of a natural number, most significant first, without
      leading zeros. */
  function NatToDecimal(n: nat): (t: string)
    ensures |t| > 0 && AllDigits(t)
    ensures n > 0 ==> t[0] != '0'
    decreases n
  {
    if n < 10 then [DigitChar(n)] else NatToDecimal(n / 10) + [DigitChar(n % 10)]
  }

  /** `str(n)` for a Python int: a minus sign for negatives, then the digits. */
  function ToDecimal(n: int): (t: string)
    ensures |t| > 0 && (t[0] == '-' <==> n < 0)
    ensures AllDigits(if n < 0 then t[1..] else t)
  {
    if n < 0 then
      var d := NatToDecimal(-n);
      assert ("-" + d)[1..] == d;
      "-" + d
    else
      var d := NatToDecimal(n);
      assert IsDigit(d[0]);
      d
  }

  lemma {:induction false} ParseNatToDecimal(n: nat)
    ensures ParseDigits(NatToDecimal(n)) == Some(n)
    decreases n
  {
    if n >= 10 {
      var t := NatToDecimal(n);
      ParseNatToDecimal(n / 10);
      assert t[..|t| - 1] == NatToDecimal(n / 10);
    }
  }

  /** A string made only of signs and digits is not changed by stripping. */
  lemma TrimNoSpace(s: string)
    requires forall i :: 0 <= i < |s| ==> !IsSpace(s[i])
    ensures Trim(s) == s
  {
    if |s| > 0 {
      assert !IsSpace(s[0]);
      assert !IsSpace(s[|s| - 1]);
    }
  }

  /** `int(str(n)) == n` for every integer. */
  lemma ParseToDecimal(n: int)
    ensures ParseInt(ToDecimal(n)) == Some(n)
  {
    var t := ToDecimal(n);
    DecimalHasNoSpace(n);
    TrimNoSpace(t);
    var d := NatToDecimal(if n < 0 then -n else n);
    ParseNatToDecimal(if n < 0 then -n else n);
    if n < 0 {
      assert t[1..] == d;
    } else {
      assert !IsSign(t[0]) by { assert IsDigit(d[0]); }
    }
  }

  lemma DecimalHasNoSpace(n: int)
    ensures forall i :: 0 <= i < |ToDecimal(n)| ==> !IsSpace(ToDecimal(n)[i])
  {
    var t := ToDecimal(n);
    var d := NatToDecimal(if n < 0 then -n else n);
    forall i | 0 <= i < |t| ensures !IsSpace(t[i]) {
      if n >= 0 {
        assert IsDigit(d[i]);
      } else if i > 0 {
        assert t[i] == d[i - 1];
        assert IsDigit(d[i - 1]);
      }
    }
  }

  /** Whitespace on either side does not change what `int` reads. */
  lemma ParseIntSurroundingSpace(s: string, c: char)
    requires IsSpace(c)
    ensures ParseInt([c] + s) == ParseInt(s)
    ensures ParseInt(s + [c]) == ParseInt(s)
  {
    TrimLeadingSpace(s, c);
    TrimTrailingSpace(s, c);
  }

  lemma TrimLeadingSpace(s: string, c: char)
    requires IsSpace(c)
    ensures Trim([c] + s) == Trim(s)
  {
    assert ([c] + s)[1..] == s;
  }

  lemma TrimTrailingSpace(s: string, c: char)
    requires IsSpace(c)
    ensures Trim(s + [c]) == Trim(s)
  {
    TrimStartAppend(s, c);
    var u := TrimStart(s);
    if u != [] {
      assert (u + [c])[..|u + [c]| - 1] == u;
    }
  }

  lemma {:induction false} TrimStartAppend(s: string, c: char)
    requires IsSpace(c)
    ensures TrimStart(s + [c]) == if TrimStart(s) == [] then [] else TrimStart(s) + [c]
  {
    if |s| > 0 {
      assert (s + [c])[1..] == s[1..] + [c];
      if IsSpace(s[0]) { TrimStartAppend(s[1..], c); }
    }
  }

  /** Every character `int` accepts is whitespace, a sign or a digit; in
      particular an accepted string never contains a `/`. */
  lemma ParseIntChars(s: string)
    requires ParseInt(s).Some?
    ensures forall i :: 0 <= i < |s| ==> IsSpace(s[i]) || IsSign(s[i]) || IsDigit(s[i])
  {
    var u := TrimStart(s);
    var t := TrimEnd(u);
    forall i | 0 <= i < |s| ensures IsSpace(s[i]) || IsSign(s[i]) || IsDigit(s[i]) {
      var k := i - (|s| - |u|);
      if 0 <= k < |t| {
        assert s[i] == t[k];
        if k > 0 && |t| > 0 && IsSign(t[0]) {
          assert t[1..][k - 1] == t[k];
        }
      } else if 0 <= k {
        assert s[i] == u[k];
      }
    }
  }
}
