/** The blood-pressure field "S/D": split on "/", exactly two pieces, each read
    with `int`. Every failure (wrong piece count, a piece `int` rejects) is
    swallowed by the handler's bare `except` and yields two absent values. */
module BloodPressure {
  import opened Wrappers
  import opened IntParse
  import opened StrSplit

  datatype Reading = Reading(systolic: Option<int>, diastolic: Option<int>)

  const Absent := Reading(None, None)

  function ParseBloodPressure(s: string): (r: Reading)
    ensures r.systolic.Some? <==> r.diastolic.Some?
    ensures Count(s, '/') != 1 ==> r == Absent
  {
    var parts := Split(s, '/');
    if |parts| != 2 then Absent
    else match (ParseInt(parts[0]), ParseInt(parts[1]))
      case (Some(sys), Some(dia)) => Reading(Some(sys), Some(dia))
      case _ => Absent
  }

  /** Two strings `int` accepts, joined by "/", are read back as exactly the
      two values `int` gives them (surrounding whitespace included). */
  lemma ParseLiterals(x: string, y: string)
    requires ParseInt(x).Some? && ParseInt(y).Some?
    ensures ParseBloodPressure(x + "/" + y) == Reading(ParseInt(x), ParseInt(y))
  {
    ParseIntChars(x);
    ParseIntChars(y);
    SplitTwo(x, y, '/');
  }

  /** `"S/D"` written with Python's `str` parses to exactly `(S, D)`. */
  lemma ParseRoundTrip(sys: int, dia: int)
    ensures ParseBloodPressure(ToDecimal(sys) + "/" + ToDecimal(dia)) == Reading(Some(sys), Some(dia))
  {
    ParseToDecimal(sys);
    ParseToDecimal(dia);
    ParseLiterals(ToDecimal(sys), ToDecimal(dia));
  }

  /** A reading is produced only from a string of the form x + "/" + y where
      `int` accepts both x and y; this is the converse of ParseLiterals. */
  lemma AcceptedShape(s: string)
    requires ParseBloodPressure(s).systolic.Some?
    ensures var parts := Split(s, '/');
      && |parts| == 2
      && s == parts[0] + "/" + parts[1]
      && ParseBloodPressure(s) == Reading(ParseInt(parts[0]), ParseInt(parts[1]))
      && ParseInt(parts[0]).Some? && ParseInt(parts[1]).Some?
  {
    var parts := Split(s, '/');
    assert |parts| == 2;
    assert parts[1..] == [parts[1]];
    assert Join(parts[1..], '/') == parts[1];
    assert s == Join(parts, '/') == parts[0] + ['/'] + parts[1];
  }

  /** A string with no "/" at all (such as "not-a-number") is never a reading. */
  lemma NoSeparatorIsAbsent(s: string)
    requires '/' !in s
    ensures ParseBloodPressure(s) == Absent
  {
    SplitWithoutSep(s, '/');
  }

  lemma NotANumber()
    ensures ParseBloodPressure("not-a-number") == Absent
  {
    var s := "not-a-number";
    assert '/' !in s by {
      assert forall i :: 0 <= i < |s| ==> s[i] != '/';
    }
    NoSeparatorIsAbsent(s);
  }

  /** The reading of the usual form "120/80". */
  lemma OneTwentyOverEighty()
    ensures ParseBloodPressure("120/80") == Reading(Some(120), Some(80))
  {
    var s := "120/80";
    assert s == ToDecimal(120) + "/" + ToDecimal(80) by {
      DecimalDigits(12, 0);
      DecimalDigits(8, 0);
      DecimalDigits(1, 2);
    }
    ParseRoundTrip(120, 80);
  }

  /** One step of `str`: the decimal form of 10 * n + d, n > 0, is that of n
      followed by the digit d. */
  lemma DecimalDigits(n: nat, d: nat)
    requires 0 < n && d < 10
    ensures NatToDecimal(10 * n + d) == NatToDecimal(n) + [DigitChar(d)]
  {
    assert (10 * n + d) / 10 == n && (10 * n + d) % 10 == d;
  }

  /** A blood pressure starting with an ASCII information separator
      (U+001C to U+001F) gives (None, None): `int` rejects the first piece. */
  lemma SeparatorPressureAbsent(c: char, s: string)
    requires 0x1C <= c as int <= 0x1F
    ensures ParseBloodPressure([c] + s) == Absent
  {
    var t := [c] + s;
    var parts := Split(t, '/');
    if |parts| == 2 {
      assert t == parts[0] + "/" + parts[1] by {
        assert parts[1..] == [parts[1]];
        assert Join(parts[1..], '/') == parts[1];
      }
      assert |parts[0]| > 0 by { assert t[0] != '/'; }
      assert parts[0] == [c] + parts[0][1..];
      SeparatorNotSkipped(c, parts[0][1..]);
    }
  }
}
