/** Python's `str.split(sep)` with an explicit one-character separator: the
    string is cut at every occurrence of `sep`, so there is always one piece
    more than there are separators, and empty pieces are kept. */
module StrSplit {

  /** The number of occurrences of `c` in `s`. */
  function Count(s: string, c: char): nat {
    if |s| == 0 then 0 else (if s[0] == c then 1 else 0) + Count(s[1..], c)
  }

  lemma {:induction false} CountAppend(a: string, b: string, c: char)
    ensures Count(a + b, c) == Count(a, c) + Count(b, c)
  {
    if |a| == 0 {
      assert a + b == b;
    } else {
      assert (a + b)[1..] == a[1..] + b;
      CountAppend(a[1..], b, c);
    }
  }

  lemma {:induction false} CountZero(s: string, c: char)
    ensures Count(s, c) == 0 <==> c !in s
  {
    if |s| > 0 {
      CountZero(s[1..], c);
      assert s == [s[0]] + s[1..];
    }
  }

  predicate FreeOf(parts: seq<string>, sep: char) {
    forall i :: 0 <= i < |parts| ==> sep !in parts[i]
  }

  /** The pieces, separated again by `sep`, in order: the inverse of `Split`.
      Pieces without the separator give one separator fewer than pieces. */
  function Join(parts: seq<string>, sep: char): (s: string)
    requires |parts| > 0
    ensures FreeOf(parts, sep) ==> Count(s, sep) == |parts| - 1
  {
    CountZero(parts[0], sep);
    if |parts| == 1 then parts[0]
    else
      var rest := Join(parts[1..], sep);
      CountAppend(parts[0], [sep], sep);
      CountAppend(parts[0] + [sep], rest, sep);
      assert FreeOf(parts, sep) ==> FreeOf(parts[1..], sep) by {
        if FreeOf(parts, sep) {
          forall i | 0 <= i < |parts| - 1 ensures sep !in parts[1..][i] {
            assert parts[1..][i] == parts[i + 1];
          }
        }
      }
      parts[0] + [sep] + rest
  }

  function Split(s: string, sep: char): (parts: seq<string>)
    ensures |parts| == Count(s, sep) + 1
    ensures FreeOf(parts, sep)
    ensures Join(parts, sep) == s
  {
    if |s| == 0 then [""]
    else if s[0] == sep then [""] + Split(s[1..], sep)
    else
      var rest := Split(s[1..], sep);
      [[s[0]] + rest[0]] + rest[1..]
  }

  /** Splitting a join of separator-free pieces gives the pieces back. */
  lemma {:induction false} SplitJoin(parts: seq<string>, sep: char)
    requires |parts| > 0 && FreeOf(parts, sep)
    ensures Split(Join(parts, sep), sep) == parts
    decreases |parts|, |parts[0]|
  {
    var s := Join(parts, sep);
    if parts[0] == [] {
      if |parts| > 1 {
        assert s == [sep] + Join(parts[1..], sep);
        assert s[1..] == Join(parts[1..], sep);
        SplitJoin(parts[1..], sep);
        assert parts == [""] + parts[1..];
      }
    } else {
      var tail := [parts[0][1..]] + parts[1..];
      assert FreeOf(tail, sep) by {
        assert parts[0][0] != sep && sep !in parts[0][1..] by { assert sep !in parts[0]; }
        forall i | 0 <= i < |tail| ensures sep !in tail[i] {
          if i > 0 { assert tail[i] == parts[i]; }
        }
      }
      assert tail[1..] == parts[1..];
      assert Join(tail, sep) == s[1..];
      SplitJoin(tail, sep);
      assert parts[0][0] != sep by { assert parts[0][0] in parts[0]; }
      assert [parts[0][0]] + parts[0][1..] == parts[0];
    }
  }

  /** A string without the separator is a single piece. */
  lemma SplitWithoutSep(s: string, sep: char)
    requires sep !in s
    ensures Split(s, sep) == [s]
  {
    SplitJoin([s], sep);
  }

  /** Two separator-free strings around one separator give exactly two pieces. */
  lemma SplitTwo(x: string, y: string, sep: char)
    requires sep !in x && sep !in y
    ensures Split(x + [sep] + y, sep) == [x, y]
  {
    assert [x, y][1..] == [y];
    SplitJoin([x, y], sep);
  }
}
