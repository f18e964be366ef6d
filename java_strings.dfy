/**
 * The parts of `java.lang.String` and `Integer.parseInt` the map reader and
 * the animation loader use, on strings as sequences of chars:
 * `startsWith`, `isBlank`, `indexOf`, `split` with a literal separator, and
 * decimal parsing into a 32-bit int.
 */
module JavaStrings {
  import opened JavaNum
  import opened Wrappers

  /** `s.startsWith(prefix)`. */
  predicate StartsWith(s: string, prefix: string) {
    |prefix| <= |s| && s[..|prefix|] == prefix
  }

  /**
   * `Character.isWhitespace(c)`: the Unicode space, line and paragraph
   * separators except the three no-break spaces, plus the ASCII controls
   * U+0009..U+000D and U+001C..U+001F.
   */
  predicate IsWhitespace(c: char) {
    ('\U{9}' <= c <= '\U{D}') || ('\U{1C}' <= c <= '\U{1F}')
    || c == ' ' || c == '\U{1680}'
    || ('\U{2000}' <= c <= '\U{2006}') || ('\U{2008}' <= c <= '\U{200A}')
    || c == '\U{2028}' || c == '\U{2029}' || c == '\U{205F}' || c == '\U{3000}'
  }

  /** `s.isBlank()`: empty, or whitespace only. */
  predicate IsBlank(s: string) {
    forall i :: 0 <= i < |s| ==> IsWhitespace(s[i])
  }

  /** `s.indexOf(c, from)` for `from >= 0`: the first position at or after `from` holding `c`, or -1. */
  function IndexOf(s: string, c: char, from: nat): (r: int)
    ensures r == -1 || from <= r < |s|
    ensures r == -1 ==> forall i :: from <= i < |s| ==> s[i] != c
    ensures r != -1 ==> s[r] == c && forall i :: from <= i < r ==> s[i] != c
    decreases |s| - from
  {
    if from >= |s| then -1
    else if s[from] == c then from
    else IndexOf(s, c, from + 1)
  }

  /**
   * The pieces of `s` between the leftmost non-overlapping occurrences of
   * the non-empty literal `sep`, empty pieces included.
   */
  function SplitAll(s: string, sep: string): (r: seq<string>)
    requires sep != []
    ensures |r| >= 1
    ensures |r| == 1 ==> r == [s]
    decreases |s|
  {
    if |s| < |sep| then [s]
    else if s[..|sep|] == sep then [""] + SplitAll(s[|sep|..], sep)
    else
      var rest := SplitAll(s[1..], sep);
      assert s == [s[0]] + s[1..];
      [[s[0]] + rest[0]] + rest[1..]
  }

  /** The pieces put back together with the separator between them. */
  function Join(pieces: seq<string>, sep: string): string
    requires |pieces| >= 1
  {
    if |pieces| == 1 then pieces[0] else pieces[0] + sep + Join(pieces[1..], sep)
  }

  /** Splitting and joining again gives the original string. */
  lemma {:induction false} JoinSplitAll(s: string, sep: string)
    requires sep != []
    ensures Join(SplitAll(s, sep), sep) == s
    decreases |s|
  {
    if |s| < |sep| {
    } else if s[..|sep|] == sep {
      var rest := SplitAll(s[|sep|..], sep);
      assert Join(rest, sep) == s[|sep|..] by {
        JoinSplitAll(s[|sep|..], sep);
      }
      assert SplitAll(s, sep) == [""] + rest;
      assert (([""] + rest)[1..]) == rest;
      assert s == s[..|sep|] + s[|sep|..];
    } else {
      var rest := SplitAll(s[1..], sep);
      assert Join(rest, sep) == s[1..] by {
        JoinSplitAll(s[1..], sep);
      }
      var r := SplitAll(s, sep);
      assert r == [[s[0]] + rest[0]] + rest[1..];
      assert s == [s[0]] + s[1..];
      if |rest| > 1 {
        assert r[1..] == rest[1..];
        assert Join(rest, sep) == rest[0] + sep + Join(rest[1..], sep);
        assert Join(r, sep) == ([s[0]] + rest[0]) + sep + Join(rest[1..], sep);
      }
    }
  }

  /** `sep` occurs in `s` at position `i`. */
  predicate OccursAt(s: string, sep: string, i: int) {
    0 <= i && i + |sep| <= |s| && s[i..i + |sep|] == sep
  }

  predicate Occurs(s: string, sep: string) {
    exists i :: 0 <= i <= |s| && OccursAt(s, sep, i)
  }

  /** Exactly one piece means the separator does not occur. */
  lemma {:induction false} SplitAllSingle(s: string, sep: string)
    requires sep != []
    ensures |SplitAll(s, sep)| == 1 <==> !Occurs(s, sep)
    decreases |s|
  {
    if |s| < |sep| {
    } else if s[..|sep|] == sep {
      assert OccursAt(s, sep, 0);
    } else {
      SplitAllSingle(s[1..], sep);
      if Occurs(s, sep) {
        var i :| 0 <= i <= |s| && OccursAt(s, sep, i);
        assert i != 0;
        SliceOfTail(s, i - 1, |sep|);
        assert OccursAt(s[1..], sep, i - 1);
      }
      if Occurs(s[1..], sep) {
        var i :| 0 <= i <= |s[1..]| && OccursAt(s[1..], sep, i);
        SliceOfTail(s, i, |sep|);
        assert OccursAt(s, sep, i + 1);
      }
    }
  }

  lemma SliceOfTail(s: string, i: nat, n: nat)
    requires 1 + i + n <= |s|
    ensures s[1..][i..i + n] == s[i + 1..i + 1 + n]
  {
  }

  /** The sequence with its trailing empty strings removed. */
  function DropTrailingEmpty(pieces: seq<string>): (r: seq<string>)
    ensures |r| <= |pieces| && r == pieces[..|r|]
    ensures r == [] || r[|r| - 1] != ""
    ensures forall i :: |r| <= i < |pieces| ==> pieces[i] == ""
  {
    if pieces == [] || pieces[|pieces| - 1] != "" then pieces
    else DropTrailingEmpty(pieces[..|pieces| - 1])
  }

  /**
   * `s.split(sep)` for a separator without regular-expression meaning: the
   * whole string when `sep` does not occur, otherwise the pieces without the
   * trailing empty ones (a leading empty piece is kept).
   */
  function Split(s: string, sep: string): (r: seq<string>)
    requires sep != []
  {
    var pieces := SplitAll(s, sep);
    if |pieces| == 1 then pieces else DropTrailingEmpty(pieces)
  }

  /** A string without the separator splits into itself; with one, into the pieces up to the last non-empty one. */
  lemma SplitCases(s: string, sep: string)
    requires sep != []
    ensures !Occurs(s, sep) ==> Split(s, sep) == [s]
    ensures Occurs(s, sep) ==> Split(s, sep) == DropTrailingEmpty(SplitAll(s, sep))
    ensures |Split(s, sep)| <= |SplitAll(s, sep)|
  {
    SplitAllSingle(s, sep);
  }

  /** `p + sep + q`, where `p` lacks the separator's first char, splits at that separator first. */
  lemma {:induction false} SplitAllAt(p: string, sep: string, q: string)
    requires sep != [] && forall i :: 0 <= i < |p| ==> p[i] != sep[0]
    ensures SplitAll(p + sep + q, sep) == [p] + SplitAll(q, sep)
    decreases |p|
  {
    var s := p + sep + q;
    if p == [] {
      assert s == sep + q && s[..|sep|] == sep && s[|sep|..] == q;
    } else {
      assert s[0] == p[0] && s[..|sep|][0] == s[0];
      assert s[1..] == p[1..] + sep + q;
      SplitAllAt(p[1..], sep, q);
      assert [s[0]] + p[1..] == p;
    }
  }

  /** A string without the separator's first char is a single piece. */
  lemma {:induction false} SplitAllWithout(q: string, sep: string)
    requires sep != [] && forall i :: 0 <= i < |q| ==> q[i] != sep[0]
    ensures SplitAll(q, sep) == [q]
    decreases |q|
  {
    if |q| >= |sep| {
      assert q[..|sep|][0] == q[0];
      SplitAllWithout(q[1..], sep);
      assert [q[0]] + q[1..] == q;
    }
  }

  /** `(p + sep + q).split(sep)` is `[p, q]` when neither part holds the separator's first char and `q` is not empty. */
  lemma SplitPair(p: string, sep: string, q: string)
    requires sep != [] && q != []
    requires forall i :: 0 <= i < |p| ==> p[i] != sep[0]
    requires forall i :: 0 <= i < |q| ==> q[i] != sep[0]
    ensures Split(p + sep + q, sep) == [p, q]
  {
    SplitAllAt(p, sep, q);
    SplitAllWithout(q, sep);
    assert SplitAll(p + sep + q, sep) == [p, q];
  }

  /** No piece holds `c`. */
  predicate FreeOf(pieces: seq<string>, c: char) {
    forall k, i :: 0 <= k < |pieces| && 0 <= i < |pieces[k]| ==> pieces[k][i] != c
  }

  /** Splitting pieces joined with a one-char separator they do not hold gives them back. */
  lemma {:induction false} SplitAllJoin(pieces: seq<string>, c: char)
    requires |pieces| >= 1 && FreeOf(pieces, c)
    ensures SplitAll(Join(pieces, [c]), [c]) == pieces
  {
    if |pieces| == 1 {
      SplitAllWithout(pieces[0], [c]);
    } else {
      SplitAllJoin(pieces[1..], c);
      SplitAllAt(pieces[0], [c], Join(pieces[1..], [c]));
    }
  }

  /** `String.join(",", pieces).split(",")` gives the pieces back when the last one is not empty. */
  lemma SplitJoin(pieces: seq<string>, c: char)
    requires |pieces| >= 1 && FreeOf(pieces, c) && pieces[|pieces| - 1] != ""
    ensures Split(Join(pieces, [c]), [c]) == pieces
  {
    SplitAllJoin(pieces, c);
  }

  predicate IsDigit(c: char) {
    '0' <= c <= '9'
  }

  predicate AllDigits(ds: string) {
    forall i :: 0 <= i < |ds| ==> IsDigit(ds[i])
  }

  function DigitValue(c: char): nat
    requires IsDigit(c)
  {
    (c as int) - ('0' as int)
  }

  /** The value of a string of decimal digits, most significant first. */
  function DigitsValue(ds: string): nat
    requires AllDigits(ds)
  {
    if ds == [] then 0 else DigitsValue(ds[..|ds| - 1]) * 10 + DigitValue(ds[|ds| - 1])
  }

  /** Java's decimal rendering of a non-negative integer. */
  function NatToString(n: nat): (r: string)
    ensures |r| >= 1 && AllDigits(r)
  {
    var d := ['0' + ((n % 10) as char)];
    if n < 10 then d else NatToString(n / 10) + d
  }

  /** `Integer.toString(n)`: the digits, after a minus sign for a negative `n`. */
  function IntToString(n: Int32): (r: string)
    ensures |r| >= 1 && forall i :: 0 <= i < |r| ==> IsDigit(r[i]) || r[i] == '-'
  {
    if n >= 0 then NatToString(n) else "-" + NatToString(-(n as int))
  }

  /** The exception `Integer.parseInt` throws. */
  datatype NumberFormatException = NumberFormatException

  /**
   * `Integer.parseInt(s)`: an optional `+` or `-`, then at least one digit
   * and nothing else; the value must fit a 32-bit int.
   */
  function ParseInt(s: string): (r: Result<Int32, NumberFormatException>)
    ensures r.Success? ==> |s| >= 1 && (IsDigit(s[0]) || s[0] == '+' || s[0] == '-')
    ensures s == [] ==> r.Failure?
  {
    if s == [] then Failure(NumberFormatException)
    else
      var negative := s[0] == '-';
      var digits := if s[0] == '-' || s[0] == '+' then s[1..] else s;
      if digits == [] || !AllDigits(digits) then Failure(NumberFormatException)
      else
        var v: int := if negative then -(DigitsValue(digits) as int) else DigitsValue(digits);
        if MinInt32 <= v <= MaxInt32 then Success(v) else Failure(NumberFormatException)
  }

  lemma {:induction false} DigitsValueOfNatToString(n: nat)
    ensures DigitsValue(NatToString(n)) == n
  {
    var d := ['0' + ((n % 10) as char)];
    assert DigitValue(d[0]) == n % 10;
    if n >= 10 {
      DigitsValueOfNatToString(n / 10);
      var r := NatToString(n / 10) + d;
      assert r[..|r| - 1] == NatToString(n / 10);
    } else {
      assert d[..0] == [];
    }
  }

  /** `Integer.parseInt` reads back every int written in decimal, with a minus sign for negatives. */
  lemma ParseIntOfToString(n: Int32)
    ensures ParseInt(IntToString(n)) == Success(n)
  {
    if n >= 0 {
      DigitsValueOfNatToString(n);
      assert NatToString(n)[0] != '-' && NatToString(n)[0] != '+';
    } else {
      var m: nat := -(n as int);
      DigitsValueOfNatToString(m);
      assert ("-" + NatToString(m))[1..] == NatToString(m);
    }
  }

  /** Leading or trailing blanks are not accepted. */
  lemma ParseIntRejectsSpaces(s: string)
    ensures ParseInt(" " + s).Failure?
    ensures s != [] ==> ParseInt(s + " ").Failure?
  {
    assert !IsDigit(' ');
    assert (" " + s)[0] == ' ';
    if s != [] {
      var t := s + " ";
      var digits := if t[0] == '-' || t[0] == '+' then t[1..] else t;
      assert digits != [] && !IsDigit(digits[|digits| - 1]);
      assert !AllDigits(digits);
      assert ParseInt(t).Failure?;
    }
  }
}
