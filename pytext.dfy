/**
 * The handful of Python string operations the application relies on:
 * str() of an int, int() of a string, str.strip, str.split on one character,
 * ", ".join, and the substring test `sub in s`.
 */
module PyText {
  import opened Basics

  predicate IsDigit(c: char) {
    '0' <= c <= '9'
  }

  predicate AllDigits(s: string) {
    forall i | 0 <= i < |s| :: IsDigit(s[i])
  }

  /** The characters Python's argument-less str.strip() removes (the ASCII part of str.isspace). */
  const Whitespace: set<char> :=
    {' ', '\t', '\n', '\r', 11 as char, 12 as char, 28 as char, 29 as char, 30 as char, 31 as char}

  function DigitChar(d: nat): (c: char)
    requires d < 10
    ensures IsDigit(c) && c as int - '0' as int == d
  {
    (d + '0' as int) as char
  }

  /** str(n) for n >= 0: decimal digits, no leading zeros. */
  function NatToString(n: nat): (s: string)
    ensures |s| > 0 && AllDigits(s)
    ensures n < 10 <==> |s| == 1
    ensures s[0] == '0' <==> n == 0
  {
    if n < 10 then [DigitChar(n)] else NatToString(n / 10) + [DigitChar(n % 10)]
  }

  /** str(n) for any int: a minus sign for negatives, then the digits of |n|. */
  function IntToString(n: int): (s: string)
    ensures |s| > 0 && IsDigit(s[|s| - 1])
    ensures forall i | 0 <= i < |s| :: IsDigit(s[i]) || (i == 0 && s[i] == '-')
    ensures s[0] == '-' <==> n < 0
  {
    if n < 0 then "-" + NatToString(-n) else NatToString(n)
  }

  /** The value of a run of decimal digits, leading zeros allowed (as int() accepts them). */
  function DigitsValue(s: string): nat
    requires AllDigits(s)
  {
    if s == [] then 0 else DigitsValue(s[..|s| - 1]) * 10 + (s[|s| - 1] as int - '0' as int)
  }

  /** int(t) for a string without surrounding whitespace: an optional sign, then one or more ASCII digits. */
  function ParseInt(t: string): Option<int> {
    if |t| > 0 && (t[0] == '-' || t[0] == '+') then
      if |t| > 1 && AllDigits(t[1..]) then
        var v: int := DigitsValue(t[1..]);
        Some(if t[0] == '-' then -v else v)
      else None
    else if |t| > 0 && AllDigits(t) then Some(DigitsValue(t))
    else None
  }

  lemma {:induction false} NatToStringValue(n: nat)
    ensures DigitsValue(NatToString(n)) == n
  {
    if n >= 10 {
      var s := NatToString(n);
      assert s[..|s| - 1] == NatToString(n / 10);
      NatToStringValue(n / 10);
    }
  }

  /** int(s) on a str: surrounding whitespace is stripped first; None is the ValueError. */
  function IntOf(s: string): Option<int> {
    ParseInt(Strip(s, Whitespace))
  }

  /** int(str(n)) == n. */
  lemma IntToStringParses(n: int)
    ensures ParseInt(IntToString(n)) == Some(n)
  {
    var s := IntToString(n);
    if n < 0 {
      var digits := NatToString(-n);
      assert s[0] == '-' && s[1..] == digits;
      NatToStringValue(-n);
      assert AllDigits(s[1..]) && DigitsValue(s[1..]) == -n;
    } else {
      assert IsDigit(s[0]);
      NatToStringValue(n);
      assert ParseInt(s) == Some(DigitsValue(s));
    }
  }

  function StripLeft(s: string, cs: set<char>): (r: string)
    ensures |r| <= |s| && r == s[|s| - |r|..]
    ensures r == [] || r[0] !in cs
    ensures forall i | 0 <= i < |s| - |r| :: s[i] in cs
  {
    if |s| > 0 && s[0] in cs then StripLeft(s[1..], cs) else s
  }

  function StripRight(s: string, cs: set<char>): (r: string)
    ensures |r| <= |s| && r == s[..|r|]
    ensures r == [] || r[|r| - 1] !in cs
    ensures forall i | |r| <= i < |s| :: s[i] in cs
  {
    if |s| > 0 && s[|s| - 1] in cs then StripRight(s[..|s| - 1], cs) else s
  }

  /** s.strip(chars): drop every leading and trailing character that is in cs. */
  function Strip(s: string, cs: set<char>): (r: string)
    ensures r == [] || (r[0] !in cs && r[|r| - 1] !in cs)
    ensures (s == [] || (s[0] !in cs && s[|s| - 1] !in cs)) ==> r == s
  {
    StripRight(StripLeft(s, cs), cs)
  }

  /** sep.join(parts) for a one-character separator: the reference Split is proved against. */
  function JoinOn(parts: seq<string>, sep: char): string {
    if |parts| == 0 then ""
    else if |parts| == 1 then parts[0]
    else parts[0] + [sep] + JoinOn(parts[1..], sep)
  }

  /** s.split(sep): always at least one part; no part contains sep; joining the parts gives s back. */
  function Split(s: string, sep: char): (parts: seq<string>)
    ensures |parts| > 0
    ensures forall i | 0 <= i < |parts| :: sep !in parts[i]
    ensures JoinOn(parts, sep) == s
  {
    if s == [] then [[]]
    else
      var rest := Split(s[1..], sep);
      if s[0] == sep then
        assert JoinOn([[]] + rest, sep) == [sep] + JoinOn(rest, sep) by {
          assert ([[]] + rest)[1..] == rest;
        }
        [[]] + rest
      else
        var parts := [[s[0]] + rest[0]] + rest[1..];
        assert JoinOn(parts, sep) == [s[0]] + JoinOn(rest, sep) by {
          if |rest| > 1 {
            assert parts[1..] == rest[1..];
          }
        }
        parts
  }

  /** ", ".join(parts). */
  function CommaJoin(parts: seq<string>): string {
    if |parts| == 0 then ""
    else if |parts| == 1 then parts[0]
    else parts[0] + ", " + CommaJoin(parts[1..])
  }

  /** [x.strip() for x in parts]. */
  function StripEach(parts: seq<string>): (r: seq<string>)
    ensures |r| == |parts|
    ensures forall i | 0 <= i < |r| :: r[i] == Strip(parts[i], Whitespace)
  {
    if parts == [] then [] else [Strip(parts[0], Whitespace)] + StripEach(parts[1..])
  }

  /** The stripped pieces of s.split(','), which both the score-history and the concerns parsers filter. */
  function Pieces(s: string): seq<string> {
    StripEach(Split(s, ','))
  }

  /** The `if x.strip()` filter of both parsers: the non-empty pieces, in order. */
  function NonEmpty(pieces: seq<string>): (r: seq<string>)
    ensures |r| <= |pieces|
    ensures forall i | 0 <= i < |r| :: r[i] != "" && r[i] in pieces
    ensures forall x | x in pieces && x != "" :: x in r
    ensures (forall i | 0 <= i < |pieces| :: pieces[i] != "") ==> r == pieces
  {
    if pieces == [] then []
    else
      var rest := NonEmpty(pieces[1..]);
      assert [pieces[0]] + pieces[1..] == pieces;
      if pieces[0] == "" then rest
      else [pieces[0]] + rest
  }

  /** The filter keeps order: filtering a concatenation concatenates the filtered parts. */
  lemma {:induction false} NonEmptyAppend(a: seq<string>, b: seq<string>)
    ensures NonEmpty(a + b) == NonEmpty(a) + NonEmpty(b)
  {
    if a == [] {
      assert a + b == b;
    } else {
      assert (a + b)[0] == a[0] && (a + b)[1..] == a[1..] + b;
      NonEmptyAppend(a[1..], b);
    }
  }

  /** sub occurs in s starting at index i. */
  predicate OccursAt(s: string, sub: string, i: int) {
    0 <= i && i + |sub| <= |s| && s[i..i + |sub|] == sub
  }

  /** Python's `sub in s` for two strings. */
  predicate Contains(s: string, sub: string) {
    exists i | 0 <= i <= |s| - |sub| :: OccursAt(s, sub, i)
  }

  /** repr() of a string that holds no quote, backslash or control character. */
  function Quote(s: string): string {
    "'" + s + "'"
  }

  lemma {:induction false} SplitWithoutSeparator(s: string, sep: char)
    requires sep !in s
    ensures Split(s, sep) == [s]
  {
    if s != [] {
      SplitWithoutSeparator(s[1..], sep);
    }
  }

  lemma {:induction false} SplitAtSeparator(a: string, b: string, sep: char)
    requires sep !in a
    ensures Split(a + [sep] + b, sep) == [a] + Split(b, sep)
  {
    if a == [] {
      assert (a + [sep] + b)[1..] == b;
    } else {
      assert (a + [sep] + b)[1..] == a[1..] + [sep] + b;
      SplitAtSeparator(a[1..], b, sep);
      SplitAfterOrdinary(a[0], a[1..] + [sep] + b, sep);
      assert [a[0]] + a[1..] == a;
      assert [a[0]] + (a[1..] + [sep] + b) == a + [sep] + b;
    }
  }

  lemma SplitAfterOrdinary(c: char, s: string, sep: char)
    requires c != sep
    ensures Split([c] + s, sep) == [[c] + Split(s, sep)[0]] + Split(s, sep)[1..]
  {
    assert ([c] + s)[1..] == s;
  }

  lemma StripEachCons(x: string, xs: seq<string>)
    ensures StripEach([x] + xs) == [Strip(x, Whitespace)] + StripEach(xs)
  {
    assert ([x] + xs)[1..] == xs;
  }

  lemma StripLeadingSpace(s: string)
    ensures Strip(" " + s, Whitespace) == Strip(s, Whitespace)
  {
    assert (" " + s)[1..] == s;
  }

  /** Splitting ", ".join(parts) on ',' and stripping gives back the stripped parts. */
  lemma {:induction false} PiecesOfCommaJoin(parts: seq<string>)
    requires |parts| > 0
    requires forall i | 0 <= i < |parts| :: ',' !in parts[i]
    ensures Pieces(CommaJoin(parts)) == StripEach(parts)
  {
    if |parts| == 1 {
      SplitWithoutSeparator(parts[0], ',');
    } else {
      var tail := CommaJoin(parts[1..]);
      var t := Split(tail, ',');
      assert CommaJoin(parts) == parts[0] + [','] + (" " + tail);
      SplitAtSeparator(parts[0], " " + tail, ',');
      SplitAfterOrdinary(' ', tail, ',');
      var u := [" " + t[0]] + t[1..];
      assert Split(CommaJoin(parts), ',') == [parts[0]] + u;
      StripEachCons(parts[0], u);
      StripEachCons(" " + t[0], t[1..]);
      StripLeadingSpace(t[0]);
      StripEachCons(t[0], t[1..]);
      assert [t[0]] + t[1..] == t;
      PiecesOfCommaJoin(parts[1..]);
      StripEachCons(parts[0], parts[1..]);
      assert [parts[0]] + parts[1..] == parts;
    }
  }

  /** A number written with str() reads back with int(), whitespace stripping included. */
  lemma IntOfIntToString(n: int)
    ensures IntOf(IntToString(n)) == Some(n)
  {
    var s := IntToString(n);
    assert s[0] !in Whitespace && s[|s| - 1] !in Whitespace;
    assert Strip(s, Whitespace) == s;
    IntToStringParses(n);
  }
}
