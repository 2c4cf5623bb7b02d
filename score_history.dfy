/**
 * The skin-score history: the text the application stores in the Score_History
 * column (Python's str() of a list of ints), the parser that reads it back
 * (app.py parse_score_history), and the two ways the session extends the list.
 */
module ScoreHistory {
  import opened Basics
  import opened PyText

  /** The length of history the onboarding keeps. */
  const HistoryCap: nat := 30

  const Brackets: set<char> := {'[', ']'}

  /** The string forms of the elements of xs. */
  function IntStrings(xs: seq<int>): (ss: seq<string>)
    ensures |ss| == |xs|
    ensures forall i | 0 <= i < |xs| :: ss[i] == IntToString(xs[i])
  {
    if xs == [] then [] else [IntToString(xs[0])] + IntStrings(xs[1..])
  }

  /** str(xs) for a list of ints: "[a, b, c]", and "[]" for the empty list. */
  function FormatInts(xs: seq<int>): string {
    "[" + CommaJoin(IntStrings(xs)) + "]"
  }

  /**
   * [int(x) for x in pieces if x], where the pieces are already stripped:
   * empty pieces are skipped and one piece that is not an integer makes the
   * whole comprehension raise (None).
   */
  function ParseInts(pieces: seq<string>): (r: Option<seq<int>>)
    ensures r.None? <==> exists k | 0 <= k < |pieces| :: pieces[k] != "" && ParseInt(pieces[k]).None?
    ensures r.Some? ==> |r.value| == |NonEmpty(pieces)|
    ensures r.Some? ==> forall i | 0 <= i < |r.value| :: ParseInt(NonEmpty(pieces)[i]) == Some(r.value[i])
  {
    if pieces == [] then Some([])
    else
      var rest := ParseInts(pieces[1..]);
      assert forall k | 1 <= k < |pieces| :: pieces[1..][k - 1] == pieces[k];
      if pieces[0] == "" then
        assert NonEmpty(pieces) == NonEmpty(pieces[1..]);
        rest
      else match ParseInt(pieces[0])
        case None => None
        case Some(v) =>
          if rest.None? then None
          else
            assert NonEmpty(pieces) == [pieces[0]] + NonEmpty(pieces[1..]);
            Some([v] + rest.value)
  }

  /** The thirty random.randint(60, 90) values the parser falls back to. */
  predicate IsDummyHistory(dummy: seq<int>) {
    |dummy| == HistoryCap && forall i | 0 <= i < |dummy| :: 60 <= dummy[i] <= 90
  }

  /**
   * parse_score_history: an empty cell, or text one of whose comma-separated
   * pieces is not an integer, yields the dummy history; otherwise the integers.
   */
  function ParseScoreHistory(s: string, dummy: seq<int>): (r: seq<int>)
    requires IsDummyHistory(dummy)
    ensures s == "" ==> r == dummy
    ensures s != "" && ParseInts(Pieces(Strip(s, Brackets))).None? ==> r == dummy
  {
    if s == "" then dummy
    else match ParseInts(Pieces(Strip(s, Brackets)))
      case None => dummy
      case Some(v) => v
  }

  lemma ParseIntStrings(xs: seq<int>)
    ensures ParseInts(IntStrings(xs)) == Some(xs)
  {
    var ss := IntStrings(xs);
    forall i | 0 <= i < |ss| ensures ss[i] != "" && ParseInt(ss[i]) == Some(xs[i]) {
      IntToStringParses(xs[i]);
    }
    assert NonEmpty(ss) == ss;
    var r := ParseInts(ss);
    assert r.Some?;
    assert r.value == xs;
  }

  lemma {:induction false} StripEachIntStrings(xs: seq<int>)
    ensures StripEach(IntStrings(xs)) == IntStrings(xs)
  {
    var ss := IntStrings(xs);
    forall i | 0 <= i < |ss| ensures Strip(ss[i], Whitespace) == ss[i] {
      IntToStringEnds(xs[i]);
    }
  }

  /** str(n) starts with a digit or '-' and ends with a digit: no whitespace, bracket or comma there or inside. */
  lemma IntToStringEnds(n: int)
    ensures var s := IntToString(n);
      && s[0] !in Whitespace && s[|s| - 1] !in Whitespace
      && s[0] !in Brackets && s[|s| - 1] !in Brackets
      && ',' !in s
  {
    var s := IntToString(n);
    assert IsDigit(s[0]) || s[0] == '-';
  }

  /** The first and last characters of a non-empty list body are digits or '-'; they are never brackets. */
  lemma {:induction false} CommaJoinEnds(ss: seq<string>)
    requires |ss| > 0
    requires forall i | 0 <= i < |ss| :: |ss[i]| > 0 && ss[i][0] !in Brackets && ss[i][|ss[i]| - 1] !in Brackets
    ensures var j := CommaJoin(ss); |j| > 0 && j[0] == ss[0][0] && j[|j| - 1] !in Brackets
  {
    if |ss| > 1 {
      CommaJoinEnds(ss[1..]);
    }
  }

  /** Stripping the brackets off str(xs) leaves the comma-joined elements. */
  lemma StripFormatBrackets(xs: seq<int>)
    ensures Strip(FormatInts(xs), Brackets) == CommaJoin(IntStrings(xs))
  {
    if xs == [] {
      assert FormatInts(xs) == "[]";
      StripEmptyList();
    } else {
      IntStringsEnds(xs);
      CommaJoinEnds(IntStrings(xs));
      StripBracketed(CommaJoin(IntStrings(xs)));
    }
  }

  /** "[]".strip("[]") is empty. */
  lemma StripEmptyList()
    ensures Strip("[]", Brackets) == ""
  {
    var open := "[]";
    var close := "]";
    assert open[0] in Brackets && open[1..] == close;
    assert close[0] in Brackets && close[1..] == "";
    assert StripLeft(close, Brackets) == "";
    assert StripLeft(open, Brackets) == "";
  }

  /** Stripping the brackets off "[" + body + "]" gives body back when body neither starts nor ends with one. */
  lemma StripBracketed(body: string)
    requires |body| > 0 && body[0] !in Brackets && body[|body| - 1] !in Brackets
    ensures Strip("[" + body + "]", Brackets) == body
  {
    var text := "[" + body + "]";
    var tail := body + "]";
    assert StripLeft(text, Brackets) == tail by {
      assert text[0] == '[' && text[1..] == tail;
      assert StripLeft(tail, Brackets) == tail;
    }
    assert StripRight(tail, Brackets) == body by {
      assert tail[|tail| - 1] == ']' && tail[..|tail| - 1] == body;
      assert StripRight(body, Brackets) == body;
    }
  }

  /** No element's string form is empty or starts or ends with a bracket. */
  lemma IntStringsEnds(xs: seq<int>)
    ensures var ss := IntStrings(xs);
      forall i | 0 <= i < |ss| :: |ss[i]| > 0 && ss[i][0] !in Brackets && ss[i][|ss[i]| - 1] !in Brackets
  {
    var ss := IntStrings(xs);
    forall i | 0 <= i < |ss|
      ensures |ss[i]| > 0 && ss[i][0] !in Brackets && ss[i][|ss[i]| - 1] !in Brackets
    {
      IntToStringEnds(xs[i]);
    }
  }

  /** The pieces of the comma-joined elements are the elements' string forms. */
  lemma PiecesOfIntStrings(xs: seq<int>)
    requires xs != []
    ensures Pieces(CommaJoin(IntStrings(xs))) == IntStrings(xs)
  {
    var ss := IntStrings(xs);
    forall i | 0 <= i < |ss| ensures ',' !in ss[i] {
      IntToStringEnds(xs[i]);
    }
    PiecesOfCommaJoin(ss);
    StripEachIntStrings(xs);
  }

  /** parse_score_history inverts str() on every list of ints, the empty list included. */
  lemma ParseFormatRoundTrip(xs: seq<int>, dummy: seq<int>)
    requires IsDummyHistory(dummy)
    ensures ParseScoreHistory(FormatInts(xs), dummy) == xs
  {
    StripFormatBrackets(xs);
    if xs == [] {
      assert Split("", ',') == [""];
      assert Pieces("") == [""];
    } else {
      PiecesOfIntStrings(xs);
      ParseIntStrings(xs);
    }
  }

  /** The text the signup writes, f'[{S}]', is str([S]) and reads back as [S]. */
  lemma SignupSeedParses(seed: int, dummy: seq<int>)
    requires IsDummyHistory(dummy)
    ensures FormatInts([seed]) == "[" + IntToString(seed) + "]"
    ensures ParseScoreHistory("[" + IntToString(seed) + "]", dummy) == [seed]
  {
    ParseFormatRoundTrip([seed], dummy);
  }

  /** history.append(score) and then history[-30:]. */
  function AppendAndTrim(history: seq<int>, score: int): (r: seq<int>)
    ensures |r| == if |history| < HistoryCap then |history| + 1 else HistoryCap
    ensures r[|r| - 1] == score
    ensures r[..|r| - 1] == history[|history| + 1 - |r|..]
  {
    var appended := history + [score];
    if |appended| <= HistoryCap then appended else appended[|appended| - HistoryCap..]
  }

  /** history[-1] = score on a non-empty history, and [score] for an empty one. */
  function OverwriteLast(history: seq<int>, score: int): (r: seq<int>)
    ensures |r| == if history == [] then 1 else |history|
    ensures r[|r| - 1] == score
    ensures r[..|r| - 1] == if history == [] then [] else history[..|history| - 1]
  {
    if history == [] then [score] else history[|history| - 1 := score]
  }
}
