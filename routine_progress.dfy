/**
 * The routine and the per-day completion log of the routine tracker
 * (my_routine_page and the analyzer's "apply suggested routine change"),
 * and the str() forms of both dicts that are written to the sheet.
 */
module RoutineProgress {
  import opened Basics
  import opened PyText
  import Scoring

  /** The routine: period label ("Morning", "Evening") to its ordered steps. */
  type Routine = Dict<seq<string>>

  /** daily_progress: day key to one completion flag per routine step. */
  type Progress = Dict<seq<bool>>

  const Morning: string := "Morning"
  const Evening: string := "Evening"

  /** The routine the onboarding installs. */
  const DefaultRoutine: Routine := [
    Entry(Morning, ["Cleanser (Gentle)", "Vitamin C Serum", "Hydrating SPF 50+"]),
    Entry(Evening, ["Oil Cleanser", "Water-Based Cleanser", "Targeted Treatment (e.g., Retinol/AHA)", "Moisturizer (Repair)"])]

  const BhaTreatment: string := "BHA/Salicylic Acid Treatment"

  /** The Evening list the analyzer installs when the routine has none. */
  const BhaEvening: seq<string> := ["Oil Cleanser", "Water-Based Cleanser", BhaTreatment, "Moisturizer (Repair)"]

  /** routine.get(name, []). */
  function StepsOf(routine: Routine, name: string): seq<string> {
    match Get(routine, name)
    case None => []
    case Some(steps) => steps
  }

  /** sum(len(steps) for steps in routine.values()). */
  function TotalSteps(routine: Routine): nat {
    if routine == [] then 0 else TotalSteps(routine[..|routine| - 1]) + |routine[|routine| - 1].value|
  }

  lemma {:induction false} TotalStepsAppend(routine: Routine, e: Entry<seq<string>>)
    ensures TotalSteps(routine + [e]) == TotalSteps(routine) + |e.value|
  {
    assert (routine + [e])[..|routine|] == routine;
  }

  /** Replacing one period's steps changes the total by the difference in length only. */
  lemma {:induction false} TotalStepsReplace(routine: Routine, k: nat, e: Entry<seq<string>>)
    requires k < |routine|
    ensures TotalSteps(routine[k := e]) == TotalSteps(routine) - |routine[k].value| + |e.value|
  {
    var n := |routine|;
    var r' := routine[k := e];
    if k == n - 1 {
      assert r'[..n - 1] == routine[..n - 1];
    } else {
      TotalStepsReplace(routine[..n - 1], k, e);
      assert r'[..n - 1] == routine[..n - 1][k := e];
    }
  }

  /** For a routine holding only Morning and Evening, the total is the two lists' lengths. */
  lemma {:induction false} TotalStepsOfTwoPeriods(routine: Routine)
    requires DistinctKeys(routine)
    requires forall i | 0 <= i < |routine| :: routine[i].key in {Morning, Evening}
    ensures TotalSteps(routine) == |StepsOf(routine, Morning)| + |StepsOf(routine, Evening)|
  {
    if routine != [] {
      var n := |routine|;
      var init := routine[..n - 1];
      var last := routine[n - 1];
      assert forall i | 0 <= i < |init| :: init[i] == routine[i];
      TotalStepsOfTwoPeriods(init);
      assert routine == init + [last];
      TotalStepsAppend(init, last);
      assert Find(init, last.key).None?;
      StepsOfAppended(init, last, Morning);
      StepsOfAppended(init, last, Evening);
    }
  }

  /** Appending a period the routine lacks adds its steps under its name and changes no other name. */
  lemma StepsOfAppended(routine: Routine, e: Entry<seq<string>>, name: string)
    requires Find(routine, e.key).None?
    ensures StepsOf(routine + [e], name) == if name == e.key then e.value else StepsOf(routine, name)
  {
    assert e == Entry(e.key, e.value);
    if name == e.key {
      FindAppended(routine, e.key, e.value);
    } else {
      FindPastAppended(routine, e.key, e.value, name);
    }
  }

  /** [False] * n: the record of a day on which nothing is done yet. */
  function AllFalse(n: nat): (day: seq<bool>)
    ensures |day| == n && Scoring.CountTrue(day) == 0
  {
    seq(n, _ => false)
  }

  /**
   * The lazy day creation at the top of my_routine_page: when today's key is
   * absent it is added with one False per routine step; otherwise, and for
   * every other day, the log is left as it was.
   */
  function OpenDay(progress: Progress, today: string, routine: Routine): (r: Progress)
    ensures Find(progress, today).Some? ==> r == progress
    ensures Find(progress, today).None? ==> Get(r, today) == Some(AllFalse(TotalSteps(routine)))
    ensures forall k :: k != today ==> Get(r, k) == Get(progress, k)
    ensures progress <= r && |r| <= |progress| + 1
    ensures DistinctKeys(progress) ==> DistinctKeys(r)
  {
    if Find(progress, today).Some? then progress else Put(progress, today, AllFalse(TotalSteps(routine)))
  }

  /**
   * What the checkbox loops leave in today's list: slot i (the running
   * step_index, Morning steps first, then Evening) holds the i-th checkbox
   * value, as far as the list reaches; slots past the checkboxes keep their value.
   */
  function Rendered(done: seq<bool>, boxes: seq<bool>): (r: seq<bool>)
    ensures |r| == |done|
    ensures forall i | 0 <= i < |r| :: r[i] == if i < |boxes| then boxes[i] else done[i]
  {
    if |boxes| <= |done| then boxes + done[|boxes|..] else boxes[..|done|]
  }

  /** The analyzer's "apply" raises IndexError when the Evening list has fewer than three steps. */
  datatype EditError = EveningTooShort

  /**
   * "Apply Suggested Routine Change": only a suggestion that mentions
   * Salicylic Acid edits the routine; it replaces Evening step 3 (index 2),
   * or adds a four-step Evening list when the routine has none.
   */
  function ApplySuggestion(routine: Routine, mentionsSalicylic: bool): (r: Result<Routine, EditError>)
    ensures r.Err? <==> mentionsSalicylic && Get(routine, Evening).Some? && |StepsOf(routine, Evening)| < 3
    ensures r.Ok? && !mentionsSalicylic ==> r.value == routine
    ensures r.Ok? && mentionsSalicylic ==>
      && |StepsOf(r.value, Evening)| >= 3
      && StepsOf(r.value, Evening)[2] == BhaTreatment
      && (forall k :: k != Evening ==> Get(r.value, k) == Get(routine, k))
      && (Get(routine, Evening).Some? ==>
            StepsOf(r.value, Evening) == StepsOf(routine, Evening)[2 := BhaTreatment])
      && (Get(routine, Evening).None? ==> StepsOf(r.value, Evening) == BhaEvening)
    ensures DistinctKeys(routine) && r.Ok? ==> DistinctKeys(r.value)
  {
    if !mentionsSalicylic then Ok(routine)
    else match Get(routine, Evening)
      case Some(steps) =>
        if |steps| > 2 then Ok(Put(routine, Evening, steps[2 := BhaTreatment])) else Err(EveningTooShort)
      case None => Ok(Put(routine, Evening, BhaEvening))
  }

  /** The edit keeps the step count when it replaces a step, and adds four when it installs an Evening list. */
  lemma ApplySuggestionTotal(routine: Routine, mentionsSalicylic: bool)
    requires ApplySuggestion(routine, mentionsSalicylic).Ok?
    ensures var total := TotalSteps(ApplySuggestion(routine, mentionsSalicylic).value);
      total == if mentionsSalicylic && Get(routine, Evening).None? then TotalSteps(routine) + 4
               else TotalSteps(routine)
  {
    if mentionsSalicylic {
      match Find(routine, Evening)
      case Some(k) =>
        TotalStepsReplace(routine, k, Entry(Evening, routine[k].value[2 := BhaTreatment]));
      case None =>
        TotalStepsAppend(routine, Entry(Evening, BhaEvening));
    }
  }

  // ---------------------------------------------------------- str() of the dicts

  function BoolToString(b: bool): string {
    if b then "True" else "False"
  }

  /** str() of a list of bools: "[True, False]". */
  function FormatBools(bs: seq<bool>): string {
    "[" + CommaJoin(BoolStrings(bs)) + "]"
  }

  function BoolStrings(bs: seq<bool>): seq<string> {
    if bs == [] then [] else [BoolToString(bs[0])] + BoolStrings(bs[1..])
  }

  /** str() of a list of strings: "['a', 'b']". */
  function FormatStrings(ss: seq<string>): string {
    "[" + CommaJoin(QuoteEach(ss)) + "]"
  }

  function QuoteEach(ss: seq<string>): seq<string> {
    if ss == [] then [] else [Quote(ss[0])] + QuoteEach(ss[1..])
  }

  /** str() of the routine dict: "{'Morning': [...], 'Evening': [...]}". */
  function FormatRoutine(routine: Routine): string {
    "{" + CommaJoin(RoutineItems(routine)) + "}"
  }

  function RoutineItems(routine: Routine): seq<string> {
    if routine == [] then []
    else [Quote(routine[0].key) + ": " + FormatStrings(routine[0].value)] + RoutineItems(routine[1..])
  }

  /** str() of daily_progress: "{'2025-10-01': [True, False], ...}". */
  function FormatProgress(progress: Progress): string {
    "{" + CommaJoin(ProgressItems(progress)) + "}"
  }

  function ProgressItems(progress: Progress): seq<string> {
    if progress == [] then []
    else [Quote(progress[0].key) + ": " + FormatBools(progress[0].value)] + ProgressItems(progress[1..])
  }

  /** str() of the onboarding routine, as the onboarding form stores it. */
  const DefaultRoutineText: string := FormatRoutine(DefaultRoutine)
}
