/**
 * The scoring and streak rules of the application: the initial score computed
 * at onboarding, the streak rule applied at login, the score change applied on
 * every routine checkbox toggle, and the perfect-quiz bonus.
 */
module Scoring {
  import opened Basics
  import opened PyText

  /** max(lo, min(hi, x)). */
  function Clamp(lo: int, hi: int, x: int): (r: int)
    requires lo <= hi
    ensures lo <= r <= hi
    ensures lo <= x <= hi ==> r == x
    ensures x < lo ==> r == lo
    ensures x > hi ==> r == hi
  {
    if x < lo then lo else if x > hi then hi else x
  }

  // ---------------------------------------------------------------- onboarding

  /** The answers of the onboarding form. */
  datatype Intake = Intake(
    age: int,
    gender: string,
    location: string,
    skinType: string,
    concerns: seq<string>,
    allergy: string,
    sensitivity: string,
    usedActives: bool,
    goal: string,
    budget: string)

  /** The concern tags the onboarding multiselect offers. */
  const ConcernOptions: seq<string> := [
    "Acne & Breakouts", "Dryness & Dehydration", "Redness & Sensitivity",
    "Dark Spots/Pigmentation", "Fine Lines & Wrinkles", "Loss of Firmness", "Oil Control"]

  predicate AcnePenalty(i: Intake) {
    "Acne & Breakouts" in i.concerns || i.skinType in ["Combination (Oily T-Zone)", "Oily"]
  }

  predicate SensitivityPenalty(i: Intake) {
    "Redness & Sensitivity" in i.concerns || i.sensitivity in ["Moderate", "High"]
  }

  predicate AgingPenalty(i: Intake) {
    i.age >= 40 && "Fine Lines & Wrinkles" in i.concerns
  }

  /** The baseline of 80 with the three penalties and the experience bonus, before the jitter. */
  function BaseScore(i: Intake): (b: int)
    ensures 62 <= b <= 82
    ensures b <= 80 <==> !i.usedActives || AcnePenalty(i) || SensitivityPenalty(i) || AgingPenalty(i)
    ensures AcnePenalty(i) ==> b <= 77
  {
    var b0 := 80;
    var b1 := if AcnePenalty(i) then b0 - 5 else b0;
    var b2 := if SensitivityPenalty(i) then b1 - 7 else b1;
    var b3 := if AgingPenalty(i) then b2 - 6 else b2;
    if i.usedActives then b3 + 2 else b3
  }

  /**
   * max(55, min(90, base + random.randint(-4, 4))), the jitter taken as a
   * parameter: the score lies in [55, 90], and in fact the clamp never binds.
   */
  function InitialScore(i: Intake, jitter: int): (r: int)
    requires -4 <= jitter <= 4
    ensures 55 <= r <= 90
    ensures r == BaseScore(i) + jitter
    ensures 58 <= r <= 86
  {
    Clamp(55, 90, BaseScore(i) + jitter)
  }

  /** Why the onboarding form was refused. */
  datatype IntakeError = MissingConcernsOrGoal

  /** The submit handler: no concerns or no goal is an error, otherwise the initial score. */
  function Onboard(i: Intake, jitter: int): (r: Result<int, IntakeError>)
    requires -4 <= jitter <= 4
    ensures r.Err? <==> i.concerns == [] || i.goal == ""
    ensures r.Ok? ==> 58 <= r.value <= 86 && r.value - jitter == BaseScore(i)
  {
    if i.concerns == [] || i.goal == "" then Err(MissingConcernsOrGoal)
    else Ok(InitialScore(i, jitter))
  }

  /** An acne concern caps the initial score at 81, and 81 is reached (not 80). */
  lemma AcneScoreAtMost81(i: Intake, jitter: int)
    requires -4 <= jitter <= 4
    requires "Acne & Breakouts" in i.concerns
    ensures InitialScore(i, jitter) <= 81
    ensures i.usedActives && !SensitivityPenalty(i) && !AgingPenalty(i) && jitter == 4 ==>
      InitialScore(i, jitter) == 81
  {
  }

  // -------------------------------------------------------------------- streak

  /**
   * The login rule of initialize_user_session: without a stored last login the
   * streak is kept; a login on the same day keeps it, the day after adds one,
   * and any other day (older, or in the future) restarts it at 1.
   * Days are day numbers; compliance plays no part.
   */
  function StreakAfterLogin(streak: int, lastLogin: Option<int>, today: int): (r: int)
    ensures lastLogin.None? ==> r == streak
    ensures lastLogin == Some(today) ==> r == streak
    ensures lastLogin == Some(today - 1) ==> r == streak + 1
    ensures lastLogin.Some? && lastLogin.value != today && lastLogin.value != today - 1 ==> r == 1
  {
    match lastLogin
    case None => streak
    case Some(last) =>
      if last == today then streak
      else if last == today - 1 then streak + 1
      else 1
  }

  /** The streak after logging in on each of the days in turn; each login records its day as the last login. */
  function StreakOverLogins(streak: int, lastLogin: Option<int>, days: seq<int>): int
    decreases |days|
  {
    if days == [] then streak
    else StreakOverLogins(StreakAfterLogin(streak, lastLogin, days[0]), Some(days[0]), days[1..])
  }

  /** The k days following day d. */
  function DaysAfter(d: int, k: nat): (days: seq<int>)
    ensures |days| == k
    ensures forall j | 0 <= j < k :: days[j] == d + 1 + j
    decreases k
  {
    if k == 0 then [] else [d + 1] + DaysAfter(d + 1, k - 1)
  }

  /** Logging in on k consecutive days after the last login grows the streak by exactly k. */
  lemma {:induction false} ConsecutiveLoginsGrowStreak(streak: int, d: int, k: nat)
    ensures StreakOverLogins(streak, Some(d), DaysAfter(d, k)) == streak + k
    decreases k
  {
    if k > 0 {
      var days := DaysAfter(d, k);
      assert days[1..] == DaysAfter(d + 1, k - 1);
      ConsecutiveLoginsGrowStreak(streak + 1, d + 1, k - 1);
    }
  }

  /** Any number of logins on the day of the last login leave the streak as it was. */
  lemma {:induction false} SameDayLoginsKeepStreak(streak: int, d: int, days: seq<int>)
    requires forall j | 0 <= j < |days| :: days[j] == d
    ensures StreakOverLogins(streak, Some(d), days) == streak
  {
    if days != [] {
      SameDayLoginsKeepStreak(streak, d, days[1..]);
    }
  }

  /** A missed day resets the streak to 1, whatever it was. */
  lemma MissedDayResets(streak: int, d: int, gap: int)
    requires gap >= 2
    ensures StreakAfterLogin(streak, Some(d), d + gap) == 1
  {
  }

  // ------------------------------------------------------------ toggle scoring

  /** list.count(True). */
  function CountTrue(s: seq<bool>): (n: nat)
    ensures n <= |s|
    ensures n == |s| <==> forall i | 0 <= i < |s| :: s[i]
    ensures n == 0 <==> forall i | 0 <= i < |s| :: !s[i]
  {
    if s == [] then 0 else (if s[0] then 1 else 0) + CountTrue(s[1..])
  }

  /** completed_steps / total_steps, or 0 when there are no steps (exact division; see README). */
  function Compliance(day: seq<bool>): (c: real)
    ensures 0.0 <= c <= 1.0
  {
    if |day| > 0 then
      UnitRatio(CountTrue(day) as real, |day| as real);
      CountTrue(day) as real / |day| as real
    else 0.0
  }

  /** A part over a positive whole is a ratio in [0, 1]. */
  lemma UnitRatio(c: real, t: real)
    requires t > 0.0 && 0.0 <= c <= t
    ensures 0.0 <= c / t <= 1.0
  {
    RatioAtLeast(c, t, 0.0);
    var q := c / t;
    assert q * t == c;
    assert q > 1.0 ==> (q - 1.0) * t > 0.0;
  }

  /** For a positive t, c / t reaches k exactly when c reaches k * t. */
  lemma RatioAtLeast(c: real, t: real, k: real)
    requires t > 0.0
    ensures c / t >= k <==> c >= k * t
  {
    var q := c / t;
    assert q * t == c;
    if q >= k {
      assert (q - k) * t >= 0.0;
    } else {
      assert (k - q) * t > 0.0;
    }
  }

  /** The thresholds of n / m, restated on the integers. */
  lemma CountRatio(n: nat, m: nat)
    requires 0 < m && n <= m
    ensures n as real / m as real == 1.0 <==> n == m
    ensures n as real / m as real >= 0.75 <==> 4 * n >= 3 * m
    ensures n as real / m as real < 0.5 <==> 2 * n < m
  {
    var c := n as real;
    var t := m as real;
    RatioAtLeast(c, t, 1.0);
    RatioAtLeast(c, t, 0.75);
    RatioAtLeast(c, t, 0.5);
    UnitRatio(c, t);
  }

  /** The thresholds of the compliance ratio, restated on the counts. */
  lemma ComplianceThresholds(day: seq<bool>)
    ensures Compliance(day) == 1.0 <==> |day| > 0 && CountTrue(day) == |day|
    ensures Compliance(day) >= 0.75 <==> |day| > 0 && 4 * CountTrue(day) >= 3 * |day|
    ensures Compliance(day) < 0.5 <==> |day| == 0 || 2 * CountTrue(day) < |day|
  {
    if |day| > 0 {
      CountRatio(CountTrue(day), |day|);
    }
  }

  /**
   * The score change of update_progress, checked in the source's order:
   * compliance 1.0 gives +3, at least 0.75 gives +1, below 0.5 with some step
   * done gives 0, nothing done gives -2 (the empty list included), else 0.
   */
  function ScoreChange(day: seq<bool>): (d: int)
    ensures d == 3 <==> |day| > 0 && CountTrue(day) == |day|
    ensures d == 1 <==> CountTrue(day) < |day| && 4 * CountTrue(day) >= 3 * |day|
    ensures d == -2 <==> CountTrue(day) == 0
    ensures d == 0 <==> 0 < CountTrue(day) && 4 * CountTrue(day) < 3 * |day|
  {
    var completed := CountTrue(day);
    var compliance := Compliance(day);
    ComplianceThresholds(day);
    if compliance == 1.0 then 3
    else if compliance >= 0.75 then 1
    else if compliance < 0.5 && completed > 0 then 0
    else if completed == 0 then -2
    else 0
  }

  /** The new score after a toggle: the change, clamped into [50, 99]. */
  function ToggleScore(score: int, day: seq<bool>): (r: int)
    ensures 50 <= r <= 99
    ensures 50 <= score + ScoreChange(day) <= 99 ==> r == score + ScoreChange(day)
  {
    Clamp(50, 99, score + ScoreChange(day))
  }

  /**
   * The score after a run of checkbox clicks on today's list. shown[0] is the
   * list on the page before the first click and shown[k] the list the re-run
   * after click k renders. Click k's callback runs before that re-run, so it
   * scores shown[k - 1], today's list as it was before the click.
   */
  function ScoreAfterClicks(score: int, shown: seq<seq<bool>>): (r: int)
    ensures |shown| <= 1 ==> r == score
    ensures |shown| >= 2 ==> 50 <= r <= 99
    decreases |shown|
  {
    if |shown| <= 1 then score
    else ScoreAfterClicks(ToggleScore(score, shown[0]), shown[1..])
  }

  /** The click that ticks the last open step scores the list before it, which is not complete: it never earns the +3. */
  lemma CompletingClickScoresListBefore(score: int, before: seq<bool>, i: int)
    requires 0 <= i < |before| && !before[i]
    ensures ScoreAfterClicks(score, [before, before[i := true]]) == ToggleScore(score, before)
    ensures ScoreChange(before) != 3
  {
    assert [before, before[i := true]][1..] == [before[i := true]];
  }

  /**
   * Nothing guards the +3 to once a day: every click made while today's list
   * is complete earns it, and the click that completes the list again
   * earns the change of the list one step short.
   */
  lemma CompleteDayRewardedOnEveryClick(score: int, day: seq<bool>, i: int)
    requires 50 <= score <= 93
    requires 0 <= i < |day| && forall j | 0 <= j < |day| :: day[j]
    ensures ScoreAfterClicks(score, [day, day[i := false]]) == score + 3
    ensures ScoreAfterClicks(score, [day, day[i := false], day]) == ToggleScore(score + 3, day[i := false])
  {
    assert [day, day[i := false]][1..] == [day[i := false]];
    var shown := [day, day[i := false], day];
    assert shown[1..] == [day[i := false], day] && shown[1..][1..] == [day];
  }

  const FourDone: seq<bool> := [true, true, true, true]
  const ThreeOfFour: seq<bool> := [true, true, true, false]

  lemma ThreeOfFourCount()
    ensures CountTrue(ThreeOfFour) == 3
  {
    assert ThreeOfFour[1..] == [true, true, false];
    assert [true, true, false][1..] == [true, false];
    assert [true, false][1..] == [false];
  }

  /** Today's list as shown before and after n untick-and-tick pairs on the fourth step of a complete four-step day. */
  function UntickRetick(n: nat): (shown: seq<seq<bool>>)
    ensures |shown| == 2 * n + 1 && shown[0] == FourDone
  {
    if n == 0 then [FourDone] else [FourDone, ThreeOfFour] + UntickRetick(n - 1)
  }

  /** Each untick-and-tick pair on a complete four-step day earns +3 and then +1, as long as the score stays below 99. */
  lemma {:induction false} UntickRetickFarms(score: int, n: nat)
    requires 50 <= score && score + 4 * n <= 99
    ensures ScoreAfterClicks(score, UntickRetick(n)) == score + 4 * n
    decreases n
  {
    if n > 0 {
      var rest := UntickRetick(n - 1);
      var shown := [FourDone, ThreeOfFour] + rest;
      assert shown[0] == FourDone && shown[1..] == [ThreeOfFour] + rest;
      assert shown[1..][0] == ThreeOfFour && shown[1..][1..] == rest;
      assert ToggleScore(score, FourDone) == score + 3;
      ThreeOfFourCount();
      assert ToggleScore(score + 3, ThreeOfFour) == score + 4;
      UntickRetickFarms(score + 4, n - 1);
    }
  }

  /**
   * Ticking the last two of four steps and then unticking one: the click that
   * reaches three of four scores the half-done list (0), the click that
   * completes the day scores three of four (+1), and the +3 comes with the
   * next click, made from the complete list.
   */
  lemma CompletionPaysOneClickLate(score: int)
    requires 50 <= score <= 95
    ensures ScoreAfterClicks(score, [[true, true, false, false], ThreeOfFour]) == score
    ensures ScoreAfterClicks(score, [[true, true, false, false], ThreeOfFour, FourDone]) == score + 1
    ensures ScoreAfterClicks(score, [[true, true, false, false], ThreeOfFour, FourDone, ThreeOfFour]) == score + 4
  {
    var half := [true, true, false, false];
    assert CountTrue(half) == 2 by {
      assert half[1..] == [true, false, false];
      assert [true, false, false][1..] == [false, false];
    }
    ThreeOfFourCount();
    assert ToggleScore(score, half) == score;
    assert ToggleScore(score, ThreeOfFour) == score + 1;
    assert ToggleScore(score + 1, FourDone) == score + 4;
    FirstClick(score, half, [ThreeOfFour]);
    FirstClick(score, half, [ThreeOfFour, FourDone]);
    FirstClick(score, ThreeOfFour, [FourDone]);
    FirstClick(score, half, [ThreeOfFour, FourDone, ThreeOfFour]);
    FirstClick(score, ThreeOfFour, [FourDone, ThreeOfFour]);
    FirstClick(score + 1, FourDone, [ThreeOfFour]);
  }

  /** A run of clicks starts with the score of its first click. */
  lemma FirstClick(score: int, first: seq<bool>, rest: seq<seq<bool>>)
    requires rest != []
    ensures ScoreAfterClicks(score, [first] + rest) == ScoreAfterClicks(ToggleScore(score, first), rest)
  {
    assert ([first] + rest)[1..] == rest;
  }

  // ---------------------------------------------------------------------- quiz

  /** The correct answers of the five academy questions, in order. */
  const QuizKey: seq<string> := [
    "Retinoids", "Moisture Attraction", "Trans-Epidermal Water Loss",
    "Centella Asiatica (Cica)", "Chemical/Organic"]

  /** The form key of question i (0-based): f'q{i+1}'. */
  function QuestionKey(i: nat): string {
    "q" + NatToString(i + 1)
  }

  predicate AnsweredCorrectly(answers: map<string, string>, key: seq<string>, i: nat)
    requires i < |key|
  {
    QuestionKey(i) in answers && answers[QuestionKey(i)] == key[i]
  }

  /** How many of the first k questions were answered correctly. */
  function CorrectCount(answers: map<string, string>, key: seq<string>, k: nat): (n: nat)
    requires k <= |key|
    ensures n <= k
  {
    if k == 0 then 0
    else CorrectCount(answers, key, k - 1) + (if AnsweredCorrectly(answers, key, k - 1) then 1 else 0)
  }

  lemma {:induction false} PerfectIffAllCorrect(answers: map<string, string>, key: seq<string>, k: nat)
    requires k <= |key|
    ensures CorrectCount(answers, key, k) == k <==> forall i | 0 <= i < k :: AnsweredCorrectly(answers, key, i)
  {
    if k > 0 {
      PerfectIffAllCorrect(answers, key, k - 1);
    }
  }

  /** The grading loop of the quiz form: one point per answer equal to the key. */
  method GradeQuiz(answers: map<string, string>, key: seq<string>) returns (score: nat)
    ensures score == CorrectCount(answers, key, |key|)
    ensures score == |key| <==> forall i | 0 <= i < |key| :: AnsweredCorrectly(answers, key, i)
  {
    score := 0;
    var i := 0;
    while i < |key|
      invariant 0 <= i <= |key|
      invariant score == CorrectCount(answers, key, i)
    {
      var qKey := QuestionKey(i);
      if qKey in answers && answers[qKey] == key[i] {
        score := score + 1;
      }
      i := i + 1;
    }
    PerfectIffAllCorrect(answers, key, |key|);
  }

  /** min(99, score + 5): five points, capped at 99 (scores above 99 come down to 99). */
  function QuizBonus(score: int): (r: int)
    ensures r <= 99
    ensures score <= 94 ==> r == score + 5
    ensures score >= 94 ==> r == 99
  {
    if score + 5 < 99 then score + 5 else 99
  }
}
