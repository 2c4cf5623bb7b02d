/**
 * The per-user session state and the page handlers that change it: login
 * and signup, onboarding, the routine checklist and its toggle handler, the
 * quiz, and the analyzer's routine edit. Each handler that persists calls
 * save_user_data on the worksheet.
 */
module Session {
  import opened Basics
  import opened PyText
  import opened Sheet
  import opened RoutineProgress
  import Scoring
  import ScoreHistory
  import Accounts
  import Recommend

  /**
   * parse_routine_progress on a stored dict text: '' and 'None' give {};
   * anything else goes to eval (a parameter), whose failure also gives {}.
   */
  function ParseStored<V>(cell: string, eval: string -> Option<Dict<V>>): (d: Dict<V>)
    ensures cell == "" || cell == "None" ==> d == []
    ensures eval(cell).None? ==> d == []
  {
    if cell == "" || cell == "None" then [] else GetOr(eval(cell), [])
  }

  /** A routine the app wrote with str() reads back whenever eval inverts str(). */
  lemma StoredRoutineReadsBack(routine: Routine, eval: string -> Option<Routine>)
    requires eval(FormatRoutine(routine)) == Some(routine)
    ensures ParseStored(FormatRoutine(routine), eval) == routine
  {
    var text := FormatRoutine(routine);
    assert text[0] == '{';
  }

  /** bool(user_data.get(key)): a present, non-empty cell. */
  predicate Truthy(cell: Option<string>) {
    cell.Some? && cell.value != ""
  }

  /** int(user_data.get(key, default)); None is the ValueError of a cell that is not an integer. */
  function IntField(rec: Dict<string>, key: string, default: int): (r: Option<int>)
    ensures Get(rec, key).None? ==> r == Some(default)
  {
    match Get(rec, key)
    case None => Some(default)
    case Some(cell) => IntOf(cell)
  }

  /** A field the app wrote as str(n) loads back as n. */
  lemma IntFieldReadsBack(rec: Dict<string>, key: string, default: int, n: int)
    requires Get(rec, key) == Some(IntToString(n))
    ensures IntField(rec, key, default) == Some(n)
  {
    IntOfIntToString(n);
  }

  /** The day of the stored last login: None without the key; dayOf is strptime(...).date(), None on a malformed stamp. */
  function LastLogin(rec: Dict<string>, dayOf: string -> Option<int>): Option<Option<int>> {
    match Get(rec, "Last Login")
    case None => Some(None)
    case Some(cell) => if dayOf(cell).Some? then Some(dayOf(cell)) else None
  }

  /** The counters a login resumes with: the streak after the streak rule, the score and the history. */
  datatype Counters = Counters(streak: int, score: int, history: seq<int>)

  /**
   * The counters initialize_user_session loads from a record: the stored
   * Streak (default 0) after the streak rule against the last login, the
   * stored Skin Score (default the random score) and the parsed history.
   * None when int() rejects the streak or the score, or strptime the stamp.
   */
  function Resumed(rec: Dict<string>, today: int, randomScore: int, dummy: seq<int>, dayOf: string -> Option<int>): (r: Option<Counters>)
    requires ScoreHistory.IsDummyHistory(dummy)
    ensures r.None? <==>
      || (Get(rec, "Streak").Some? && IntOf(Get(rec, "Streak").value).None?)
      || (Get(rec, "Skin Score").Some? && IntOf(Get(rec, "Skin Score").value).None?)
      || (Get(rec, "Last Login").Some? && dayOf(Get(rec, "Last Login").value).None?)
    ensures r.Some? ==>
      var stored := if Get(rec, "Streak").None? then 0 else IntOf(Get(rec, "Streak").value).value;
      var last := if Get(rec, "Last Login").None? then None else dayOf(Get(rec, "Last Login").value);
      && r.value.streak == Scoring.StreakAfterLogin(stored, last, today)
      && r.value.score == (if Get(rec, "Skin Score").None? then randomScore else IntOf(Get(rec, "Skin Score").value).value)
  {
    var stored := IntField(rec, "Streak", 0);
    var score := IntField(rec, "Skin Score", randomScore);
    var last := LastLogin(rec, dayOf);
    if stored.None? || score.None? || last.None? then None
    else Some(Counters(Scoring.StreakAfterLogin(stored.value, last.value, today), score.value,
                       ScoreHistory.ParseScoreHistory(GetOr(Get(rec, "Score_History"), ""), dummy)))
  }

  /**
   * A new user's record, under the signup layout, starts unonboarded and
   * resumes with streak 1 put through the streak rule, the seed as score and
   * [seed] as history, unless strptime rejects the stamp.
   */
  lemma NewUserResumes(rows: seq<seq<string>>, name: string, email: string, seed: int, now: string,
                       today: int, randomScore: int, dummy: seq<int>, dayOf: string -> Option<int>)
    requires Accounts.CheckSignup(rows, name, email).None?
    requires |rows| >= 1 && Accounts.HasUsersLayout(Header(rows))
    requires ScoreHistory.IsDummyHistory(dummy)
    ensures var rec := GetOr(UserRecord(rows + [Accounts.NewUserRow(name, email, seed, now)], email), []);
      && !Truthy(Get(rec, "Age"))
      && Resumed(rec, today, randomScore, dummy, dayOf) ==
         if dayOf(now).Some? then Some(Counters(Scoring.StreakAfterLogin(1, dayOf(now), today), seed, [seed])) else None
  {
    Accounts.NewUserRecord(rows, name, email, seed, now, dummy);
    var rec := GetOr(UserRecord(rows + [Accounts.NewUserRow(name, email, seed, now)], email), []);
    ResumedFromFreshCells(rec, seed, now, today, randomScore, dummy, dayOf);
  }

  /** The counters of a record holding the cells a signup writes. */
  lemma ResumedFromFreshCells(rec: Dict<string>, seed: int, now: string,
                              today: int, randomScore: int, dummy: seq<int>, dayOf: string -> Option<int>)
    requires ScoreHistory.IsDummyHistory(dummy)
    requires Get(rec, "Streak") == Some("1") && Get(rec, "Skin Score") == Some(IntToString(seed))
    requires Get(rec, "Last Login") == Some(now)
    requires ScoreHistory.ParseScoreHistory(GetOr(Get(rec, "Score_History"), ""), dummy) == [seed]
    ensures Resumed(rec, today, randomScore, dummy, dayOf) ==
      if dayOf(now).Some? then Some(Counters(Scoring.StreakAfterLogin(1, dayOf(now), today), seed, [seed])) else None
  {
    assert IntToString(1) == "1";
    IntFieldReadsBack(rec, "Streak", 0, 1);
    IntFieldReadsBack(rec, "Skin Score", randomScore, seed);
  }

  /** How many checkboxes the page draws: one per Morning step and one per Evening step. */
  function CheckboxCount(routine: Routine): nat {
    |StepsOf(routine, Morning)| + |StepsOf(routine, Evening)|
  }

  /** The values the checkboxes keyed by step index 0 .. n-1 return. */
  function Boxes(checkbox: nat -> bool, n: nat): (boxes: seq<bool>)
    ensures |boxes| == n && forall i | 0 <= i < n :: boxes[i] == checkbox(i)
  {
    seq(n, (i: int) requires 0 <= i < n => checkbox(i))
  }

  /**
   * Once the walk has written boxes[..k] over done and stopped because it
   * ran out of boxes or of slots, the list is Rendered(done, boxes).
   */
  lemma WalkIsRendered(done: seq<bool>, boxes: seq<bool>, day: seq<bool>, k: nat)
    requires k <= |boxes| && k <= |done| && (k == |boxes| || k == |done|)
    requires |day| == |done| && forall j | 0 <= j < |day| :: day[j] == if j < k then boxes[j] else done[j]
    ensures day == Rendered(done, boxes)
  {
  }

  /** What the login handler writes back. */
  function LoginUpdates(now: string, streak: int): seq<Update> {
    [Update("Last Login", TextValue(now)), Update("Streak", IntValue(streak))]
  }

  /** The columns the onboarding form writes, in the order of its update dict. */
  function OnboardingUpdates(i: Scoring.Intake, score: int, now: string): seq<Update> {
    [ Update("Age", IntValue(i.age)), Update("Location", TextValue(i.location)),
      Update("Skin_Type", TextValue(i.skinType)), Update("Concerns", TextValue(CommaJoin(i.concerns))),
      Update("Allergies", TextValue(i.allergy)), Update("Sensitivity", TextValue(i.sensitivity)),
      Update("Goal", TextValue(i.goal)), Update("Budget", TextValue(i.budget)),
      Update("Skin Score", IntValue(score)), Update("Routine", TextValue(DefaultRoutineText)),
      Update("Last Login", TextValue(now)) ]
  }

  /** What the onboarding writes back once the score is set. */
  function HistoryUpdates(history: seq<int>): seq<Update> {
    [Update("Score_History", TextValue(ScoreHistory.FormatInts(history)))]
  }

  /** What the toggle handler writes back. */
  function ProgressUpdates(progress: Progress, score: int, history: seq<int>): seq<Update> {
    [ Update("Routine_Progress", TextValue(FormatProgress(progress))), Update("Skin Score", IntValue(score)),
      Update("Score_History", TextValue(ScoreHistory.FormatInts(history))) ]
  }

  /** What the quiz handler writes back. */
  function QuizUpdates(score: int, history: seq<int>): seq<Update> {
    [Update("Skin Score", IntValue(score)), Update("Score_History", TextValue(ScoreHistory.FormatInts(history)))]
  }

  /** The kit page's inputs, read from a user record. */
  function CellsOf(rec: Dict<string>): Recommend.ProfileCells {
    Recommend.ProfileCells(Get(rec, "Concerns"), Get(rec, "Sensitivity"), Get(rec, "Skin_Type"), Get(rec, "Goal"))
  }

  /** The session state of one browser session, over the Users worksheet. */
  class Session {
    const sheet: Worksheet
    var loggedIn: bool
    var email: string              // user_email; '' stands for None before login
    var profile: Dict<string>      // user_data_profile
    var onboardingComplete: bool
    var progress: Progress         // daily_progress
    var streak: int                // routine_streak
    var score: int                 // skin_score
    var history: seq<int>          // skin_score_history

    /** The defaults of a fresh session: thirty days around a random start, today's score last. */
    constructor (sheet: Worksheet, start: int, jitters: seq<int>)
      requires |jitters| == ScoreHistory.HistoryCap
      ensures this.sheet == sheet && !loggedIn && email == "" && profile == [] && !onboardingComplete
      ensures progress == [] && streak == 0
      ensures |history| == ScoreHistory.HistoryCap && (forall i | 0 <= i < |history| :: history[i] == start + jitters[i])
      ensures score == history[|history| - 1]
    {
      this.sheet := sheet;
      loggedIn := false;
      email := "";
      profile := [];
      onboardingComplete := false;
      progress := [];
      streak := 0;
      history := seq(|jitters|, i requires 0 <= i < |jitters| => start + jitters[i]);
      score := start + jitters[|jitters| - 1];
    }

    /**
     * initialize_user_session(email, user_data). The stored streak, score and
     * history are loaded, the streak rule is applied against the last login
     * and the login is written back. A cell that int() or strptime reject
     * raises: the handler stops there (finished is false) and the sheet is
     * untouched; the fields set before that point keep their new values.
     */
    method Initialize(userEmail: string, userData: Dict<string>, today: int, now: string, randomScore: int,
                      dummy: seq<int>, dayOf: string -> Option<int>, evalProgress: string -> Option<Progress>)
      returns (finished: bool)
      requires ScoreHistory.IsDummyHistory(dummy)
      modifies this, sheet
      ensures loggedIn && email == userEmail && profile == userData
      ensures onboardingComplete == Truthy(Get(userData, "Age"))
      ensures progress == ParseStored(GetOr(Get(userData, "Routine_Progress"), "{}"), evalProgress)
      ensures finished <==> Resumed(userData, today, randomScore, dummy, dayOf).Some?
      ensures finished ==>
        && Counters(streak, score, history) == Resumed(userData, today, randomScore, dummy, dayOf).value
        && sheet.rows == Save(old(sheet.rows), userEmail, LoginUpdates(now, streak)).1
      ensures !finished ==> sheet.rows == old(sheet.rows)
      ensures var stored := IntField(userData, "Streak", 0);
        var stScore := IntField(userData, "Skin Score", randomScore);
        && (stored.None? ==> streak == old(streak) && score == old(score) && history == old(history))
        && (stored.Some? && stScore.None? ==> streak == stored.value && score == old(score) && history == old(history))
        && (stored.Some? && stScore.Some? && LastLogin(userData, dayOf).None? ==>
              && streak == stored.value && score == stScore.value
              && history == ScoreHistory.ParseScoreHistory(GetOr(Get(userData, "Score_History"), ""), dummy))
    {
      ghost var counters := Counters(streak, score, history);
      loggedIn := true;
      email := userEmail;
      profile := userData;
      onboardingComplete := Truthy(Get(userData, "Age"));
      progress := ParseStored(GetOr(Get(userData, "Routine_Progress"), "{}"), evalProgress);
      assert Counters(streak, score, history) == counters;
      finished := ResumeCounters(userEmail, userData, today, now, randomScore, dummy, dayOf);
    }

    /**
     * The second half of initialize_user_session: streak, score and history
     * are read from the record, the streak rule is applied and the login is
     * saved. A cell that int() or strptime reject stops it before the save.
     */
    method ResumeCounters(userEmail: string, userData: Dict<string>, today: int, now: string, randomScore: int,
                          dummy: seq<int>, dayOf: string -> Option<int>)
      returns (finished: bool)
      requires ScoreHistory.IsDummyHistory(dummy)
      modifies this, sheet
      ensures finished <==> Resumed(userData, today, randomScore, dummy, dayOf).Some?
      ensures finished ==>
        && Counters(streak, score, history) == Resumed(userData, today, randomScore, dummy, dayOf).value
        && sheet.rows == Save(old(sheet.rows), userEmail, LoginUpdates(now, streak)).1
      ensures !finished ==> sheet.rows == old(sheet.rows)
      ensures var stored := IntField(userData, "Streak", 0);
        var stScore := IntField(userData, "Skin Score", randomScore);
        && (stored.None? ==> streak == old(streak) && score == old(score) && history == old(history))
        && (stored.Some? && stScore.None? ==> streak == stored.value && score == old(score) && history == old(history))
        && (stored.Some? && stScore.Some? && LastLogin(userData, dayOf).None? ==>
              && streak == stored.value && score == stScore.value
              && history == ScoreHistory.ParseScoreHistory(GetOr(Get(userData, "Score_History"), ""), dummy))
      ensures loggedIn == old(loggedIn) && email == old(email) && profile == old(profile)
      ensures onboardingComplete == old(onboardingComplete) && progress == old(progress)
    {
      ghost var expected := Resumed(userData, today, randomScore, dummy, dayOf);
      var storedStreak := IntField(userData, "Streak", 0);
      if storedStreak.None? {
        assert expected.None?;
        return false;
      }
      streak := storedStreak.value;
      var storedScore := IntField(userData, "Skin Score", randomScore);
      if storedScore.None? {
        assert expected.None?;
        return false;
      }
      score := storedScore.value;
      history := ScoreHistory.ParseScoreHistory(GetOr(Get(userData, "Score_History"), ""), dummy);
      match Get(userData, "Last Login") {
        case Some(stamp) =>
          var last := dayOf(stamp);
          if last.None? {
            assert expected.None?;
            return false;
          }
          streak := Scoring.StreakAfterLogin(streak, last, today);
        case None =>
      }
      assert expected == Some(Counters(streak, score, history));
      var _ := sheet.SaveUserData(userEmail, LoginUpdates(now, streak));
      finished := true;
    }

    /** The login form: a known email starts the session from its record; an unknown one changes nothing. */
    method LogIn(loginEmail: string, today: int, now: string, randomScore: int, dummy: seq<int>,
                 dayOf: string -> Option<int>, evalProgress: string -> Option<Progress>)
      returns (found: bool, finished: bool)
      requires ScoreHistory.IsDummyHistory(dummy)
      modifies this, sheet
      ensures found <==> FindUser(old(sheet.rows), loginEmail).Some?
      ensures !found ==> !finished && unchanged(this) && sheet.rows == old(sheet.rows)
      ensures found ==> var rec := UserRecord(old(sheet.rows), loginEmail).value;
        var resumed := Resumed(rec, today, randomScore, dummy, dayOf);
        && loggedIn && email == loginEmail && profile == rec
        && onboardingComplete == Truthy(Get(rec, "Age"))
        && progress == ParseStored(GetOr(Get(rec, "Routine_Progress"), "{}"), evalProgress)
        && (finished <==> resumed.Some?)
        && (finished ==> Counters(streak, score, history) == resumed.value
                         && sheet.rows == Save(old(sheet.rows), loginEmail, LoginUpdates(now, streak)).1)
        && (!finished ==> sheet.rows == old(sheet.rows))
    {
      var record := UserRecord(sheet.rows, loginEmail);
      if record.None? {
        return false, false;
      }
      found := true;
      finished := Initialize(loginEmail, record.value, today, now, randomScore, dummy, dayOf, evalProgress);
    }

    /**
     * The signup form: an accepted signup appends the new row and starts the
     * session from get_user_row of the new email (the empty record when the
     * email is not found again).
     */
    method SignUp(name: string, newEmail: string, seed: int, today: int, now: string, randomScore: int,
                  dummy: seq<int>, dayOf: string -> Option<int>, evalProgress: string -> Option<Progress>)
      returns (refused: Option<Accounts.SignupError>)
      requires 60 <= seed <= 85
      requires ScoreHistory.IsDummyHistory(dummy)
      modifies this, sheet
      ensures refused == Accounts.CheckSignup(old(sheet.rows), name, newEmail)
      ensures refused.Some? ==> unchanged(this) && sheet.rows == old(sheet.rows)
      ensures refused.None? ==> var appended := old(sheet.rows) + [Accounts.NewUserRow(name, newEmail, seed, now)];
        var rec := GetOr(UserRecord(appended, newEmail), []);
        var resumed := Resumed(rec, today, randomScore, dummy, dayOf);
        && loggedIn && email == newEmail && profile == rec
        && onboardingComplete == Truthy(Get(rec, "Age"))
        && progress == ParseStored(GetOr(Get(rec, "Routine_Progress"), "{}"), evalProgress)
        && (resumed.Some? ==> Counters(streak, score, history) == resumed.value
                              && sheet.rows == Save(appended, newEmail, LoginUpdates(now, streak)).1)
        && (resumed.None? ==> sheet.rows == appended)
    {
      refused := Accounts.Register(sheet, name, newEmail, seed, now);
      if refused.None? {
        var record := GetOr(UserRecord(sheet.rows, newEmail), []);
        var _ := Initialize(newEmail, record, today, now, randomScore, dummy, dayOf, evalProgress);
      }
    }

    /**
     * The onboarding form. A refused form changes nothing. Otherwise the
     * profile is saved; only when that save succeeds does the session take
     * the initial score, append it to the history (keeping 30) and save the
     * history as well.
     */
    method CompleteOnboarding(intake: Scoring.Intake, jitter: int, now: string)
      returns (outcome: Result<bool, Scoring.IntakeError>)
      requires -4 <= jitter <= 4
      modifies this, sheet
      ensures outcome.Err? <==> Scoring.Onboard(intake, jitter).Err?
      ensures outcome.Err? ==> unchanged(this) && sheet.rows == old(sheet.rows)
      ensures outcome.Ok? ==> var s := Scoring.Onboard(intake, jitter).value;
        var first := Save(old(sheet.rows), old(email), OnboardingUpdates(intake, s, now));
        && outcome.value == first.0
        && (!first.0 ==> sheet.rows == old(sheet.rows) && score == old(score) && history == old(history)
                         && onboardingComplete == old(onboardingComplete))
        && (first.0 ==>
              && onboardingComplete && score == s
              && history == ScoreHistory.AppendAndTrim(old(history), s)
              && sheet.rows == Save(first.1, old(email), HistoryUpdates(history)).1)
      ensures loggedIn == old(loggedIn) && email == old(email) && profile == old(profile)
      ensures progress == old(progress) && streak == old(streak)
    {
      var checked := Scoring.Onboard(intake, jitter);
      if checked.Err? {
        return Err(checked.error);
      }
      var initial := checked.value;
      var saved := sheet.SaveUserData(email, OnboardingUpdates(intake, initial, now));
      if saved {
        AdoptInitialScore(initial);
      }
      outcome := Ok(saved);
    }

    /**
     * The branch of the onboarding form taken after the profile was saved:
     * the session takes the initial score, appends it to the history (keeping
     * 30) and saves the history.
     */
    method AdoptInitialScore(initial: int)
      modifies this, sheet
      ensures onboardingComplete && score == initial
      ensures history == ScoreHistory.AppendAndTrim(old(history), initial)
      ensures sheet.rows == Save(old(sheet.rows), email, HistoryUpdates(history)).1
      ensures loggedIn == old(loggedIn) && email == old(email) && profile == old(profile)
      ensures progress == old(progress) && streak == old(streak)
    {
      var trimmed := ScoreHistory.AppendAndTrim(history, initial);
      var _ := sheet.SaveUserData(email, HistoryUpdates(trimmed));
      onboardingComplete := true;
      score := initial;
      history := trimmed;
    }

    /**
     * The top of my_routine_page: the routine is read from the user's stored
     * row; an empty one stops the page, otherwise today's record is opened.
     */
    method OpenRoutinePage(today: string, evalRoutine: string -> Option<Routine>) returns (routine: Routine)
      modifies this
      ensures routine == ParseStored(GetOr(Get(GetOr(UserRecord(sheet.rows, email), []), "Routine"), "{}"), evalRoutine)
      ensures progress == if routine == [] then old(progress) else OpenDay(old(progress), today, routine)
      ensures loggedIn == old(loggedIn) && email == old(email) && profile == old(profile)
      ensures onboardingComplete == old(onboardingComplete)
      ensures score == old(score) && history == old(history) && streak == old(streak)
    {
      var record := GetOr(UserRecord(sheet.rows, email), []);
      routine := ParseStored(GetOr(Get(record, "Routine"), "{}"), evalRoutine);
      if routine != [] {
        progress := OpenDay(progress, today, routine);
      }
    }

    /**
     * The two checkbox loops: a running step_index walks the Morning steps and
     * then the Evening steps, and slot step_index of today's list takes the
     * value the checkbox keyed by that index returns. Reading a slot past the
     * list's end, or today's list when it is missing, raises: the loops stop
     * there and the slots already written keep their new values.
     */
    method RenderChecklist(routine: Routine, today: string, checkbox: nat -> bool) returns (finished: bool)
      modifies this
      ensures var boxes := Boxes(checkbox, CheckboxCount(routine));
        match Get(old(progress), today)
        case None => progress == old(progress) && (finished <==> boxes == [])
        case Some(done) =>
          && (finished <==> |boxes| <= |done|)
          && Get(progress, today) == Some(Rendered(done, boxes))
          && (forall k :: k != today ==> Get(progress, k) == Get(old(progress), k))
          && (DistinctKeys(old(progress)) ==> DistinctKeys(progress))
      ensures loggedIn == old(loggedIn) && email == old(email) && profile == old(profile)
      ensures onboardingComplete == old(onboardingComplete)
      ensures score == old(score) && history == old(history) && streak == old(streak)
    {
      var stored := Get(progress, today);
      var done := GetOr(stored, []);
      var day := done;
      var morning := StepsOf(routine, Morning);
      var evening := StepsOf(routine, Evening);
      ghost var boxes := Boxes(checkbox, |morning| + |evening|);
      var stepIndex := 0;
      finished := true;
      var i := 0;
      while i < |morning|
        invariant 0 <= i <= |morning| && stepIndex == i
        invariant stepIndex <= |day| == |done|
        invariant !finished ==> stored.None? || stepIndex == |done|
        invariant !finished ==> stepIndex < |boxes|
        invariant forall j | 0 <= j < |day| :: day[j] == if j < stepIndex then boxes[j] else done[j]
      {
        if stored.None? || stepIndex >= |day| {
          finished := false;
          break;
        }
        day := day[stepIndex := checkbox(stepIndex)];
        stepIndex := stepIndex + 1;
        i := i + 1;
      }
      i := 0;
      while finished && i < |evening|
        invariant 0 <= i <= |evening|
        invariant finished ==> stepIndex == |morning| + i
        invariant !finished ==> stored.None? || stepIndex == |done|
        invariant !finished ==> stepIndex < |boxes|
        invariant stepIndex <= |day| == |done|
        invariant forall j | 0 <= j < |day| :: day[j] == if j < stepIndex then boxes[j] else done[j]
      {
        if stored.None? || stepIndex >= |day| {
          finished := false;
          break;
        }
        day := day[stepIndex := checkbox(stepIndex)];
        stepIndex := stepIndex + 1;
        i := i + 1;
      }
      assert boxes == Boxes(checkbox, CheckboxCount(routine));
      assert finished <==> stepIndex == |boxes|;
      if stored.Some? {
        WalkIsRendered(done, boxes, day, stepIndex);
        progress := Put(progress, today, day);
      }
    }

    /**
     * update_progress, the checkbox callback: today's list gives the score
     * change, the score is clamped into [50, 99], the history's last entry
     * becomes the new score and progress, score and history are saved.
     * A missing day raises (KeyError) before anything changes.
     */
    method UpdateProgress(today: string) returns (finished: bool)
      modifies this, sheet
      ensures finished <==> Get(old(progress), today).Some?
      ensures !finished ==> unchanged(this) && sheet.rows == old(sheet.rows)
      ensures finished ==>
        && score == Scoring.ToggleScore(old(score), Get(old(progress), today).value)
        && history == ScoreHistory.OverwriteLast(old(history), score)
        && sheet.rows == Save(old(sheet.rows), email, ProgressUpdates(progress, score, history)).1
      ensures loggedIn == old(loggedIn) && email == old(email) && profile == old(profile)
      ensures onboardingComplete == old(onboardingComplete) && progress == old(progress) && streak == old(streak)
    {
      var day := Get(progress, today);
      if day.None? {
        return false;
      }
      score := Scoring.ToggleScore(score, day.value);
      history := ScoreHistory.OverwriteLast(history, score);
      var _ := sheet.SaveUserData(email, ProgressUpdates(progress, score, history));
      finished := true;
    }

    /**
     * A click on a checkbox: the callback runs first, on today's list as the
     * previous run left it, and only then does the page run again and the
     * checkbox loops store the new values. The score change therefore comes
     * from the list before the click. A callback that raises (no list for
     * today) ends the click there, without the re-run.
     */
    method Toggle(today: string, evalRoutine: string -> Option<Routine>, checkbox: nat -> bool)
      modifies this, sheet
      ensures var day := Get(old(progress), today);
        && (day.Some? ==>
              && score == Scoring.ToggleScore(old(score), day.value)
              && history == ScoreHistory.OverwriteLast(old(history), score)
              && sheet.rows == Save(old(sheet.rows), email, ProgressUpdates(old(progress), score, history)).1)
        && (day.None? ==> score == old(score) && history == old(history) && sheet.rows == old(sheet.rows))
      ensures Get(old(progress), today).None? ==> progress == old(progress)
      ensures var routine := ParseStored(GetOr(Get(GetOr(UserRecord(sheet.rows, email), []), "Routine"), "{}"), evalRoutine);
        var ready := OpenDay(old(progress), today, routine);
        Get(old(progress), today).Some? ==>
        && (routine == [] ==> progress == old(progress))
        && (routine != [] ==>
              && Get(progress, today) == Some(Rendered(GetOr(Get(ready, today), []), Boxes(checkbox, CheckboxCount(routine))))
              && score == Scoring.ScoreAfterClicks(old(score), [Get(old(progress), today).value, Get(progress, today).value])
              && forall k :: k != today ==> Get(progress, k) == Get(old(progress), k))
      ensures loggedIn == old(loggedIn) && email == old(email) && profile == old(profile)
      ensures onboardingComplete == old(onboardingComplete) && streak == old(streak)
    {
      var finished := UpdateProgress(today);
      if finished {
        ghost var before := Get(progress, today).value;
        var routine := OpenRoutinePage(today, evalRoutine);
        if routine != [] {
          var _ := RenderChecklist(routine, today, checkbox);
          ghost var shown := [before, Get(progress, today).value];
          assert shown[1..] == [Get(progress, today).value];
        }
      }
    }

    /**
     * The quiz form: the answers are graded; a perfect score adds the capped
     * bonus, overwrites the history's last entry and saves both. On an empty
     * history the overwrite raises (IndexError) after the score has changed.
     */
    method SubmitQuiz(answers: map<string, string>) returns (grade: nat)
      modifies this, sheet
      ensures grade == Scoring.CorrectCount(answers, Scoring.QuizKey, |Scoring.QuizKey|)
      ensures grade < |Scoring.QuizKey| ==> unchanged(this) && sheet.rows == old(sheet.rows)
      ensures grade == |Scoring.QuizKey| ==> score == Scoring.QuizBonus(old(score))
      ensures grade == |Scoring.QuizKey| && old(history) == [] ==> history == [] && sheet.rows == old(sheet.rows)
      ensures grade == |Scoring.QuizKey| && old(history) != [] ==>
        && history == ScoreHistory.OverwriteLast(old(history), score)
        && sheet.rows == Save(old(sheet.rows), email, QuizUpdates(score, history)).1
      ensures loggedIn == old(loggedIn) && email == old(email) && profile == old(profile)
      ensures onboardingComplete == old(onboardingComplete) && progress == old(progress) && streak == old(streak)
    {
      grade := Scoring.GradeQuiz(answers, Scoring.QuizKey);
      if grade == |Scoring.QuizKey| {
        ApplyQuizBonus();
      }
    }

    /** The perfect-grade branch of the quiz form: the capped bonus, the overwrite of the history's last entry and the save. */
    method ApplyQuizBonus()
      modifies this, sheet
      ensures score == Scoring.QuizBonus(old(score))
      ensures old(history) == [] ==> history == [] && sheet.rows == old(sheet.rows)
      ensures old(history) != [] ==>
        && history == ScoreHistory.OverwriteLast(old(history), score)
        && sheet.rows == Save(old(sheet.rows), email, QuizUpdates(score, history)).1
      ensures loggedIn == old(loggedIn) && email == old(email) && profile == old(profile)
      ensures onboardingComplete == old(onboardingComplete) && progress == old(progress) && streak == old(streak)
    {
      score := Scoring.QuizBonus(score);
      if history == [] {
        return;
      }
      history := ScoreHistory.OverwriteLast(history, score);
      var _ := sheet.SaveUserData(email, QuizUpdates(score, history));
    }

    /**
     * "Apply Suggested Routine Change": the routine of the session's profile
     * is edited for the suggestion, saved and put back into the profile. An
     * Evening list too short for the edit raises (IndexError) and nothing
     * changes.
     */
    method ApplySuggestedRoutine(suggested: string, evalRoutine: string -> Option<Routine>)
      returns (outcome: Result<bool, EditError>)
      modifies this, sheet
      ensures var current := ParseStored(GetOr(Get(old(profile), "Routine"), "{}"), evalRoutine);
        var edited := ApplySuggestion(current, Contains(suggested, "Salicylic Acid"));
        && (outcome.Err? <==> edited.Err?)
        && (edited.Err? ==> unchanged(this) && sheet.rows == old(sheet.rows))
        && (edited.Ok? ==>
              var text := FormatRoutine(edited.value);
              && var saved := Save(old(sheet.rows), email, [Update("Routine", TextValue(text))]);
              && outcome == Ok(saved.0) && sheet.rows == saved.1
              && profile == Put(old(profile), "Routine", text))
      ensures loggedIn == old(loggedIn) && email == old(email) && onboardingComplete == old(onboardingComplete)
      ensures progress == old(progress) && streak == old(streak) && score == old(score) && history == old(history)
    {
      var current := ParseStored(GetOr(Get(profile, "Routine"), "{}"), evalRoutine);
      var edited := ApplySuggestion(current, Contains(suggested, "Salicylic Acid"));
      if edited.Err? {
        return Err(edited.error);
      }
      var text := FormatRoutine(edited.value);
      var saved := sheet.SaveUserData(email, [Update("Routine", TextValue(text))]);
      profile := Put(profile, "Routine", text);
      outcome := Ok(saved);
    }

    /** The kit page: the kit for the stored row's concerns, sensitivity, skin type and goal, at the session's score. */
    method KitPage() returns (kit: Option<seq<Recommend.KitItem>>)
      ensures var cells := CellsOf(GetOr(UserRecord(sheet.rows, email), []));
        kit == Recommend.PersonalizedKit(cells, score)
      ensures kit.Some? ==> |kit.value| == |Recommend.KitSlots|
    {
      kit := Recommend.PersonalizedKit(CellsOf(GetOr(UserRecord(sheet.rows, email), [])), score);
    }
  }
}
