# SkinovaAI scoring, streak and bookkeeping rules in Dafny

This project models the rules inside SkinovaAI, a Streamlit skincare app whose whole program is `app.py`.
It proves properties about those rules. The page handlers keep per-session state and persist it to a "Users" worksheet. Apart from the UI, the logic is:

- **Scoring and streak engine** (`scoring.dfy`, module `Scoring`):
  - the onboarding score: base 80, three penalties, an experience bonus, a random jitter in [-4, 4], then a clamp to [55, 90];
  - the login streak rule;
  - the score change of the routine checkbox callback, clamped to [50, 99];
  - the quiz grading loop and its +5 bonus, capped at 99.
- **Routine progress** (`routine_progress.dfy`, `RoutineProgress`):
  - the routine and the per-day completion log, each an insertion-ordered dict;
  - lazy creation of today's all-False list;
  - the list that the checkbox loops leave behind;
  - the analyzer's "apply suggested routine" edit;
  - the `str()` text the app stores for these dicts.
- **Score history** (`score_history.dfy`, `ScoreHistory`):
  - `parse_score_history` as the inverse of Python's `str()` of a list of ints;
  - append-and-keep-30;
  - overwrite-last.
- **The worksheet** (`sheet.dfy`, `Sheet`):
  - the rows of the sheet as a buffer;
  - the data-frame view of a user's row (`load_data`, `get_user_row`);
  - `save_user_data`, as a pure specification `Save` and as the imperative loop `Worksheet.SaveUserData` proved equal to it.
- **Accounts** (`accounts.dfy`, `Accounts`): the signup checks and the row the signup appends.
- **The session** (`session.dfy`, `Session`): a class holding the session-state fields. Its methods are the handlers, and each changes the fields step by step as the Python does:
  - login;
  - signup;
  - onboarding;
  - opening the routine page;
  - the checkbox loops;
  - the toggle callback;
  - the quiz;
  - the analyzer edit;
  - the kit page.
- **Recommendations** (`recommend.dfy`, `Recommend`): the personalised kit's rule chain, the concern list the kit page parses, and the marketplace filter.
- **Shared modules:** `basics.dfy` holds `Option`, `Result` and ordered dicts. `pytext.dfy` holds the Python string operations the app relies on: `str(int)`, `int()`, `strip`, `split`, `", ".join`, the substring `in`, and `repr` of a plain string.

Inputs from the outside world are parameters of the methods and functions:
- randomness: the onboarding jitter, the signup seed, the dummy history, the default score;
- the clock: today as a day number, the "now" timestamp text, today's key;
- `strptime`(...)`.date()`, as `dayOf`;
- `eval` of a stored dict, as `evalProgress` and `evalRoutine`;
- the values the checkbox widgets return, as `checkbox`.

Notable behaviours of the code, which the model follows:
- A login only updates the streak. It does not evaluate compliance and does not adjust the score or the history; it only loads them from the record.
- The +3 for a complete day is earned by every click made while today's list is complete, not once per day (`Scoring.UntickRetickFarms`).
- A day with no steps gets -2. Its compliance is 0, so it falls into the "nothing completed" branch.
- An acne concern can still give an initial score of 81: 80, minus 5 for acne, plus 2 for past actives, is 77, and a jitter of +4 gives 81 (`Scoring.AcneScoreAtMost81`).
- The checkbox callback runs before the page re-runs. So the score change comes from today's list as it was before the click (`Session.Session.Toggle`). The click that completes the day earns the change of the list one step short, and the +3 comes with the next click (`Scoring.CompletionPaysOneClickLate`).

## Model

| member | source | states |
|---|---|---|
| `Basics.Find` | app.py:674 | the position of the first entry with the key, and None exactly when no entry has it (`key in dict`) |
| `Basics.Put` | app.py:675 | `d[key] = value`: the key then maps to the value, every other key keeps its value, distinct keys stay distinct; an existing key keeps its place and a new key goes last |
| `PyText.IntToString` | app.py:226-228 | `str(n)`: non-empty, only digits after an optional leading minus that appears exactly for negatives, last char a digit |
| `PyText.IntToStringParses` | app.py:257 | `int(str(n)) == n` |
| `PyText.IntOfIntToString` | app.py:284-285 | `int()` with its whitespace stripping reads `str(n)` back as n |
| `PyText.Strip` | app.py:257 | neither end of the result is a stripped character; a string with no such end is unchanged |
| `PyText.Split` | app.py:257 | `s.split(sep)` has at least one part, no part contains sep, and joining the parts with sep gives s back |
| `PyText.StripEach` | app.py:822 | the list comprehension strips every part and keeps the length |
| `PyText.PiecesOfCommaJoin` | app.py:437 | splitting `", ".join(parts)` on ',' and stripping gives back the stripped parts, for comma-free parts |
| `ScoreHistory.ParseInts` | app.py:256-259 | `[int(x) for x in pieces if x]` raises (None) exactly when some non-empty piece is not an integer; otherwise it yields `int()` of each non-empty piece, in order |
| `ScoreHistory.ParseScoreHistory` | app.py:252-259 | an empty text, or a text some non-empty piece of which is not an integer, gives the 30-value fallback |
| `ScoreHistory.ParseFormatRoundTrip` | app.py:456 | for every list xs, `parse_score_history(str(xs)) == xs`, `"[]"` included |
| `ScoreHistory.SignupSeedParses` | app.py:342 | the signup seed `f'[{S}]'` is `str([S])` and parses to `[S]` |
| `ScoreHistory.AppendAndTrim` | app.py:452-453 | length min(30, n+1), last entry the new score, earlier entries the newest of the old history in order |
| `ScoreHistory.OverwriteLast` | app.py:705-708 | same length (1 for an empty history), last entry the new score, all earlier entries unchanged |
| `Scoring.Clamp` | app.py:424 | `max(lo, min(hi, x))`: within [lo, hi], equal to x inside, to the nearer bound outside |
| `Scoring.BaseScore` | app.py:416-422 | the deterministic part lies in [62, 82]; it exceeds 80 exactly when the bonus applies and no penalty does; acne caps it at 77 |
| `Scoring.InitialScore` | app.py:424 | for every jitter in [-4, 4] the score lies in [55, 90], in fact in [58, 86], and the clamp never binds |
| `Scoring.Onboard` | app.py:412-424 | the form is refused exactly when concerns or goal are empty; otherwise the score is base plus jitter, within [58, 86] |
| `Scoring.AcneScoreAtMost81` | app.py:416-424 | with an acne concern the initial score is at most 81, and 81 is reachable |
| `Scoring.StreakAfterLogin` | app.py:289-302 | no stored login: unchanged; same day: unchanged; the day before: +1; any other day, past or future: 1 |
| `Scoring.ConsecutiveLoginsGrowStreak` | app.py:296-297 | k logins on the k days after the last login raise the streak by exactly k |
| `Scoring.SameDayLoginsKeepStreak` | app.py:294-295 | repeated logins on the last login's day leave the streak unchanged |
| `Scoring.MissedDayResets` | app.py:299-302 | a gap of two or more days sets the streak to 1 whatever it was |
| `Scoring.CountTrue` | app.py:682 | `count(True)` is at most the length, equals it iff every step is done, and is 0 iff none is |
| `Scoring.Compliance` | app.py:681-683 | completed over total, 0 for no steps, always within [0, 1] |
| `Scoring.ComplianceThresholds` | app.py:687-697 | the ratio tests 1.0, >= 0.75 and < 0.5 agree with the integer tests on the counts |
| `Scoring.ScoreChange` | app.py:685-697 | +3 iff total > 0 and all done; +1 iff not all done and 4·done >= 3·total; -2 iff nothing done (empty list included); 0 otherwise |
| `Scoring.ToggleScore` | app.py:700-702 | the new score is within [50, 99] and equals score plus change whenever that is in range |
| `Scoring.ScoreAfterClicks` | app.py:679-702 | the score after a run of clicks, each click scoring the list the callback sees (the one rendered before it): unchanged with no click, within [50, 99] after any click |
| `Scoring.CompletingClickScoresListBefore` | app.py:681-689 | the click that ticks the last open step scores the list before it, so its change is never +3 |
| `Scoring.CompleteDayRewardedOnEveryClick` | app.py:687-689 | a click made from a complete day earns +3, and ticking the step back then earns the change of the list one step short |
| `Scoring.UntickRetickFarms` | app.py:687-693 | n untick-and-tick pairs on a complete four-step day earn +4 each, +3 and then +1, while the score stays within 99 |
| `Scoring.CompletionPaysOneClickLate` | app.py:687-697 | from two of four steps the clicks that tick the third and the fourth step earn 0 and +1, and the +3 comes with the next click, made from the complete list |
| `Scoring.CorrectCount` | app.py:984-987 | the number of correct answers among the first k is at most k |
| `Scoring.PerfectIffAllCorrect` | app.py:993 | the count reaches k exactly when every one of the k answers is correct |
| `Scoring.GradeQuiz` | app.py:981-987 | the loop's score is the number of correct answers, and is full exactly when all are correct |
| `Scoring.QuizBonus` | app.py:999 | `min(99, score + 5)`: at most 99, +5 up to 94, 99 from 94 on |
| `RoutineProgress.TotalStepsOfTwoPeriods` | app.py:675 | for a routine with only Morning and Evening, the day list's length is the two step counts added |
| `RoutineProgress.AllFalse` | app.py:675 | `[False] * n` has length n and no step done |
| `RoutineProgress.OpenDay` | app.py:673-675 | an absent key gets an all-False list as long as the routine's total step count; a present key and every other day are untouched |
| `RoutineProgress.Rendered` | app.py:727-747 | slot i holds the i-th checkbox value (Morning first, then Evening) as far as both reach; other slots keep their value |
| `RoutineProgress.ApplySuggestion` | app.py:643-649 | a Salicylic suggestion sets Evening slot 2 or installs the four-step Evening list; too short an Evening list fails; other keys unchanged |
| `RoutineProgress.ApplySuggestionTotal` | app.py:645-649 | the edit keeps the step count, or adds 4 when it installs the Evening list |
| `Recommend.ParseConcerns` | app.py:822 | every parsed concern is non-empty and already stripped |
| `PyText.NonEmpty` | app.py:822 | the `if c.strip()` filter keeps only non-empty pieces, keeps every non-empty piece, and drops nothing from a list without empty pieces |
| `PyText.NonEmptyAppend` | app.py:257 | the filter keeps the pieces' order: filtering a concatenation concatenates the filtered parts |
| `Recommend.ConcernsRoundTrip` | app.py:822 | the kit page reads back exactly the concern list the onboarding stored with `", ".join` |
| `Recommend.BuildKit` | app.py:836-867 | exactly the five slots in order: Sunscreen is the mineral SPF; clarifying cleanser iff Oily or acne; benzoyl peroxide iff acne and score < 75 |
| `Recommend.PersonalizedKit` | app.py:821-867 | no kit iff no non-empty concern is stored; otherwise five slots in order with the mineral SPF as sunscreen, the clarifying cleanser iff the skin type (default Combination) holds 'Oily' or acne is a concern, and the benzoyl treatment iff acne is a concern and the score is below 75 |
| `Recommend.MissingCellsUseDefaults` | app.py:822-845 | a row without Skin_Type or Sensitivity gets the gel moisturizer, and the clarifying cleanser for acne and the gentle one otherwise |
| `Recommend.ClarifyingBeatsDry` | app.py:837-840 | the skin type "Dry Oily", which contains both words, gets the clarifying cleanser: the Oily test comes first |
| `Recommend.ConcernWordsNeverMatch` | app.py:845-865 | for concerns from the onboarding options, the 'Pigmentation' and 'Wrinkles' tests never fire: only the goal decides |
| `Recommend.Keep` | app.py:785 | the comprehension keeps exactly the matching items, with their multiplicity |
| `Recommend.FilterProducts` | app.py:783-787 | an item is shown, as often as listed, iff each filter is "All" or equals its field |
| `Recommend.KeepKeepsOrder` | app.py:785 | the comprehension's result is a subsequence of the catalogue: its items come in catalogue order |
| `Recommend.FilterKeepsOrder` | app.py:783-787 | the filtered list is a subsequence of the catalogue, for every choice of the two filters |
| `Recommend.AllShowsEverything` | app.py:783-787 | "All" and "All" show the whole catalogue in order |
| `Recommend.AllConcernItemNeedsAllFilter` | app.py:768 | an item whose concern is "All" (the sunscreen) is hidden by every concern filter other than "All" |
| `Sheet.IndexOf` | app.py:223 | `header.index(name)`: the first position holding the name |
| `Sheet.RowRecord` | app.py:184-189 | every header column maps to its cell (the last one for a repeated name, '' past the row's end); a missing required column maps to ''; any other name is absent |
| `Sheet.FindUser` | app.py:211-214 | the first data row whose Email is the email; None iff no data row has it |
| `Sheet.UserRecord` | app.py:196-200 | `get_user_row`: a record exactly for a known email, that row's record, with that Email |
| `Sheet.TrimEnd` | app.py:219 | `row_values` drops exactly the trailing empty cells |
| `Sheet.Overwrite` | app.py:221-228 | the overwriting loop keeps the row's length |
| `Sheet.Pad` | app.py:231-232 | the list is extended with '' up to the header's length |
| `Sheet.Overlay` | app.py:234 | the written list replaces the row's leading cells; cells to its right keep their value |
| `Sheet.Save` | app.py:203-241 | a failed save leaves the rows unchanged; the header is row 1 without its trailing empty cells, as `row_values(1)` returns it |
| `Sheet.OverwriteCells` | app.py:221-228 | the update loop raises exactly when an updated header column lies past the stored row, and otherwise yields the row with every update applied in order |
| `Sheet.SaveOutcome` | app.py:209-241 | unknown email: False, nothing written; otherwise True iff every updated header column falls inside the stored row and the padded row fits A:Z |
| `Sheet.SaveOnlyUserRow` | app.py:213-234 | a successful save changes only the user's row, which ends at least as long as the header that `row_values(1)` returns |
| `Sheet.SavedRowCells` | app.py:221-234 | each cell of the saved row holds `str(value)` of the last update aimed at its column, or its old value ('' where the row grew) |
| `Sheet.UnknownColumnIgnored` | app.py:222 | an update whose column is not in the header writes nothing |
| `Sheet.Worksheet.SaveUserData` | app.py:203-241 | the loop returns `Save`'s verdict and leaves the sheet in `Save`'s new state |
| `Sheet.Worksheet.AppendRow` | app.py:344 | the row is added after the last one |
| `Accounts.CheckSignup` | app.py:331-335 | a known email is a duplicate; otherwise an empty name or an email without '@' is invalid; accepted input has both |
| `Accounts.NewUserRow` | app.py:337-343 | the new row has one cell per column of the signup layout |
| `Accounts.SignedUpUserIsFound` | app.py:344-347 | with a header holding Email second, the new row is the one the email finds; on an empty sheet it becomes the header and is not found |
| `Accounts.NewUserRecord` | app.py:337-347 | the new record has no Age, Streak '1', the seed as Skin Score, '{}' progress, the timestamp, and a history that reads back as `[seed]` |
| `Accounts.Register` | app.py:329-344 | refused signups write nothing; accepted ones append exactly the new row |
| `Session.ParseStored` | app.py:243-250 | '' and 'None' give {}, and so does a failed eval |
| `Session.StoredRoutineReadsBack` | app.py:651 | a routine stored with `str()` reads back whenever eval inverts `str()` |
| `Session.IntField` | app.py:284-285 | a missing key gives the default |
| `Session.IntFieldReadsBack` | app.py:284-285 | a cell written as `str(n)` loads back as n |
| `Session.Session.constructor` | app.py:161-176 | a fresh session: logged out, empty progress, streak 0, thirty days of start plus jitter, today's score last |
| `Session.Resumed` | app.py:284-302 | the counters a login resumes with: None iff a present Streak or Skin Score cell is not an integer or a present Last Login stamp does not parse; otherwise the stored streak (0 if absent) after the streak rule against the stamp's day, the stored score (the random score if absent) and the parsed Score_History cell. Initialize, LogIn and SignUp are stated through it |
| `Session.NewUserResumes` | app.py:337-348 | a new user's record starts unonboarded and resumes with streak 1 put through the streak rule, the seed as score and [seed] as history, unless the stamp is rejected |
| `Session.Session.Initialize` | app.py:273-307 | login state and progress are loaded; when no cell raises, streak, score and history are `Resumed`'s and the login is saved; otherwise the sheet is untouched and the fields set before the raise keep their new values (the stored streak after a bad score; streak, score and history after a bad stamp) |
| `Session.Session.ResumeCounters` | app.py:284-307 | the counters load from the record when no cell raises; the streak follows the streak rule and the login is saved; a raising cell leaves the sheet alone, with the counters read before it loaded and the rest unchanged; login state, profile, onboarding flag and progress are never touched |
| `Session.Session.AdoptInitialScore` | app.py:447-457 | after the first save the onboarding is complete, the score is the initial score, the history has it appended and trimmed to 30, and that history is saved |
| `Session.Session.LogIn` | app.py:358-373 | a known email starts the session from its record: the loaded profile, onboarding flag and progress, `Resumed`'s counters and the login save when no cell raises; an unknown email changes no field and no row |
| `Session.Session.SignUp` | app.py:329-350 | the signup verdict is `CheckSignup`'s; a refused signup changes no field and no row; an accepted one appends the row, starts the session from the record found after the append, and saves the login on top of the appended rows when no cell raises |
| `Session.Session.CompleteOnboarding` | app.py:411-465 | a refused form changes nothing; a failed first save changes nothing local; a successful one sets the score, appends-and-trims the history and saves the history |
| `Session.Session.OpenRoutinePage` | app.py:664-675 | the routine is read from the stored row; only a non-empty routine opens today's record |
| `Session.Session.RenderChecklist` | app.py:724-747 | today's list becomes `Rendered(old list, checkbox values)`; the loops finish exactly when the list has a slot for every checkbox |
| `Session.Session.UpdateProgress` | app.py:679-719 | a missing day raises before any change; otherwise the score is the clamped toggle score, the history's last entry is overwritten and all three are saved |
| `Session.Session.Toggle` | app.py:679-747 | a click runs the callback first: the new score is `ToggleScore` of the old score and today's list before the click, the history's last entry becomes it, and the save stores the progress from before the click; a day not yet opened raises in the callback and changes nothing; otherwise the page re-runs: today's list becomes `Rendered` of the opened day and the checkbox values, and the score is `ScoreAfterClicks` of the lists before and after the click; other days and the login fields unchanged |
| `Session.Session.SubmitQuiz` | app.py:981-1004 | the grade is the correct count; only a perfect grade adds the capped bonus, overwrites the last history entry and saves; an empty history raises after the score changed |
| `Session.Session.ApplyQuizBonus` | app.py:997-1002 | the score becomes `min(99, score + 5)`; a non-empty history has its last entry overwritten with it and both are saved; an empty history raises (IndexError) after the score changed, with no save; the login fields, progress and streak unchanged |
| `Session.Session.ApplySuggestedRoutine` | app.py:641-652 | the profile's routine is edited, saved and put back into the profile; a failed edit changes nothing |
| `Session.Session.KitPage` | app.py:817-867 | the kit is `PersonalizedKit` of the stored row's cells at the session's score, five slots when there is one |

## Left out

- Rendering, CSS, the sidebar router, toasts, balloons, `st.experimental_rerun` and the charts are not modelled. They are presentation only.
- gspread and pandas I/O are reduced to an in-memory list of rows.
  - The 60-second cache of `load_data` and its clearing are not modelled. Every read sees the current rows. (With the cache, the signup handler's `get_user_row` sees the frame from before the append whenever it runs within the cache's lifetime, because the handler's own `load_data` call filled the cache just before; the new user is then not found and the session starts from the empty record.)
  - `numericise` of `get_all_records` is not modelled: cells stay text. The app would see a number instead wherever a cell reads as one. Then `bool(Age)` of a cell "0" is False; a Score_History cell such as "72" (no brackets) makes `.strip` raise, so the app falls back to the dummy history where the model reads [72]; a numeric Concerns cell makes `.split` raise on the kit page; and numbers written as floats come back changed.
  - A header that repeats a column name is modelled as `dict(zip(...))` treats it: first place, last cell. gspread versions that reject such a header are not modelled.
  - The rows the sheet API returns are taken to have no trailing empty rows.
- `Session.ParseStored` models only the empty and 'None' cases of `parse_routine_progress`. Otherwise it takes `eval` as a parameter, because `eval` is Python's own evaluator.
- `Session.Session.Initialize`: the date parsing (`strptime(...).date()`) and the clock are parameters. Days are integer day numbers.
- `PyText.IntOf` and `PyText.Strip` cover `int()`'s grammar for ASCII digits with an optional sign, and the ASCII whitespace. They leave out underscores, Unicode digits and Unicode whitespace.
- `PyText.Quote` models `repr` of a string without quotes, backslashes or control characters. This holds for every key and step name the app writes.
- `Scoring.Compliance` uses exact rational division where Python uses a float. The two agree on the thresholds the app compares against for any step count up to 2^52. Past that, a ratio just below 0.75 can round up to 0.75 in floats.
- `Session.Session` keeps `user_email` as a string, with '' before login where the app has None. Every handler except login and signup is only reached once logged in.
- The analyzer's random results, the image upload, the progress loop and the analyzer log sheet are not modelled. They are random or I/O. Only their suggestion text enters the model, as the parameter of `ApplySuggestedRoutine`.
- The dashboard's completion percentage is not modelled, because it is `int()` of a float division.
- The forum, the consult form and logout are not modelled: they only append rows to other sheets or reset fields.
- The academy text, the videos and the catalogue data are static content. Only the catalogue's sunscreen entry, whose concern is "All", appears in a lemma.
