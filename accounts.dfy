/** Account creation: the signup form's checks and the row it appends. */
module Accounts {
  import opened Basics
  import opened PyText
  import opened Sheet
  import ScoreHistory

  /** Why the signup form was refused. */
  datatype SignupError = DuplicateEmail | InvalidInput

  /**
   * The signup checks, in the form's order: an email some row already holds
   * is a duplicate; otherwise an empty name, an empty email or an email
   * without '@' is invalid.
   */
  function CheckSignup(rows: seq<seq<string>>, name: string, email: string): (r: Option<SignupError>)
    ensures r == Some(DuplicateEmail) <==> FindUser(rows, email).Some?
    ensures r == Some(InvalidInput) <==> FindUser(rows, email).None? && (name == "" || '@' !in email)
    ensures r.None? ==> name != "" && email != "" && '@' in email
  {
    if FindUser(rows, email).Some? then Some(DuplicateEmail)
    else if name == "" || email == "" || '@' !in email then Some(InvalidInput)
    else None
  }

  const BasicRoutine: string := "Basic Routine: Cleanser, Moisturizer, SPF"

  /**
   * The columns the new row fills, in order: the required columns of the
   * data frame followed by Score_History.
   */
  const UsersLayout: seq<string> := RequiredColumns + ["Score_History"]

  /** The row appended for a new user; seed is the random initial score. */
  function NewUserRow(name: string, email: string, seed: int, now: string): (row: seq<string>)
    ensures |row| == |UsersLayout|
  {
    [name, email, "", "", "", IntToString(seed), BasicRoutine, now, "{}", "1", "[" + IntToString(seed) + "]"]
  }

  /** A header that starts with the signup layout and names none of its columns again. */
  predicate HasUsersLayout(header: seq<string>) {
    && |header| >= |UsersLayout|
    && header[..|UsersLayout|] == UsersLayout
    && forall j | |UsersLayout| <= j < |header| :: header[j] !in UsersLayout
  }

  /**
   * After an accepted signup the appended row is the one the email finds,
   * provided the sheet has a header row that holds Email in the second
   * column; on a sheet without any row the new row becomes the header and
   * the user is not found.
   */
  lemma SignedUpUserIsFound(rows: seq<seq<string>>, name: string, email: string, seed: int, now: string)
    requires CheckSignup(rows, name, email).None?
    ensures |rows| >= 1 && EmailColumn in Header(rows) && LastIndexOf(Header(rows), EmailColumn) == 1 ==>
      FindUser(rows + [NewUserRow(name, email, seed, now)], email) == Some(|rows|)
    ensures rows == [] ==> FindUser(rows + [NewUserRow(name, email, seed, now)], email).None?
  {
    var row := NewUserRow(name, email, seed, now);
    var rows' := rows + [row];
    if |rows| >= 1 && EmailColumn in Header(rows) && LastIndexOf(Header(rows), EmailColumn) == 1 {
      assert Header(rows') == Header(rows);
      assert forall k | 1 <= k < |rows| :: rows'[k] == rows[k];
      assert EmailOf(Header(rows'), rows'[|rows|]) == email;
    }
  }

  /**
   * Under the signup layout the new user's record starts unonboarded (no
   * Age), with streak 1, the seed as Skin Score, an empty progress log and a
   * score history that reads back as [seed].
   */
  lemma NewUserRecord(rows: seq<seq<string>>, name: string, email: string, seed: int, now: string, dummy: seq<int>)
    requires CheckSignup(rows, name, email).None?
    requires |rows| >= 1 && HasUsersLayout(Header(rows))
    requires ScoreHistory.IsDummyHistory(dummy)
    ensures var rec := UserRecord(rows + [NewUserRow(name, email, seed, now)], email);
      && rec.Some?
      && Get(rec.value, "Age") == Some("")
      && Get(rec.value, "Streak") == Some("1")
      && Get(rec.value, "Skin Score") == Some(IntToString(seed))
      && Get(rec.value, "Routine_Progress") == Some("{}")
      && Get(rec.value, "Last Login") == Some(now)
      && match Get(rec.value, "Score_History")
         case Some(h) => ScoreHistory.ParseScoreHistory(h, dummy) == [seed]
         case None => false
  {
    var row := NewUserRow(name, email, seed, now);
    NewUserRowCells(name, email, seed, now);
    SignupRecord(rows, name, email, seed, now);
    LayoutRecord(Header(rows), row);
    ScoreHistory.SignupSeedParses(seed, dummy);
  }

  /** The cells of the new row under the columns a signup fills. */
  lemma NewUserRowCells(name: string, email: string, seed: int, now: string)
    ensures var row := NewUserRow(name, email, seed, now);
      && row[2] == "" && row[5] == IntToString(seed) && row[7] == now
      && row[8] == "{}" && row[9] == "1" && row[10] == "[" + IntToString(seed) + "]"
  {
  }

  /** Under the signup layout the new user's record is the record of the appended row. */
  lemma SignupRecord(rows: seq<seq<string>>, name: string, email: string, seed: int, now: string)
    requires CheckSignup(rows, name, email).None?
    requires |rows| >= 1 && HasUsersLayout(Header(rows))
    ensures UserRecord(rows + [NewUserRow(name, email, seed, now)], email)
      == Some(RowRecord(Header(rows), NewUserRow(name, email, seed, now)))
  {
    var row := NewUserRow(name, email, seed, now);
    var rows' := rows + [row];
    LayoutPosition(Header(rows), 1);
    SignedUpUserIsFound(rows, name, email, seed, now);
    assert Header(rows') == Header(rows);
    assert FindUser(rows', email) == Some(|rows|);
    assert rows'[|rows|] == row;
  }

  /** The columns a signup fills, read through the record of a row under the signup layout. */
  lemma LayoutRecord(header: seq<string>, row: seq<string>)
    requires HasUsersLayout(header)
    ensures Get(RowRecord(header, row), "Age") == Some(Cell(row, 2))
    ensures Get(RowRecord(header, row), "Skin Score") == Some(Cell(row, 5))
    ensures Get(RowRecord(header, row), "Last Login") == Some(Cell(row, 7))
    ensures Get(RowRecord(header, row), "Routine_Progress") == Some(Cell(row, 8))
    ensures Get(RowRecord(header, row), "Streak") == Some(Cell(row, 9))
    ensures Get(RowRecord(header, row), "Score_History") == Some(Cell(row, 10))
  {
    LayoutNames();
    RecordCell(header, row, 2, "Age");
    RecordCell(header, row, 5, "Skin Score");
    RecordCell(header, row, 7, "Last Login");
    RecordCell(header, row, 8, "Routine_Progress");
    RecordCell(header, row, 9, "Streak");
    RecordCell(header, row, 10, "Score_History");
  }

  /** The positions of the columns a signup fills in the signup layout. */
  lemma LayoutNames()
    ensures UsersLayout[2] == "Age" && UsersLayout[5] == "Skin Score" && UsersLayout[7] == "Last Login"
    ensures UsersLayout[8] == "Routine_Progress" && UsersLayout[9] == "Streak" && UsersLayout[10] == "Score_History"
  {
  }

  /** Under the signup layout the record of a row holds cell i under the i-th layout column. */
  lemma RecordCell(header: seq<string>, row: seq<string>, i: nat, name: string)
    requires HasUsersLayout(header) && i < |UsersLayout| && UsersLayout[i] == name
    ensures Get(RowRecord(header, row), name) == Some(Cell(row, i))
  {
    LayoutPosition(header, i);
  }

  /** Under the signup layout column i of the layout is found at position i. */
  lemma LayoutPosition(header: seq<string>, i: nat)
    requires HasUsersLayout(header) && i < |UsersLayout|
    ensures UsersLayout[i] in header && LastIndexOf(header, UsersLayout[i]) == i
  {
    var name := UsersLayout[i];
    assert header[..|UsersLayout|][i] == header[i] == name;
    var k := LastIndexOf(header, name);
    assert i <= k;
    assert k < |UsersLayout| by {
      assert header[k] in UsersLayout;
    }
    assert UsersLayout[k] == name by {
      assert header[..|UsersLayout|][k] == header[k];
    }
    LayoutDistinct();
  }

  /** The signup layout names no column twice. */
  lemma LayoutDistinct()
    ensures forall a, b | 0 <= a < b < |UsersLayout| :: UsersLayout[a] != UsersLayout[b]
  {
  }

  /** The signup handler's sheet side: refuse, or append the new row. */
  method Register(ws: Worksheet, name: string, email: string, seed: int, now: string) returns (r: Option<SignupError>)
    modifies ws
    ensures r == CheckSignup(old(ws.rows), name, email)
    ensures r.None? ==> ws.rows == old(ws.rows) + [NewUserRow(name, email, seed, now)]
    ensures r.Some? ==> ws.rows == old(ws.rows)
  {
    r := CheckSignup(ws.rows, name, email);
    if r.None? {
      ws.AppendRow(NewUserRow(name, email, seed, now));
    }
  }
}
