/**
 * The Users worksheet and save_user_data: find the user's row by email, read
 * the header and the row, overwrite the cell of every updated column that the
 * header has, pad the row to the header's length and write it back.
 */
module Sheet {
  import opened Basics
  import opened PyText

  /**
   * A value handed to save_user_data: an int (Age, Skin Score, Streak) or a
   * text the caller has already built, str() of a list or dict included.
   */
  datatype Value = IntValue(i: int) | TextValue(s: string)

  /** str(value). */
  function Str(v: Value): string {
    match v
    case IntValue(i) => IntToString(i)
    case TextValue(s) => s
  }

  /** One item of update_dict: a column name and its new value. */
  datatype Update = Update(column: string, value: Value)

  const EmailColumn: string := "Email"

  /** The update writes the range A{n}:Z{n}: at most 26 cells. */
  const RangeWidth: nat := 26

  /** header.index(name). */
  function IndexOf(header: seq<string>, name: string): (k: nat)
    requires name in header
    ensures k < |header| && header[k] == name
    ensures forall j | 0 <= j < k :: header[j] != name
  {
    if header[0] == name then 0 else 1 + IndexOf(header[1..], name)
  }

  /** Row 1 of the sheet. */
  function Header(rows: seq<seq<string>>): seq<string> {
    if rows == [] then [] else rows[0]
  }

  /** worksheet.row_values(1), the header save_user_data reads: row 1 without its trailing empty cells. */
  function SaveHeader(rows: seq<seq<string>>): (header: seq<string>)
    ensures header <= Header(rows)
  {
    TrimEnd(Header(rows))
  }

  /** The cell in column j, '' past the row's end (records pad short rows). */
  function Cell(row: seq<string>, j: nat): string {
    if j < |row| then row[j] else ""
  }

  /** The last position of name in the header. */
  function LastIndexOf(header: seq<string>, name: string): (k: nat)
    requires name in header
    ensures k < |header| && header[k] == name
    ensures forall j | k < j < |header| :: header[j] != name
  {
    if header[|header| - 1] == name then |header| - 1 else LastIndexOf(header[..|header| - 1], name)
  }

  /**
   * The record of a row: dict(zip(header, row)), one key per header column;
   * a column named twice keeps its first place and its last cell.
   */
  function RecordOf(header: seq<string>, row: seq<string>, n: nat): (d: Dict<string>)
    requires n <= |header|
    ensures forall c :: c in header[..n] ==> Get(d, c) == Some(Cell(row, LastIndexOf(header[..n], c)))
    ensures forall c :: c !in header[..n] ==> Get(d, c).None?
  {
    if n == 0 then []
    else
      var d := RecordOf(header, row, n - 1);
      assert header[..n] == header[..n - 1] + [header[n - 1]];
      RecordExtend(header[..n - 1], header[n - 1], row, d);
      Put(d, header[n - 1], Cell(row, n - 1))
  }

  /** Adding the next column to the record of a header prefix gives the record of the longer prefix. */
  lemma RecordExtend(prefix: seq<string>, name: string, row: seq<string>, d: Dict<string>)
    requires forall c :: c in prefix ==> Get(d, c) == Some(Cell(row, LastIndexOf(prefix, c)))
    requires forall c :: c !in prefix ==> Get(d, c).None?
    ensures var h := prefix + [name];
      var r := Put(d, name, Cell(row, |prefix|));
      && (forall c :: c in h ==> Get(r, c) == Some(Cell(row, LastIndexOf(h, c))))
      && (forall c :: c !in h ==> Get(r, c).None?)
  {
    var h := prefix + [name];
    assert h[..|h| - 1] == prefix;
    forall c | c in h && c != name
      ensures c in prefix && LastIndexOf(h, c) == LastIndexOf(prefix, c)
    {
    }
  }

  /** The columns load_data adds, empty, to a frame that lacks them. */
  const RequiredColumns: seq<string> :=
    ["Name", "Email", "Age", "Location", "Concerns", "Skin Score", "Routine", "Last Login", "Routine_Progress", "Streak"]

  function AddMissing(d: Dict<string>, header: seq<string>, cols: seq<string>): (r: Dict<string>)
    ensures forall c :: Get(r, c) == if c !in header && c in cols then Some("") else Get(d, c)
  {
    if cols == [] then d
    else
      var r := AddMissing(d, header, cols[..|cols| - 1]);
      assert forall c :: c in cols <==> c in cols[..|cols| - 1] || c == cols[|cols| - 1];
      if cols[|cols| - 1] in header then r else Put(r, cols[|cols| - 1], "")
  }

  /**
   * A data row as the data frame holds it: every header column with its cell,
   * and the required columns the header lacks with ''.
   */
  function RowRecord(header: seq<string>, row: seq<string>): (d: Dict<string>)
    ensures forall c :: c in header ==> Get(d, c) == Some(Cell(row, LastIndexOf(header, c)))
    ensures forall c :: c !in header ==> Get(d, c) == if c in RequiredColumns then Some("") else None
  {
    assert header[..|header|] == header;
    AddMissing(RecordOf(header, row, |header|), header, RequiredColumns)
  }

  /** A row's Email value as the data frame sees it. */
  function EmailOf(header: seq<string>, row: seq<string>): string {
    if EmailColumn in header then Cell(row, LastIndexOf(header, EmailColumn)) else ""
  }

  function FindUserFrom(rows: seq<seq<string>>, email: string, j: nat): (r: Option<nat>)
    requires 1 <= j <= |rows|
    ensures r.Some? ==> j <= r.value < |rows| && EmailOf(Header(rows), rows[r.value]) == email
    ensures r.Some? ==> forall k | j <= k < r.value :: EmailOf(Header(rows), rows[k]) != email
    ensures r.None? <==> forall k | j <= k < |rows| :: EmailOf(Header(rows), rows[k]) != email
    decreases |rows| - j
  {
    if j == |rows| then None
    else if EmailOf(Header(rows), rows[j]) == email then Some(j)
    else FindUserFrom(rows, email, j + 1)
  }

  /**
   * The position in rows of the first data row whose Email is email
   * (the data-frame index plus one; the sheet row number is one more).
   */
  function FindUser(rows: seq<seq<string>>, email: string): (r: Option<nat>)
    ensures r.Some? ==> 1 <= r.value < |rows| && EmailOf(Header(rows), rows[r.value]) == email
    ensures r.Some? ==> forall k | 1 <= k < r.value :: EmailOf(Header(rows), rows[k]) != email
    ensures r.None? <==> forall k | 1 <= k < |rows| :: EmailOf(Header(rows), rows[k]) != email
  {
    if rows == [] then None else FindUserFrom(rows, email, 1)
  }

  /** get_user_row: the record of the user's row, None for the empty dict of an unknown email. */
  function UserRecord(rows: seq<seq<string>>, email: string): (r: Option<Dict<string>>)
    ensures r.Some? <==> FindUser(rows, email).Some?
    ensures r.Some? ==> r.value == RowRecord(Header(rows), rows[FindUser(rows, email).value])
    ensures r.Some? ==> Get(r.value, EmailColumn) == Some(email)
  {
    match FindUser(rows, email)
    case None => None
    case Some(k) => Some(RowRecord(Header(rows), rows[k]))
  }

  /** row_values: the row without its trailing empty cells. */
  function TrimEnd(row: seq<string>): (r: seq<string>)
    ensures r <= row
    ensures r == [] || r[|r| - 1] != ""
    ensures forall k | |r| <= k < |row| :: row[k] == ""
  {
    if row != [] && row[|row| - 1] == "" then TrimEnd(row[..|row| - 1]) else row
  }

  /** Every updated column that the header has falls inside a row of this width. */
  predicate InRange(header: seq<string>, width: nat, updates: seq<Update>) {
    forall i | 0 <= i < |updates| :: updates[i].column in header ==> IndexOf(header, updates[i].column) < width
  }

  /** The overwriting loop: later updates are applied after earlier ones. */
  function Overwrite(header: seq<string>, row: seq<string>, updates: seq<Update>): (r: seq<string>)
    requires InRange(header, |row|, updates)
    ensures |r| == |row|
  {
    if updates == [] then row
    else
      var u := updates[|updates| - 1];
      var before := Overwrite(header, row, updates[..|updates| - 1]);
      if u.column in header then before[IndexOf(header, u.column) := Str(u.value)] else before
  }

  /** The text the last update aimed at column j writes there, if any update is. */
  function Written(header: seq<string>, updates: seq<Update>, j: nat): Option<string> {
    if updates == [] then None
    else
      var u := updates[|updates| - 1];
      if u.column in header && IndexOf(header, u.column) == j then Some(Str(u.value))
      else Written(header, updates[..|updates| - 1], j)
  }

  /** update_list.extend([''] * (n - len(update_list))) when the list is shorter than n. */
  function Pad(row: seq<string>, n: nat): (r: seq<string>)
    ensures |r| == if |row| < n then n else |row|
    ensures row <= r && forall k | |row| <= k < |r| :: r[k] == ""
  {
    if |row| < n then row + seq(n - |row|, _ => "") else row
  }

  /** Writing the list over the stored row: the cells right of the list keep their value. */
  function Overlay(written: seq<string>, stored: seq<string>): (r: seq<string>)
    ensures |r| == if |written| < |stored| then |stored| else |written|
    ensures written <= r && forall k | |written| <= k < |r| :: r[k] == stored[k]
  {
    if |written| < |stored| then written + stored[|written|..] else written
  }

  /** save_user_data on the sheet's rows: whether it returns True, and the rows afterwards. */
  function Save(rows: seq<seq<string>>, email: string, updates: seq<Update>): (r: (bool, seq<seq<string>>))
    ensures !r.0 ==> r.1 == rows
  {
    match FindUser(rows, email)
    case None => (false, rows)
    case Some(k) =>
      var header := SaveHeader(rows);
      var stored := TrimEnd(rows[k]);
      if !InRange(header, |stored|, updates) then (false, rows)
      else
        var written := Pad(Overwrite(header, stored, updates), |header|);
        if |written| > RangeWidth then (false, rows)
        else (true, rows[k := Overlay(written, rows[k])])
  }

  /**
   * The save fails, changing nothing, exactly when the email is unknown, when
   * an updated column lies beyond the stored part of the row (the IndexError
   * the try turns into False), or when the padded row is wider than the A:Z
   * range.
   */
  lemma SaveOutcome(rows: seq<seq<string>>, email: string, updates: seq<Update>)
    ensures FindUser(rows, email).None? ==> Save(rows, email, updates) == (false, rows)
    ensures Save(rows, email, updates).0 <==>
      && FindUser(rows, email).Some?
      && var stored := TrimEnd(rows[FindUser(rows, email).value]);
      && InRange(SaveHeader(rows), |stored|, updates)
      && |Pad(stored, |SaveHeader(rows)|)| <= RangeWidth
  {
  }

  /** A successful save rewrites the user's row only, and leaves it at least as long as the header. */
  lemma SaveOnlyUserRow(rows: seq<seq<string>>, email: string, updates: seq<Update>)
    requires Save(rows, email, updates).0
    ensures var k := FindUser(rows, email).value;
      var rows' := Save(rows, email, updates).1;
      && |rows'| == |rows|
      && (forall j | 0 <= j < |rows| && j != k :: rows'[j] == rows[j])
      && |rows'[k]| >= |SaveHeader(rows)|
  {
  }

  /** A cell of the overwritten row holds the update aimed at it, or what it held before. */
  lemma {:induction false} OverwriteCell(header: seq<string>, row: seq<string>, updates: seq<Update>, j: nat)
    requires InRange(header, |row|, updates) && j < |row|
    ensures Overwrite(header, row, updates)[j] == match Written(header, updates, j)
      case Some(t) => t
      case None => row[j]
  {
    if updates != [] {
      var init := updates[..|updates| - 1];
      assert InRange(header, |row|, init) by {
        forall i | 0 <= i < |init| ensures init[i] == updates[i] { }
      }
      OverwriteCell(header, row, init, j);
    }
  }

  /**
   * After a successful save each cell of the user's row holds str(value) of the
   * update aimed at its column (through the header's first matching index),
   * and every other cell holds what it held before (or '' where the row grew).
   */
  lemma SavedRowCells(rows: seq<seq<string>>, email: string, updates: seq<Update>, j: nat)
    requires Save(rows, email, updates).0
    ensures var k := FindUser(rows, email).value;
      var row := Save(rows, email, updates).1[k];
      j < |row| ==> row[j] == match Written(SaveHeader(rows), updates, j)
        case Some(t) => t
        case None => if j < |rows[k]| then rows[k][j] else ""
  {
    var k := FindUser(rows, email).value;
    var header := SaveHeader(rows);
    var stored := TrimEnd(rows[k]);
    var over := Overwrite(header, stored, updates);
    var row := Save(rows, email, updates).1[k];
    if j < |row| {
      if j < |stored| {
        OverwriteCell(header, stored, updates, j);
      } else {
        WrittenOutOfRange(header, |stored|, updates, j);
      }
    }
  }

  /** No update that fits the stored row aims at a column at or past its end. */
  lemma {:induction false} WrittenOutOfRange(header: seq<string>, width: nat, updates: seq<Update>, j: nat)
    requires InRange(header, width, updates) && j >= width
    ensures Written(header, updates, j).None?
  {
    if updates != [] {
      var init := updates[..|updates| - 1];
      assert InRange(header, width, init) by {
        forall i | 0 <= i < |init| ensures init[i] == updates[i] { }
      }
      WrittenOutOfRange(header, width, init, j);
    }
  }

  /** A column missing from the header is never written, whatever the update says. */
  lemma {:induction false} UnknownColumnIgnored(header: seq<string>, updates: seq<Update>, u: Update, j: nat)
    requires u.column !in header
    ensures Written(header, updates + [u], j) == Written(header, updates, j)
  {
    assert (updates + [u])[..|updates|] == updates;
  }

  /**
   * The loop of save_user_data over update_dict: each update to a header
   * column overwrites the cell at the column's first index; an index at or
   * past the row's end raises (None).
   */
  method OverwriteCells(header: seq<string>, stored: seq<string>, updates: seq<Update>) returns (r: Option<seq<string>>)
    ensures r.None? <==> !InRange(header, |stored|, updates)
    ensures r.Some? ==> r.value == Overwrite(header, stored, updates)
  {
    var updateList := stored;
    var i := 0;
    while i < |updates|
      invariant 0 <= i <= |updates|
      invariant InRange(header, |stored|, updates[..i])
      invariant updateList == Overwrite(header, stored, updates[..i])
    {
      var u := updates[i];
      assert updates[..i + 1][..i] == updates[..i];
      if u.column in header {
        var col := IndexOf(header, u.column);
        if col >= |updateList| {
          assert !InRange(header, |stored|, updates);
          return None;
        }
        updateList := updateList[col := Str(u.value)];
      }
      assert InRange(header, |stored|, updates[..i + 1]) by {
        forall j | 0 <= j < i + 1 ensures updates[..i + 1][j] == updates[j] { }
      }
      i := i + 1;
    }
    assert updates[..i] == updates;
    r := Some(updateList);
  }

  /** The Users worksheet: every row as its list of cells, the header first. */
  class Worksheet {
    var rows: seq<seq<string>>

    constructor (rows: seq<seq<string>>)
      ensures this.rows == rows
    {
      this.rows := rows;
    }

    /** worksheet.append_row. */
    method AppendRow(row: seq<string>)
      modifies this
      ensures rows == old(rows) + [row]
    {
      rows := rows + [row];
    }

    /** save_user_data(email, update_dict). */
    method SaveUserData(email: string, updates: seq<Update>) returns (ok: bool)
      modifies this
      ensures (ok, rows) == Save(old(rows), email, updates)
    {
      var user := FindUser(rows, email);
      if user.None? {
        return false;
      }
      var header := SaveHeader(rows);
      var stored := TrimEnd(rows[user.value]);
      var overwritten := OverwriteCells(header, stored, updates);
      if overwritten.None? {
        return false;
      }
      var updateList := overwritten.value;
      if |updateList| < |header| {
        updateList := updateList + seq(|header| - |updateList|, _ => "");
      }
      if |updateList| > RangeWidth {
        return false;
      }
      rows := rows[user.value := Overlay(updateList, rows[user.value])];
      ok := true;
    }
  }
}
