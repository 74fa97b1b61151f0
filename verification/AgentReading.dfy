/** What the agent reads in an answer: the text is read as JSON, and the JSON as columns, rows and counts. */
module AgentReading {
  import opened Text
  import opened JsonText
  import opened AgentResult

  ghost predicate AllPrintable(values: seq<Json>) { forall k :: 0 <= k < |values| ==> Printable(values[k]) }

  ghost predicate RowsPrintable(read: ReadResult) {
    forall k :: 0 <= k < |read.rows| ==> AllPrintable(read.rows[k])
  }

  lemma {:induction false} CellsArePrintable(row: seq<Json>, columns: seq<Column>, k: nat,
      decoded: string -> Option<nat>)
    requires AllPrintable(row)
    ensures ItemsPrintable(Cells(row, columns, k, decoded))
    decreases |row| - k
  {
    if k < |row| && k < |columns| { CellsArePrintable(row, columns, k + 1, decoded); }
  }

  lemma {:induction false} ListedArePrintable(values: seq<Json>, k: nat)
    requires AllPrintable(values)
    ensures ItemsPrintable(Listed(values, k))
    decreases |values| - k
  {
    if k < |values| { ListedArePrintable(values, k + 1); }
  }

  lemma ColumnIsPrintable(column: Column)
    ensures Printable(ColumnOf(column))
  {
    var last := Member("type", Str(column.dataType), NoMembers);
    assert MembersPrintable(last);
  }

  lemma {:induction false} ColumnsArePrintable(columns: seq<Column>, k: nat)
    ensures ItemsPrintable(Columns(columns, k))
    decreases |columns| - k
  {
    if k < |columns| {
      ColumnIsPrintable(columns[k]);
      ColumnsArePrintable(columns, k + 1);
    }
  }

  lemma OnePrintable(key: string, v: Json, more: Members)
    requires Printable(v) && MembersPrintable(more)
    ensures MembersPrintable(Member(key, v, more))
  {}

  lemma {:induction false} CountedArePrintable(rows: seq<Json>, truncated: bool)
    requires AllPrintable(rows)
    ensures MembersPrintable(Counted(rows, truncated))
  {
    ListedArePrintable(rows, 0);
    DigitsStandFor(|rows|);
    var last := Member("truncated", Bool(truncated), NoMembers);
    OnePrintable("truncated", Bool(truncated), NoMembers);
    OnePrintable("rows", Arr(Listed(rows, 0)), last);
    OnePrintable("rowCount", Number(Digits(|rows|)), Member("rows", Arr(Listed(rows, 0)), last));
  }

  lemma {:induction false} AnswerIsPrintable(columns: seq<Column>, rows: seq<Json>, truncated: bool)
    requires AllPrintable(rows)
    ensures Printable(AnswerOf(columns, rows, truncated))
  {
    ColumnsArePrintable(columns, 0);
    CountedArePrintable(rows, truncated);
    if truncated {
      OnePrintable("note", Str(Note(|rows|)), Counted(rows, true));
      OnePrintable("columns", Arr(Columns(columns, 0)), Member("note", Str(Note(|rows|)), Counted(rows, true)));
    } else {
      OnePrintable("columns", Arr(Columns(columns, 0)), Counted(rows, false));
    }
  }

  lemma {:induction false} HiddenIsPrintable(columns: seq<Column>, count: nat, more: bool)
    ensures Printable(HiddenOf(columns, count, more))
  {
    ColumnsArePrintable(columns, 0);
    DigitsStandFor(count);
    var last := Member("valuesHidden", Bool(true), NoMembers);
    OnePrintable("valuesHidden", Bool(true), NoMembers);
    OnePrintable("truncated", Bool(more), last);
    OnePrintable("rowCount", Number(Digits(count)), Member("truncated", Bool(more), last));
    OnePrintable("note", Str(HIDDEN), HiddenCounted(count, more));
    OnePrintable("columns", Arr(Columns(columns, 0)), Member("note", Str(HIDDEN), HiddenCounted(count, more)));
  }

  /** What the agent learns from an answer. */
  datatype Learned = Learned(
    columns: seq<Column>, rows: Option<seq<seq<Json>>>, rowCount: int, truncated: bool, noted: bool, hidden: bool)

  /** The member with a key. */
  function Get(members: Members, key: string): Option<Json> {
    if members.NoMembers? then None else if members.key == key then Some(members.value) else Get(members.more, key)
  }

  function TextAt(v: Json, key: string): Option<string> {
    if !v.Obj? then None
    else
      match Get(v.members, key)
      case Some(Str(text)) => Some(text)
      case _ => None
  }

  function ReadColumns(items: Jsons): Option<seq<Column>> {
    if items.Nil? then Some([])
    else
      var name, kind, rest := TextAt(items.head, "name"), TextAt(items.head, "type"), ReadColumns(items.tail);
      if name.Some? && kind.Some? && rest.Some? then Some([Column(name.value, kind.value)] + rest.value) else None
  }

  function ReadCells(items: Jsons): seq<Json> { if items.Nil? then [] else [items.head] + ReadCells(items.tail) }

  function ReadRows(items: Jsons): Option<seq<seq<Json>>> {
    if items.Nil? then Some([])
    else
      var rest := ReadRows(items.tail);
      if items.head.Arr? && rest.Some? then Some([ReadCells(items.head.items)] + rest.value) else None
  }

  function IsTrue(v: Option<Json>): bool { v == Some(Bool(true)) }

  function LearnFrom(members: Members): Option<Learned> {
    var columns, count, rows := Get(members, "columns"), Get(members, "rowCount"), Get(members, "rows");
    if columns.None? || !columns.value.Arr? || count.None? || !count.value.Number? || (rows.Some? && !rows.value.Arr?)
    then None
    else
      var named := ReadColumns(columns.value.items);
      var listed := if rows.None? then None else ReadRows(rows.value.items);
      if named.None? || (rows.Some? && listed.None?) then None
      else Some(Learned(named.value, listed, ValueOf(count.value.digits), IsTrue(Get(members, "truncated")),
        Get(members, "note").Some?, IsTrue(Get(members, "valuesHidden"))))
  }

  /** What the agent reads out of the text. */
  function Learn(text: string): Option<Learned> {
    match ReadJson(text)
    case Some(Obj(members)) => LearnFrom(members)
    case _ => None
  }

  lemma GetSkips(key: string, v: Json, more: Members, k: string)
    requires key != k
    ensures Get(Member(key, v, more), k) == Get(more, k)
  {}

  /** What is found among the counts. */
  lemma {:induction false} GetCounted(rows: seq<Json>, truncated: bool, k: string)
    ensures Get(Counted(rows, truncated), k) ==
      if k == "rowCount" then Some(Number(Digits(|rows|))) else if k == "rows" then Some(Arr(Listed(rows, 0)))
      else if k == "truncated" then Some(Bool(truncated)) else None
  {
    var last := Member("truncated", Bool(truncated), NoMembers);
    if k != "rowCount" {
      GetSkips("rowCount", Number(Digits(|rows|)), Member("rows", Arr(Listed(rows, 0)), last), k);
      if k != "rows" {
        GetSkips("rows", Arr(Listed(rows, 0)), last, k);
        if k != "truncated" { GetSkips("truncated", Bool(truncated), NoMembers, k); }
      }
    }
  }

  lemma {:induction false} GetHidden(count: nat, more: bool, k: string)
    ensures Get(HiddenCounted(count, more), k) ==
      if k == "rowCount" then Some(Number(Digits(count))) else if k == "truncated" then Some(Bool(more))
      else if k == "valuesHidden" then Some(Bool(true)) else None
  {
    var last := Member("valuesHidden", Bool(true), NoMembers);
    if k != "rowCount" {
      GetSkips("rowCount", Number(Digits(count)), Member("truncated", Bool(more), last), k);
      if k != "truncated" {
        GetSkips("truncated", Bool(more), last, k);
        if k != "valuesHidden" { GetSkips("valuesHidden", Bool(true), NoMembers, k); }
      }
    }
  }

  lemma ColumnIsLearned(c: Column)
    ensures TextAt(ColumnOf(c), "name") == Some(c.name) && TextAt(ColumnOf(c), "type") == Some(c.dataType)
  {
    var last := Member("type", Str(c.dataType), NoMembers);
    assert Get(last, "type") == Some(Str(c.dataType));
    GetSkips("name", Str(c.name), last, "type");
  }

  lemma {:induction false} ColumnsAreLearned(columns: seq<Column>, k: nat)
    requires k <= |columns|
    ensures ReadColumns(Columns(columns, k)) == Some(columns[k..])
    decreases |columns| - k
  {
    if k < |columns| {
      ColumnsAreLearned(columns, k + 1);
      ColumnIsLearned(columns[k]);
      assert Columns(columns, k) == Cons(ColumnOf(columns[k]), Columns(columns, k + 1));
      assert Column(columns[k].name, columns[k].dataType) == columns[k];
      assert columns[k..] == [columns[k]] + columns[k + 1..];
    } else {
      assert columns[k..] == [];
    }
  }

  /** The values of a row as they are shown. */
  function ShownCells(row: seq<Json>, columns: seq<Column>, decoded: string -> Option<nat>): seq<Json> {
    seq(if |row| < |columns| then |row| else |columns|, k requires 0 <= k < |row| && k < |columns| =>
      ShownValue(row[k], columns[k], decoded))
  }

  lemma {:induction false} CellsAreLearned(row: seq<Json>, columns: seq<Column>, k: nat, decoded: string -> Option<nat>)
    requires k <= |ShownCells(row, columns, decoded)|
    ensures ReadCells(Cells(row, columns, k, decoded)) == ShownCells(row, columns, decoded)[k..]
    decreases |row| - k
  {
    var shown := ShownCells(row, columns, decoded);
    if k < |shown| {
      CellsAreLearned(row, columns, k + 1, decoded);
      assert shown[k..] == [shown[k]] + shown[k + 1..];
    }
  }

  /** The first `n` rows as they are shown. */
  function ShownRows(read: ReadResult, n: nat, decoded: string -> Option<nat>): seq<seq<Json>>
    requires n <= |read.rows|
  {
    seq(n, k requires 0 <= k < n => ShownCells(read.rows[k], read.columns, decoded))
  }

  lemma {:induction false} RowsAreLearned(read: ReadResult, n: nat, k: nat, decoded: string -> Option<nat>)
    requires k <= n <= |read.rows|
    ensures ReadRows(Listed(FirstRows(read, n, decoded), k)) == Some(ShownRows(read, n, decoded)[k..])
    decreases n - k
  {
    var shown := ShownRows(read, n, decoded);
    if k < n {
      RowsAreLearned(read, n, k + 1, decoded);
      CellsAreLearned(read.rows[k], read.columns, 0, decoded);
      assert shown[k][0..] == shown[k];
      assert shown[k..] == [shown[k]] + shown[k + 1..];
    } else {
      assert shown[k..] == [];
    }
  }

  /**
   * From the answer the agent learns all columns, how many rows there are in it and which, each value as it is shown,
   * and whether there are more; a note comes exactly when there are.
   */
  lemma {:induction false} AnswerIsLearned(read: ReadResult, n: nat, decoded: string -> Option<nat>)
    requires n <= |read.rows| && RowsPrintable(read)
    ensures var more := read.more || n < |read.rows|;
      Learn(AnswerTo(read, n, decoded)) ==
        Some(Learned(read.columns, Some(ShownRows(read, n, decoded)), n, more, more, false))
  {
    var rows, more := FirstRows(read, n, decoded), read.more || n < |read.rows|;
    forall k | 0 <= k < n ensures Printable(rows[k]) { CellsArePrintable(read.rows[k], read.columns, 0, decoded); }
    AnswerIsPrintable(read.columns, rows, more);
    PrintedIsRead(AnswerOf(read.columns, rows, more));
    RowsAreLearned(read, n, 0, decoded);
    LearnsAnswer(read.columns, rows, more, ShownRows(read, n, decoded));
  }

  lemma {:induction false} GetInAnswer(columns: seq<Column>, rows: seq<Json>, truncated: bool, k: string)
    ensures Get(AnswerOf(columns, rows, truncated).members, k) ==
      if k == "columns" then Some(Arr(Columns(columns, 0)))
      else if k == "note" && truncated then Some(Str(Note(|rows|)))
      else if k == "rowCount" then Some(Number(Digits(|rows|)))
      else if k == "rows" then Some(Arr(Listed(rows, 0)))
      else if k == "truncated" then Some(Bool(truncated))
      else None
  {
    GetCounted(rows, truncated, k);
    var note := Member("note", Str(Note(|rows|)), Counted(rows, true));
    if k != "columns" {
      GetSkips("columns", Arr(Columns(columns, 0)), if truncated then note else Counted(rows, false), k);
      if truncated && k != "note" { GetSkips("note", Str(Note(|rows|)), Counted(rows, true), k); }
    }
  }

  /** What the members say one by one. */
  lemma {:induction false} LearnsMembers(members: Members, columns: seq<Column>, rows: Option<seq<seq<Json>>>,
      items: Jsons, count: nat)
    requires Get(members, "columns") == Some(Arr(Columns(columns, 0)))
    requires Get(members, "rowCount") == Some(Number(Digits(count)))
    requires Get(members, "rows") == if rows.None? then None else Some(Arr(items))
    requires rows.Some? ==> ReadRows(items) == rows
    ensures LearnFrom(members) ==
      Some(Learned(columns, rows, count, IsTrue(Get(members, "truncated")), Get(members, "note").Some?,
        IsTrue(Get(members, "valuesHidden"))))
  {
    ColumnsAreLearned(columns, 0);
    DigitsStandFor(count);
  }

  lemma {:induction false} LearnsAnswer(columns: seq<Column>, rows: seq<Json>, truncated: bool, shown: seq<seq<Json>>)
    requires ReadRows(Listed(rows, 0)) == Some(shown)
    ensures LearnFrom(AnswerOf(columns, rows, truncated).members) ==
      Some(Learned(columns, Some(shown), |rows|, truncated, truncated, false))
  {
    GetInAnswer(columns, rows, truncated, "columns");
    GetInAnswer(columns, rows, truncated, "rowCount");
    GetInAnswer(columns, rows, truncated, "rows");
    GetInAnswer(columns, rows, truncated, "truncated");
    GetInAnswer(columns, rows, truncated, "note");
    GetInAnswer(columns, rows, truncated, "valuesHidden");
    LearnsMembers(AnswerOf(columns, rows, truncated).members, columns, Some(shown), Listed(rows, 0), |rows|);
  }

  /** Where values are hidden it learns the columns and the counts alone. */
  lemma {:induction false} HiddenIsLearned(columns: seq<Column>, count: nat, more: bool)
    ensures Learn(Print(HiddenOf(columns, count, more))) == Some(Learned(columns, None, count, more, true, true))
  {
    HiddenIsPrintable(columns, count, more);
    PrintedIsRead(HiddenOf(columns, count, more));
    GetInHidden(columns, count, more, "columns");
    GetInHidden(columns, count, more, "rowCount");
    GetInHidden(columns, count, more, "rows");
    GetInHidden(columns, count, more, "truncated");
    GetInHidden(columns, count, more, "note");
    GetInHidden(columns, count, more, "valuesHidden");
    LearnsMembers(HiddenOf(columns, count, more).members, columns, None, Nil, count);
  }

  lemma {:induction false} GetInHidden(columns: seq<Column>, count: nat, more: bool, k: string)
    ensures Get(HiddenOf(columns, count, more).members, k) ==
      if k == "columns" then Some(Arr(Columns(columns, 0)))
      else if k == "note" then Some(Str(HIDDEN))
      else if k == "rowCount" then Some(Number(Digits(count)))
      else if k == "truncated" then Some(Bool(more))
      else if k == "valuesHidden" then Some(Bool(true))
      else None
  {
    GetHidden(count, more, k);
    var note := Member("note", Str(HIDDEN), HiddenCounted(count, more));
    if k != "columns" {
      GetSkips("columns", Arr(Columns(columns, 0)), note, k);
      if k != "note" { GetSkips("note", Str(HIDDEN), HiddenCounted(count, more), k); }
    }
  }
}
