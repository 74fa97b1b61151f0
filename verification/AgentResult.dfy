/** The JSON that answers a read, and its budget of bytes. */
module AgentResult {
  import opened Text
  import opened JsonText

  const MAX_RESULT_BYTES := 32 * 1024
  const MAX_VALUE_CHARS := 500
  const CLOSING_MARGIN := 200

  datatype Column = Column(name: string, dataType: string)

  datatype ReadResult = ReadResult(columns: seq<Column>, rows: seq<seq<Json>>, more: bool)

  // ----- bytes -----

  /** The bytes of a character in UTF-8. */
  function CharSize(c: char): nat {
    if c < '\U{80}' then 1 else if c < '\U{800}' then 2 else if c < '\U{10000}' then 3 else 4
  }

  function Size(s: string): nat { SizeTo(s, |s|) }

  /** The bytes of the first `n` characters. */
  function SizeTo(s: string, n: nat): nat
    requires n <= |s|
  {
    if n == 0 then 0 else SizeTo(s, n - 1) + CharSize(s[n - 1])
  }

  lemma {:induction false} SizeOfStart(a: string, b: string, n: nat)
    requires n <= |a|
    ensures SizeTo(a + b, n) == SizeTo(a, n)
  {
    if n > 0 { SizeOfStart(a, b, n - 1); }
  }

  lemma {:induction false} SizeOfJoinedTo(a: string, b: string, n: nat)
    requires n <= |b|
    ensures SizeTo(a + b, |a| + n) == Size(a) + SizeTo(b, n)
  {
    if n == 0 {
      SizeOfStart(a, b, |a|);
    } else {
      SizeOfJoinedTo(a, b, n - 1);
      assert (a + b)[|a| + n - 1] == b[n - 1];
    }
  }

  lemma SizeOfJoined(a: string, b: string)
    ensures Size(a + b) == Size(a) + Size(b)
  {
    SizeOfJoinedTo(a, b, |b|);
  }

  lemma {:induction false} SizeOfAscii(s: string, n: nat)
    requires n <= |s| && forall k :: 0 <= k < n ==> s[k] < '\U{80}'
    ensures SizeTo(s, n) == n
  {
    if n > 0 { SizeOfAscii(s, n - 1); }
  }

  // ----- the answer, with the keys of an object in order -----

  function ColumnOf(column: Column): Json {
    Obj(Member("name", Str(column.name), Member("type", Str(column.dataType), NoMembers)))
  }

  function Columns(columns: seq<Column>, k: nat): Jsons
    decreases |columns| - k
  {
    if k >= |columns| then Nil else Cons(ColumnOf(columns[k]), Columns(columns, k + 1))
  }

  function Listed(values: seq<Json>, k: nat): Jsons
    decreases |values| - k
  {
    if k >= |values| then Nil else Cons(values[k], Listed(values, k + 1))
  }

  function Note(count: nat): string { "Only the first " + Digits(count) + " rows are shown." }

  function Counted(rows: seq<Json>, truncated: bool): Members {
    Member("rowCount", Number(Digits(|rows|)), Member("rows", Arr(Listed(rows, 0)),
      Member("truncated", Bool(truncated), NoMembers)))
  }

  function AnswerOf(columns: seq<Column>, rows: seq<Json>, truncated: bool): Json {
    Obj(Member("columns", Arr(Columns(columns, 0)),
      if truncated then Member("note", Str(Note(|rows|)), Counted(rows, true)) else Counted(rows, false)))
  }

  const HIDDEN: string := "The values of this connection are hidden: only column names and the row count are returned."

  function HiddenCounted(count: nat, more: bool): Members {
    Member("rowCount", Number(Digits(count)), Member("truncated", Bool(more),
      Member("valuesHidden", Bool(true), NoMembers)))
  }

  function HiddenOf(columns: seq<Column>, count: nat, more: bool): Json {
    Obj(Member("columns", Arr(Columns(columns, 0)), Member("note", Str(HIDDEN), HiddenCounted(count, more))))
  }

  /** The columns alone. */
  function HeadOf(columns: seq<Column>): Json { Obj(Member("columns", Arr(Columns(columns, 0)), NoMembers)) }

  // ----- values -----

  function LowerChar(c: char): char { if 'A' <= c <= 'Z' then ((c as int) + 32) as char else c }

  function Lower(s: string): string { seq(|s|, k requires 0 <= k < |s| => LowerChar(s[k])) }

  predicate IsBinary(column: Column) {
    var kind := Lower(column.dataType);
    IndexOf(kind, "bytea", 0) != -1 || IndexOf(kind, "blob", 0) != -1 || IndexOf(kind, "binary", 0) != -1
  }

  /** The size of what a text encodes; `decoded` says how many bytes there are in base64, if it is that. */
  function BinaryLength(text: string, decoded: string -> Option<nat>): nat {
    if MatchAt(text, "\\x", 0) then Size(text[2..]) / 2
    else match decoded(text) case Some(n) => n case None => Size(text)
  }

  function ShownText(text: string, column: Column, decoded: string -> Option<nat>): string {
    if IsBinary(column) then
      if MatchAt(text, "<binary ", 0) then text else "<binary " + Digits(BinaryLength(text, decoded)) + " bytes>"
    else if |text| > MAX_VALUE_CHARS then text[..MAX_VALUE_CHARS] + "…"
    else text
  }

  function ShownValue(v: Json, column: Column, decoded: string -> Option<nat>): Json {
    match v
    case Str(text) => Str(ShownText(text, column, decoded))
    case _ => v
  }

  /** Text is shown as it is exactly up to 500 characters, or when what is cut off is one ellipsis. */
  lemma ShownWhole(text: string, column: Column, decoded: string -> Option<nat>)
    requires !IsBinary(column)
    ensures |ShownText(text, column, decoded)| <= MAX_VALUE_CHARS + 1
    ensures ShownText(text, column, decoded) == text <==> |text| <= MAX_VALUE_CHARS || text[MAX_VALUE_CHARS..] == "…"
  {
    if |text| > MAX_VALUE_CHARS { assert text == text[..MAX_VALUE_CHARS] + text[MAX_VALUE_CHARS..]; }
  }

  /** Of binary values only the size is shown: those of the same size look the same. */
  lemma BinaryShowsItsSize(a: string, b: string, column: Column, decoded: string -> Option<nat>)
    requires IsBinary(column) && !MatchAt(a, "<binary ", 0) && !MatchAt(b, "<binary ", 0)
    requires BinaryLength(a, decoded) == BinaryLength(b, decoded)
    ensures ShownText(a, column, decoded) == ShownText(b, column, decoded)
  {}

  /** Two hexadecimal digits are one byte. */
  lemma HexIsMeasured(hex: string, bytes: nat, decoded: string -> Option<nat>)
    requires |hex| == 2 * bytes && forall k :: 0 <= k < |hex| ==> hex[k] < '\U{80}'
    ensures BinaryLength("\\x" + hex, decoded) == bytes
  {
    var text := "\\x" + hex;
    assert text[2..] == hex && MatchAt(text, "\\x", 0);
    SizeOfAscii(hex, |hex|);
  }

  /** The values of a row beside their columns, as far as both go. */
  function Cells(row: seq<Json>, columns: seq<Column>, k: nat, decoded: string -> Option<nat>): Jsons
    decreases |row| - k
  {
    if k >= |row| || k >= |columns| then Nil
    else Cons(ShownValue(row[k], columns[k], decoded), Cells(row, columns, k + 1, decoded))
  }

  function ShownRow(row: seq<Json>, columns: seq<Column>, decoded: string -> Option<nat>): Json {
    Arr(Cells(row, columns, 0, decoded))
  }

  function Shown(read: ReadResult, limit: nat): nat { if |read.rows| < limit then |read.rows| else limit }

  /** The first `n` rows. */
  function FirstRows(read: ReadResult, n: nat, decoded: string -> Option<nat>): seq<Json>
    requires n <= |read.rows|
  {
    seq(n, k requires 0 <= k < n => ShownRow(read.rows[k], read.columns, decoded))
  }

  // ----- the budget -----

  function HeadSize(read: ReadResult): nat { Size(Print(HeadOf(read.columns))) }

  function Sizes(read: ReadResult, decoded: string -> Option<nat>): seq<nat> {
    seq(|read.rows|, k requires 0 <= k < |read.rows| => Size(Print(ShownRow(read.rows[k], read.columns, decoded))))
  }

  /** What the first `n` rows take, each with a comma. */
  function Spent(sizes: seq<nat>, n: nat): nat
    requires n <= |sizes|
  {
    if n == 0 then 0 else Spent(sizes, n - 1) + sizes[n - 1] + 1
  }

  /** There is room for the first `n` rows. */
  predicate Fits(head: nat, sizes: seq<nat>, n: nat)
    requires n <= |sizes|
  {
    n == 0 || head + CLOSING_MARGIN + Spent(sizes, n) <= MAX_RESULT_BYTES
  }

  /** `n` is the most rows within the limit that there is room for. */
  ghost predicate Longest(head: nat, sizes: seq<nat>, limit: nat, n: nat) {
    && n <= |sizes| && n <= limit
    && Fits(head, sizes, n)
    && forall k {:trigger Fits(head, sizes, k)} :: n < k <= |sizes| && k <= limit ==> !Fits(head, sizes, k)
  }

  lemma {:induction false} MoreRowsTakeMore(sizes: seq<nat>, m: nat, n: nat)
    requires m <= n <= |sizes|
    ensures Spent(sizes, m) + (n - m) <= Spent(sizes, n)
    decreases n
  {
    if m < n { MoreRowsTakeMore(sizes, m, n - 1); }
  }

  /** There is no room for the next row, and so for none after it. */
  lemma NoRoomAfter(head: nat, sizes: seq<nat>, limit: nat, i: nat)
    requires i < |sizes| && i < limit && Fits(head, sizes, i) && !Fits(head, sizes, i + 1)
    ensures Longest(head, sizes, limit, i)
  {
    forall k | i < k <= |sizes| ensures !Fits(head, sizes, k) { MoreRowsTakeMore(sizes, i + 1, k); }
  }

  /** Only one number of rows is the most. */
  lemma LongestIsOne(head: nat, sizes: seq<nat>, limit: nat, m: nat, n: nat)
    requires Longest(head, sizes, limit, m) && Longest(head, sizes, limit, n)
    ensures m == n
  {
    assert Fits(head, sizes, m) && Fits(head, sizes, n);
  }

  lemma OneRowMore(read: ReadResult, i: nat, decoded: string -> Option<nat>)
    requires i < |read.rows|
    ensures var row, sizes := ShownRow(read.rows[i], read.columns, decoded), Sizes(read, decoded);
      && FirstRows(read, i + 1, decoded) == FirstRows(read, i, decoded) + [row]
      && |sizes| == |read.rows| && Spent(sizes, i + 1) == Spent(sizes, i) + Size(Print(row)) + 1
  {}

  /** The answer with the first `n` rows. */
  function AnswerTo(read: ReadResult, n: nat, decoded: string -> Option<nat>): string
    requires n <= |read.rows|
  {
    Print(AnswerOf(read.columns, FirstRows(read, n, decoded), read.more || n < |read.rows|))
  }

  /** The answer with as many rows as there is room for. */
  ghost predicate IsAnswer(read: ReadResult, limit: nat, decoded: string -> Option<nat>, out: string) {
    exists n: nat :: Longest(HeadSize(read), Sizes(read, decoded), limit, n) && out == AnswerTo(read, n, decoded)
  }

  /** The JSON for the agent: the most rows there is room for, and whether any row was left out. */
  method Answer(read: ReadResult, limit: nat, schemaOnly: bool, decoded: string -> Option<nat>) returns (out: string)
    ensures schemaOnly ==> out == Print(HiddenOf(read.columns, Shown(read, limit), read.more))
    ensures !schemaOnly ==> IsAnswer(read, limit, decoded, out)
  {
    var shown := Shown(read, limit);
    if schemaOnly { return Print(HiddenOf(read.columns, shown, read.more)); }
    var truncated := read.more || |read.rows| > limit;
    var size := HeadSize(read) + CLOSING_MARGIN;
    var rows: seq<Json> := [];
    ghost var head, sizes := HeadSize(read), Sizes(read, decoded);
    for i := 0 to shown
      invariant |rows| == i && rows == FirstRows(read, i, decoded) && Fits(head, sizes, i)
      invariant size == head + CLOSING_MARGIN + Spent(sizes, i)
      invariant truncated == (read.more || |read.rows| > limit)
    {
      var row := ShownRow(read.rows[i], read.columns, decoded);
      OneRowMore(read, i, decoded);
      size := size + Size(Print(row)) + 1;
      if size > MAX_RESULT_BYTES {
        truncated := true;
        NoRoomAfter(head, sizes, limit, i);
        break;
      }
      rows := rows + [row];
    }
    IsTheAnswer(read, limit, rows, truncated, decoded);
    out := Print(AnswerOf(read.columns, rows, truncated));
  }

  /** The rows and the flag that the loop ends with. */
  lemma IsTheAnswer(read: ReadResult, limit: nat, rows: seq<Json>, truncated: bool, decoded: string -> Option<nat>)
    requires Longest(HeadSize(read), Sizes(read, decoded), limit, |rows|) && rows == FirstRows(read, |rows|, decoded)
    requires truncated == (read.more || |rows| < |read.rows|)
    ensures IsAnswer(read, limit, decoded, Print(AnswerOf(read.columns, rows, truncated)))
  {
    assert AnswerTo(read, |rows|, decoded) == Print(AnswerOf(read.columns, rows, truncated));
  }

  // ----- the size of the whole -----

  /** What an answer without rows adds to the columns: the note, two counts and the keys, or one count and the keys. */
  function AroundNoRows(read: ReadResult): nat { if read.more || read.rows != [] then 82 else 41 }

  function Power(d: nat): nat { if d == 0 then 1 else 10 * Power(d - 1) }

  lemma {:induction false} DigitsAreFew(n: nat, d: nat)
    requires d > 0 && n < Power(d)
    ensures 1 <= Size(Digits(n)) <= d
    decreases d
  {
    var front, last := if n < 10 then "" else Digits(n / 10), ['0' + (n % 10) as char];
    SizeOfJoined(front, last);
    SizeOfAscii(last, |last|);
    if n >= 10 {
      assert d > 1;
      DigitsAreFew(n / 10, d - 1);
    }
  }

  // ----- the size of parts -----

  lemma SizeOfThree(a: string, b: string, c: string)
    ensures Size(a + b + c) == Size(a) + Size(b) + Size(c)
  {
    SizeOfJoined(a + b, c);
    SizeOfJoined(a, b);
  }

  lemma SizeOfMark(c: char)
    requires c < '\U{80}'
    ensures Size([c]) == 1
  {
    SizeOfAscii([c], 1);
  }

  lemma SizeInMarks(a: char, s: string, b: char)
    requires a < '\U{80}' && b < '\U{80}'
    ensures Size([a] + s + [b]) == Size(s) + 2
  {
    SizeOfThree([a], s, [b]);
    SizeOfMark(a);
    SizeOfMark(b);
  }

  /** A character that is not escaped, and takes one byte. */
  predicate IsPlain(c: char) { ' ' <= c < '\U{80}' && c != '"' && c != '\\' }

  predicate AllPlain(s: string) { forall k :: 0 <= k < |s| ==> IsPlain(s[k]) }

  lemma {:induction false} PlainIsItself(s: string)
    requires AllPlain(s)
    ensures EscapedAll(s) == s
  {
    if s != "" {
      assert IsPlain(s[0]);
      PlainIsItself(s[1..]);
      assert [s[0]] + s[1..] == s;
    }
  }

  lemma SizeOfPlain(s: string)
    requires AllPlain(s)
    ensures Size(Quoted(s)) == |s| + 2
  {
    PlainIsItself(s);
    forall k | 0 <= k < |s| ensures s[k] < '\U{80}' { assert IsPlain(s[k]); }
    SizeOfAscii(s, |s|);
    SizeInMarks('"', s, '"');
  }

  function Behind(more: Members): nat { if more.NoMembers? then 0 else 1 + Size(PrintMembers(more)) }

  lemma {:induction false} SizeOfMember(key: string, v: Json, more: Members)
    requires AllPlain(key)
    ensures Size(PrintMembers(Member(key, v, more))) == |key| + 3 + Size(Print(v)) + Behind(more)
  {
    var one := Quoted(key) + ":" + Print(v);
    SizeOfPlain(key);
    SizeOfMark(':');
    SizeOfThree(Quoted(key), ":", Print(v));
    if more.Member? {
      SizeOfMark(',');
      SizeOfThree(one, ",", PrintMembers(more));
    }
  }

  lemma {:induction false} SizeOfItem(v: Json, rest: Jsons)
    ensures Size(PrintItems(Cons(v, rest))) ==
      Size(Print(v)) + if rest.Nil? then 0 else 1 + Size(PrintItems(rest))
  {
    if rest.Cons? {
      SizeOfMark(',');
      SizeOfThree(Print(v), ",", PrintItems(rest));
    }
  }

  lemma SizeOfBool(b: bool)
    ensures Size(BoolText(b)) == if b then 4 else 5
  {
    SizeOfAscii(BoolText(b), |BoolText(b)|);
  }

  lemma PlainJoined(a: string, b: string)
    requires AllPlain(a) && AllPlain(b)
    ensures AllPlain(a + b)
  {}

  lemma {:induction false} DigitsArePlain(n: nat)
    ensures AllPlain(Digits(n)) && Size(Digits(n)) == |Digits(n)|
  {
    var digits := Digits(n);
    DigitsStandFor(n);
    forall k | 0 <= k < |digits| ensures IsPlain(digits[k]) { assert IsDigit(digits[k]); }
    SizeOfAscii(digits, |digits|);
  }

  lemma {:induction false} SizeOfNote(count: nat)
    ensures Size(Quoted(Note(count))) == 33 + Size(Digits(count))
  {
    var first, last := "Only the first ", " rows are shown.";
    DigitsArePlain(count);
    PlainJoined(first, Digits(count));
    PlainJoined(first + Digits(count), last);
    SizeOfPlain(first + Digits(count) + last);
  }

  lemma SizeOfArray(items: Jsons)
    ensures Size(Print(Arr(items))) == Size(PrintItems(items)) + 2
  {
    SizeInMarks('[', PrintItems(items), ']');
  }

  lemma SizeOfObject(members: Members)
    ensures Size(Print(Obj(members))) == Size(PrintMembers(members)) + 2
  {
    SizeInMarks('{', PrintMembers(members), '}');
  }

  // ----- the rows -----

  /** What the rows from `k` on take, each with a comma. */
  function SpentFrom(sizes: seq<nat>, k: nat): nat
    requires k <= |sizes|
    decreases |sizes| - k
  {
    if k == |sizes| then 0 else sizes[k] + 1 + SpentFrom(sizes, k + 1)
  }

  lemma {:induction false} SpentInParts(sizes: seq<nat>, n: nat, k: nat)
    requires k <= n <= |sizes|
    ensures Spent(sizes, n) == Spent(sizes, k) + SpentFrom(sizes[..n], k)
    decreases n - k
  {
    if k < n { SpentInParts(sizes, n, k + 1); }
  }

  ghost predicate AreSizes(sizes: seq<nat>, rows: seq<Json>) {
    |sizes| == |rows| && forall k :: 0 <= k < |rows| ==> sizes[k] == Size(Print(rows[k]))
  }

  lemma {:induction false} SizeOfListed(rows: seq<Json>, sizes: seq<nat>, k: nat)
    requires k <= |rows| && AreSizes(sizes, rows)
    ensures Size(PrintItems(Listed(rows, k))) == if k == |rows| then 0 else SpentFrom(sizes, k) - 1
    decreases |rows| - k
  {
    if k < |rows| {
      SizeOfListed(rows, sizes, k + 1);
      SizeOfItem(rows[k], Listed(rows, k + 1));
    }
  }

  lemma RowsTakeWhatIsSpent(read: ReadResult, n: nat, decoded: string -> Option<nat>)
    requires n <= |read.rows|
    ensures SizeOfRows(FirstRows(read, n, decoded)) == if n == 0 then 0 else Spent(Sizes(read, decoded), n) - 1
  {
    SizeOfListed(FirstRows(read, n, decoded), Sizes(read, decoded)[..n], 0);
    SpentInParts(Sizes(read, decoded), n, 0);
  }

  // ----- the answer -----

  function SizeOfRows(rows: seq<Json>): nat { Size(PrintItems(Listed(rows, 0))) }

  lemma {:induction false} SizeOfRowsMember(rows: seq<Json>, more: Members)
    ensures Size(PrintMembers(Member("rows", Arr(Listed(rows, 0)), more))) == 9 + SizeOfRows(rows) + Behind(more)
  {
    SizeOfMember("rows", Arr(Listed(rows, 0)), more);
    SizeOfArray(Listed(rows, 0));
  }

  lemma {:induction false} SizeOfCountMember(count: nat, more: Members)
    ensures Size(PrintMembers(Member("rowCount", Number(Digits(count)), more))) ==
      11 + Size(Digits(count)) + Behind(more)
  {
    SizeOfMember("rowCount", Number(Digits(count)), more);
  }

  lemma LastKeyIsPlain()
    ensures AllPlain("truncated") && |"truncated"| == 9
  {}

  lemma {:induction false} SizeOfFlag(key: string, flag: bool)
    requires AllPlain(key)
    ensures Size(PrintMembers(Member(key, Bool(flag), NoMembers))) == |key| + if flag then 7 else 8
  {
    SizeOfMember(key, Bool(flag), NoMembers);
    SizeOfBool(flag);
  }

  lemma {:induction false} SizeOfLastMember(truncated: bool)
    ensures Size(PrintMembers(Member("truncated", Bool(truncated), NoMembers))) == if truncated then 16 else 17
  {
    LastKeyIsPlain();
    SizeOfFlag("truncated", truncated);
  }

  lemma {:induction false} SizeOfCounted(rows: seq<Json>, truncated: bool)
    ensures Size(PrintMembers(Counted(rows, truncated))) ==
      Size(Digits(|rows|)) + SizeOfRows(rows) + if truncated then 38 else 39
  {
    var last := Member("truncated", Bool(truncated), NoMembers);
    SizeOfLastMember(truncated);
    SizeOfRowsMember(rows, last);
    SizeOfCountMember(|rows|, Member("rows", Arr(Listed(rows, 0)), last));
  }

  lemma SizeOfHead(columns: seq<Column>, more: Members)
    ensures Size(Print(Obj(Member("columns", Arr(Columns(columns, 0)), more)))) ==
      Size(Print(HeadOf(columns))) + Behind(more)
  {
    SizeOfMember("columns", Arr(Columns(columns, 0)), more);
    SizeOfMember("columns", Arr(Columns(columns, 0)), NoMembers);
    SizeOfObject(Member("columns", Arr(Columns(columns, 0)), more));
    SizeOfObject(Member("columns", Arr(Columns(columns, 0)), NoMembers));
  }

  /** What is around the rows: the note and two counts, or one count. */
  lemma {:induction false} SizeOfAnswer(columns: seq<Column>, rows: seq<Json>, truncated: bool)
    ensures Size(Print(AnswerOf(columns, rows, truncated))) ==
      Size(Print(HeadOf(columns))) + SizeOfRows(rows)
      + if truncated then 80 + 2 * Size(Digits(|rows|)) else 40 + Size(Digits(|rows|))
  {
    SizeOfCounted(rows, truncated);
    if truncated {
      SizeOfMember("note", Str(Note(|rows|)), Counted(rows, true));
      SizeOfNote(|rows|);
      SizeOfHead(columns, Member("note", Str(Note(|rows|)), Counted(rows, true)));
    } else {
      SizeOfHead(columns, Counted(rows, false));
    }
  }

  lemma {:induction false} FewDigits(sizes: seq<nat>, head: nat, n: nat)
    requires n <= |sizes| && Fits(head, sizes, n)
    ensures 1 <= Size(Digits(n)) <= 5 && (n == 0 ==> Size(Digits(n)) == 1)
  {
    MoreRowsTakeMore(sizes, 0, n);
    assert Power(5) == 100000;
    DigitsAreFew(n, 5);
    if n == 0 { DigitsAreFew(0, 1); }
  }

  /** The answer is within 32 KiB exactly when the columns leave room for an answer without rows. */
  lemma {:induction false} AnswerFits(read: ReadResult, limit: nat, decoded: string -> Option<nat>, out: string)
    requires IsAnswer(read, limit, decoded, out)
    ensures Size(out) <= MAX_RESULT_BYTES <==> HeadSize(read) + AroundNoRows(read) <= MAX_RESULT_BYTES
  {
    var sizes := Sizes(read, decoded);
    var n: nat :| Longest(HeadSize(read), sizes, limit, n) && out == AnswerTo(read, n, decoded);
    SizeOfAnswer(read.columns, FirstRows(read, n, decoded), read.more || n < |read.rows|);
    RowsTakeWhatIsSpent(read, n, decoded);
    FewDigits(sizes, HeadSize(read), n);
  }
}
