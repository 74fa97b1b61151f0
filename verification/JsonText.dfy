/** JSON values, how they are printed, and how they are read (RFC 8259). */
module JsonText {
  import opened Text
  import opened Statements

  /** A number is what it is printed as. */
  datatype Json =
    | Null | Bool(value: bool) | Number(digits: string) | Str(text: string) | Arr(items: Jsons) | Obj(members: Members)

  datatype Jsons = Nil | Cons(head: Json, tail: Jsons)

  datatype Members = NoMembers | Member(key: string, value: Json, more: Members)

  // ----- printing -----

  function HexDigit(n: nat): char
    requires n < 16
  {
    if n < 10 then '0' + n as char else 'a' + (n - 10) as char
  }

  function Escaped(c: char): string {
    if c == '"' then "\\\""
    else if c == '\\' then "\\\\"
    else if c == '\U{8}' then "\\b"
    else if c == '\t' then "\\t"
    else if c == '\n' then "\\n"
    else if c == '\U{C}' then "\\f"
    else if c == '\r' then "\\r"
    else if c < ' ' then "\\u00" + [HexDigit(c as int / 16), HexDigit(c as int % 16)]
    else [c]
  }

  function EscapedAll(s: string): string { if s == "" then "" else Escaped(s[0]) + EscapedAll(s[1..]) }

  function Quoted(s: string): string { "\"" + EscapedAll(s) + "\"" }

  function BoolText(b: bool): string { if b then "true" else "false" }

  function Print(v: Json): string {
    match v
    case Null => "null"
    case Bool(b) => BoolText(b)
    case Number(digits) => digits
    case Str(text) => Quoted(text)
    case Arr(items) => "[" + PrintItems(items) + "]"
    case Obj(members) => "{" + PrintMembers(members) + "}"
  }

  function PrintItems(items: Jsons): string {
    match items
    case Nil => ""
    case Cons(v, rest) => if rest.Nil? then Print(v) else Print(v) + "," + PrintItems(rest)
  }

  function PrintMembers(members: Members): string {
    match members
    case NoMembers => ""
    case Member(key, v, rest) =>
      var one := Quoted(key) + ":" + Print(v);
      if rest.NoMembers? then one else one + "," + PrintMembers(rest)
  }

  function Digits(n: nat): string { (if n < 10 then "" else Digits(n / 10)) + ['0' + (n % 10) as char] }

  // ----- reading -----

  /** What was read and where to go on. */
  datatype Parsed<+T> = Failed | Parsed(value: T, next: nat)

  predicate CharAt(s: string, i: nat, c: char) { i < |s| && s[i] == c }

  function HexValue(c: char): Option<nat> {
    if '0' <= c <= '9' then Some((c - '0') as nat)
    else if 'a' <= c <= 'f' then Some((c - 'a') as nat + 10)
    else if 'A' <= c <= 'F' then Some((c - 'A') as nat + 10)
    else None
  }

  /** The character that four hexadecimal digits stand for; half of a surrogate pair is none. */
  function FourDigits(s: string, i: nat): Parsed<char> {
    if i + 4 > |s| || HexValue(s[i]).None? || HexValue(s[i + 1]).None? || HexValue(s[i + 2]).None?
      || HexValue(s[i + 3]).None? then Failed
    else
      var high := HexValue(s[i]).value * 16 + HexValue(s[i + 1]).value;
      var code := high * 256 + HexValue(s[i + 2]).value * 16 + HexValue(s[i + 3]).value;
      if 0 <= code < 0xD800 || 0xE000 <= code < 0x1_0000 then Parsed(code as char, i + 4) else Failed
  }

  /** What follows a backslash. */
  function ReadEscape(s: string, i: nat): (r: Parsed<char>)
    ensures r.Parsed? ==> i < r.next <= |s|
  {
    if i >= |s| then Failed
    else if s[i] == '"' || s[i] == '\\' || s[i] == '/' then Parsed(s[i], i + 1)
    else if s[i] == 'b' then Parsed('\U{8}', i + 1)
    else if s[i] == 't' then Parsed('\t', i + 1)
    else if s[i] == 'n' then Parsed('\n', i + 1)
    else if s[i] == 'f' then Parsed('\U{C}', i + 1)
    else if s[i] == 'r' then Parsed('\r', i + 1)
    else if s[i] == 'u' then FourDigits(s, i + 1)
    else Failed
  }

  function Before(c: char, rest: Parsed<string>): Parsed<string> {
    if rest.Parsed? then Parsed([c] + rest.value, rest.next) else Failed
  }

  /** A character of a string, escaped or not; control characters have to be escaped. */
  function ReadChar(s: string, i: nat): (r: Parsed<char>)
    ensures r.Parsed? ==> i < r.next <= |s|
  {
    if i >= |s| || s[i] < ' ' then Failed
    else if s[i] == '\\' then ReadEscape(s, i + 1)
    else Parsed(s[i], i + 1)
  }

  /** The rest of a string, past its closing quote. */
  function ReadString(s: string, i: nat): (r: Parsed<string>)
    ensures r.Parsed? ==> i < r.next <= |s|
    decreases |s| - i
  {
    if CharAt(s, i, '"') then Parsed("", i + 1)
    else
      var c := ReadChar(s, i);
      if c.Failed? then Failed else Before(c.value, ReadString(s, c.next))
  }

  /** A key, past its colon. */
  function ReadKey(s: string, i: nat): (r: Parsed<string>)
    ensures r.Parsed? ==> i < r.next <= |s|
  {
    if !CharAt(s, i, '"') then Failed
    else
      var key := ReadString(s, i + 1);
      if key.Parsed? && CharAt(s, key.next, ':') then Parsed(key.value, key.next + 1) else Failed
  }

  predicate NumberChar(c: char) { IsDigit(c) || c == '-' || c == '+' || c == '.' || c == 'e' || c == 'E' }

  function NumberEnd(s: string, i: nat): (e: nat)
    requires i <= |s|
    ensures i <= e <= |s|
    decreases |s| - i
  {
    if i < |s| && NumberChar(s[i]) then NumberEnd(s, i + 1) else i
  }

  function ReadValue(s: string, i: nat): (r: Parsed<Json>)
    ensures r.Parsed? ==> i < r.next <= |s|
    decreases |s| - i, 0
  {
    if i >= |s| then Failed
    else if s[i] == '"' then
      var text := ReadString(s, i + 1);
      if text.Failed? then Failed else Parsed(Str(text.value), text.next)
    else if s[i] == '[' then
      if CharAt(s, i + 1, ']') then Parsed(Arr(Nil), i + 2)
      else
        var items := ReadItems(s, i + 1);
        if items.Failed? then Failed else Parsed(Arr(items.value), items.next)
    else if s[i] == '{' then
      if CharAt(s, i + 1, '}') then Parsed(Obj(NoMembers), i + 2)
      else
        var members := ReadMembers(s, i + 1);
        if members.Failed? then Failed else Parsed(Obj(members.value), members.next)
    else if MatchAt(s, "null", i) then Parsed(Null, i + 4)
    else if MatchAt(s, "true", i) then Parsed(Bool(true), i + 4)
    else if MatchAt(s, "false", i) then Parsed(Bool(false), i + 5)
    else
      var e := NumberEnd(s, i);
      if i < e then Parsed(Number(s[i..e]), e) else Failed
  }

  /** The values of an array, past its closing bracket. */
  function ReadItems(s: string, i: nat): (r: Parsed<Jsons>)
    ensures r.Parsed? ==> i < r.next <= |s|
    decreases |s| - i, 1
  {
    var v := ReadValue(s, i);
    if v.Failed? || v.next >= |s| then Failed
    else if s[v.next] == ']' then Parsed(Cons(v.value, Nil), v.next + 1)
    else if s[v.next] != ',' then Failed
    else
      var rest := ReadItems(s, v.next + 1);
      if rest.Failed? then Failed else Parsed(Cons(v.value, rest.value), rest.next)
  }

  /** The members of an object, past its closing brace. */
  function ReadMembers(s: string, i: nat): (r: Parsed<Members>)
    ensures r.Parsed? ==> i < r.next <= |s|
    decreases |s| - i, 1
  {
    var key := ReadKey(s, i);
    if key.Failed? then Failed
    else
      var v := ReadValue(s, key.next);
      if v.Failed? || v.next >= |s| then Failed
      else if s[v.next] == '}' then Parsed(Member(key.value, v.value, NoMembers), v.next + 1)
      else if s[v.next] != ',' then Failed
      else
        var rest := ReadMembers(s, v.next + 1);
        if rest.Failed? then Failed else Parsed(Member(key.value, v.value, rest.value), rest.next)
  }

  /** The value that a whole text is. */
  function ReadJson(s: string): Option<Json> {
    var v := ReadValue(s, 0);
    if v.Parsed? && v.next == |s| then Some(v.value) else None
  }

  // ----- what was printed is read -----

  predicate IsNumber(digits: string) {
    digits != "" && (forall k :: 0 <= k < |digits| ==> NumberChar(digits[k]))
      && digits[0] != 'e' && digits[0] != 'E'
  }

  /** Its numbers are printed as numbers. */
  predicate Printable(v: Json) {
    match v
    case Number(digits) => IsNumber(digits)
    case Arr(items) => ItemsPrintable(items)
    case Obj(members) => MembersPrintable(members)
    case _ => true
  }

  predicate ItemsPrintable(items: Jsons) {
    items.Cons? ==> Printable(items.head) && ItemsPrintable(items.tail)
  }

  predicate MembersPrintable(members: Members) {
    members.Member? ==> Printable(members.value) && MembersPrintable(members.more)
  }

  lemma HexIsRead(n: nat)
    requires n < 16
    ensures HexValue(HexDigit(n)) == Some(n)
  {}

  lemma {:induction false} CodeIsRead(s: string, i: nat, c: char)
    requires c < ' ' && FoundAt("\\u00" + [HexDigit(c as int / 16), HexDigit(c as int % 16)], s, i)
    ensures s[i] == '\\' && ReadEscape(s, i + 1) == Parsed(c, i + 6)
  {
    var text := "\\u00" + [HexDigit(c as int / 16), HexDigit(c as int % 16)];
    assert s[i + 0] == text[0] && s[i + 1] == text[1] && s[i + 2] == text[2] && s[i + 3] == text[3];
    assert s[i + 4] == text[4] && s[i + 5] == text[5];
    HexIsRead(0);
    HexIsRead(c as int / 16);
    HexIsRead(c as int % 16);
  }

  /** A character that was escaped or not. */
  lemma {:induction false} CharIsRead(s: string, i: nat, c: char)
    requires FoundAt(Escaped(c), s, i)
    ensures !CharAt(s, i, '"') && ReadChar(s, i) == Parsed(c, i + |Escaped(c)|)
  {
    var text := Escaped(c);
    assert s[i + 0] == text[0];
    if |text| == 6 { CodeIsRead(s, i, c); } else if |text| == 2 { assert s[i + 1] == text[1]; }
  }

  /** The escaped text lies in the text from `i` to `e`. */
  ghost predicate EscapedLies(s: string, i: nat, text: string, e: nat) {
    FoundAt(EscapedAll(text), s, i) && e == i + |EscapedAll(text)|
  }

  lemma {:induction false} FirstCharIsRead(s: string, i: nat, text: string, e: nat) returns (m: nat)
    requires text != "" && EscapedLies(s, i, text, e)
    ensures !CharAt(s, i, '"') && ReadChar(s, i) == Parsed(text[0], m) && EscapedLies(s, m, text[1..], e)
  {
    var one := Escaped(text[0]);
    FoundInParts(one, EscapedAll(text[1..]), s, i);
    CharIsRead(s, i, text[0]);
    m := i + |one|;
  }

  lemma {:induction false} OneCharMore(s: string, i: nat, text: string, m: nat, e: nat)
    requires text != "" && !CharAt(s, i, '"') && ReadChar(s, i) == Parsed(text[0], m)
    requires ReadString(s, m) == Parsed(text[1..], e)
    ensures ReadString(s, i) == Parsed(text, e)
  {
    assert [text[0]] + text[1..] == text;
  }

  lemma {:induction false} StringIsRead(s: string, i: nat, text: string, e: nat)
    requires EscapedLies(s, i, text, e) && CharAt(s, e, '"')
    ensures ReadString(s, i) == Parsed(text, e + 1)
    decreases |text|
  {
    if text != "" {
      var m := FirstCharIsRead(s, i, text, e);
      StringIsRead(s, m, text[1..], e);
      OneCharMore(s, i, text, m, e + 1);
    }
  }

  lemma {:induction false} QuotedIsRead(s: string, i: nat, text: string)
    requires FoundAt(Quoted(text), s, i)
    ensures CharAt(s, i, '"') && ReadString(s, i + 1) == Parsed(text, i + |Quoted(text)|)
  {
    var inner := EscapedAll(text);
    FoundInParts("\"" + inner, "\"", s, i);
    FoundInParts("\"", inner, s, i);
    MarkFound(s, i, '"');
    MarkFound(s, i + 1 + |inner|, '"');
    StringIsRead(s, i + 1, text, i + 1 + |inner|);
  }

  lemma MarkFound(s: string, i: nat, c: char)
    requires FoundAt([c], s, i)
    ensures CharAt(s, i, c)
  {
    assert s[i + 0] == [c][0];
  }

  /** A number does not go on. */
  predicate Stops(s: string, i: nat) { i < |s| ==> !NumberChar(s[i]) }

  lemma {:induction false} NumberEndIs(s: string, i: nat, e: nat)
    requires i <= e <= |s| && Stops(s, e) && forall k :: i <= k < e ==> NumberChar(s[k])
    ensures NumberEnd(s, i) == e
    decreases e - i
  {
    if i < e { NumberEndIs(s, i + 1, e); }
  }

  lemma MatchStarts(s: string, pat: string, i: nat)
    requires pat != ""
    ensures MatchAt(s, pat, i) ==> CharAt(s, i, pat[0])
  {
    if MatchAt(s, pat, i) { assert s[i + 0] == pat[0]; }
  }

  lemma {:induction false} NumberIsRead(s: string, i: nat, digits: string)
    requires IsNumber(digits) && FoundAt(digits, s, i) && Stops(s, i + |digits|)
    ensures ReadValue(s, i) == Parsed(Number(digits), i + |digits|)
  {
    var e := i + |digits|;
    forall k | i <= k < e ensures NumberChar(s[k]) { assert s[i + (k - i)] == digits[k - i]; }
    assert s[i + 0] == digits[0];
    MatchStarts(s, "null", i);
    MatchStarts(s, "true", i);
    MatchStarts(s, "false", i);
    NumberEndIs(s, i, e);
    assert s[i..e] == digits by {
      forall k | 0 <= k < |digits| ensures s[i..e][k] == digits[k] { assert s[i + k] == digits[k]; }
    }
  }

  lemma WordIsRead(s: string, i: nat, v: Json)
    requires (v.Null? || v.Bool?) && FoundAt(Print(v), s, i)
    ensures ReadValue(s, i) == Parsed(v, i + |Print(v)|)
  {
    var text := Print(v);
    assert s[i + 0] == text[0];
    assert MatchAt(s, text, i);
    MatchStarts(s, "null", i);
    MatchStarts(s, "true", i);
    MatchStarts(s, "false", i);
  }

  /** How a printed value starts: not with what closes or separates. */
  lemma PrintStarts(v: Json)
    requires Printable(v)
    ensures Print(v) != "" && Print(v)[0] != ']' && Print(v)[0] != '}'
  {
    if v.Number? { assert NumberChar(v.digits[0]); }
  }

  /** The printed value lies in the text from `i` to `m`. */
  ghost predicate Lies(s: string, i: nat, v: Json, m: nat) { FoundAt(Print(v), s, i) && m == i + |Print(v)| }

  ghost predicate ItemsLie(s: string, i: nat, items: Jsons, e: nat) {
    FoundAt(PrintItems(items), s, i) && e == i + |PrintItems(items)|
  }

  ghost predicate MembersLie(s: string, i: nat, members: Members, e: nat) {
    FoundAt(PrintMembers(members), s, i) && e == i + |PrintMembers(members)|
  }

  lemma {:induction false} ArrayLies(s: string, i: nat, items: Jsons, m: nat)
    requires Lies(s, i, Arr(items), m) && ItemsPrintable(items)
    ensures m > i + 1 && CharAt(s, i, '[') && ItemsLie(s, i + 1, items, m - 1) && CharAt(s, m - 1, ']')
    ensures items.Cons? ==> !CharAt(s, i + 1, ']')
  {
    var inner := PrintItems(items);
    FoundInParts("[" + inner, "]", s, i);
    FoundInParts("[", inner, s, i);
    MarkFound(s, i, '[');
    MarkFound(s, i + 1 + |inner|, ']');
    if items.Cons? {
      PrintStarts(items.head);
      assert s[i + 1 + 0] == inner[0];
    }
  }

  lemma {:induction false} ObjectLies(s: string, i: nat, members: Members, m: nat)
    requires Lies(s, i, Obj(members), m)
    ensures m > i + 1 && CharAt(s, i, '{') && MembersLie(s, i + 1, members, m - 1) && CharAt(s, m - 1, '}')
    ensures members.Member? ==> !CharAt(s, i + 1, '}')
  {
    var inner := PrintMembers(members);
    FoundInParts("{" + inner, "}", s, i);
    FoundInParts("{", inner, s, i);
    MarkFound(s, i, '{');
    MarkFound(s, i + 1 + |inner|, '}');
    if members.Member? { assert s[i + 1 + 0] == inner[0]; }
  }

  lemma {:induction false} HeadLies(s: string, i: nat, items: Jsons, e: nat) returns (m: nat)
    requires items.Cons? && ItemsLie(s, i, items, e)
    ensures Lies(s, i, items.head, m)
    ensures items.tail.Nil? ==> m == e
    ensures items.tail.Cons? ==> CharAt(s, m, ',') && ItemsLie(s, m + 1, items.tail, e)
  {
    var one, rest := Print(items.head), items.tail;
    m := i + |one|;
    if rest.Cons? {
      FoundInParts(one + ",", PrintItems(rest), s, i);
      FoundInParts(one, ",", s, i);
      MarkFound(s, m, ',');
    }
  }

  /** What comes behind a member: the next one or the end. */
  ghost predicate GoesOn(s: string, m: nat, more: Members, e: nat) {
    if more.NoMembers? then m == e else CharAt(s, m, ',') && MembersLie(s, m + 1, more, e)
  }

  lemma {:induction false} FirstLies(s: string, i: nat, members: Members, one: string, e: nat)
    requires members.Member? && MembersLie(s, i, members, e)
    requires one == Quoted(members.key) + ":" + Print(members.value)
    ensures FoundAt(one, s, i) && GoesOn(s, i + |one|, members.more, e)
  {
    var rest := members.more;
    if rest.Member? {
      FoundInParts(one + ",", PrintMembers(rest), s, i);
      FoundInParts(one, ",", s, i);
      MarkFound(s, i + |one|, ',');
    }
  }

  lemma {:induction false} MemberLies(s: string, i: nat, key: string, v: Json) returns (k: nat, m: nat)
    requires FoundAt(Quoted(key) + ":" + Print(v), s, i)
    ensures ReadKey(s, i) == Parsed(key, k) && Lies(s, k, v, m) && m == i + |Quoted(key) + ":" + Print(v)|
  {
    var quoted, text := Quoted(key), Print(v);
    FoundInParts(quoted + ":", text, s, i);
    FoundInParts(quoted, ":", s, i);
    k := i + |quoted| + 1;
    m := k + |text|;
    MarkFound(s, i + |quoted|, ':');
    QuotedIsRead(s, i, key);
  }

  lemma {:induction false} LeafIsRead(s: string, i: nat, v: Json, m: nat)
    requires !v.Arr? && !v.Obj? && Printable(v) && Lies(s, i, v, m) && Stops(s, m)
    ensures ReadValue(s, i) == Parsed(v, m)
  {
    match v
    case Null => WordIsRead(s, i, v);
    case Bool(_) => WordIsRead(s, i, v);
    case Number(digits) => NumberIsRead(s, i, digits);
    case Str(text) => QuotedIsRead(s, i, text);
  }

  lemma {:induction false} LastItem(s: string, i: nat, v: Json, m: nat)
    requires ReadValue(s, i) == Parsed(v, m) && CharAt(s, m, ']')
    ensures ReadItems(s, i) == Parsed(Cons(v, Nil), m + 1)
  {}

  lemma {:induction false} OneItemMore(s: string, i: nat, v: Json, m: nat, rest: Jsons, e: nat)
    requires ReadValue(s, i) == Parsed(v, m) && CharAt(s, m, ',') && ReadItems(s, m + 1) == Parsed(rest, e)
    ensures ReadItems(s, i) == Parsed(Cons(v, rest), e)
  {}

  /** What comes behind a member is read. */
  predicate MoreIsRead(s: string, m: nat, more: Members, e: nat) {
    if more.NoMembers? then CharAt(s, m, '}') && m == e
    else CharAt(s, m, ',') && ReadMembers(s, m + 1) == Parsed(more, e + 1)
  }

  lemma {:induction false} OneMemberMore(s: string, i: nat, members: Members, k: nat, m: nat, e: nat)
    requires members.Member? && ReadKey(s, i) == Parsed(members.key, k) && ReadValue(s, k) == Parsed(members.value, m)
    requires MoreIsRead(s, m, members.more, e)
    ensures ReadMembers(s, i) == Parsed(members, e + 1)
  {}

  /** Any value is read back, whatever comes after it that does not go on with a number. */
  lemma {:induction false} ValueIsRead(s: string, i: nat, v: Json, m: nat)
    requires Printable(v) && Lies(s, i, v, m) && Stops(s, m)
    ensures ReadValue(s, i) == Parsed(v, m)
    decreases v, 2
  {
    match v
    case Arr(items) =>
      ArrayLies(s, i, items, m);
      if items.Cons? { ItemsAreRead(s, i + 1, items, m - 1); }
    case Obj(members) =>
      ObjectLies(s, i, members, m);
      if members.Member? { MembersAreRead(s, i + 1, members, m - 1); }
    case _ => LeafIsRead(s, i, v, m);
  }

  lemma {:induction false} ItemsAreRead(s: string, i: nat, items: Jsons, e: nat)
    requires items.Cons? && ItemsPrintable(items) && ItemsLie(s, i, items, e) && CharAt(s, e, ']')
    ensures ReadItems(s, i) == Parsed(items, e + 1)
    decreases items, 0
  {
    var m := HeadLies(s, i, items, e);
    ValueIsRead(s, i, items.head, m);
    if items.tail.Nil? {
      LastItem(s, i, items.head, m);
    } else {
      ItemsAreRead(s, m + 1, items.tail, e);
      OneItemMore(s, i, items.head, m, items.tail, e + 1);
    }
  }

  lemma {:induction false} FirstIsRead(s: string, i: nat, members: Members, e: nat) returns (k: nat, m: nat)
    requires members.Member? && MembersPrintable(members) && MembersLie(s, i, members, e) && CharAt(s, e, '}')
    ensures ReadKey(s, i) == Parsed(members.key, k) && ReadValue(s, k) == Parsed(members.value, m)
    ensures GoesOn(s, m, members.more, e)
    decreases members, 0
  {
    FirstLies(s, i, members, Quoted(members.key) + ":" + Print(members.value), e);
    k, m := MemberLies(s, i, members.key, members.value);
    ValueIsRead(s, k, members.value, m);
  }

  lemma {:induction false} MembersAreRead(s: string, i: nat, members: Members, e: nat)
    requires members.Member? && MembersPrintable(members) && MembersLie(s, i, members, e) && CharAt(s, e, '}')
    ensures ReadMembers(s, i) == Parsed(members, e + 1)
    decreases members, 1
  {
    var k, m := FirstIsRead(s, i, members, e);
    RestIsRead(s, m, members.more, e);
    OneMemberMore(s, i, members, k, m, e);
  }

  lemma {:induction false} RestIsRead(s: string, m: nat, more: Members, e: nat)
    requires GoesOn(s, m, more, e) && CharAt(s, e, '}') && MembersPrintable(more)
    ensures MoreIsRead(s, m, more, e)
    decreases more, 2
  {
    if more.Member? { MembersAreRead(s, m + 1, more, e); }
  }

  /** The text of any value is read as that value. */
  lemma PrintedIsRead(v: Json)
    requires Printable(v)
    ensures ReadJson(Print(v)) == Some(v)
  {
    FoundWhole(Print(v));
    ValueIsRead(Print(v), 0, v, |Print(v)|);
  }

  // ----- decimal numbers -----

  /** What digits stand for, from left to right. */
  function ValueOf(digits: string): int
  {
    if digits == "" then 0 else ValueOf(digits[..|digits| - 1]) * 10 + (digits[|digits| - 1] as int - '0' as int)
  }

  /** A number is printed in digits that stand for it, with no zero in front. */
  lemma {:induction false} DigitsStandFor(n: nat)
    ensures ValueOf(Digits(n)) == n && IsNumber(Digits(n))
    ensures forall k :: 0 <= k < |Digits(n)| ==> IsDigit(Digits(n)[k])
    ensures n > 0 ==> Digits(n)[0] != '0'
  {
    var front := if n < 10 then "" else Digits(n / 10);
    if n >= 10 { DigitsStandFor(n / 10); }
    assert Digits(n)[..|Digits(n)| - 1] == front;
  }
}
