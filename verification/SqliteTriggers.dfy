/** Scripts of triggers and other statements, from their tokens: each is one range. */
module SqliteTriggers {
  import opened Text
  import opened Statements
  import opened SqliteLexer
  import opened SqliteSplitter
  import opened SqliteStatements

  // ----- which statements are triggers -----

  datatype Lifetime = Lasting | Temp | Temporary

  /** How a trigger starts. */
  datatype Header = Header(explain: bool, lifetime: Lifetime)

  function Start(lifetime: Lifetime): seq<string> {
    match lifetime
    case Lasting => ["CREATE", "TRIGGER"]
    case Temp => ["CREATE", "TEMP", "TRIGGER"]
    case Temporary => ["CREATE", "TEMPORARY", "TRIGGER"]
  }

  function HeaderWords(header: Header): seq<string> {
    if header.explain then ["EXPLAIN"] + Start(header.lifetime) else Start(header.lifetime)
  }

  /** All names among the tokens. */
  function Names(h: History): seq<string> {
    match h
    case Empty => []
    case Then(before, last) => if last.Name? then Names(before) + [last.text] else Names(before)
  }

  /** The names start with one of the headers, and are three at least. */
  ghost predicate HasHeader(names: seq<string>) { |names| >= 3 && exists header :: HeaderWords(header) <= names }

  function FirstFour(names: seq<string>): seq<string> { if |names| <= 4 then names else names[..4] }

  lemma {:induction false} FirstWordsAreNames(h: History)
    ensures FirstWords(h) == FirstFour(Names(h))
  {
    if h.Then? { FirstWordsAreNames(h.before); }
  }

  lemma HeaderInFirstFour(names: seq<string>)
    ensures HasHeader(names) <==> HasHeader(FirstFour(names))
  {
    var four := FirstFour(names);
    assert four <= names;
    forall header | HeaderWords(header) <= names ensures HeaderWords(header) <= four {}
  }

  /** `IsTrigger` of the first words says that a statement starts with one of the headers. */
  lemma TriggersHaveAHeader(h: History)
    ensures IsTrigger(FirstWords(h)) <==> HasHeader(Names(h))
  {
    FirstWordsAreNames(h);
    HeaderInFirstFour(Names(h));
    HeaderOfFour(FirstFour(Names(h)));
  }

  lemma HeaderOfFour(words: seq<string>)
    requires |words| <= 4
    ensures IsTrigger(words) <==> HasHeader(words)
  {
    if IsTrigger(words) {
      var explain := words[0] == "EXPLAIN";
      var rest := if explain then words[1..] else words;
      var lifetime := if rest[1] == "TRIGGER" then Lasting else if rest[1] == "TEMP" then Temp else Temporary;
      assert Start(lifetime) <= rest;
      assert HeaderWords(Header(explain, lifetime)) <= words;
    }
  }

  // ----- triggers and other statements, as trees -----

  datatype Tokens = Nil | Cons(head: Token, tail: Tokens)

  /** Tokens in front of others. */
  function Followed(ts: Tokens, tail: Tokens): Tokens {
    match ts
    case Nil => tail
    case Cons(t, more) => Cons(t, Followed(more, tail))
  }

  /** The statements between BEGIN and END, one at least, each with its semicolon. */
  datatype Body = One(stmt: Tokens) | And(stmt: Tokens, more: Body)

  datatype Item = Plain(tokens: Tokens) | Trigger(header: Header, name: string, head: Tokens, body: Body)

  datatype Items = NoItems | Item(item: Item, more: Items)

  function HeaderTokens(header: Header, tail: Tokens): Tokens {
    var rest := Cons(Name("TRIGGER"), tail);
    var create := Cons(Name("CREATE"),
      match header.lifetime
      case Lasting => rest
      case Temp => Cons(Name("TEMP"), rest)
      case Temporary => Cons(Name("TEMPORARY"), rest));
    if header.explain then Cons(Name("EXPLAIN"), create) else create
  }

  function BodyTokens(b: Body, tail: Tokens): Tokens {
    Followed(b.stmt, Cons(Semi, if b.One? then tail else BodyTokens(b.more, tail)))
  }

  /** The tokens of a statement without its semicolon. */
  function ItemTokens(item: Item, tail: Tokens): Tokens {
    match item
    case Plain(ts) => Followed(ts, tail)
    case Trigger(header, name, head, body) => HeaderTokens(header, Cons(Name(name),
      Followed(head, Cons(Name("BEGIN"), BodyTokens(body, Cons(Name("END"), tail))))))
  }

  predicate NoSemi(ts: Tokens) { ts.Cons? ==> ts.head != Semi && NoSemi(ts.tail) }

  const END_ALONE := Cons(Name("END"), Nil)

  /** No statement behind a semicolon is an END, which would close the trigger. */
  predicate BodyOk(b: Body, first: bool) {
    NoSemi(b.stmt) && (first || b.stmt != END_ALONE) && (b.And? ==> BodyOk(b.more, false))
  }

  function Append(h: History, ts: Tokens): History
    decreases ts
  {
    match ts
    case Nil => h
    case Cons(t, more) => Append(Then(h, t), more)
  }

  /** A token that starts with a visible character. */
  predicate Visible(t: Token) { t.Mark? || (t.Name? && t.text != "" && !IsSpace(t.text[0])) }

  ghost predicate ItemOk(item: Item) {
    match item
    case Plain(ts) => NoSemi(ts) && ts.Cons? && Visible(ts.head) && !HasHeader(Names(Append(Empty, ts)))
    case Trigger(_, _, head, body) => NoSemi(head) && BodyOk(body, true)
  }

  ghost predicate ItemsOk(items: Items) { items.Item? ==> ItemOk(items.item) && ItemsOk(items.more) }

  // ----- no semicolon inside separates, the one behind does -----

  /** The tokens of the statement behind `ts`, if no semicolon of them separates. */
  function Passed(h: History, ts: Tokens): Option<History>
    decreases ts
  {
    match ts
    case Nil => Some(h)
    case Cons(t, more) => if t == Semi && Separates(h) then None else Passed(Then(h, t), more)
  }

  lemma {:induction false} PassTokens(h: History, ts: Tokens, tail: Tokens)
    requires NoSemi(ts)
    ensures Passed(h, Followed(ts, tail)) == Passed(Append(h, ts), tail)
    decreases ts
  {
    if ts.Cons? { PassTokens(Then(h, ts.head), ts.tail, tail); }
  }

  lemma {:induction false} StaysATrigger(h: History, ts: Tokens)
    requires IsTrigger(FirstWords(h))
    ensures IsTrigger(FirstWords(Append(h, ts)))
    decreases ts
  {
    if ts.Cons? {
      TriggerStays(h, ts.head);
      StaysATrigger(Then(h, ts.head), ts.tail);
    }
  }

  /** Behind a statement of the body that is no END on its own there is no END right behind a semicolon. */
  lemma {:induction false} NotAfterSemiEnd(h: History, ts: Tokens)
    requires NoSemi(ts) && !AfterSemiEnd(h) && (AfterSemi(h) ==> ts != END_ALONE)
    ensures !AfterSemiEnd(Append(h, ts))
    decreases ts
  {
    if ts.Cons? {
      if ts.tail.Cons? {
        TwoTokens(Then(h, ts.head), ts.tail);
      } else {
        assert Append(h, ts) == Then(h, ts.head);
      }
    }
  }

  lemma {:induction false} TwoTokens(h: History, ts: Tokens)
    requires NoSemi(ts) && ts.Cons? && !AfterSemi(h)
    ensures !AfterSemiEnd(Append(h, ts))
    decreases ts
  {
    var next := Then(h, ts.head);
    if ts.tail.Cons? { TwoTokens(next, ts.tail); } else { assert Append(h, ts) == next; }
  }

  lemma {:induction false} PassBody(h: History, b: Body, tail: Tokens) returns (g: History)
    requires IsTrigger(FirstWords(h)) && !AfterSemiEnd(h) && BodyOk(b, !AfterSemi(h))
    ensures AfterSemi(g) && IsTrigger(FirstWords(g)) && Passed(h, BodyTokens(b, tail)) == Passed(g, tail)
    decreases b
  {
    var after := Append(h, b.stmt);
    var rest := if b.One? then tail else BodyTokens(b.more, tail);
    PassTokens(h, b.stmt, Cons(Semi, rest));
    StaysATrigger(h, b.stmt);
    NotAfterSemiEnd(h, b.stmt);
    g := Then(after, Semi);
    TriggerStays(after, Semi);
    if b.And? { g := PassBody(g, b.more, tail); }
  }

  lemma PassHeader(header: Header, name: string, tail: Tokens) returns (g: History)
    ensures IsTrigger(FirstWords(g)) && Passed(Empty, HeaderTokens(header, Cons(Name(name), tail))) == Passed(g, tail)
  {
    var create := Then(if header.explain then Then(Empty, Name("EXPLAIN")) else Empty, Name("CREATE"));
    var lasting := match header.lifetime
      case Lasting => create
      case Temp => Then(create, Name("TEMP"))
      case Temporary => Then(create, Name("TEMPORARY"));
    var rest := Cons(Name("TRIGGER"), Cons(Name(name), tail));
    g := Then(Then(lasting, Name("TRIGGER")), Name(name));
    assert Passed(lasting, rest) == Passed(g, tail);
    assert Passed(create, match header.lifetime
      case Lasting => rest
      case Temp => Cons(Name("TEMP"), rest)
      case Temporary => Cons(Name("TEMPORARY"), rest)) == Passed(lasting, rest);
    HeaderIsRead(header, create, lasting, name);
  }

  lemma HeaderIsRead(header: Header, create: History, lasting: History, name: string)
    requires create == Then(if header.explain then Then(Empty, Name("EXPLAIN")) else Empty, Name("CREATE"))
    requires lasting == match header.lifetime
      case Lasting => create
      case Temp => Then(create, Name("TEMP"))
      case Temporary => Then(create, Name("TEMPORARY"))
    ensures IsTrigger(FirstWords(Then(Then(lasting, Name("TRIGGER")), Name(name))))
  {
    var words := HeaderWords(header);
    assert Names(create) == if header.explain then ["EXPLAIN", "CREATE"] else ["CREATE"];
    assert Names(Then(lasting, Name("TRIGGER"))) == words;
    assert words <= words + [name];
    TriggersHaveAHeader(Then(Then(lasting, Name("TRIGGER")), Name(name)));
  }

  lemma PassItem(item: Item, tail: Tokens) returns (g: History)
    requires ItemOk(item)
    ensures Passed(Empty, ItemTokens(item, tail)) == Passed(g, tail) && Separates(g)
  {
    match item
    case Plain(ts) =>
      PassTokens(Empty, ts, tail);
      g := Append(Empty, ts);
      TriggersHaveAHeader(g);
    case Trigger(header, name, head, body) =>
      var end := Cons(Name("END"), tail);
      var begin := Cons(Name("BEGIN"), BodyTokens(body, end));
      g := PassHeader(header, name, Followed(head, begin));
      PassTokens(g, head, begin);
      StaysATrigger(g, head);
      g := Append(g, head);
      TriggerStays(g, Name("BEGIN"));
      g := PassBody(Then(g, Name("BEGIN")), body, end);
      g := Then(g, Name("END"));
  }

  // ----- in the text -----

  /** Reading from `i` comes to `p` with exactly the tokens `ts`. */
  ghost predicate Gives(sql: string, i: nat, ts: Tokens, p: nat)
    requires i <= |sql|
    decreases |sql| - i
  {
    (ts.Nil? && i == p) ||
    (i < |sql| &&
      match LexemeAt(sql, i)
      case Gap => Gives(sql, LexemeEnd(sql, i), ts, p)
      case Significant(t) => ts.Cons? && t == ts.head && Gives(sql, LexemeEnd(sql, i), ts.tail, p))
  }

  ghost predicate SemicolonAt(sql: string, p: nat) { p < |sql| && LexemeAt(sql, p) == Significant(Semi) }

  /** The script from `i` on has these statements, each with its semicolon, and no open comment behind the last. */
  ghost predicate ReadsAs(sql: string, i: nat, items: Items)
    requires i <= |sql|
    decreases items
  {
    match items
    case NoItems => Gives(sql, i, Nil, |sql|) && !ShowsFrom(sql, i, |sql|)
    case Item(item, more) =>
      exists p: nat :: Gives(sql, i, ItemTokens(item, Nil), p) && SemicolonAt(sql, p) && ReadsAs(sql, p + 1, more)
  }

  /** Each statement has one range: its text, up to its semicolon. */
  ghost predicate AreTheItems(sql: string, i: nat, items: Items, ranges: seq<Range>)
    requires i <= |sql|
    decreases items
  {
    match items
    case NoItems => ranges == []
    case Item(item, more) =>
      ranges != [] && exists p: nat ::
        && Gives(sql, i, ItemTokens(item, Nil), p) && SemicolonAt(sql, p)
        && i <= p && Piece(sql, i, p, HasStatementText) == Some(ranges[0]) && AreTheItems(sql, p + 1, more, ranges[1..])
  }

  lemma {:induction false} ReadOver(sql: string, cuts: set<nat>, i: nat, h: History, ts: Tokens, p: nat, g: History)
    requires Ahead(sql, cuts, i, h) && Gives(sql, i, ts, p) && Passed(h, ts) == Some(g)
    ensures i <= p <= |sql| && Ahead(sql, cuts, p, g) && forall k: nat :: i <= k < p ==> k !in cuts
    decreases |sql| - i
  {
    if !(ts.Nil? && i == p) {
      if LexemeAt(sql, i).Gap? {
        AheadPastGap(sql, cuts, i, h);
        ReadOver(sql, cuts, LexemeEnd(sql, i), h, ts, p, g);
      } else {
        AheadPastToken(sql, cuts, i, h, ts.head);
        ReadOver(sql, cuts, LexemeEnd(sql, i), Then(h, ts.head), ts.tail, p, g);
      }
    }
  }

  /** The first visible token is in the stretch. */
  lemma {:induction false} FirstShows(sql: string, i: nat, ts: Tokens, p: nat)
    requires i <= |sql| && Gives(sql, i, ts, p) && ts.Cons? && Visible(ts.head)
    ensures i < p <= |sql| && Boundary(sql, i, p) && ShowsFrom(sql, i, p)
    decreases |sql| - i
  {
    if LexemeAt(sql, i).Gap? {
      FirstShows(sql, LexemeEnd(sql, i), ts, p);
    } else {
      ReadsBoundaries(sql, LexemeEnd(sql, i), ts.tail, p);
      TokenIsVisible(sql, i, ts.head);
    }
  }

  lemma {:induction false} ReadsBoundaries(sql: string, i: nat, ts: Tokens, p: nat)
    requires i <= |sql| && Gives(sql, i, ts, p)
    ensures i <= p <= |sql| && Boundary(sql, i, p)
    decreases |sql| - i
  {
    if !(ts.Nil? && i == p) {
      ReadsBoundaries(sql, LexemeEnd(sql, i), if LexemeAt(sql, i).Gap? then ts else ts.tail, p);
    }
  }

  lemma {:induction false} TokenIsVisible(sql: string, i: nat, t: Token)
    requires i < |sql| && LexemeAt(sql, i) == Significant(t) && Visible(t)
    ensures VisibleAt(sql, i)
  {
    if IsSpace(sql[i]) {
      BlankStart(sql, i);
      var text := sql[i..WordEnd(sql, i + 1)];
      assert t.text[0] == UpperChar(text[0]) == UpperChar(sql[i]);
      if 'a' <= sql[i] <= 'z' { NotSpace(sql[i]); }
    }
  }

  lemma FirstToken(item: Item)
    requires ItemOk(item)
    ensures var ts := ItemTokens(item, Nil); ts.Cons? && Visible(ts.head)
  {
    if item.Trigger? {
      NotSpace('C');
      NotSpace('E');
    }
  }

  /** One statement of the script, which ends at `p`. */
  lemma {:induction false} ItemIsRead(sql: string, cuts: set<nat>, i: nat, item: Item, p: nat)
    requires ItemOk(item) && Ahead(sql, cuts, i, Empty) && Gives(sql, i, ItemTokens(item, Nil), p)
    requires SemicolonAt(sql, p)
    ensures i <= p && p in cuts && Ahead(sql, cuts, p + 1, Empty) && forall k: nat :: i <= k < p ==> k !in cuts
  {
    var g := PassItem(item, Nil);
    ReadOver(sql, cuts, i, Empty, ItemTokens(item, Nil), p, g);
    AheadPastToken(sql, cuts, p, g, Semi);
    assert LexemeEnd(sql, p) == p + 1;
  }

  /** Its range. */
  lemma {:induction false} ItemIsCut(sql: string, cuts: set<nat>, i: nat, item: Item, p: nat)
    requires ItemOk(item) && Ahead(sql, cuts, i, Empty) && Gives(sql, i, ItemTokens(item, Nil), p)
    requires SemicolonAt(sql, p)
    ensures i <= p && Piece(sql, i, p, HasStatementText).Some?
    ensures Chunks(sql, i, i, cuts, HasStatementText) == [Piece(sql, i, p, HasStatementText).value]
      + Chunks(sql, p + 1, p + 1, cuts, HasStatementText)
  {
    ItemIsRead(sql, cuts, i, item, p);
    FirstToken(item);
    FirstShows(sql, i, ItemTokens(item, Nil), p);
    KeptWhenItShows(sql, i, p);
    ChunksSkip(sql, i, i, p, cuts, HasStatementText);
  }

  lemma {:induction false} NothingIsLeft(sql: string, cuts: set<nat>, i: nat)
    requires Ahead(sql, cuts, i, Empty) && Gives(sql, i, Nil, |sql|) && !ShowsFrom(sql, i, |sql|)
    ensures Chunks(sql, i, i, cuts, HasStatementText) == []
  {
    ReadOver(sql, cuts, i, Empty, Nil, |sql|, Empty);
    ChunksSkip(sql, i, i, |sql|, cuts, HasStatementText);
    ReadsBoundaries(sql, i, Nil, |sql|);
    KeptWhenItShows(sql, i, |sql|);
  }

  function Count(items: Items): nat { if items.NoItems? then 0 else 1 + Count(items.more) }

  lemma {:induction false} OneMoreItem(sql: string, i: nat, p: nat, items: Items, r: Range, later: seq<Range>)
    requires items.Item? && i <= p < |sql| && Gives(sql, i, ItemTokens(items.item, Nil), p) && SemicolonAt(sql, p)
    requires Piece(sql, i, p, HasStatementText) == Some(r) && AreTheItems(sql, p + 1, items.more, later)
    ensures AreTheItems(sql, i, items, [r] + later)
  {
    var all := [r] + later;
    assert all[1..] == later && all[0] == r;
  }

  /** Where the first statement ends. */
  lemma {:induction false} FirstEnd(sql: string, i: nat, items: Items) returns (p: nat)
    requires i <= |sql| && items.Item? && ReadsAs(sql, i, items)
    ensures Gives(sql, i, ItemTokens(items.item, Nil), p) && SemicolonAt(sql, p) && ReadsAs(sql, p + 1, items.more)
  {
    p :| Gives(sql, i, ItemTokens(items.item, Nil), p) && SemicolonAt(sql, p) && ReadsAs(sql, p + 1, items.more);
  }

  ghost function RangesFrom(sql: string, i: nat, cuts: set<nat>): seq<Range>
    requires i <= |sql|
  {
    Chunks(sql, i, i, cuts, HasStatementText)
  }

  /** The script from `i` on is split into its statements. */
  ghost predicate SplitsInto(sql: string, cuts: set<nat>, i: nat, items: Items)
    requires i <= |sql|
  {
    AreTheItems(sql, i, items, RangesFrom(sql, i, cuts)) && |RangesFrom(sql, i, cuts)| == Count(items)
  }

  lemma {:induction false} SplitItem(sql: string, cuts: set<nat>, i: nat, items: Items, p: nat)
    requires items.Item? && ItemOk(items.item) && Ahead(sql, cuts, i, Empty)
    requires Gives(sql, i, ItemTokens(items.item, Nil), p) && SemicolonAt(sql, p)
    requires SplitsInto(sql, cuts, p + 1, items.more)
    ensures SplitsInto(sql, cuts, i, items)
  {
    ItemIsCut(sql, cuts, i, items.item, p);
    var r, later := Piece(sql, i, p, HasStatementText).value, RangesFrom(sql, p + 1, cuts);
    OneMoreItem(sql, i, p, items, r, later);
    assert RangesFrom(sql, i, cuts) == [r] + later;
  }

  lemma {:induction false} SplitItems(sql: string, cuts: set<nat>, i: nat, items: Items)
    requires Ahead(sql, cuts, i, Empty) && ReadsAs(sql, i, items) && ItemsOk(items)
    ensures SplitsInto(sql, cuts, i, items)
    decreases items
  {
    if items.NoItems? {
      NothingIsLeft(sql, cuts, i);
    } else {
      var p := FirstEnd(sql, i, items);
      ItemIsRead(sql, cuts, i, items.item, p);
      SplitItems(sql, cuts, p + 1, items.more);
      SplitItem(sql, cuts, i, items, p);
    }
  }

  /**
   * A script of triggers, each with its header, a head, BEGIN, statements with their semicolons and END, and of other
   * statements is split into exactly one range for each of them.
   */
  lemma OneRangePerStatement(sql: string, items: Items)
    requires ReadsAs(sql, 0, items) && ItemsOk(items)
    ensures AreTheItems(sql, 0, items, SplitAtSeparators(sql)) && |SplitAtSeparators(sql)| == Count(items)
  {
    SplitItems(sql, Cuts(sql, 0, Empty), 0, items);
  }
}
