/** A script of routines is split into its routines. */
module MysqlScripts {
  import opened Text
  import opened Statements
  import opened MysqlLexer
  import opened MysqlRoutines
  import opened MysqlSplitter
  import opened MysqlStatements
  import opened MysqlGrammar
  import opened MysqlBodies
  import opened MysqlShapes
  import opened MysqlLosses

  // ----- the header -----

  /** `part` are the first tokens of a header that has `syms` at `i`. */
  predicate HasSyms(part: seq<Sym>, i: nat, syms: seq<Sym>) {
    forall k {:trigger syms[k]} :: 0 <= k < |syms| && i + k < |part| ==> part[i + k] == syms[k]
  }

  lemma FirstSym(part: seq<Sym>, i: nat, syms: seq<Sym>)
    requires HasSyms(part, i, syms) && syms != []
    ensures i < |part| ==> part[i] == syms[0]
  {
    if i < |part| { assert part[i + 0] == syms[0]; }
  }

  lemma UserIsRead(part: seq<Sym>, i: nat, u: Owner, next: Keyword)
    requires UserOk(u) && HasSyms(part, i, UserSyms(u)) && next !in {CURRENT_USER}
    requires i + |UserSyms(u)| < |part| ==> part[i + |UserSyms(u)|] == Word(next)
    ensures User(part, i) == At(i + |UserSyms(u)|) || (|part| <= i + |UserSyms(u)| && User(part, i) == TooFew)
  {
    var syms := UserSyms(u);
    if i < |part| { assert part[i + 0] == syms[0]; }
    if i + 1 < |part| && 1 < |syms| { assert part[i + 1] == syms[1]; }
    if i + 2 < |part| && 2 < |syms| { assert part[i + 2] == syms[2]; }
  }

  lemma DefinerIsRead(part: seq<Sym>, i: nat, definer: Option<Owner>, next: Keyword)
    requires (definer.Some? ==> UserOk(definer.value)) && HasSyms(part, i, DefinerSyms(definer))
    requires next !in {CURRENT_USER, DEFINER}
    requires i + |DefinerSyms(definer)| < |part| ==> part[i + |DefinerSyms(definer)|] == Word(next)
    ensures var end := i + |DefinerSyms(definer)|;
      Definer(part, i) == At(end) || (|part| <= end && Definer(part, i) == TooFew)
  {
    if definer.Some? {
      var syms, user := DefinerSyms(definer), UserSyms(definer.value);
      if i < |part| { assert part[i + 0] == syms[0]; }
      if i + 1 < |part| { assert part[i + 1] == syms[1]; }
      forall k {:trigger user[k]} | 0 <= k < |user| && i + 2 + k < |part| ensures part[i + 2 + k] == user[k] {
        assert part[i + (2 + k)] == syms[2 + k];
      }
      UserIsRead(part, i + 2, definer.value, next);
    }
  }

  lemma PartsOfAHeader(h: Header, part: seq<Sym>)
    requires part <= HeaderSyms(h)
    ensures HasSyms(part, 0, [Word(CREATE)] + OrSyms(h.orReplace))
    ensures var i := 1 + |OrSyms(h.orReplace)|;
      && HasSyms(part, i, DefinerSyms(h.definer))
      && HasSyms(part, i + |DefinerSyms(h.definer)|, KindSyms(h.aggregate, h.kind))
      && i + |DefinerSyms(h.definer)| + |KindSyms(h.aggregate, h.kind)| == |HeaderSyms(h)|
  {
    assert HeaderSyms(h) == [Word(CREATE)] + OrSyms(h.orReplace) + DefinerSyms(h.definer)
      + KindSyms(h.aggregate, h.kind);
  }

  lemma OrReplaceIsRead(part: seq<Sym>, orReplace: bool)
    requires HasSyms(part, 0, [Word(CREATE)] + OrSyms(orReplace)) && part != []
    requires var i := 1 + |OrSyms(orReplace)|; i < |part| ==> part[i] != Word(OR)
    ensures HasWord(part, 0, CREATE)
    ensures var i := 1 + |OrSyms(orReplace)|;
      OrReplace(part, 1) == At(i) || (|part| <= i && OrReplace(part, 1) == TooFew)
  {
    var syms := [Word(CREATE)] + OrSyms(orReplace);
    assert part[0 + 0] == syms[0];
    if 1 < |part| && orReplace { assert part[0 + 1] == syms[1]; }
    if 2 < |part| && orReplace { assert part[0 + 2] == syms[2]; }
  }

  lemma KindIsRead(part: seq<Sym>, i: nat, aggregate: bool, kind: Keyword)
    requires HasSyms(part, i, KindSyms(aggregate, kind)) && kind in {PROCEDURE, FUNCTION, TRIGGER, EVENT}
    ensures RoutineKind(part, i) == if |part| < i + |KindSyms(aggregate, kind)| then Option.None else Some(true)
  {
    var syms := KindSyms(aggregate, kind);
    if i < |part| { assert part[i + 0] == syms[0]; }
    if i + 1 < |part| && aggregate { assert part[i + 1] == syms[1]; }
  }

  /** What comes after the `CREATE [OR REPLACE]`: the start of a definer, or of what comes after it. */
  lemma NextPart(h: Header, part: seq<Sym>, i: nat)
    requires HeaderOk(h) && HasSyms(part, i, DefinerSyms(h.definer))
    requires HasSyms(part, i + |DefinerSyms(h.definer)|, KindSyms(h.aggregate, h.kind))
    ensures i < |part| ==> part[i] != Word(OR)
    ensures var j := i + |DefinerSyms(h.definer)|; j < |part| ==> part[j] == KindSyms(h.aggregate, h.kind)[0]
  {
    FirstSym(part, i + |DefinerSyms(h.definer)|, KindSyms(h.aggregate, h.kind));
    if h.definer.Some? { FirstSym(part, i, DefinerSyms(h.definer)); }
  }

  /** The first tokens of a header are too few to tell; all of them tell. */
  lemma {:induction false} HeaderIsRecognised(h: Header, part: seq<Sym>)
    requires HeaderOk(h) && part <= HeaderSyms(h)
    ensures RoutineHeader(part) == if |part| < |HeaderSyms(h)| then Option.None else Some(true)
  {
    if part != [] {
      PartsOfAHeader(h, part);
      var i := 1 + |OrSyms(h.orReplace)|;
      var j := i + |DefinerSyms(h.definer)|;
      NextPart(h, part, i);
      OrReplaceIsRead(part, h.orReplace);
      RestIsRecognised(h, part, i, j);
    }
  }

  /** The header from the definer on. */
  lemma {:induction false} RestIsRecognised(h: Header, part: seq<Sym>, i: nat, j: nat)
    requires HeaderOk(h) && HasSyms(part, i, DefinerSyms(h.definer)) && HasSyms(part, j, KindSyms(h.aggregate, h.kind))
    requires j == i + |DefinerSyms(h.definer)| && j + |KindSyms(h.aggregate, h.kind)| == |HeaderSyms(h)|
    requires j < |part| ==> part[j] == KindSyms(h.aggregate, h.kind)[0]
    requires HasWord(part, 0, CREATE) && (OrReplace(part, 1) == At(i) || (|part| <= i && OrReplace(part, 1) == TooFew))
    ensures RoutineHeader(part) == if |part| < |HeaderSyms(h)| then Option.None else Some(true)
  {
    DefinerIsRead(part, i, h.definer, KindSyms(h.aggregate, h.kind)[0].word);
    KindIsRead(part, j, h.aggregate, h.kind);
  }

  /** Tokens as a text has them: a mark right before a `=` has that as the next token. */
  predicate MarksAreRead(part: seq<Sym>) {
    forall k :: 0 <= k < |part| && part[k].Punct? && part[k].beforeEq && k + 1 < |part| ==> HasPunct(part, k + 1, '=')
  }

  /** `part` has `syms` at `i`. */
  predicate HasAll(part: seq<Sym>, i: nat, syms: seq<Sym>) { i + |syms| <= |part| && HasSyms(part, i, syms) }

  lemma UserIsFound(part: seq<Sym>, i: nat, j: nat) returns (u: Owner)
    requires MarksAreRead(part) && User(part, i) == At(j) && j < |part| && part[j].Word?
    ensures UserOk(u) && HasAll(part, i, UserSyms(u)) && j == i + |UserSyms(u)|
  {
    if HasWord(part, i, CURRENT_USER) {
      u := CurrentUser(HasPunct(part, i + 1, '('));
    } else {
      u := Account(part[i], if HasPunct(part, i + 1, '@') then Some(part[i + 2]) else Option.None);
    }
  }

  lemma TwoJoin(part: seq<Sym>, i: nat, a: seq<Sym>, b: seq<Sym>)
    requires HasAll(part, i, a) && HasAll(part, i + |a|, b)
    ensures HasAll(part, i, a + b)
  {
    forall k {:trigger (a + b)[k]} | 0 <= k < |a + b| ensures part[i + k] == (a + b)[k] {
      if k < |a| {
        assert part[i + k] == a[k];
      } else {
        assert part[i + |a| + (k - |a|)] == b[k - |a|];
      }
    }
  }

  lemma DefinerStarts(part: seq<Sym>, i: nat)
    requires MarksAreRead(part) && HasWord(part, i, DEFINER) && HasPunct(part, i + 1, '=') && i + 2 < |part|
    requires !part[i + 2].Punct?
    ensures HasAll(part, i, [Word(DEFINER), Punct('=', false)])
  {}

  lemma DefinerIsFound(part: seq<Sym>, i: nat, j: nat) returns (definer: Option<Owner>)
    requires MarksAreRead(part) && Definer(part, i) == At(j) && j < |part| && part[j].Word?
    ensures definer.Some? ==> UserOk(definer.value)
    ensures HasAll(part, i, DefinerSyms(definer)) && j == i + |DefinerSyms(definer)|
  {
    definer := Option.None;
    if HasWord(part, i, DEFINER) {
      var u := UserIsFound(part, i + 2, j);
      definer := Some(u);
      DefinerStarts(part, i);
      TwoJoin(part, i, [Word(DEFINER), Punct('=', false)], UserSyms(u));
    }
  }

  lemma KindIsFound(part: seq<Sym>, i: nat) returns (aggregate: bool, kind: Keyword)
    requires RoutineKind(part, i) == Some(true)
    ensures kind in {PROCEDURE, FUNCTION, TRIGGER, EVENT} && HasAll(part, i, KindSyms(aggregate, kind))
  {
    aggregate := HasWord(part, i, AGGREGATE);
    kind := part[if aggregate then i + 1 else i].word;
  }

  /** Nothing else is recognised: what is taken for a routine starts with a header of the grammar. */
  lemma RecognisedIsHeader(part: seq<Sym>) returns (h: Header)
    requires MarksAreRead(part) && RoutineHeader(part) == Some(true)
    ensures HeaderOk(h) && HeaderSyms(h) <= part
  {
    var i := OrReplace(part, 1).i;
    var aggregate, kind := KindIsFound(part, Definer(part, i).i);
    var definer := DefinerIsFound(part, i, Definer(part, i).i);
    h := Header(HasWord(part, 1, OR), definer, aggregate, kind);
    StartIsFound(part);
    PartsJoin(part, [Word(CREATE)] + OrSyms(h.orReplace), DefinerSyms(definer), KindSyms(aggregate, kind));
  }

  lemma StartIsFound(part: seq<Sym>)
    requires HasWord(part, 0, CREATE) && OrReplace(part, 1).At?
    ensures var start := [Word(CREATE)] + OrSyms(HasWord(part, 1, OR));
      HasAll(part, 0, start) && OrReplace(part, 1) == At(|start|)
  {}

  lemma PartsJoin(part: seq<Sym>, a: seq<Sym>, b: seq<Sym>, c: seq<Sym>)
    requires HasAll(part, 0, a) && HasAll(part, |a|, b) && HasAll(part, |a| + |b|, c)
    ensures a + b + c <= part
  {
    TwoJoin(part, 0, a, b);
    TwoJoin(part, 0, a + b, c);
    forall k {:trigger (a + b + c)[k]} | 0 <= k < |a + b + c| ensures part[k] == (a + b + c)[k] {
      assert part[0 + k] == (a + b + c)[k];
    }
  }

  // ----- a text and its tokens -----

  /** The tokens of a script from `i` to its end. */
  ghost predicate Reads(sql: string, i: nat, syms: Syms)
    requires i <= |sql|
    decreases syms
  {
    match syms
    case Nil => NextToken(sql, i).None?
    case More(s, rest) =>
      NextToken(sql, i).Some? && NextToken(sql, i).value.sym == s && Reads(sql, NextToken(sql, i).value.end, rest)
  }

  lemma TakeIsContent(sql: string, st: Statement, t: Token)
    requires t.start < t.end <= |sql| && t.sym != Semi && st.hasContent
    requires st.routine == Some(true)
      ==> !(t.sym == Word(DELIMITER) && st.control.bodyClosed && st.control.blocks.NoBlock?)
    ensures Take(sql, st, t) == TakeContent(sql, st, t)
  {}

  /** What a word of a routine's body does to the statement, in terms of its tokens. */
  lemma TakeWord(sql: string, st: Statement, t: Token, rest: Syms)
    requires t.start < t.end <= |sql| && t.sym.Word? && Reads(sql, t.end, rest) && rest.More?
    requires st.routine == Some(true) && st.hasContent
    ensures var r := TakeContent(sql, st, t);
      var turn := WordTurn(st.control, t.sym, Some(rest.head));
      && r.texts == [] && r.statement == st.(control := turn.control)
      && Reads(sql, r.next, if turn.skip then rest.tail else rest)
  {
    var peek := NextToken(sql, t.end);
    assert SymOf(peek) == Some(rest.head);
    var turn := WordTurn(st.control, t.sym, Some(rest.head));
  }

  /** From `i` on the statement goes on up to the semicolon at `p`, after which the script reads on as `after`. */
  ghost predicate EndsAt(sql: string, ranges: seq<Range>, i: nat, st: Statement, p: nat, after: Syms) {
    && i <= p < |sql| && sql[p] == ';' && Reads(sql, p + 1, after) && Trim(sql, st.start, p).Some?
    && Split(ranges, sql, i, st) == Split(Add(ranges, Trim(sql, st.start, p)), sql, p + 1, Fresh(p + 1))
  }

  lemma EndsLater(sql: string, ranges: seq<Range>, i: nat, st: Statement, r: Reading, p: nat, after: Syms)
    requires i <= |sql| && NextToken(sql, i).Some? && r == Take(sql, st, NextToken(sql, i).value)
    requires r.texts == [] && r.statement.start == st.start && EndsAt(sql, ranges, r.next, r.statement, p, after)
    ensures EndsAt(sql, ranges, i, st, p, after)
  {}

  lemma EndsHere(sql: string, ranges: seq<Range>, i: nat, st: Statement, after: Syms)
    requires ReadUpTo(sql, i, st) && st.hasContent && !InBody(st)
    requires NextToken(sql, i).Some? && NextToken(sql, i).value.sym == Semi
    requires Reads(sql, NextToken(sql, i).value.end, after)
    ensures EndsAt(sql, ranges, i, st, NextToken(sql, i).value.start, after)
  {
    var p := NextToken(sql, i).value.start;
    SemiEnds(sql, i);
    PushOne(ranges, sql, (st.start, p));
    HasTrim(sql, st.start, i, p);
  }

  /** A semicolon that ends a routine by its tokens ends it in the text. */
  lemma {:induction false} RoutineEnds(ranges: seq<Range>, sql: string, i: nat, st: Statement, syms: Syms, after: Syms)
      returns (p: nat)
    requires ReadUpTo(sql, i, st) && st.hasContent && st.routine == Some(true)
    requires Reads(sql, i, syms) && Outcome(st.control, syms) == Some(after)
    ensures EndsAt(sql, ranges, i, st, p, after)
    decreases |sql| - i
  {
    var t := NextToken(sql, i).value;
    if t.sym == Semi && st.control.blocks.NoBlock? {
      EndsHere(sql, ranges, i, st, after);
      p := t.start;
    } else {
      var rest := TakeOne(sql, i, st, syms);
      var r := Take(sql, st, t);
      p := RoutineEnds(ranges, sql, r.next, r.statement, rest, after);
      EndsLater(sql, ranges, i, st, r, p, after);
    }
  }

  /** One token of a routine's body, read in the text and in the list of tokens. */
  lemma TakeOne(sql: string, i: nat, st: Statement, syms: Syms) returns (rest: Syms)
    requires ReadUpTo(sql, i, st) && st.hasContent && st.routine == Some(true)
    requires Reads(sql, i, syms) && Outcome(st.control, syms).Some? && First(syms) != Option.None
    requires !(syms.head == Semi && st.control.blocks.NoBlock?)
    ensures var r := Take(sql, st, NextToken(sql, i).value);
      && r.texts == [] && r.statement.start == st.start && r.statement.hasContent && r.statement.routine == st.routine
      && ReadUpTo(sql, r.next, r.statement) && Reads(sql, r.next, rest)
      && Outcome(st.control, syms) == Outcome(r.statement.control, rest)
  {
    var t := NextToken(sql, i).value;
    TakeReadsUpTo(sql, i, st);
    rest := syms.tail;
    if t.sym != Semi {
      TakeIsContent(sql, st, t);
      if t.sym.Word? {
        TakeWord(sql, st, t, rest);
        if WordTurn(st.control, t.sym, Some(rest.head)).skip { rest := rest.tail; }
      }
    }
  }

  lemma HasTrim(sql: string, start: nat, i: nat, p: nat)
    requires HasTextBefore(sql, start, i) && i <= p <= |sql|
    ensures Trim(sql, start, p).Some?
  {
    var k :| start <= k < i <= |sql| && !IsSpace(sql[k]);
    TrimHolds(sql, start, p, k);
  }

  // ----- scripts -----

  /** The first `k` tokens of a header have been read. */
  predicate InHeader(st: Statement, h: Header, k: nat) {
    && k < |HeaderSyms(h)| && st.header == HeaderSyms(h)[..k] && st.routine.None?
    && st.control.(previous := Option.None) == UNREAD && (k > 0 ==> st.hasContent)
  }

  lemma {:induction false} PrependFirst(syms: seq<Sym>, tail: Syms)
    requires syms != []
    ensures Prepend(syms, tail) == More(syms[0], Prepend(syms[1..], tail))
  {}

  lemma NoSemiInAHeader(h: Header, k: nat)
    requires HeaderOk(h) && k < |HeaderSyms(h)|
    ensures HeaderSyms(h)[k] != Semi && (k == 0 ==> HeaderSyms(h)[k] == Word(CREATE))
  {}

  lemma OneMore(syms: seq<Sym>, k: nat)
    requires k < |syms|
    ensures syms[..k] + [syms[k]] == syms[..k + 1]
  {}

  lemma {:induction false} LongerHeader(h: Header, k: nat)
    requires HeaderOk(h) && k < |HeaderSyms(h)|
    ensures var part := HeaderSyms(h)[..k] + [HeaderSyms(h)[k]];
      part == HeaderSyms(h)[..k + 1] && RoutineHeader(part) == if k + 1 < |HeaderSyms(h)| then Option.None
        else Some(true)
  {
    HeaderIsRecognised(h, HeaderSyms(h)[..k + 1]);
    OneMore(HeaderSyms(h), k);
  }

  lemma {:induction false} TakeHeaderToken(sql: string, i: nat, st: Statement, h: Header, k: nat)
    requires HeaderOk(h) && InHeader(st, h, k) && i <= |sql|
    requires NextToken(sql, i).Some? && NextToken(sql, i).value.sym == HeaderSyms(h)[k]
    ensures var r := Take(sql, st, NextToken(sql, i).value);
      && r.texts == [] && r.next == NextToken(sql, i).value.end && r.statement.start == st.start
        && r.statement.hasContent
      && (if k + 1 < |HeaderSyms(h)| then InHeader(r.statement, h, k + 1)
          else r.statement.routine == Some(true) && AfterHeader(r.statement.control, h.kind))
  {
    NoSemiInAHeader(h, k);
    LongerHeader(h, k);
    HeaderEndsWithKind(h);
    TakeIsHeader(sql, st, NextToken(sql, i).value);
  }

  lemma TakeIsHeader(sql: string, st: Statement, t: Token)
    requires t.start < t.end <= |sql| && t.sym != Semi && st.routine.None?
    requires (st.hasContent || t.sym != Word(DELIMITER))
    ensures Take(sql, st, t) == TakeContent(sql, st, t)
  {}

  lemma HeaderEndsWithKind(h: Header)
    ensures HeaderSyms(h)[|HeaderSyms(h)| - 1] == Word(h.kind)
  {}

  /** Reading a header from its token `k` on. */
  lemma {:induction false} ReadHeader(ranges: seq<Range>, sql: string, i: nat, st: Statement, h: Header, k: nat,
      tail: Syms)
    returns (j: nat, d: Statement)
    requires HeaderOk(h) && InHeader(st, h, k) && ReadUpTo(sql, i, st)
    requires Reads(sql, i, Prepend(HeaderSyms(h)[k..], tail))
    ensures i <= j && ReadUpTo(sql, j, d) && Reads(sql, j, tail)
    ensures Split(ranges, sql, i, st) == Split(ranges, sql, j, d)
    ensures d.start == st.start && d.hasContent && d.routine == Some(true) && AfterHeader(d.control, h.kind)
    decreases |HeaderSyms(h)| - k
  {
    var t := NextToken(sql, i).value;
    var r := Take(sql, st, t);
    PrependFirst(HeaderSyms(h)[k..], tail);
    assert HeaderSyms(h)[k..][1..] == HeaderSyms(h)[k + 1..];
    TakeHeaderToken(sql, i, st, h, k);
    TakeReadsUpTo(sql, i, st);
    j, d := r.next, r.statement;
    if k + 1 < |HeaderSyms(h)| {
      j, d := ReadHeader(ranges, sql, j, d, h, k + 1, tail);
    }
  }

  /** One routine: it ends at its semicolon when it is whole, else at one before. */
  lemma ReadRoutine(ranges: seq<Range>, sql: string, i: nat, r: Routine, rest: Syms) returns (p: nat, after: Syms)
    requires i <= |sql| && RoutineOk(r) && Reads(sql, i, RoutineSyms(r, More(Semi, rest)))
    ensures EndsAt(sql, ranges, i, Fresh(i), p, after)
    ensures if Whole(r) then after == rest else Length(after) > Length(rest)
  {
    assert HeaderSyms(r.header)[0..] == HeaderSyms(r.header) && HeaderSyms(r.header)[..0] == [];
    var j, d := ReadHeader(ranges, sql, i, Fresh(i), r.header, 0, RestSyms(r, More(Semi, rest)));
    RoutineEndsOrCuts(d.control, r, rest);
    after := Outcome(d.control, RestSyms(r, More(Semi, rest))).value;
    p := RoutineEnds(ranges, sql, j, d, RestSyms(r, More(Semi, rest)), after);
  }

  /** The trimmed text from `i` to a semicolon at `p`, after which the script reads on as `rest`. */
  ghost predicate IsRoutine(sql: string, i: nat, p: nat, rest: Syms, r: Range) {
    i <= p < |sql| && sql[p] == ';' && Reads(sql, p + 1, rest) && Trim(sql, i, p) == Some(r)
  }

  /** There is one range for each routine of the script from `i` on: its text, up to the semicolon after it. */
  ghost predicate AreRoutines(sql: string, i: nat, s: Script, ranges: seq<Range>)
    decreases s
  {
    match s
    case NoRoutines => ranges == []
    case Script(_, more) =>
      ranges != [] && exists p: nat ::
        IsRoutine(sql, i, p, ScriptSyms(more), ranges[0]) && AreRoutines(sql, p + 1, more, ranges[1..])
  }

  /** A text up to a semicolon, trimmed, is that up to one semicolon only. */
  lemma OneEnd(sql: string, i: nat, p: nat, q: nat)
    requires i <= p < |sql| && i <= q < |sql| && sql[p] == ';' && sql[q] == ';'
    requires Trim(sql, i, p) == Trim(sql, i, q) && Trim(sql, i, p).Some?
    ensures p == q
  {
    NotSpace(';');
    if p < q { TrimHolds(sql, i, q, p); }
    if q < p { TrimHolds(sql, i, p, q); }
  }

  lemma {:induction false} ReadsOneWay(sql: string, i: nat, syms: Syms, others: Syms)
    requires i <= |sql| && Reads(sql, i, syms) && Reads(sql, i, others)
    ensures syms == others
    decreases syms
  {
    if syms.More? { ReadsOneWay(sql, NextToken(sql, i).value.end, syms.tail, others.tail); }
  }

  lemma OneMoreRoutine(sql: string, i: nat, p: nat, s: Script, r: Range, later: seq<Range>)
    requires s.Script? && IsRoutine(sql, i, p, ScriptSyms(s.more), r) && AreRoutines(sql, p + 1, s.more, later)
    ensures AreRoutines(sql, i, s, [r] + later)
  {
    var all := [r] + later;
    assert all[1..] == later;
    assert IsRoutine(sql, i, p, ScriptSyms(s.more), all[0]) && AreRoutines(sql, p + 1, s.more, all[1..]);
  }

  lemma {:induction false} FirstRoutine(sql: string, i: nat, s: Script, r: Range, later: seq<Range>) returns (q: nat)
    requires s.Script? && AreRoutines(sql, i, s, [r] + later)
    ensures IsRoutine(sql, i, q, ScriptSyms(s.more), r) && AreRoutines(sql, q + 1, s.more, later)
  {
    var all := [r] + later;
    assert all[1..] == later;
    q :| IsRoutine(sql, i, q, ScriptSyms(s.more), all[0]) && AreRoutines(sql, q + 1, s.more, all[1..]);
  }

  /** The semicolon and what is read after it say which routine a range is. */
  lemma {:induction false} OneReading(sql: string, i: nat, p: nat, q: nat, after: Syms, rest: Syms, r: Range)
    requires IsRoutine(sql, i, p, after, r) && IsRoutine(sql, i, q, rest, r)
    ensures p == q && after == rest
  {
    OneEnd(sql, i, p, q);
    ReadsOneWay(sql, p + 1, after, rest);
  }

  lemma OnlyRoutine(sql: string, i: nat, p: nat, after: Syms, s: Script, r: Range, later: seq<Range>)
    requires s.Script? && IsRoutine(sql, i, p, after, r) && AreRoutines(sql, i, s, [r] + later)
    ensures AreTheOthers(sql, p, after, s, later)
  {
    var q := FirstRoutine(sql, i, s, r, later);
    OneReading(sql, i, p, q, after, ScriptSyms(s.more), r);
  }

  /** The rest of the script is split into its other routines. */
  ghost predicate AreTheOthers(sql: string, p: nat, after: Syms, s: Script, later: seq<Range>)
    requires s.Script?
  {
    after == ScriptSyms(s.more) && AreRoutines(sql, p + 1, s.more, later)
  }

  /** What is split off first is a routine of the script exactly when the rest goes on as its other routines. */
  lemma {:induction false} FirstIsARoutine(sql: string, i: nat, p: nat, after: Syms, s: Script, r: Range,
      later: seq<Range>)
    requires s.Script? && IsRoutine(sql, i, p, after, r)
    ensures AreRoutines(sql, i, s, [r] + later) <==> AreTheOthers(sql, p, after, s, later)
  {
    var all := [r] + later;
    if AreRoutines(sql, i, s, all) { OnlyRoutine(sql, i, p, after, s, r, later); }
    if AreTheOthers(sql, p, after, s, later) { OneMoreRoutine(sql, i, p, s, r, later); }
  }

  lemma {:induction false} PushExtends(ranges: seq<Range>, sql: string, texts: seq<(nat, nat)>)
    ensures ranges <= Push(ranges, sql, texts)
    decreases |texts|
  {
    if texts != [] { PushExtends(Add(ranges, Trim(sql, texts[0].0, texts[0].1)), sql, texts[1..]); }
  }

  lemma {:induction false} SplitExtends(ranges: seq<Range>, sql: string, i: nat, st: Statement)
    requires i <= |sql|
    ensures ranges <= Split(ranges, sql, i, st)
    decreases |sql| - i
  {
    if NextToken(sql, i).Some? {
      var r := Take(sql, st, NextToken(sql, i).value);
      PushExtends(ranges, sql, r.texts);
      SplitExtends(Push(ranges, sql, r.texts), sql, r.next, r.statement);
    }
  }

  /** From `i` on, where a statement starts, the script is split into `pushed`. */
  ghost predicate SplitsInto(sql: string, ranges: seq<Range>, i: nat, pushed: seq<Range>) {
    i <= |sql| && Split(ranges, sql, i, Fresh(i)) == ranges + pushed
  }

  lemma OneRangeMore(all: seq<Range>, ranges: seq<Range>, r: Range, later: seq<Range>)
    requires all == (ranges + [r]) + later
    ensures all == ranges + ([r] + later)
  {}

  lemma {:induction false} SplitsOneMore(sql: string, ranges: seq<Range>, i: nat, p: nat, r: Range,
      later: seq<Range>)
    requires i <= p < |sql| && Split(ranges, sql, i, Fresh(i)) == Split(ranges + [r], sql, p + 1, Fresh(p + 1))
    requires SplitsInto(sql, ranges + [r], p + 1, later)
    ensures SplitsInto(sql, ranges, i, [r] + later)
  {
    OneRangeMore(Split(ranges, sql, i, Fresh(i)), ranges, r, later);
  }

  /** What a script is split into from `i` on, where a statement starts. */
  lemma SplitsIntoSome(sql: string, ranges: seq<Range>, i: nat) returns (pushed: seq<Range>)
    requires i <= |sql|
    ensures SplitsInto(sql, ranges, i, pushed)
  {
    SplitExtends(ranges, sql, i, Fresh(i));
    pushed := Split(ranges, sql, i, Fresh(i))[|ranges|..];
  }

  lemma {:induction false} SplitScript(ranges: seq<Range>, sql: string, i: nat, s: Script) returns (pushed: seq<Range>)
    requires i <= |sql| && Reads(sql, i, ScriptSyms(s)) && ScriptOk(s)
    ensures SplitsInto(sql, ranges, i, pushed) && (AreRoutines(sql, i, s, pushed) <==> AllWhole(s))
    decreases s
  {
    if s.NoRoutines? {
      pushed := [];
    } else {
      var p, after := ReadRoutine(ranges, sql, i, s.first, ScriptSyms(s.more));
      var r := Trim(sql, i, p).value;
      var later;
      if Whole(s.first) {
        later := SplitScript(ranges + [r], sql, p + 1, s.more);
      } else {
        later := SplitsIntoSome(sql, ranges + [r], p + 1);
      }
      SplitsOneMore(sql, ranges, i, p, r, later);
      FirstIsARoutine(sql, i, p, after, s, r, later);
      pushed := [r] + later;
    }
  }

  lemma {:induction false} RoutinesCount(sql: string, i: nat, s: Script, ranges: seq<Range>)
    requires AreRoutines(sql, i, s, ranges)
    ensures |ranges| == Count(s)
    decreases s
  {
    if s.Script? {
      var p: nat :| IsRoutine(sql, i, p, ScriptSyms(s.more), ranges[0]) && AreRoutines(sql, p + 1, s.more, ranges[1..]);
      RoutinesCount(sql, p + 1, s.more, ranges[1..]);
    }
  }

  /**
   * A script that reads as routines of the grammar, each with its semicolon, is split into exactly one range for
   * each (its text, trimmed, up to the semicolon after it) if and only if the body of each is whole.
   */
  lemma OneRangePerRoutine(sql: string, s: Script)
    requires Reads(sql, 0, ScriptSyms(s)) && ScriptOk(s)
    ensures var ranges := Split([], sql, 0, Fresh(0));
      (AreRoutines(sql, 0, s, ranges) <==> AllWhole(s)) && (AllWhole(s) ==> |ranges| == Count(s))
  {
    var pushed := SplitScript([], sql, 0, s);
    assert [] + pushed == pushed;
    if AllWhole(s) { RoutinesCount(sql, 0, s, pushed); }
  }
}
