/**
 * Reading statements from any control, whatever is open and whether they are seen to start: a statement either leaves
 * the blocks as they are or closes some of those around it, and its shape says which.
 */
module MysqlLosses {
  import opened Text
  import opened MysqlLexer
  import opened MysqlRoutines
  import opened MysqlGrammar
  import opened MysqlBodies
  import opened MysqlShapes

  // ----- blocks below blocks -----

  /** What is left of `b` once some of its blocks, or none, are closed. */
  predicate Below(a: Blocks, b: Blocks) { a == b || (b.Open? && Below(a, b.outer)) }

  lemma {:induction false} BelowIsSmaller(a: Blocks, b: Blocks)
    requires Below(a, b)
    ensures Depth(a) <= Depth(b) && (Depth(a) == Depth(b) ==> a == b)
    decreases b
  {
    if a != b { BelowIsSmaller(a, b.outer); }
  }

  lemma {:induction false} BelowBelow(a: Blocks, b: Blocks, c: Blocks)
    requires Below(a, b) && Below(b, c)
    ensures Below(a, c)
    decreases c
  {
    if b != c { BelowBelow(a, b, c.outer); }
  }

  /** Some of the blocks are closed. */
  predicate Under(a: Blocks, b: Blocks) { Below(a, b) && a != b }

  lemma UnderBelow(a: Blocks, b: Blocks, c: Blocks)
    requires (Under(a, b) && Below(b, c)) || (Below(a, b) && Under(b, c))
    ensures Under(a, c)
  {
    BelowBelow(a, b, c);
    BelowIsSmaller(a, b);
    BelowIsSmaller(b, c);
  }

  lemma OuterIsUnder(a: Blocks, b: Blocks)
    requires a.Open? && Below(a, b)
    ensures Under(a.outer, b) && b.Open? && (a != b ==> Under(a.outer, b.outer)) && Below(a.outer, b.outer)
  {
    assert Below(a.outer, a);
    assert Depth(a.outer) < Depth(a);
    BelowBelow(a.outer, a, b);
    BelowIsSmaller(a, b);
    if a != b {
      assert Below(a, b.outer);
      BelowBelow(a.outer, a, b.outer);
      BelowIsSmaller(a, b.outer);
    }
  }

  // ----- one word from any control -----

  predicate InCase(b: Blocks) { b.Open? && b.block.CaseExpression? }

  /** THEN and ELSE start a statement. */
  predicate ThenSees(b: Blocks) { b.Open? && (b.block.IfBlock? || b.block.CaseStatement?) }

  predicate Free(c: Control) { !Named(c.previous) && !InAList(c.previous) }

  lemma {:induction false} ExprWeaker(e: Expr, previous: Option<Sym>, next: Option<Sym>, place: Place)
    requires ExprOk(e, previous, next, ANYWHERE)
    ensures ExprOk(e, previous, next, place)
    decreases e
  {
    match e
    case Empty =>
    case Atom(s, rest) => ExprWeaker(rest, Some(s), next, place);
    case CaseOf(_, _, rest) => ExprWeaker(rest, Some(Word(END)), next, place);
  }

  /** Reading an expression leaves the blocks as they are. */
  lemma ExprReads(c: Control, e: Expr, tail: Syms) returns (d: Control)
    requires tail.More? && !IsLabel(First(tail)) && !c.bodyStart && ExprOk(e, c.previous, First(tail), ANYWHERE)
    ensures Outcome(c, ExprSyms(e, tail)) == Outcome(d, tail) && ReadExpr(c, d, LastOf(e, c.previous))
  {
    var place := Place(InCase(c.blocks), c.blocks.NoBlock?, c.inDeclare);
    ExprWeaker(e, c.previous, First(tail), place);
    d := ExprLeads(c, e, tail, place);
  }

  /** An expression behind a word. */
  lemma UpToReads(c: Control, e: Expr, before: Keyword, tail: Syms) returns (d: Control)
    requires tail.More? && !IsLabel(First(tail)) && !c.bodyStart && c.previous == Some(Word(before))
    requires UpTo(e, before, tail.head, ANYWHERE)
    ensures Outcome(c, ExprSyms(e, tail)) == Outcome(d, tail) && ReadExpr(c, d, LastOf(e, c.previous))
    ensures !Named(d.previous)
  {
    d := ExprReads(c, e, tail);
  }

  lemma FirstUpTo(e: Expr, before: Keyword, tail: Syms)
    requires tail.More? && !IsLabel(First(tail)) && UpTo(e, before, tail.head, ANYWHERE)
    ensures ExprSyms(e, tail).More? && !IsLabel(First(ExprSyms(e, tail)))
  {
    FirstOfExpr(e, tail);
    NoLabelFirst(e, Some(Word(before)), tail, ANYWHERE);
  }

  /** IF, WHILE, LOOP or REPEAT opens a block when it is seen to start. */
  lemma OpenOrPlain(c: Control, word: Keyword, rest: Syms) returns (d: Control)
    requires Free(c) && rest.More? && !IsLabel(First(rest)) && (word.IF? || word.WHILE? || word.LOOP? || word.REPEAT?)
    ensures Outcome(c, Then(word, rest)) == Outcome(d, rest) && d.previous == Some(Word(word))
    ensures d.blocks == if c.bodyStart then Open(BlockOf(word), c.blocks) else c.blocks
    ensures d.bodyStart == (c.bodyStart && (word.LOOP? || word.REPEAT?)) && d.inDeclare == (c.inDeclare && !c.bodyStart)
  {
    WordStep(c, word, rest);
    d := WordTurn(c, Word(word), First(rest)).control;
  }

  lemma ThenAny(c: Control, word: Keyword, rest: Syms) returns (d: Control)
    requires !Named(c.previous) && rest.More? && !IsLabel(First(rest)) && (word.THEN? || word.ELSE?)
    ensures Outcome(c, Then(word, rest)) == Outcome(d, rest) && d.previous == Some(Word(word))
    ensures d.blocks == c.blocks && d.inDeclare == c.inDeclare && d.bodyStart == ThenSees(c.blocks)
  {
    WordStep(c, word, rest);
    d := WordTurn(c, Word(word), First(rest)).control;
  }

  lemma DoAny(c: Control, rest: Syms) returns (d: Control)
    requires !c.bodyStart && !Named(c.previous) && rest.More? && !IsLabel(First(rest))
    ensures Outcome(c, Then(DO, rest)) == Outcome(d, rest) && d.previous == Some(Word(DO))
    ensures d.blocks == c.blocks && d.inDeclare == c.inDeclare && d.bodyStart
  {
    WordStep(c, DO, rest);
    d := WordTurn(c, Word(DO), First(rest)).control;
  }

  /** BEGIN opens a block when it is seen, when a handler does it, and outside of any block. */
  lemma BeginAny(c: Control, rest: Syms) returns (d: Control)
    requires Free(c) && rest.More? && !IsLabel(First(rest)) && !IsTransaction(First(rest))
    ensures Outcome(c, Then(BEGIN, rest)) == Outcome(d, rest) && d.previous == Some(Word(BEGIN))
    ensures var opens := c.bodyStart || c.inDeclare || c.blocks.NoBlock?;
      d.blocks == (if opens then Open(BeginBlock, c.blocks) else c.blocks) && d.bodyStart == opens && !d.inDeclare
  {
    WordStep(c, BEGIN, rest);
    d := WordTurn(c, Word(BEGIN), First(rest)).control;
  }

  lemma CaseAny(c: Control, rest: Syms) returns (d: Control)
    requires Free(c) && rest.More? && !IsLabel(First(rest))
    ensures Outcome(c, Then(CASE, rest)) == Outcome(d, rest) && d.previous == Some(Word(CASE))
    ensures d.blocks == Open(if c.bodyStart then CaseStatement else CaseExpression, c.blocks) && !d.bodyStart
    ensures !d.inDeclare
  {
    WordStep(c, CASE, rest);
    d := WordTurn(c, Word(CASE), First(rest)).control;
  }

  /** What an END behind a list, or behind a value, can close. */
  predicate CanEnd(c: Control) { c.blocks.Open? && !c.inDeclare && !Named(c.previous) && !ExpectsOperand(c.previous) }

  /** END, the keyword after it if it has one, and the name. */
  function EndSyms(word: Option<Keyword>, name: Option<Tag>, tail: Syms): Syms {
    Then(END, if word.Some? then Then(word.value, NameSyms(name, tail)) else NameSyms(name, tail))
  }

  lemma EndAny(c: Control, word: Option<Keyword>, name: Option<Tag>, tail: Syms) returns (d: Control)
    requires CanEnd(c) && NameOk(name)
    requires if word.Some? then IsEndKeyword(word.value) else c.bodyStart || InCase(c.blocks)
    ensures Outcome(c, EndSyms(word, name, More(Semi, tail))) == Outcome(d, More(Semi, tail))
    ensures d.blocks == c.blocks.outer
  {
    var rest := NameSyms(name, More(Semi, tail));
    FirstOfName(name, More(Semi, tail));
    var syms := if word.Some? then Then(word.value, rest) else rest;
    WordStep(c, END, syms);
    d := WordTurn(c, Word(END), First(syms)).control;
    d := NameLeads(d, name, More(Semi, tail));
  }

  lemma LengthOfAnEnd(word: Option<Keyword>, name: Option<Tag>, tail: Syms)
    ensures Length(EndSyms(word, name, More(Semi, tail))) > Length(tail) + 1
  {
    LengthOfSemi(tail);
    LongerName(name, More(Semi, tail));
  }

  /** Behind a list of statements. */
  predicate AfterList(c: Control) { AtStart(c) && c.previous == Some(Semi) }

  // ----- what a statement and a list do to the blocks -----

  function SpotOf(c: Control): Spot { Spot(c.bodyStart, c.inDeclare, InCase(c.blocks), c.blocks.NoBlock?) }

  /** Where the statements behind a THEN or ELSE are. */
  function ThenSpot(c: Control): Spot { Spot(ThenSees(c.blocks), c.inDeclare, InCase(c.blocks), c.blocks.NoBlock?) }

  /** A statement has been read up to its semicolon; or the routine has ended before. */
  predicate Reached(c: Control, d: Control, syms: Syms, tail: Syms, loses: bool) {
    if loses
    then CutShort(c, syms, tail) || (Outcome(c, syms) == Outcome(d, More(Semi, tail)) && Under(d.blocks, c.blocks))
    else Outcome(c, syms) == Outcome(d, More(Semi, tail)) && d.blocks == c.blocks
  }

  /** A list has been read, with the semicolon of its last statement. */
  predicate Past(c: Control, d: Control, syms: Syms, tail: Syms, loses: bool) {
    if loses then CutBy(c, syms, tail) || (Goes(c, d, syms, tail) && Under(d.blocks, c.blocks))
    else Goes(c, d, syms, tail) && d.blocks == c.blocks
  }

  predicate Goes(c: Control, d: Control, syms: Syms, tail: Syms) {
    Outcome(c, syms) == Outcome(d, tail) && d.blocks.Open? && AfterList(d)
  }

  /** The semicolon of a statement. */
  lemma SemiFalls(c: Control, d: Control, s: Stmt, rest: Syms, loses: bool)
    requires Reached(c, d, StmtSyms(s, More(Semi, rest)), rest, loses)
    ensures var syms := StmtSyms(s, More(Semi, rest));
      || CutBy(c, syms, rest)
      || (Goes(c, AfterSemi(d), syms, rest) && (if loses then Under(d.blocks, c.blocks) else d.blocks == c.blocks))
    ensures !loses && c.blocks.Open? ==>
      Goes(c, AfterSemi(d), StmtSyms(s, More(Semi, rest)), rest) && d.blocks == c.blocks
  {
    if d.blocks.Open? { SemiStep(d, rest); }
  }

  lemma {:induction false} ListFalls(c: Control, ss: Stmts, tail: Syms) returns (d: Control)
    requires Free(c) && ss.Next? && ClearAll(ss)
    ensures Past(c, d, StmtsSyms(ss, tail), tail, AnyLoses(ss, SpotOf(c)))
    decreases ss, 0
  {
    var rest := StmtsSyms(ss.more, tail);
    assert StmtsSyms(ss, tail) == StmtSyms(ss.stmt, More(Semi, rest));
    LongerStmts(ss.more, tail);
    d := StmtFalls(c, ss.stmt, rest);
    SemiFalls(c, d, ss.stmt, rest, Loses(ss.stmt, SpotOf(c)));
    d := AfterSemi(d);
    if Goes(c, d, StmtsSyms(ss, tail), rest) && FirstDone(c, d, ss) && ss.more.Next? {
      var e := ListFalls(d, ss.more, tail);
      ListGoesOn(c, d, e, ss, tail);
      d := e;
    } else {
      ListEnds(c, d, ss, tail);
    }
  }

  /** A list with one statement, or one that the routine ends in. */
  lemma ListEnds(c: Control, d: Control, ss: Stmts, tail: Syms)
    requires ss.Next?
    requires var syms, rest := StmtsSyms(ss, tail), StmtsSyms(ss.more, tail);
      || (CutBy(c, syms, rest) && Length(rest) >= Length(tail) && (Loses(ss.stmt, SpotOf(c)) || c.blocks.NoBlock?))
      || (ss.more.Done? && Goes(c, d, syms, rest) && FirstDone(c, d, ss) && c.blocks.Open?)
    ensures Past(c, d, StmtsSyms(ss, tail), tail, AnyLoses(ss, SpotOf(c)))
  {
    if ss.more.Done? {
      assert !AnyLoses(ss.more, SpotOf(c).(seen := true, handled := false)) && StmtsSyms(ss.more, tail) == tail;
    }
  }

  /** What the first statement of a list does to the blocks. */
  predicate FirstDone(c: Control, d: Control, ss: Stmts)
    requires ss.Next?
  {
    if Loses(ss.stmt, SpotOf(c)) then Under(d.blocks, c.blocks) else d.blocks == c.blocks
  }

  /** The statements after the first. */
  lemma ListGoesOn(c: Control, d: Control, e: Control, ss: Stmts, tail: Syms)
    requires ss.Next? && ss.more.Next? && Goes(c, d, StmtsSyms(ss, tail), StmtsSyms(ss.more, tail))
    requires FirstDone(c, d, ss) && Past(d, e, StmtsSyms(ss.more, tail), tail, AnyLoses(ss.more, SpotOf(d)))
    ensures Past(c, e, StmtsSyms(ss, tail), tail, AnyLoses(ss, SpotOf(c)))
  {
    if Loses(ss.stmt, SpotOf(c)) && Below(e.blocks, d.blocks) { UnderBelow(e.blocks, d.blocks, c.blocks); }
  }

  lemma {:induction false} StmtFalls(c: Control, s: Stmt, tail: Syms) returns (d: Control)
    requires Free(c) && ClearOk(s)
    ensures Reached(c, d, StmtSyms(s, More(Semi, tail)), tail, Loses(s, SpotOf(c)))
    decreases s, 2
  {
    match s
    case Simple(_, _) => d := SimpleFalls(c, s, tail);
    case Declare(_) => d := DeclareFalls(c, s, tail);
    case Handler(_, _) => d := HandlerFalls(c, s, tail);
    case Compound(_, _) => d := CompoundFalls(c, s, tail);
    case Conditional(_, _, _) => d := ConditionalFalls(c, s, tail);
    case Choice(_, _) => d := ChoiceFalls(c, s, tail);
    case WhileDo(_, _, _) => d := WhileFalls(c, s, tail);
    case Forever(_, _) => d := LoopFalls(c, s, tail);
    case RepeatUntil(_, _, _) => d := RepeatFalls(c, s, tail);
    case Labelled(_, _) => d := LabelledFalls(c, s, tail);
  }

  // ----- statements without blocks of their own -----

  lemma SimpleFalls(c: Control, s: Stmt, tail: Syms) returns (d: Control)
    requires s.Simple? && Free(c) && ClearOk(s)
    ensures Reached(c, d, StmtSyms(s, More(Semi, tail)), tail, false)
  {
    var rest := ExprSyms(s.rest, More(Semi, tail));
    FirstOfExpr(s.rest, More(Semi, tail));
    NoLabelFirst(s.rest, Some(Word(s.first)), More(Semi, tail), ANYWHERE);
    if s.first == DO && !c.bodyStart {
      d := DoAny(c, rest);
      d := AtomsRead(d, s.rest, More(Semi, tail));
    } else {
      PlainStep(c, s.first, rest);
      d := ExprReads(Plain(c, Word(s.first)).control, s.rest, More(Semi, tail));
    }
  }

  /** An expression behind a DO that starts a statement. */
  lemma AtomsRead(c: Control, e: Expr, tail: Syms) returns (d: Control)
    requires AfterDoOk(e) && c.bodyStart && c.previous == Some(Word(DO)) && tail.More? && !IsLabel(First(tail))
    requires ExprOk(e, Some(Word(DO)), First(tail), ANYWHERE)
    ensures Outcome(c, ExprSyms(e, tail)) == Outcome(d, tail) && d.blocks == c.blocks
  {
    var rest := ExprSyms(e.rest, tail);
    FirstOfExpr(e.rest, tail);
    NoLabelFirst(e.rest, Some(e.sym), tail, ANYWHERE);
    if e.sym.Word? { PlainStep(c, e.sym.word, rest); }
    assert Outcome(c, ExprSyms(e, tail)) == Outcome(Plain(c, e.sym).control, rest);
    d := ExprReads(Plain(c, e.sym).control, e.rest, tail);
  }

  lemma DeclareAny(c: Control, rest: Syms) returns (d: Control)
    requires !Named(c.previous) && rest.More? && !IsLabel(First(rest))
    ensures Outcome(c, Then(DECLARE, rest)) == Outcome(d, rest) && d.previous == Some(Word(DECLARE))
    ensures d.blocks == c.blocks && !d.bodyStart && d.inDeclare == (c.inDeclare || c.bodyStart)
  {
    WordStep(c, DECLARE, rest);
    d := WordTurn(c, Word(DECLARE), First(rest)).control;
  }

  lemma DeclareFalls(c: Control, s: Stmt, tail: Syms) returns (d: Control)
    requires s.Declare? && Free(c) && ClearOk(s)
    ensures Reached(c, d, StmtSyms(s, More(Semi, tail)), tail, false)
  {
    FirstOfExpr(s.rest, More(Semi, tail));
    NoLabelFirst(s.rest, Some(Word(DECLARE)), More(Semi, tail), ANYWHERE);
    d := DeclareAny(c, ExprSyms(s.rest, More(Semi, tail)));
    d := ExprReads(d, s.rest, More(Semi, tail));
  }

  /** The head of a handler keeps `inDeclare` as it is. */
  lemma {:induction false} HeadReads(c: Control, e: Expr, tail: Syms) returns (d: Control)
    requires NoCaseOf(e) && !c.bodyStart && tail.More? && !IsLabel(First(tail))
    requires ExprOk(e, c.previous, First(tail), ANYWHERE)
    ensures Outcome(c, ExprSyms(e, tail)) == Outcome(d, tail) && d == c.(previous := LastOf(e, c.previous))
    decreases e
  {
    match e
    case Empty => d := c;
    case Atom(s, rest) =>
      FirstOfExpr(rest, tail);
      NoLabelFirst(rest, Some(s), tail, ANYWHERE);
      var place := Place(InCase(c.blocks), c.blocks.NoBlock?, c.inDeclare);
      AtomStep(c, s, ExprSyms(rest, tail), place);
      d := HeadReads(Plain(c, s).control, rest, tail);
  }

  lemma {:induction false} HandlerFalls(c: Control, s: Stmt, tail: Syms) returns (d: Control)
    requires s.Handler? && Free(c) && ClearOk(s)
    ensures Reached(c, d, StmtSyms(s, More(Semi, tail)), tail, Loses(s, SpotOf(c)))
    decreases s, 1
  {
    var action := StmtSyms(s.action, More(Semi, tail));
    FirstOfStmt(s.action, More(Semi, tail));
    FirstUpTo(s.head, DECLARE, action);
    d := DeclareAny(c, ExprSyms(s.head, action));
    d := HeadReads(d, s.head, action);
    d := StmtFalls(d, s.action, tail);
  }

  lemma LabelAny(c: Control, tag: Tag, rest: Syms) returns (d: Control)
    requires tag != WordTag(DELIMITER)
    ensures Outcome(c, More(TagSym(tag), More(Punct(':', false), rest))) == Outcome(d, rest)
    ensures d.blocks == c.blocks && d.inDeclare == c.inDeclare && d.bodyStart == tag.WordTag? && Free(d)
  {
    var colon := More(Punct(':', false), rest);
    match tag
    case WordTag(word) =>
      WordStep(c, word, colon);
      d := WordTurn(c, Word(word), First(colon)).control;
    case QuotedTag => d := Plain(Plain(c, Quoted).control, Punct(':', false)).control;
  }

  lemma {:induction false} LabelledFalls(c: Control, s: Stmt, tail: Syms) returns (d: Control)
    requires s.Labelled? && Free(c) && ClearOk(s)
    ensures Reached(c, d, StmtSyms(s, More(Semi, tail)), tail, Loses(s, SpotOf(c)))
    decreases s, 1
  {
    d := LabelAny(c, s.tag, StmtSyms(s.stmt, More(Semi, tail)));
    d := StmtFalls(d, s.stmt, tail);
  }

  // ----- statements with lists and an END -----

  /** What an END with this keyword, or without one, can close. */
  predicate Closable(c: Control, word: Option<Keyword>) {
    CanEnd(c) && (word.None? ==> c.bodyStart || InCase(c.blocks))
  }

  /** In front of the END of a statement that was `e` after its first words; `loses` says what its lists do. */
  predicate BeforeEnd(e: Control, d: Control, syms: Syms, end: Syms, word: Option<Keyword>, loses: bool) {
    if loses
    then CutBy(e, syms, end) || (Outcome(e, syms) == Outcome(d, end) && Closable(d, word) && Under(d.blocks, e.blocks))
    else Outcome(e, syms) == Outcome(d, end) && Closable(d, word) && d.blocks == e.blocks
  }

  /** The END closes a block, that of the statement if it opened one. */
  lemma EndFalls(c: Control, syms: Syms, e: Control, inner: Syms, d: Control, word: Option<Keyword>, name: Option<Tag>,
      tail: Syms, loses: bool, opens: bool) returns (f: Control)
    requires Outcome(c, syms) == Outcome(e, inner)
    requires BeforeEnd(e, d, inner, EndSyms(word, name, More(Semi, tail)), word, loses)
    requires NameOk(name) && (word.Some? ==> IsEndKeyword(word.value))
    requires if opens then e.blocks.Open? && e.blocks.outer == c.blocks else e.blocks == c.blocks
    ensures Reached(c, f, syms, tail, loses || !opens)
  {
    LengthOfAnEnd(word, name, tail);
    f := d;
    if Closable(d, word) && Below(d.blocks, e.blocks) {
      f := EndAny(d, word, name, tail);
      OuterIsUnder(d.blocks, e.blocks);
    }
  }

  lemma {:induction false} CompoundFalls(c: Control, s: Stmt, tail: Syms) returns (d: Control)
    requires s.Compound? && Free(c) && ClearOk(s)
    ensures Reached(c, d, StmtSyms(s, More(Semi, tail)), tail, Loses(s, SpotOf(c)))
    decreases s, 1
  {
    var end := EndSyms(Option.None, s.name, More(Semi, tail));
    var body := StmtsSyms(s.body, end);
    assert StmtSyms(s, More(Semi, tail)) == Then(BEGIN, body);
    FirstOfStmts(s.body, end);
    var e := BeginAny(c, body);
    d := BlockFalls(c, e, s.body, s.name, tail, e.bodyStart);
    assert Loses(s, SpotOf(c)) == BlockLoses(c, e, s.body, e.bodyStart);
  }

  function BlockLoses(c: Control, e: Control, body: Stmts, opens: bool): bool {
    if body.Next? then AnyLoses(body, SpotOf(e)) || !opens else !opens && InCase(c.blocks)
  }

  /** A block, `e` behind its BEGIN. */
  lemma {:induction false} BlockFalls(c: Control, e: Control, body: Stmts, name: Option<Tag>, tail: Syms, opens: bool)
      returns (d: Control)
    requires NameOk(name) && ClearAll(body) && e.previous == Some(Word(BEGIN)) && !e.inDeclare && e.bodyStart == opens
    requires e.blocks == (if opens then Open(BeginBlock, c.blocks) else c.blocks) && e.blocks.Open?
    requires var inner := StmtsSyms(body, EndSyms(Option.None, name, More(Semi, tail)));
      Outcome(c, Then(BEGIN, inner)) == Outcome(e, inner)
    ensures var inner := StmtsSyms(body, EndSyms(Option.None, name, More(Semi, tail)));
      Reached(c, d, Then(BEGIN, inner), tail, BlockLoses(c, e, body, opens))
    decreases body, 1
  {
    var end := EndSyms(Option.None, name, More(Semi, tail));
    if body.Done? {
      d := EmptyFalls(c, e, end, name, tail, opens);
    } else {
      d := ListFalls(e, body, end);
      d := FilledFalls(c, e, d, StmtsSyms(body, end), name, tail, opens, AnyLoses(body, SpotOf(e)));
    }
  }

  /** A block with statements, `e` behind its BEGIN and `d` in front of its END. */
  lemma FilledFalls(c: Control, e: Control, d: Control, inner: Syms, name: Option<Tag>, tail: Syms, opens: bool,
      loses: bool) returns (f: Control)
    requires NameOk(name) && e.blocks == (if opens then Open(BeginBlock, c.blocks) else c.blocks)
    requires Past(e, d, inner, EndSyms(Option.None, name, More(Semi, tail)), loses)
    requires Outcome(c, Then(BEGIN, inner)) == Outcome(e, inner)
    ensures Reached(c, f, Then(BEGIN, inner), tail, loses || !opens)
  {
    PastIsBeforeEnd(e, d, inner, EndSyms(Option.None, name, More(Semi, tail)), Option.None, loses);
    f := EndFalls(c, Then(BEGIN, inner), e, inner, d, Option.None, name, tail, loses, opens);
  }

  /** A block without statements, `e` behind its BEGIN. */
  lemma EmptyFalls(c: Control, e: Control, inner: Syms, name: Option<Tag>, tail: Syms, opens: bool) returns (d: Control)
    requires NameOk(name) && e.previous == Some(Word(BEGIN)) && !e.inDeclare && e.bodyStart == opens
    requires e.blocks == (if opens then Open(BeginBlock, c.blocks) else c.blocks) && e.blocks.Open?
    requires inner == EndSyms(Option.None, name, More(Semi, tail))
    requires Outcome(c, Then(BEGIN, inner)) == Outcome(e, inner)
    ensures Reached(c, d, Then(BEGIN, inner), tail, !opens && InCase(c.blocks))
  {
    if opens || InCase(c.blocks) {
      assert BeforeEnd(e, e, inner, inner, Option.None, false);
      d := EndFalls(c, Then(BEGIN, inner), e, inner, e, Option.None, name, tail, false, opens);
    } else {
      d := EndIsPlain(e, name, tail);
    }
  }

  /** The END of an empty block that is not seen, where no CASE counts as an expression. */
  lemma EndIsPlain(c: Control, name: Option<Tag>, tail: Syms) returns (d: Control)
    requires c.blocks.Open? && !c.bodyStart && !c.inDeclare && !InCase(c.blocks) && NameOk(name) && !Named(c.previous)
    ensures Outcome(c, EndSyms(Option.None, name, More(Semi, tail))) == Outcome(d, More(Semi, tail))
    ensures d.blocks == c.blocks
  {
    var rest := NameSyms(name, More(Semi, tail));
    FirstOfName(name, More(Semi, tail));
    WordStep(c, END, rest);
    d := NameLeads(Plain(c, Word(END)).control, name, More(Semi, tail));
  }

  /** A list behind an expression and THEN. */
  lemma {:induction false} CondListFalls(c: Control, before: Keyword, cond: Expr, ss: Stmts, tail: Syms)
      returns (d: Control, loses: bool)
    requires !c.bodyStart && c.previous == Some(Word(before)) && Between(cond, before, THEN, ANYWHERE)
    requires ss.Next? && ClearAll(ss)
    ensures Past(c, d, ExprSyms(cond, Then(THEN, StmtsSyms(ss, tail))), tail, loses)
    ensures !c.inDeclare ==> loses == AnyLoses(ss, ThenSpot(c))
    decreases ss, 1
  {
    var syms := StmtsSyms(ss, tail);
    FirstOfStmt(ss.stmt, More(Semi, StmtsSyms(ss.more, tail)));
    d := UpToReads(c, cond, before, Then(THEN, syms));
    d := ThenAny(d, THEN, syms);
    loses := AnyLoses(ss, SpotOf(d));
    d := ListFalls(d, ss, tail);
  }

  /** One behind ELSE. */
  lemma {:induction false} ElseListFalls(c: Control, ss: Stmts, tail: Syms) returns (d: Control)
    requires !c.inDeclare && !Named(c.previous) && ss.Next? && ClearAll(ss)
    ensures Past(c, d, Then(ELSE, StmtsSyms(ss, tail)), tail, AnyLoses(ss, ThenSpot(c)))
    decreases ss, 1
  {
    FirstOfStmt(ss.stmt, More(Semi, StmtsSyms(ss.more, tail)));
    var e := ThenAny(c, ELSE, StmtsSyms(ss, tail));
    d := ListFalls(e, ss, tail);
    SamePast(c, e, d, Then(ELSE, StmtsSyms(ss, tail)), StmtsSyms(ss, tail), tail, AnyLoses(ss, ThenSpot(c)));
  }

  /** What comes first leaves the blocks as they are. */
  lemma SamePast(c: Control, e: Control, d: Control, syms: Syms, inner: Syms, tail: Syms, loses: bool)
    requires Outcome(c, syms) == Outcome(e, inner) && e.blocks == c.blocks && Past(e, d, inner, tail, loses)
    ensures Past(c, d, syms, tail, loses)
  {}

  /** One list after another. */
  lemma PastBoth(c: Control, d: Control, e: Control, syms: Syms, rest: Syms, tail: Syms, loses: bool, more: bool)
    requires Past(c, d, syms, rest, loses) && (Goes(c, d, syms, rest) ==> Past(d, e, rest, tail, more))
    requires Length(rest) >= Length(tail)
    ensures Past(c, e, syms, tail, loses || more)
  {
    if Goes(c, d, syms, rest) && loses && Under(d.blocks, c.blocks) && Below(e.blocks, d.blocks) {
      UnderBelow(e.blocks, d.blocks, c.blocks);
    }
  }

  lemma {:induction false} ElsesFall(c: Control, e: Elses, end: Syms) returns (d: Control)
    requires c.blocks.Open? && AfterList(c) && ClearElses(e)
    ensures Past(c, d, ElsesSyms(e, end), end, ElsesLose(e, ThenSpot(c)))
    decreases e
  {
    match e
    case EndIf => d := c;
    case ElseIf(cond, stmts, next) => d := ElseIfFalls(c, e, end);
    case Else(stmts) => d := ElseListFalls(c, stmts, end);
  }

  lemma {:induction false} ElseIfFalls(c: Control, e: Elses, end: Syms) returns (f: Control)
    requires e.ElseIf? && c.blocks.Open? && AfterList(c) && ClearElses(e)
    ensures Past(c, f, ElsesSyms(e, end), end, ElsesLose(e, ThenSpot(c)))
    decreases e, 0
  {
    var more := ElsesSyms(e.more, end);
    var syms := ExprSyms(e.cond, Then(THEN, StmtsSyms(e.stmts, more)));
    LongerElses(e.more, end);
    FirstUpTo(e.cond, OTHER, Then(THEN, StmtsSyms(e.stmts, more)));
    PlainStep(c, OTHER, syms);
    var a := Plain(c, Word(OTHER)).control;
    var d, loses := CondListFalls(a, OTHER, e.cond, e.stmts, more);
    SamePast(c, a, d, Then(OTHER, syms), syms, more, loses);
    f := d;
    if Goes(c, d, Then(OTHER, syms), more) { f := ElsesFall(d, e.more, end); }
    PastBoth(c, d, f, Then(OTHER, syms), more, end, loses, ElsesLose(e.more, ThenSpot(d)));
  }

  lemma PastIsBeforeEnd(c: Control, d: Control, syms: Syms, end: Syms, word: Option<Keyword>, loses: bool)
    requires Past(c, d, syms, end, loses)
    ensures BeforeEnd(c, d, syms, end, word, loses)
  {}

  lemma {:induction false} ConditionalFalls(c: Control, s: Stmt, tail: Syms) returns (f: Control)
    requires s.Conditional? && Free(c) && ClearOk(s)
    ensures Reached(c, f, StmtSyms(s, More(Semi, tail)), tail, Loses(s, SpotOf(c)))
    decreases s, 1
  {
    var end := EndSyms(Some(IF), Option.None, More(Semi, tail));
    var more := ElsesSyms(s.more, end);
    var syms := ExprSyms(s.cond, Then(THEN, StmtsSyms(s.stmts, more)));
    assert StmtSyms(s, More(Semi, tail)) == Then(IF, syms);
    LongerElses(s.more, end);
    FirstUpTo(s.cond, IF, Then(THEN, StmtsSyms(s.stmts, more)));
    var e := OpenOrPlain(c, IF, syms);
    var d, loses := CondListFalls(e, IF, s.cond, s.stmts, more);
    f := d;
    if Goes(e, d, syms, more) { f := ElsesFall(d, s.more, end); }
    PastBoth(e, d, f, syms, more, end, loses, ElsesLose(s.more, ThenSpot(d)));
    loses := loses || ElsesLose(s.more, ThenSpot(d));
    PastIsBeforeEnd(e, f, syms, end, Some(IF), loses);
    f := EndFalls(c, Then(IF, syms), e, syms, f, Some(IF), Option.None, tail, loses, c.bodyStart);
  }

  lemma {:induction false} ArmsFall(c: Control, a: Arms, end: Syms) returns (d: Control)
    requires c.blocks.Open? && !c.inDeclare && !Named(c.previous) && ClearArms(a) && (a.EndCase? ==> AfterList(c))
    ensures Past(c, d, ArmsSyms(a, end), end, ArmsLose(a, ThenSpot(c)))
    decreases a
  {
    match a
    case EndCase => d := c;
    case When(cond, stmts, next) => d := WhenFalls(c, a, end);
    case ElseDo(stmts) => d := ElseListFalls(c, stmts, end);
  }

  lemma {:induction false} WhenFalls(c: Control, a: Arms, end: Syms) returns (f: Control)
    requires a.When? && c.blocks.Open? && !c.inDeclare && !Named(c.previous) && ClearArms(a)
    ensures Past(c, f, ArmsSyms(a, end), end, ArmsLose(a, ThenSpot(c)))
    decreases a, 0
  {
    var more := ArmsSyms(a.more, end);
    var syms := ExprSyms(a.cond, Then(THEN, StmtsSyms(a.stmts, more)));
    LongerArms(a.more, end);
    FirstUpTo(a.cond, WHEN, Then(THEN, StmtsSyms(a.stmts, more)));
    PlainStep(c, WHEN, syms);
    var e := Plain(c, Word(WHEN)).control;
    var d, loses := CondListFalls(e, WHEN, a.cond, a.stmts, more);
    SamePast(c, e, d, Then(WHEN, syms), syms, more, loses);
    f := d;
    if Goes(c, d, Then(WHEN, syms), more) { f := ArmsFall(d, a.more, end); }
    PastBoth(c, d, f, Then(WHEN, syms), more, end, loses, ArmsLose(a.more, ThenSpot(d)));
  }

  lemma {:induction false} ChoiceFalls(c: Control, s: Stmt, tail: Syms) returns (f: Control)
    requires s.Choice? && Free(c) && ClearOk(s)
    ensures Reached(c, f, StmtSyms(s, More(Semi, tail)), tail, Loses(s, SpotOf(c)))
    decreases s, 1
  {
    var end := EndSyms(Some(CASE), Option.None, More(Semi, tail));
    var arms := ArmsSyms(s.arms, end);
    var syms := ExprSyms(s.subject, arms);
    assert StmtSyms(s, More(Semi, tail)) == Then(CASE, syms);
    FirstOfArmsIs(s.arms, More(Semi, tail));
    FirstOfExpr(s.subject, arms);
    NoLabelFirst(s.subject, Some(Word(CASE)), arms, ANYWHERE);
    var e := CaseAny(c, syms);
    var d := ExprReads(e, s.subject, arms);
    f := ArmsFall(d, s.arms, end);
    SamePast(e, d, f, syms, arms, end, ArmsLose(s.arms, ThenSpot(e)));
    PastIsBeforeEnd(e, f, syms, end, Some(CASE), ArmsLose(s.arms, ThenSpot(e)));
    f := EndFalls(c, Then(CASE, syms), e, syms, f, Some(CASE), Option.None, tail, ArmsLose(s.arms, ThenSpot(e)), true);
  }

  lemma {:induction false} WhileFalls(c: Control, s: Stmt, tail: Syms) returns (f: Control)
    requires s.WhileDo? && Free(c) && ClearOk(s)
    ensures Reached(c, f, StmtSyms(s, More(Semi, tail)), tail, Loses(s, SpotOf(c)))
    decreases s, 1
  {
    var end := EndSyms(Some(WHILE), s.name, More(Semi, tail));
    var body := StmtsSyms(s.body, end);
    var syms := ExprSyms(s.cond, Then(DO, body));
    assert StmtSyms(s, More(Semi, tail)) == Then(WHILE, syms);
    FirstOfStmt(s.body.stmt, More(Semi, StmtsSyms(s.body.more, end)));
    FirstUpTo(s.cond, WHILE, Then(DO, body));
    var e := OpenOrPlain(c, WHILE, syms);
    var d := UpToReads(e, s.cond, WHILE, Then(DO, body));
    d := DoAny(d, body);
    var loses := AnyLoses(s.body, SpotOf(d));
    f := ListFalls(d, s.body, end);
    SamePast(e, d, f, syms, body, end, loses);
    PastIsBeforeEnd(e, f, syms, end, Some(WHILE), loses);
    f := EndFalls(c, Then(WHILE, syms), e, syms, f, Some(WHILE), s.name, tail, loses, c.bodyStart);
  }

  lemma {:induction false} LoopFalls(c: Control, s: Stmt, tail: Syms) returns (f: Control)
    requires s.Forever? && Free(c) && ClearOk(s)
    ensures Reached(c, f, StmtSyms(s, More(Semi, tail)), tail, Loses(s, SpotOf(c)))
    decreases s, 1
  {
    var end := EndSyms(Some(LOOP), s.name, More(Semi, tail));
    var body := StmtsSyms(s.body, end);
    assert StmtSyms(s, More(Semi, tail)) == Then(LOOP, body);
    FirstOfStmt(s.body.stmt, More(Semi, StmtsSyms(s.body.more, end)));
    var e := OpenOrPlain(c, LOOP, body);
    f := ListFalls(e, s.body, end);
    PastIsBeforeEnd(e, f, body, end, Some(LOOP), AnyLoses(s.body, SpotOf(e)));
    f := EndFalls(c, Then(LOOP, body), e, body, f, Some(LOOP), s.name, tail, AnyLoses(s.body, SpotOf(e)), c.bodyStart);
  }

  /** UNTIL and its condition. */
  lemma UntilReads(c: Control, until: Expr, end: Syms) returns (d: Control)
    requires c.blocks.Open? && AfterList(c) && end.More? && end.head == Word(END)
    requires Between(until, OTHER, END, ANYWHERE) && !ExpectsOperand(LastOf(until, Some(Word(OTHER))))
    ensures Outcome(c, Then(OTHER, ExprSyms(until, end))) == Outcome(d, end) && CanEnd(d) && d.blocks == c.blocks
  {
    FirstUpTo(until, OTHER, end);
    PlainStep(c, OTHER, ExprSyms(until, end));
    d := UpToReads(Plain(c, Word(OTHER)).control, until, OTHER, end);
  }

  lemma UntilBeforeEnd(e: Control, d: Control, f: Control, syms: Syms, until: Syms, end: Syms, loses: bool)
    requires Past(e, d, syms, until, loses) && Length(until) >= Length(end)
    requires Goes(e, d, syms, until) ==> Outcome(d, until) == Outcome(f, end) && CanEnd(f) && f.blocks == d.blocks
    ensures BeforeEnd(e, f, syms, end, Some(REPEAT), loses)
  {}

  lemma {:induction false} RepeatFalls(c: Control, s: Stmt, tail: Syms) returns (f: Control)
    requires s.RepeatUntil? && Free(c) && ClearOk(s)
    ensures Reached(c, f, StmtSyms(s, More(Semi, tail)), tail, Loses(s, SpotOf(c)))
    decreases s, 1
  {
    var end := EndSyms(Some(REPEAT), s.name, More(Semi, tail));
    var until := Then(OTHER, ExprSyms(s.until, end));
    var body := StmtsSyms(s.body, until);
    assert StmtSyms(s, More(Semi, tail)) == Then(REPEAT, body);
    FirstOfStmt(s.body.stmt, More(Semi, StmtsSyms(s.body.more, until)));
    LongerExpr(s.until, end);
    var e := OpenOrPlain(c, REPEAT, body);
    var loses := AnyLoses(s.body, SpotOf(e));
    var d := ListFalls(e, s.body, until);
    f := d;
    if Goes(e, d, body, until) { f := UntilReads(d, s.until, end); }
    UntilBeforeEnd(e, d, f, body, until, end, loses);
    f := EndFalls(c, Then(REPEAT, body), e, body, f, Some(REPEAT), s.name, tail, loses, c.bodyStart);
  }

  // ----- statements that the splitter sees, and bodies that are clear outside of blocks only -----

  lemma {:induction false} OkLosesNothing(s: Stmt, place: Place, p: Spot)
    requires StmtOk(s, place) && p.seen
    ensures !Loses(s, p)
    decreases s
  {
    match s
    case Simple(_, _) =>
    case Declare(_) =>
    case Handler(_, action) => AllOkLoseNothing(action.body, INSIDE, SEEN);
    case Compound(body, _) => AllOkLoseNothing(body, INSIDE, SEEN);
    case Conditional(_, stmts, more) =>
      AllOkLoseNothing(stmts, INSIDE, SEEN);
      ElsesOkLoseNothing(more);
    case Choice(_, arms) => ArmsOkLoseNothing(arms);
    case WhileDo(_, body, _) => AllOkLoseNothing(body, INSIDE, SEEN);
    case Forever(body, _) => AllOkLoseNothing(body, INSIDE, SEEN);
    case RepeatUntil(body, _, _) => AllOkLoseNothing(body, INSIDE, SEEN);
    case Labelled(_, stmt) => OkLosesNothing(stmt, place, p);
  }

  lemma {:induction false} AllOkLoseNothing(ss: Stmts, place: Place, p: Spot)
    requires StmtsOk(ss, place) && p.seen && !p.bare
    ensures !AnyLoses(ss, p)
    decreases ss
  {
    if ss.Next? {
      OkLosesNothing(ss.stmt, place, p);
      AllOkLoseNothing(ss.more, place, p.(seen := true, handled := false));
    }
  }

  lemma {:induction false} ElsesOkLoseNothing(e: Elses)
    requires ElsesOk(e)
    ensures !ElsesLose(e, SEEN)
    decreases e
  {
    match e
    case EndIf =>
    case ElseIf(_, stmts, more) =>
      AllOkLoseNothing(stmts, INSIDE, SEEN);
      ElsesOkLoseNothing(more);
    case Else(stmts) => AllOkLoseNothing(stmts, INSIDE, SEEN);
  }

  lemma {:induction false} ArmsOkLoseNothing(a: Arms)
    requires ArmsOk(a)
    ensures !ArmsLose(a, SEEN)
    decreases a
  {
    match a
    case EndCase =>
    case When(_, stmts, more) =>
      AllOkLoseNothing(stmts, INSIDE, SEEN);
      ArmsOkLoseNothing(more);
    case ElseDo(stmts) => AllOkLoseNothing(stmts, INSIDE, SEEN);
  }

  /** The first statement of an arm of a CASE that counts as an expression. */
  lemma {:induction false} NeatLoses(s: Stmt)
    requires UnseenOk(s, IN_A_CASE)
    ensures Neat(s) <==> !Loses(s, IN_AN_ARM)
    decreases s
  {
    match s
    case Choice(_, arms) => NeatArmsLose(arms);
    case Labelled(_, stmt) => OkLosesNothing(stmt, IN_A_CASE, IN_AN_ARM.(seen := true));
    case _ =>
  }

  lemma {:induction false} NeatArmsLose(a: Arms)
    requires ArmsUnseenOk(a)
    ensures NeatArms(a) <==> !ArmsLose(a, IN_AN_ARM)
    decreases a
  {
    match a
    case EndCase =>
    case When(_, stmts, more) =>
      NeatListLoses(stmts);
      NeatArmsLose(more);
    case ElseDo(stmts) => NeatListLoses(stmts);
  }

  lemma {:induction false} NeatListLoses(ss: Stmts)
    requires FirstUnseenOk(ss, IN_A_CASE)
    ensures Neat(ss.stmt) <==> !AnyLoses(ss, IN_AN_ARM)
    decreases ss
  {
    NeatLoses(ss.stmt);
    AllOkLoseNothing(ss.more, IN_A_CASE, IN_AN_ARM.(seen := true, handled := false));
  }

  lemma BodyLoses(s: Stmt)
    requires UnseenOk(s, BARE)
    ensures WholeBody(s) <==> !Loses(s, BODY)
  {
    match s
    case Compound(body, _) => AllOkLoseNothing(body, INSIDE, SEEN);
    case Choice(_, arms) => NeatArmsLose(arms);
    case Labelled(_, stmt) => OkLosesNothing(stmt, BARE, SEEN_BODY);
    case _ =>
  }

  // ----- routines -----

  /** A body ends its routine with its own semicolon if the splitter does not lose count in it; else it is cut. */
  predicate Decides(c: Control, s: Stmt, tail: Syms, loses: bool) {
    var syms := StmtSyms(s, More(Semi, tail));
    if loses then CutShort(c, syms, tail) else Outcome(c, syms) == Some(tail)
  }

  lemma ClearBodyDecides(c: Control, s: Stmt, tail: Syms)
    requires Free(c) && c.blocks.NoBlock? && ClearOk(s)
    ensures Decides(c, s, tail, Loses(s, SpotOf(c)))
  {
    var d := StmtFalls(c, s, tail);
  }

  lemma UnseenBodyDecides(c: Control, s: Stmt, tail: Syms)
    requires Unseen(c) && c.blocks.NoBlock? && (UnseenOk(s, BARE) || ClearOk(s))
    ensures Decides(c, s, tail, Loses(s, BODY))
  {
    if UnseenOk(s, BARE) {
      BodyLoses(s);
      BodyEndsOrCuts(c, s, tail);
    } else {
      ClearBodyDecides(c, s, tail);
    }
  }

  lemma SeenBodyDecides(c: Control, s: Stmt, tail: Syms)
    requires AtStart(c) && c.blocks.NoBlock? && (StmtOk(s, BARE) || ClearOk(s))
    ensures Decides(c, s, tail, Loses(s, SEEN_BODY))
  {
    if StmtOk(s, BARE) {
      OkLosesNothing(s, BARE, SEEN_BODY);
      var d := StmtLeads(c, s, More(Semi, tail));
    } else {
      ClearBodyDecides(c, s, tail);
    }
  }

  /** A routine goes on up to its own semicolon exactly when its body is whole; else it is cut in its body. */
  lemma RoutineEndsOrCuts(c: Control, r: Routine, rest: Syms)
    requires RoutineOk(r) && AfterHeader(c, r.header.kind)
    ensures Whole(r) ==> Outcome(c, RestSyms(r, More(Semi, rest))) == Some(rest)
    ensures !Whole(r) ==> CutShort(c, RestSyms(r, More(Semi, rest)), rest)
  {
    var tail := More(Semi, rest);
    match r
    case OneStatement(h, text) =>
      var d := ExprLeads(c, text, tail, BARE);
    case WithBody(h, head, body) =>
      FirstOfStmt(body, tail);
      var d := RoutineHeadLeads(c, h.kind, head, StmtSyms(body, tail));
      UnseenBodyDecides(d, body, rest);
    case TriggerOf(h, head, order, body) =>
      FirstOfStmt(body, tail);
      var after := OrderSyms(order, StmtSyms(body, tail));
      var d := RoutineHeadLeads(c, h.kind, head, Then(EACH, Then(ROW, after)));
      d := EachRowStep(d, after);
      d := OrderLeads(d, order, StmtSyms(body, tail));
      SeenBodyDecides(d, body, rest);
    case EventOf(h, head, body) =>
      FirstOfStmt(body, tail);
      var d := RoutineHeadLeads(c, h.kind, head, Then(DO, StmtSyms(body, tail)));
      d := DoStep(d, StmtSyms(body, tail));
      SeenBodyDecides(d, body, rest);
  }
}
