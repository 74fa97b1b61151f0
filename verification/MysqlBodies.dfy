/**
 * Reading the tokens of a routine opens and closes blocks in step with its tree: no semicolon inside cuts it.
 */
module MysqlBodies {
  import opened Text
  import opened MysqlLexer
  import opened MysqlRoutines
  import opened MysqlGrammar

  function AfterSemi(c: Control): Control { c.(bodyStart := true, inDeclare := false, previous := Some(Semi)) }

  /**
   * The tokens after the semicolon that ends the routine being read; none if there is no such semicolon, or if
   * a DELIMITER line could come first.
   */
  function Outcome(c: Control, syms: Syms): Option<Syms>
    decreases syms
  {
    match syms
    case Nil => Option.None
    case More(s, rest) =>
      if s == Semi then
        if c.blocks.NoBlock? then Some(rest) else Outcome(AfterSemi(c), rest)
      else if s == Word(DELIMITER) && c.bodyClosed && c.blocks.NoBlock? then Option.None
      else if !s.Word? then Outcome(Plain(c, s).control, rest)
      else
        match rest
        case Nil => Option.None
        case More(peek, after) =>
          var turn := WordTurn(c, s, Some(peek));
          Outcome(turn.control, if turn.skip then after else rest)
  }

  lemma WordStep(c: Control, word: Keyword, rest: Syms)
    requires rest.More? && !(word.DELIMITER? && c.blocks.NoBlock?)
    ensures var turn := WordTurn(c, Word(word), First(rest));
      Outcome(c, Then(word, rest)) == Outcome(turn.control, if turn.skip then rest.tail else rest)
  {}

  lemma SemiStep(c: Control, rest: Syms)
    requires c.blocks.Open?
    ensures Outcome(c, More(Semi, rest)) == Outcome(AfterSemi(c), rest)
  {}

  // ----- expressions -----

  lemma {:induction false} FirstOfExpr(e: Expr, tail: Syms)
    requires tail.More?
    ensures ExprSyms(e, tail).More? && First(ExprSyms(e, tail)) == FirstOf(e, First(tail))
  {}

  lemma FirstOfWhensIs(w: Whens, tail: Syms)
    ensures WhensSyms(w, Then(END, tail)).More? && First(WhensSyms(w, Then(END, tail))) == FirstOfWhens(w)
  {}

  /** The control while an expression is read at a place. */
  predicate Fits(c: Control, place: Place) {
    && !c.bodyStart
    && (place.inCase <==> c.blocks.Open? && c.blocks.block.CaseExpression?)
    && (place.bare <==> c.blocks.NoBlock?)
    && (c.inDeclare ==> place.inDeclare)
  }

  /** Where a statement stands. */
  function PlaceOf(c: Control): Place {
    Place(c.blocks.Open? && c.blocks.block.CaseExpression?, c.blocks.NoBlock?, false)
  }

  /** An expression that has been read: the same blocks are open. */
  predicate ReadExpr(c: Control, d: Control, last: Option<Sym>) {
    d.blocks == c.blocks && !d.bodyStart && d.previous == last && (d.inDeclare ==> c.inDeclare)
  }

  lemma AtomStep(c: Control, s: Sym, rest: Syms, place: Place)
    requires Fits(c, place) && rest.More? && AtomOk(c.previous, s, First(rest), place) && !IsLabel(First(rest))
    ensures Outcome(c, More(s, rest)) == Outcome(Plain(c, s).control, rest)
  {
    if s.Word? {
      WordStep(c, s.word, rest);
      assert WordTurn(c, s, First(rest)) == Plain(c, s);
    }
  }

  lemma CaseStep(c: Control, rest: Syms, place: Place) returns (d: Control)
    requires Fits(c, place) && rest.More? && !Named(c.previous) && !IsLabel(First(rest))
    ensures Outcome(c, Then(CASE, rest)) == Outcome(d, rest)
    ensures Fits(d, IN_A_CASE) && d.blocks == Open(CaseExpression, c.blocks) && d.previous == Some(Word(CASE))
  {
    WordStep(c, CASE, rest);
    d := WordTurn(c, Word(CASE), First(rest)).control;
  }

  lemma EndStep(c: Control, rest: Syms) returns (d: Control)
    requires Fits(c, IN_A_CASE) && rest.More? && !Named(c.previous) && !ExpectsOperand(c.previous)
    requires !IsLabel(First(rest)) && !EndKeywordNext(First(rest))
    ensures Outcome(c, Then(END, rest)) == Outcome(d, rest)
    ensures d.blocks == c.blocks.outer && !d.bodyStart && !d.inDeclare && d.previous == Some(Word(END))
  {
    WordStep(c, END, rest);
    d := WordTurn(c, Word(END), First(rest)).control;
  }

  /** WHEN, THEN and ELSE of a CASE expression. */
  lemma ArmStep(c: Control, word: Keyword, rest: Syms)
    requires Fits(c, IN_A_CASE) && rest.More? && !IsLabel(First(rest)) && (word.WHEN? || word.THEN? || word.ELSE?)
    ensures Outcome(c, Then(word, rest)) == Outcome(Plain(c, Word(word)).control, rest)
  {
    WordStep(c, word, rest);
  }

  lemma {:induction false} NoLabelFirst(e: Expr, previous: Option<Sym>, tail: Syms, place: Place)
    requires tail.More? && ExprOk(e, previous, First(tail), place) && !IsLabel(First(tail))
    ensures !IsLabel(FirstOf(e, First(tail)))
  {}

  /** Reading an expression leaves the blocks as they are. */
  lemma {:induction false} ExprLeads(c: Control, e: Expr, tail: Syms, place: Place) returns (d: Control)
    requires tail.More? && !IsLabel(First(tail)) && Fits(c, place) && ExprOk(e, c.previous, First(tail), place)
    ensures Outcome(c, ExprSyms(e, tail)) == Outcome(d, tail) && ReadExpr(c, d, LastOf(e, c.previous)) && Fits(d, place)
    decreases e
  {
    match e
    case Empty => d := c;
    case Atom(s, rest) =>
      FirstOfExpr(rest, tail);
      NoLabelFirst(rest, Some(s), tail, place);
      AtomStep(c, s, ExprSyms(rest, tail), place);
      d := ExprLeads(Plain(c, s).control, rest, tail, place);
    case CaseOf(subject, whens, rest) =>
      var afterEnd := ExprSyms(rest, tail);
      FirstOfExpr(rest, tail);
      NoLabelFirst(rest, Some(Word(END)), tail, place);
      d := CaseOfLeads(c, e, afterEnd, place);
      d := ExprLeads(d, rest, tail, place);
  }

  lemma {:induction false} CaseOfLeads(c: Control, e: Expr, rest: Syms, place: Place) returns (d: Control)
    requires e.CaseOf? && Fits(c, place) && !Named(c.previous) && rest.More? && !IsLabel(First(rest))
    requires !EndKeywordNext(First(rest))
    requires ExprOk(e.subject, Some(Word(CASE)), FirstOfWhens(e.whens), IN_A_CASE) && WhensOk(e.whens)
    requires var last := LastOfWhens(e.whens, LastOf(e.subject, Some(Word(CASE))));
      !ExpectsOperand(last) && !Named(last)
    ensures Outcome(c, Then(CASE, ExprSyms(e.subject, WhensSyms(e.whens, Then(END, rest))))) == Outcome(d, rest)
    ensures ReadExpr(c, d, Some(Word(END))) && Fits(d, place)
    decreases e, 0
  {
    var subject, whens := e.subject, e.whens;
    var arms := WhensSyms(whens, Then(END, rest));
    FirstOfWhensIs(whens, rest);
    FirstOfExpr(subject, arms);
    NoLabelFirst(subject, Some(Word(CASE)), arms, IN_A_CASE);
    d := CaseStep(c, ExprSyms(subject, arms), place);
    d := ExprLeads(d, subject, arms, IN_A_CASE);
    d := WhensLeads(d, whens, rest);
    d := EndStep(d, rest);
  }

  lemma {:induction false} WhensLeads(c: Control, w: Whens, tail: Syms) returns (d: Control)
    requires Fits(c, IN_A_CASE) && WhensOk(w)
    ensures Outcome(c, WhensSyms(w, Then(END, tail))) == Outcome(d, Then(END, tail))
    ensures ReadExpr(c, d, LastOfWhens(w, c.previous)) && Fits(d, IN_A_CASE)
    decreases w
  {
    var end := Then(END, tail);
    match w
    case NoMore => d := c;
    case Otherwise(value) =>
      FirstOfExpr(value, end);
      NoLabelFirst(value, Some(Word(ELSE)), end, IN_A_CASE);
      ArmStep(c, ELSE, ExprSyms(value, end));
      d := ExprLeads(Plain(c, Word(ELSE)).control, value, end, IN_A_CASE);
    case Arm(cond, value, more) =>
      var next := WhensSyms(more, end);
      FirstOfWhensIs(more, tail);
      FirstOfExpr(value, next);
      NoLabelFirst(value, Some(Word(THEN)), next, IN_A_CASE);
      var result := Then(THEN, ExprSyms(value, next));
      FirstOfExpr(cond, result);
      NoLabelFirst(cond, Some(Word(WHEN)), result, IN_A_CASE);
      ArmStep(c, WHEN, ExprSyms(cond, result));
      d := ExprLeads(Plain(c, Word(WHEN)).control, cond, result, IN_A_CASE);
      ArmStep(d, THEN, ExprSyms(value, next));
      d := ExprLeads(Plain(d, Word(THEN)).control, value, next, IN_A_CASE);
      d := WhensLeads(d, more, tail);
  }

  // ----- statements -----

  /** Between two statements of a body. */
  predicate AtStart(c: Control) {
    c.bodyStart && !c.inDeclare && !Named(c.previous) && !InAList(c.previous)
  }

  /** What may come before a statement: as above, or, for a block or a label, the start of a routine's body. */
  predicate CanStart(c: Control, s: Stmt) {
    AtStart(c) || (c.blocks.NoBlock? && (s.Compound? || s.Labelled?) && !c.inDeclare && !Named(c.previous)
      && !InAList(c.previous))
  }

  /** Reading an expression between two words. */
  lemma BetweenLeads(c: Control, e: Expr, before: Keyword, after: Keyword, tail: Syms, place: Place)
      returns (d: Control)
    requires c.previous == Some(Word(before)) && Fits(c, place) && Between(e, before, after, place)
    ensures Outcome(c, ExprSyms(e, Then(after, tail))) == Outcome(d, Then(after, tail))
    ensures ReadExpr(c, d, LastOf(e, c.previous)) && Fits(d, place) && !Named(d.previous)
  {
    d := ExprLeads(c, e, Then(after, tail), place);
  }

  lemma FirstBetween(e: Expr, before: Keyword, after: Keyword, tail: Syms, place: Place)
    requires Between(e, before, after, place)
    ensures ExprSyms(e, Then(after, tail)).More? && !IsLabel(First(ExprSyms(e, Then(after, tail))))
  {
    FirstOfExpr(e, Then(after, tail));
    NoLabelFirst(e, Some(Word(before)), Then(after, tail), place);
  }

  lemma FirstOfStmts(ss: Stmts, tail: Syms)
    requires tail.More? && tail.head.Word?
    ensures StmtsSyms(ss, tail).More?
    ensures First(StmtsSyms(ss, tail)) == if ss.Next? then Some(FirstSym(ss.stmt)) else Some(tail.head)
  {}

  function BlockOf(word: Keyword): Block
    requires IsEndKeyword(word)
  {
    match word
    case IF => IfBlock
    case CASE => CaseStatement
    case WHILE => WhileBlock
    case LOOP => LoopBlock
    case REPEAT => RepeatBlock
  }

  /** IF, CASE, WHILE, LOOP and REPEAT at the start of a statement. */
  lemma OpenStep(c: Control, word: Keyword, rest: Syms) returns (d: Control)
    requires AtStart(c) && IsEndKeyword(word) && rest.More? && !IsLabel(First(rest))
    ensures Outcome(c, Then(word, rest)) == Outcome(d, rest)
    ensures d.blocks == Open(BlockOf(word), c.blocks) && !d.inDeclare && d.previous == Some(Word(word))
    ensures d.bodyStart == (word.LOOP? || word.REPEAT?)
  {
    WordStep(c, word, rest);
    d := WordTurn(c, Word(word), First(rest)).control;
  }

  lemma BeginStep(c: Control, rest: Syms) returns (d: Control)
    requires c.bodyStart || c.blocks.NoBlock? || c.inDeclare
    requires !Named(c.previous) && !InAList(c.previous)
    requires rest.More? && !IsLabel(First(rest)) && !IsTransaction(First(rest))
    ensures Outcome(c, Then(BEGIN, rest)) == Outcome(d, rest)
    ensures d.blocks == Open(BeginBlock, c.blocks) && AtStart(d)
  {
    WordStep(c, BEGIN, rest);
    d := WordTurn(c, Word(BEGIN), First(rest)).control;
  }

  /** After END, or END IF and its like. */
  predicate AfterEnd(c: Control) {
    !c.bodyStart && !c.inDeclare && c.previous.Some? && c.previous.value.Word? && c.previous.value.word != EACH
  }

  /** END after the last statement of a BEGIN block. */
  lemma EndBlockStep(c: Control, rest: Syms) returns (d: Control)
    requires AtStart(c) && c.blocks.Open? && c.blocks.block.BeginBlock?
    requires rest.More? && !IsLabel(First(rest)) && !EndKeywordNext(First(rest))
    ensures Outcome(c, Then(END, rest)) == Outcome(d, rest)
    ensures d.blocks == c.blocks.outer && AfterEnd(d)
  {
    WordStep(c, END, rest);
    d := WordTurn(c, Word(END), First(rest)).control;
  }

  /** END IF and its like. */
  lemma EndKeywordStep(c: Control, word: Keyword, rest: Syms) returns (d: Control)
    requires c.blocks.Open? && !c.blocks.block.CaseExpression? && !c.inDeclare && !Named(c.previous)
    requires IsEndKeyword(word)
    ensures Outcome(c, Then(END, Then(word, rest))) == Outcome(d, rest)
    ensures d.blocks == c.blocks.outer && AfterEnd(d)
  {
    WordStep(c, END, Then(word, rest));
    d := WordTurn(c, Word(END), First(Then(word, rest))).control;
  }

  /** THEN and ELSE of an IF or a CASE statement. */
  lemma ThenStep(c: Control, word: Keyword, rest: Syms) returns (d: Control)
    requires c.blocks.Open? && (c.blocks.block.IfBlock? || c.blocks.block.CaseStatement?) && !c.inDeclare
    requires !Named(c.previous)
    requires (word.THEN? || word.ELSE?) && rest.More? && !IsLabel(First(rest))
    ensures Outcome(c, Then(word, rest)) == Outcome(d, rest)
    ensures AtStart(d) && d.blocks == c.blocks
  {
    WordStep(c, word, rest);
    d := WordTurn(c, Word(word), First(rest)).control;
  }

  lemma DoStep(c: Control, rest: Syms) returns (d: Control)
    requires !c.bodyStart && !c.inDeclare && !Named(c.previous) && rest.More? && !IsLabel(First(rest))
    ensures Outcome(c, Then(DO, rest)) == Outcome(d, rest)
    ensures AtStart(d) && d.blocks == c.blocks
  {
    WordStep(c, DO, rest);
    d := WordTurn(c, Word(DO), First(rest)).control;
  }

  /** Such a word means nothing to the splitter where it stands. */
  predicate IsPlain(c: Control, word: Keyword) {
    && word !in {BEGIN, CASE, END, THEN, ELSE}
    && (if c.bodyStart
        then word !in {IF, WHILE, LOOP, REPEAT, DECLARE} && (c.blocks.NoBlock? ==> word !in {FOLLOWS, PRECEDES})
        else word != DO)
    && (word == ROW && c.blocks.NoBlock? ==> c.previous != Some(Word(EACH)))
  }

  lemma PlainTurn(c: Control, word: Keyword, peek: Option<Sym>)
    requires IsPlain(c, word) && !IsLabel(peek)
    ensures WordTurn(c, Word(word), peek) == Plain(c, Word(word))
  {}

  /** WHEN, UNTIL, ELSEIF, a name, the first word of a statement. */
  lemma PlainStep(c: Control, word: Keyword, rest: Syms)
    requires rest.More? && !IsLabel(First(rest)) && !(c.blocks.NoBlock? && word.DELIMITER?) && IsPlain(c, word)
    ensures Outcome(c, Then(word, rest)) == Outcome(Plain(c, Word(word)).control, rest)
  {
    WordStep(c, word, rest);
    PlainTurn(c, word, First(rest));
  }

  lemma DeclareStep(c: Control, rest: Syms) returns (d: Control)
    requires AtStart(c) && rest.More? && !IsLabel(First(rest))
    ensures Outcome(c, Then(DECLARE, rest)) == Outcome(d, rest)
    ensures d.blocks == c.blocks && !d.bodyStart && d.inDeclare && d.previous == Some(Word(DECLARE))
  {
    WordStep(c, DECLARE, rest);
    d := WordTurn(c, Word(DECLARE), First(rest)).control;
  }

  lemma LabelStep(c: Control, word: Keyword, rest: Syms) returns (d: Control)
    requires !c.inDeclare && !(c.blocks.NoBlock? && word.DELIMITER?)
    ensures Outcome(c, Then(word, More(Punct(':', false), rest))) == Outcome(d, rest)
    ensures AtStart(d) && d.blocks == c.blocks
  {
    WordStep(c, word, More(Punct(':', false), rest));
    d := WordTurn(c, Word(word), First(More(Punct(':', false), rest))).control;
  }

  lemma FirstOfName(name: Option<Tag>, tail: Syms)
    requires NameOk(name) && tail.More? && tail.head == Semi
    ensures var first := First(NameSyms(name, tail));
      NameSyms(name, tail).More? && !IsLabel(first) && !EndKeywordNext(first)
  {}

  lemma NameLeads(c: Control, name: Option<Tag>, tail: Syms) returns (d: Control)
    requires AfterEnd(c) && NameOk(name) && tail.More? && tail.head == Semi
    ensures Outcome(c, NameSyms(name, tail)) == Outcome(d, tail) && d.blocks == c.blocks
  {
    d := c;
    if name.Some? {
      if name.value.WordTag? { PlainStep(c, name.value.word, tail); }
      d := Plain(c, TagSym(name.value)).control;
    }
  }

  lemma SimpleLeads(c: Control, s: Stmt, tail: Syms) returns (d: Control)
    requires s.Simple? && StmtOk(s, PlaceOf(c)) && AtStart(c) && tail.More? && tail.head == Semi
    ensures Outcome(c, StmtSyms(s, tail)) == Outcome(d, tail) && d.blocks == c.blocks
  {
    FirstOfExpr(s.rest, tail);
    var place := PlaceOf(c);
    NoLabelFirst(s.rest, Some(Word(s.first)), tail, place);
    PlainStep(c, s.first, ExprSyms(s.rest, tail));
    d := ExprLeads(Plain(c, Word(s.first)).control, s.rest, tail, place);
  }

  lemma DeclareLeads(c: Control, s: Stmt, tail: Syms) returns (d: Control)
    requires s.Declare? && StmtOk(s, PlaceOf(c)) && AtStart(c) && tail.More? && tail.head == Semi
    ensures Outcome(c, StmtSyms(s, tail)) == Outcome(d, tail) && d.blocks == c.blocks
  {
    FirstOfExpr(s.rest, tail);
    var place := IN_DECLARE;
    NoLabelFirst(s.rest, Some(Word(DECLARE)), tail, place);
    d := DeclareStep(c, ExprSyms(s.rest, tail));
    d := ExprLeads(d, s.rest, tail, place);
  }

  /** The head of a handler leaves `inDeclare` set, for its block. */
  lemma {:induction false} HandlerHeadLeads(c: Control, e: Expr, tail: Syms) returns (d: Control)
    requires NoCaseOf(e) && c.inDeclare && c.blocks.Open? && Fits(c, IN_DECLARE)
    requires ExprOk(e, c.previous, Some(Word(BEGIN)), IN_DECLARE)
    ensures Outcome(c, ExprSyms(e, Then(BEGIN, tail))) == Outcome(d, Then(BEGIN, tail))
    ensures d == c.(previous := LastOf(e, c.previous))
    decreases e
  {
    match e
    case Empty => d := c;
    case Atom(s, rest) =>
      var next := Then(BEGIN, tail);
      FirstOfExpr(rest, next);
      NoLabelFirst(rest, Some(s), next, IN_DECLARE);
      AtomStep(c, s, ExprSyms(rest, next), IN_DECLARE);
      d := HandlerHeadLeads(Plain(c, s).control, rest, tail);
  }

  // ----- lists of statements, and the statements that hold them -----

  /** Reading a statement leaves the blocks as they are. */
  lemma {:induction false} StmtLeads(c: Control, s: Stmt, tail: Syms) returns (d: Control)
    requires StmtOk(s, PlaceOf(c)) && CanStart(c, s) && tail.More? && tail.head == Semi
    ensures Outcome(c, StmtSyms(s, tail)) == Outcome(d, tail) && d.blocks == c.blocks
    decreases s, 1
  {
    match s
    case Simple(_, _) => d := SimpleLeads(c, s, tail);
    case Declare(_) => d := DeclareLeads(c, s, tail);
    case Handler(_, _) => d := HandlerLeads(c, s, tail);
    case Compound(_, _) => d := CompoundLeads(c, s, tail);
    case Conditional(_, _, _) => d := ConditionalLeads(c, s, tail);
    case Choice(_, _) => d := ChoiceLeads(c, s, tail);
    case WhileDo(_, _, _) => d := WhileLeads(c, s, tail);
    case Forever(_, _) => d := LoopLeads(c, s, tail);
    case RepeatUntil(_, _, _) => d := RepeatLeads(c, s, tail);
    case Labelled(tag, stmt) =>
      d := LabelStep(c, tag.word, StmtSyms(stmt, tail));
      d := StmtLeads(d, stmt, tail);
  }

  /**
   * Reading statements, each with its semicolon, leaves the blocks as they are, and the next word starts a statement.
   */
  lemma {:induction false} StmtsLeads(c: Control, ss: Stmts, tail: Syms) returns (d: Control)
    requires StmtsOk(ss, PlaceOf(c)) && AtStart(c) && c.blocks.Open?
    ensures Outcome(c, StmtsSyms(ss, tail)) == Outcome(d, tail) && d.blocks == c.blocks && AtStart(d)
    ensures d.previous == if ss.Done? then c.previous else Some(Semi)
    decreases ss
  {
    match ss
    case Done => d := c;
    case Next(s, more) =>
      var rest := StmtsSyms(more, tail);
      d := StmtLeads(c, s, More(Semi, rest));
      SemiStep(d, rest);
      d := StmtsLeads(AfterSemi(d), more, tail);
  }

  lemma {:induction false} HandlerLeads(c: Control, s: Stmt, tail: Syms) returns (d: Control)
    requires s.Handler? && StmtOk(s, PlaceOf(c)) && AtStart(c) && tail.More? && tail.head == Semi
    ensures Outcome(c, StmtSyms(s, tail)) == Outcome(d, tail) && d.blocks == c.blocks
    decreases s, 0
  {
    var name := NameSyms(s.action.name, tail);
    var body := StmtsSyms(s.action.body, Then(END, name));
    FirstOfName(s.action.name, tail);
    FirstOfStmts(s.action.body, Then(END, name));
    FirstBetween(s.head, DECLARE, BEGIN, body, IN_DECLARE);
    d := DeclareStep(c, ExprSyms(s.head, Then(BEGIN, body)));
    d := HandlerHeadLeads(d, s.head, body);
    d := BeginStep(d, body);
    d := StmtsLeads(d, s.action.body, Then(END, name));
    d := EndBlockStep(d, name);
    d := NameLeads(d, s.action.name, tail);
  }

  lemma {:induction false} CompoundLeads(c: Control, s: Stmt, tail: Syms) returns (d: Control)
    requires s.Compound? && StmtOk(s, PlaceOf(c)) && CanStart(c, s) && tail.More? && tail.head == Semi
    ensures Outcome(c, StmtSyms(s, tail)) == Outcome(d, tail) && d.blocks == c.blocks
    decreases s, 0
  {
    var name := NameSyms(s.name, tail);
    var body := StmtsSyms(s.body, Then(END, name));
    FirstOfName(s.name, tail);
    FirstOfStmts(s.body, Then(END, name));
    d := BeginStep(c, body);
    d := StmtsLeads(d, s.body, Then(END, name));
    d := EndBlockStep(d, name);
    d := NameLeads(d, s.name, tail);
  }

  lemma {:induction false} ConditionalLeads(c: Control, s: Stmt, tail: Syms) returns (d: Control)
    requires s.Conditional? && StmtOk(s, PlaceOf(c)) && AtStart(c) && tail.More? && tail.head == Semi
    ensures Outcome(c, StmtSyms(s, tail)) == Outcome(d, tail) && d.blocks == c.blocks
    decreases s, 0
  {
    var end := Then(END, Then(IF, tail));
    var more := ElsesSyms(s.more, end);
    var stmts := StmtsSyms(s.stmts, more);
    FirstOfElses(s.more, tail);
    FirstOfStmts(s.stmts, more);
    FirstBetween(s.cond, IF, THEN, stmts, INSIDE);
    d := OpenStep(c, IF, ExprSyms(s.cond, Then(THEN, stmts)));
    d := BetweenLeads(d, s.cond, IF, THEN, stmts, INSIDE);
    d := ThenStep(d, THEN, stmts);
    d := StmtsLeads(d, s.stmts, more);
    d := ElsesLeads(d, s.more, tail);
    d := EndKeywordStep(d, IF, tail);
  }

  lemma FirstOfElses(e: Elses, tail: Syms)
    ensures var syms := ElsesSyms(e, Then(END, Then(IF, tail))); syms.More? && syms.head.Word?
  {}

  lemma {:induction false} ElsesLeads(c: Control, e: Elses, tail: Syms) returns (d: Control)
    requires ElsesOk(e) && AtStart(c) && c.blocks.Open? && c.blocks.block.IfBlock?
    ensures Outcome(c, ElsesSyms(e, Then(END, Then(IF, tail)))) == Outcome(d, Then(END, Then(IF, tail)))
    ensures d.blocks == c.blocks && AtStart(d)
    decreases e
  {
    var end := Then(END, Then(IF, tail));
    match e
    case EndIf => d := c;
    case ElseIf(cond, ss, next) =>
      var more := ElsesSyms(next, end);
      var stmts := StmtsSyms(ss, more);
      FirstOfElses(next, tail);
      FirstOfStmts(ss, more);
      FirstBetween(cond, OTHER, THEN, stmts, INSIDE);
      PlainStep(c, OTHER, ExprSyms(cond, Then(THEN, stmts)));
      d := BetweenLeads(Plain(c, Word(OTHER)).control, cond, OTHER, THEN, stmts, INSIDE);
      d := ThenStep(d, THEN, stmts);
      d := StmtsLeads(d, ss, more);
      d := ElsesLeads(d, next, tail);
    case Else(ss) =>
      FirstOfStmts(ss, end);
      d := ThenStep(c, ELSE, StmtsSyms(ss, end));
      d := StmtsLeads(d, ss, end);
  }

  lemma {:induction false} ChoiceLeads(c: Control, s: Stmt, tail: Syms) returns (d: Control)
    requires s.Choice? && StmtOk(s, PlaceOf(c)) && AtStart(c) && tail.More? && tail.head == Semi
    ensures Outcome(c, StmtSyms(s, tail)) == Outcome(d, tail) && d.blocks == c.blocks
    decreases s, 0
  {
    var end := Then(END, Then(CASE, tail));
    var arms := ArmsSyms(s.arms, end);
    FirstOfArmsIs(s.arms, tail);
    FirstOfExpr(s.subject, arms);
    NoLabelFirst(s.subject, Some(Word(CASE)), arms, INSIDE);
    d := OpenStep(c, CASE, ExprSyms(s.subject, arms));
    d := ExprLeads(d, s.subject, arms, INSIDE);
    d := ArmsLeads(d, s.arms, tail);
    d := EndKeywordStep(d, CASE, tail);
  }

  lemma FirstOfArmsIs(a: Arms, tail: Syms)
    ensures var syms := ArmsSyms(a, Then(END, Then(CASE, tail))); syms.More? && First(syms) == FirstOfArms(a)
  {}

  lemma {:induction false} ArmsLeads(c: Control, a: Arms, tail: Syms) returns (d: Control)
    requires ArmsOk(a) && c.blocks.Open? && c.blocks.block.CaseStatement? && !c.inDeclare && !Named(c.previous)
    ensures Outcome(c, ArmsSyms(a, Then(END, Then(CASE, tail)))) == Outcome(d, Then(END, Then(CASE, tail)))
    ensures d.blocks == c.blocks && !d.inDeclare && !Named(d.previous)
    decreases a
  {
    var end := Then(END, Then(CASE, tail));
    match a
    case EndCase => d := c;
    case When(cond, ss, next) =>
      var more := ArmsSyms(next, end);
      var stmts := StmtsSyms(ss, more);
      FirstOfArmsIs(next, tail);
      FirstOfStmts(ss, more);
      FirstBetween(cond, WHEN, THEN, stmts, INSIDE);
      PlainStep(c, WHEN, ExprSyms(cond, Then(THEN, stmts)));
      d := BetweenLeads(Plain(c, Word(WHEN)).control, cond, WHEN, THEN, stmts, INSIDE);
      d := ThenStep(d, THEN, stmts);
      d := StmtsLeads(d, ss, more);
      d := ArmsLeads(d, next, tail);
    case ElseDo(ss) =>
      FirstOfStmts(ss, end);
      d := ThenStep(c, ELSE, StmtsSyms(ss, end));
      d := StmtsLeads(d, ss, end);
  }

  lemma {:induction false} WhileLeads(c: Control, s: Stmt, tail: Syms) returns (d: Control)
    requires s.WhileDo? && StmtOk(s, PlaceOf(c)) && AtStart(c) && tail.More? && tail.head == Semi
    ensures Outcome(c, StmtSyms(s, tail)) == Outcome(d, tail) && d.blocks == c.blocks
    decreases s, 0
  {
    var name := NameSyms(s.name, tail);
    var end := Then(END, Then(WHILE, name));
    FirstOfName(s.name, tail);
    var body := StmtsSyms(s.body, end);
    FirstOfStmts(s.body, end);
    FirstBetween(s.cond, WHILE, DO, body, INSIDE);
    d := OpenStep(c, WHILE, ExprSyms(s.cond, Then(DO, body)));
    d := BetweenLeads(d, s.cond, WHILE, DO, body, INSIDE);
    d := DoStep(d, body);
    d := StmtsLeads(d, s.body, end);
    d := EndKeywordStep(d, WHILE, name);
    d := NameLeads(d, s.name, tail);
  }

  lemma {:induction false} LoopLeads(c: Control, s: Stmt, tail: Syms) returns (d: Control)
    requires s.Forever? && StmtOk(s, PlaceOf(c)) && AtStart(c) && tail.More? && tail.head == Semi
    ensures Outcome(c, StmtSyms(s, tail)) == Outcome(d, tail) && d.blocks == c.blocks
    decreases s, 0
  {
    var name := NameSyms(s.name, tail);
    var end := Then(END, Then(LOOP, name));
    FirstOfName(s.name, tail);
    FirstOfStmts(s.body, end);
    d := OpenStep(c, LOOP, StmtsSyms(s.body, end));
    d := StmtsLeads(d, s.body, end);
    d := EndKeywordStep(d, LOOP, name);
    d := NameLeads(d, s.name, tail);
  }

  lemma {:induction false} RepeatLeads(c: Control, s: Stmt, tail: Syms) returns (d: Control)
    requires s.RepeatUntil? && StmtOk(s, PlaceOf(c)) && AtStart(c) && tail.More? && tail.head == Semi
    ensures Outcome(c, StmtSyms(s, tail)) == Outcome(d, tail) && d.blocks == c.blocks
    decreases s, 0
  {
    var name := NameSyms(s.name, tail);
    var close := Then(REPEAT, name);
    FirstOfName(s.name, tail);
    var until := Then(OTHER, ExprSyms(s.until, Then(END, close)));
    FirstOfStmts(s.body, until);
    FirstBetween(s.until, OTHER, END, close, INSIDE);
    d := OpenStep(c, REPEAT, StmtsSyms(s.body, until));
    d := StmtsLeads(d, s.body, until);
    PlainStep(d, OTHER, ExprSyms(s.until, Then(END, close)));
    d := BetweenLeads(Plain(d, Word(OTHER)).control, s.until, OTHER, END, close, INSIDE);
    d := EndKeywordStep(d, REPEAT, name);
    d := NameLeads(d, s.name, tail);
  }

  // ----- routines -----

  /** After the header of a routine that ends with `kind`. */
  predicate AfterHeader(c: Control, kind: Keyword) {
    c.blocks.NoBlock? && !c.bodyStart && !c.inDeclare && c.previous == Some(Word(kind))
  }

  lemma RoutineHeadLeads(c: Control, kind: Keyword, head: Expr, tail: Syms) returns (d: Control)
    requires AfterHeader(c, kind) && tail.More? && !IsLabel(First(tail)) && HeadOk(kind, head, tail.head)
    ensures Outcome(c, ExprSyms(head, tail)) == Outcome(d, tail)
    ensures d.blocks.NoBlock? && !d.bodyStart && !d.inDeclare && !Named(d.previous) && !InAList(d.previous)
  {
    d := ExprLeads(c, head, tail, BARE);
  }

  lemma EachRowStep(c: Control, rest: Syms) returns (d: Control)
    requires c.blocks.NoBlock? && !c.bodyStart && !c.inDeclare && !Named(c.previous) && rest.More?
    requires !IsLabel(First(rest))
    ensures Outcome(c, Then(EACH, Then(ROW, rest))) == Outcome(d, rest)
    ensures AtStart(d) && d.blocks.NoBlock?
  {
    PlainStep(c, EACH, Then(ROW, rest));
    d := Plain(c, Word(EACH)).control;
    WordStep(d, ROW, rest);
    d := WordTurn(d, Word(ROW), First(rest)).control;
  }

  lemma OrderLeads(c: Control, order: Option<(Keyword, Sym)>, rest: Syms) returns (d: Control)
    requires AtStart(c) && c.blocks.NoBlock?
    requires order.Some? ==> (order.value.0.FOLLOWS? || order.value.0.PRECEDES?) && IsName(order.value.1)
    ensures Outcome(c, OrderSyms(order, rest)) == Outcome(d, rest)
    ensures AtStart(d) && d.blocks.NoBlock?
  {
    d := c;
    if order.Some? {
      var name := More(order.value.1, rest);
      WordStep(c, order.value.0, name);
      d := WordTurn(c, Word(order.value.0), First(name)).control;
    }
  }

  lemma FirstOfStmt(s: Stmt, tail: Syms)
    ensures StmtSyms(s, tail).More? && StmtSyms(s, tail).head == FirstSym(s)
  {}
}
