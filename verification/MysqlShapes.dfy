/**
 * Statements that the splitter does not see start. In a CASE that it takes for an expression, each END of
 * such a statement closes a CASE too many; outside of any block their first semicolon cuts the routine. So the shape of
 * a body decides whether its routine is one range.
 */
module MysqlShapes {
  import opened Text
  import opened MysqlLexer
  import opened MysqlRoutines
  import opened MysqlGrammar
  import opened MysqlBodies

  // ----- how much is left to read -----

  function Length(syms: Syms): nat { if syms.Nil? then 0 else 1 + Length(syms.tail) }

  lemma {:induction false} LongerExpr(e: Expr, tail: Syms)
    ensures Length(ExprSyms(e, tail)) >= Length(tail)
    decreases e
  {
    match e
    case Empty =>
    case Atom(_, rest) => LongerExpr(rest, tail);
    case CaseOf(subject, whens, rest) =>
      LongerExpr(rest, tail);
      LongerWhens(whens, Then(END, ExprSyms(rest, tail)));
      LongerExpr(subject, WhensSyms(whens, Then(END, ExprSyms(rest, tail))));
  }

  lemma {:induction false} LongerWhens(w: Whens, tail: Syms)
    ensures Length(WhensSyms(w, tail)) >= Length(tail)
    decreases w
  {
    match w
    case NoMore =>
    case Otherwise(value) => LongerExpr(value, tail);
    case Arm(cond, value, more) =>
      LongerWhens(more, tail);
      LongerExpr(value, WhensSyms(more, tail));
      LongerExpr(cond, Then(THEN, ExprSyms(value, WhensSyms(more, tail))));
  }

  lemma LongerName(name: Option<Tag>, tail: Syms)
    ensures Length(NameSyms(name, tail)) >= Length(tail)
  {}

  lemma {:induction false} LongerStmt(s: Stmt, tail: Syms)
    ensures Length(StmtSyms(s, tail)) > Length(tail)
    decreases s
  {
    match s
    case Simple(_, rest) => LongerExpr(rest, tail);
    case Declare(rest) => LongerExpr(rest, tail);
    case Handler(head, action) =>
      LongerStmt(action, tail);
      LongerExpr(head, StmtSyms(action, tail));
    case Compound(body, name) =>
      LongerName(name, tail);
      LongerStmts(body, Then(END, NameSyms(name, tail)));
    case Conditional(cond, stmts, more) =>
      var end := Then(END, Then(IF, tail));
      LongerElses(more, end);
      LongerStmts(stmts, ElsesSyms(more, end));
      LongerExpr(cond, Then(THEN, StmtsSyms(stmts, ElsesSyms(more, end))));
    case Choice(subject, arms) =>
      LongerArms(arms, Then(END, Then(CASE, tail)));
      LongerExpr(subject, ArmsSyms(arms, Then(END, Then(CASE, tail))));
    case WhileDo(cond, body, name) =>
      var end := Then(END, Then(WHILE, NameSyms(name, tail)));
      LongerName(name, tail);
      LongerStmts(body, end);
      LongerExpr(cond, Then(DO, StmtsSyms(body, end)));
    case Forever(body, name) =>
      LongerName(name, tail);
      LongerStmts(body, Then(END, Then(LOOP, NameSyms(name, tail))));
    case RepeatUntil(body, until, name) =>
      var end := Then(END, Then(REPEAT, NameSyms(name, tail)));
      LongerName(name, tail);
      LongerExpr(until, end);
      LongerStmts(body, Then(OTHER, ExprSyms(until, end)));
    case Labelled(_, stmt) => LongerStmt(stmt, tail);
  }

  lemma {:induction false} LongerStmts(ss: Stmts, tail: Syms)
    ensures Length(StmtsSyms(ss, tail)) >= Length(tail)
    decreases ss
  {
    if ss.Next? {
      LongerStmts(ss.more, tail);
      LongerStmt(ss.stmt, More(Semi, StmtsSyms(ss.more, tail)));
    }
  }

  lemma {:induction false} LongerElses(e: Elses, tail: Syms)
    ensures Length(ElsesSyms(e, tail)) >= Length(tail)
    decreases e
  {
    match e
    case EndIf =>
    case ElseIf(cond, stmts, more) =>
      LongerElses(more, tail);
      LongerStmts(stmts, ElsesSyms(more, tail));
      LongerExpr(cond, Then(THEN, StmtsSyms(stmts, ElsesSyms(more, tail))));
    case Else(stmts) => LongerStmts(stmts, tail);
  }

  lemma {:induction false} LongerArms(a: Arms, tail: Syms)
    ensures Length(ArmsSyms(a, tail)) >= Length(tail)
    decreases a
  {
    match a
    case EndCase =>
    case When(cond, stmts, more) =>
      LongerArms(more, tail);
      LongerStmts(stmts, ArmsSyms(more, tail));
      LongerExpr(cond, Then(THEN, StmtsSyms(stmts, ArmsSyms(more, tail))));
    case ElseDo(stmts) => LongerStmts(stmts, tail);
  }

  lemma LengthOfEnd(word: Keyword, tail: Syms)
    ensures Length(Then(END, Then(word, tail))) == Length(tail) + 2
  {}

  lemma LengthOfSemi(tail: Syms)
    ensures Length(More(Semi, tail)) == Length(tail) + 1
  {}

  /** The routine ends at a semicolon before `tail`, or right in front of it. */
  predicate CutBy(c: Control, syms: Syms, tail: Syms) {
    Outcome(c, syms).Some? && Length(Outcome(c, syms).value) >= Length(tail)
  }

  // ----- what is lost -----

  /** How many CASE that count as expressions a statement closes that is not seen to start. */
  function Lost(s: Stmt): nat {
    match s
    case Compound(body, _) => LostFirst(body) + 1
    case Conditional(_, stmts, more) => LostFirst(stmts) + LostElses(more) + 1
    case Choice(_, arms) => LostArms(arms)
    case WhileDo(_, _, _) => 1
    case Forever(body, _) => LostFirst(body) + 1
    case RepeatUntil(body, _, _) => LostFirst(body) + 1
    case _ => 0
  }

  function LostFirst(ss: Stmts): nat { if ss.Done? then 0 else Lost(ss.stmt) }

  function LostElses(e: Elses): nat {
    match e
    case EndIf => 0
    case ElseIf(_, stmts, more) => LostFirst(stmts) + LostElses(more)
    case Else(stmts) => LostFirst(stmts)
  }

  function LostArms(a: Arms): nat {
    match a
    case EndCase => 0
    case When(_, stmts, more) => LostFirst(stmts) + LostArms(more)
    case ElseDo(stmts) => LostFirst(stmts)
  }

  /** Nothing is lost exactly with a neat statement. */
  lemma {:induction false} NeatLosesNothing(s: Stmt, place: Place)
    requires UnseenOk(s, place)
    ensures Lost(s) == 0 <==> Neat(s)
    decreases s
  {
    if s.Choice? { NeatArmsLoseNothing(s.arms); }
  }

  lemma {:induction false} NeatArmsLoseNothing(a: Arms)
    requires ArmsUnseenOk(a)
    ensures LostArms(a) == 0 <==> NeatArms(a)
    decreases a
  {
    match a
    case EndCase =>
    case When(_, stmts, more) =>
      NeatLosesNothing(stmts.stmt, IN_A_CASE);
      NeatArmsLoseNothing(more);
    case ElseDo(stmts) => NeatLosesNothing(stmts.stmt, IN_A_CASE);
  }

  // ----- where no statement is seen to start -----

  /** Blocks that are all CASE that count as expressions. */
  predicate AllCase(b: Blocks) { b.Open? ==> b.block.CaseExpression? && AllCase(b.outer) }

  function Depth(b: Blocks): nat { if b.NoBlock? then 0 else 1 + Depth(b.outer) }

  predicate Cases(c: Control, depth: int) { AllCase(c.blocks) && Depth(c.blocks) == depth }

  predicate InCases(c: Control, depth: int) { Cases(c, depth) && !c.inDeclare && !Named(c.previous) }

  predicate Unseen(c: Control) { !c.bodyStart && !c.inDeclare && !Named(c.previous) && !InAList(c.previous) }

  /** The DO of a WHILE, or one that is taken for it, and an expression. */
  lemma DoLeads(c: Control, rest: Expr, tail: Syms, place: Place) returns (d: Control)
    requires Unseen(c) && Fits(c, place) && SimpleOk(DO, rest, place) && AfterDoOk(rest) && tail.More?
    requires tail.head == Semi
    ensures Outcome(c, Then(DO, ExprSyms(rest, tail))) == Outcome(d, tail) && ReadExpr(c, d, d.previous)
  {
    var atoms := ExprSyms(rest.rest, tail);
    FirstOfExpr(rest.rest, tail);
    NoLabelFirst(rest.rest, Some(rest.sym), tail, place);
    d := DoStep(c, ExprSyms(rest, tail));
    if rest.sym.Word? { PlainStep(d, rest.sym.word, atoms); }
    assert Outcome(d, ExprSyms(rest, tail)) == Outcome(Plain(d, rest.sym).control, atoms);
    d := ExprLeads(Plain(d, rest.sym).control, rest.rest, tail, place);
  }

  lemma SimpleUnseenLeads(c: Control, s: Stmt, tail: Syms, place: Place) returns (d: Control)
    requires s.Simple? && Unseen(c) && Fits(c, place) && UnseenOk(s, place) && tail.More? && tail.head == Semi
    ensures Outcome(c, StmtSyms(s, tail)) == Outcome(d, tail) && d.blocks == c.blocks && !d.inDeclare
  {
    if s.first == DO {
      d := DoLeads(c, s.rest, tail, place);
    } else {
      FirstOfExpr(s.rest, tail);
      NoLabelFirst(s.rest, Some(Word(s.first)), tail, place);
      PlainStep(c, s.first, ExprSyms(s.rest, tail));
      d := ExprLeads(Plain(c, Word(s.first)).control, s.rest, tail, place);
    }
  }

  /** THEN and ELSE outside of an IF or a CASE start no statement. */
  lemma ThenIsPlain(c: Control, word: Keyword, rest: Syms) returns (d: Control)
    requires !(c.blocks.Open? && (c.blocks.block.IfBlock? || c.blocks.block.CaseStatement?)) && rest.More?
    requires !IsLabel(First(rest))
    requires (word.THEN? || word.ELSE?) && !Named(c.previous)
    ensures Outcome(c, Then(word, rest)) == Outcome(d, rest)
    ensures d.blocks == c.blocks && d.inDeclare == c.inDeclare && !d.bodyStart && d.previous == Some(Word(word))
  {
    WordStep(c, word, rest);
    d := WordTurn(c, Word(word), First(rest)).control;
  }

  /** A word, an expression and THEN or DO, up to a list that is not empty. */
  lemma CondLeads(c: Control, word: Keyword, cond: Expr, stop: Keyword, ss: Stmts, tail: Syms, place: Place)
      returns (d: Control)
    requires !c.inDeclare && !Named(c.previous) && Fits(c.(bodyStart := false), place)
    requires Between(cond, word, stop, place) && ss.Next?
    requires word.OTHER? || word.WHEN? || (!c.bodyStart && (word.IF? || word.WHILE?))
    ensures var syms := StmtsSyms(ss, tail);
      Outcome(c, Then(word, ExprSyms(cond, Then(stop, syms)))) == Outcome(d, Then(stop, syms)) && syms.More?
        && !IsLabel(First(syms))
    ensures ReadExpr(c, d, d.previous) && !d.inDeclare && !Named(d.previous)
  {
    var syms := StmtsSyms(ss, tail);
    FirstOfStmt(ss.stmt, More(Semi, StmtsSyms(ss.more, tail)));
    FirstBetween(cond, word, stop, syms, place);
    PlainStep(c, word, ExprSyms(cond, Then(stop, syms)));
    d := BetweenLeads(Plain(c, Word(word)).control, cond, word, stop, syms, place);
  }

  // ----- inside a CASE that counts as an expression -----

  /** An END with its keyword after a statement, or after a value. */
  lemma EndOfCaseStep(c: Control, word: Keyword, rest: Syms) returns (d: Control)
    requires InCases(c, Depth(c.blocks)) && c.blocks.Open? && !ExpectsOperand(c.previous) && IsEndKeyword(word)
    ensures Outcome(c, Then(END, Then(word, rest))) == Outcome(d, rest)
    ensures InCases(d, Depth(c.blocks) - 1) && AfterEnd(d)
  {
    WordStep(c, END, Then(word, rest));
    d := WordTurn(c, Word(END), First(Then(word, rest))).control;
  }

  lemma EndNameStep(c: Control, name: Option<Tag>, tail: Syms) returns (d: Control)
    requires InCases(c, Depth(c.blocks)) && c.blocks.Open? && !ExpectsOperand(c.previous) && NameOk(name)
    ensures Outcome(c, Then(END, NameSyms(name, More(Semi, tail)))) == Outcome(d, More(Semi, tail))
    ensures Cases(d, Depth(c.blocks) - 1)
  {
    var rest := NameSyms(name, More(Semi, tail));
    FirstOfName(name, More(Semi, tail));
    WordStep(c, END, rest);
    d := WordTurn(c, Word(END), First(rest)).control;
    d := NameLeads(d, name, More(Semi, tail));
  }

  /** At the semicolon of a statement; `lost` CASE of `depth` have been closed. */
  predicate AtSemi(c: Control, d: Control, syms: Syms, tail: Syms, depth: nat, lost: nat) {
    if lost < depth then Outcome(c, syms) == Outcome(d, More(Semi, tail)) && Cases(d, depth - lost)
      else CutBy(c, syms, tail)
  }

  /** Past a list of statements; the next word starts a statement. */
  predicate PastList(c: Control, d: Control, syms: Syms, tail: Syms, depth: nat, lost: nat) {
    if lost < depth
    then Outcome(c, syms) == Outcome(d, tail) && InCases(d, depth - lost) && d.bodyStart && d.previous == Some(Semi)
    else CutBy(c, syms, tail)
  }

  /** A list of which only the first statement is unseen. */
  lemma {:induction false} FirstUnseenLeads(c: Control, ss: Stmts, tail: Syms) returns (d: Control)
    requires Unseen(c) && InCases(c, Depth(c.blocks)) && c.blocks.Open? && FirstUnseenOk(ss, IN_A_CASE)
    ensures PastList(c, d, StmtsSyms(ss, tail), tail, Depth(c.blocks), Lost(ss.stmt))
    decreases ss, 0
  {
    var more := StmtsSyms(ss.more, tail);
    LongerStmts(ss.more, tail);
    d := UnseenLeads(c, ss.stmt, more);
    if Lost(ss.stmt) < Depth(c.blocks) {
      SemiStep(d, more);
      d := StmtsLeads(AfterSemi(d), ss.more, tail);
    }
  }

  /** Such a list behind a word, an expression and THEN. */
  lemma {:induction false} CondListLeads(c: Control, word: Keyword, cond: Expr, ss: Stmts, tail: Syms)
      returns (d: Control)
    requires InCases(c, Depth(c.blocks)) && c.blocks.Open? && Between(cond, word, THEN, IN_A_CASE)
    requires FirstUnseenOk(ss, IN_A_CASE)
    requires word.OTHER? || word.WHEN? || (!c.bodyStart && word.IF?)
    ensures PastList(c, d, Then(word, ExprSyms(cond, Then(THEN, StmtsSyms(ss, tail)))), tail, Depth(c.blocks),
      Lost(ss.stmt))
    decreases ss, 1
  {
    d := CondLeads(c, word, cond, THEN, ss, tail, IN_A_CASE);
    d := ThenIsPlain(d, THEN, StmtsSyms(ss, tail));
    d := FirstUnseenLeads(d, ss, tail);
  }

  /** Such a list behind ELSE. */
  lemma {:induction false} ElseListLeads(c: Control, ss: Stmts, tail: Syms) returns (d: Control)
    requires InCases(c, Depth(c.blocks)) && c.blocks.Open? && FirstUnseenOk(ss, IN_A_CASE)
    ensures PastList(c, d, Then(ELSE, StmtsSyms(ss, tail)), tail, Depth(c.blocks), Lost(ss.stmt))
    decreases ss, 1
  {
    FirstOfStmt(ss.stmt, More(Semi, StmtsSyms(ss.more, tail)));
    d := ThenIsPlain(c, ELSE, StmtsSyms(ss, tail));
    d := FirstUnseenLeads(d, ss, tail);
  }

  lemma {:induction false} UnseenLeads(c: Control, s: Stmt, tail: Syms) returns (d: Control)
    requires Unseen(c) && InCases(c, Depth(c.blocks)) && c.blocks.Open? && UnseenOk(s, IN_A_CASE)
    ensures AtSemi(c, d, StmtSyms(s, More(Semi, tail)), tail, Depth(c.blocks), Lost(s))
    decreases s, 2
  {
    match s
    case Simple(_, _) => d := SimpleUnseenLeads(c, s, More(Semi, tail), IN_A_CASE);
    case Compound(_, _) => d := CompoundUnseenLeads(c, s, tail);
    case Conditional(_, _, _) => d := ConditionalUnseenLeads(c, s, tail);
    case Choice(_, _) => d := ChoiceUnseenLeads(c, s, tail);
    case WhileDo(_, _, _) => d := WhileUnseenLeads(c, s, tail);
    case Forever(_, _) => d := LoopUnseenLeads(c, s, tail);
    case RepeatUntil(_, _, _) => d := RepeatUnseenLeads(c, s, tail);
    case Labelled(tag, stmt) =>
      d := LabelStep(c, tag.word, StmtSyms(stmt, More(Semi, tail)));
      d := StmtLeads(d, stmt, More(Semi, tail));
  }

  /** One END more has closed a CASE. */
  lemma OneMoreLost(c: Control, d: Control, syms: Syms, tail: Syms, depth: nat, lost: nat)
    requires lost < depth && Outcome(c, syms) == Outcome(d, More(Semi, tail)) && Cases(d, depth - lost - 1)
    ensures AtSemi(c, d, syms, tail, depth, lost + 1)
  {}

  /** The END of a statement, with its keyword and name, and nothing after it but its semicolon. */
  lemma EndKeywordName(c: Control, word: Keyword, name: Option<Tag>, tail: Syms) returns (d: Control)
    requires InCases(c, Depth(c.blocks)) && c.blocks.Open? && !ExpectsOperand(c.previous) && IsEndKeyword(word)
    requires NameOk(name)
    ensures Outcome(c, Then(END, Then(word, NameSyms(name, More(Semi, tail))))) == Outcome(d, More(Semi, tail))
    ensures Cases(d, Depth(c.blocks) - 1)
  {
    var rest := NameSyms(name, More(Semi, tail));
    FirstOfName(name, More(Semi, tail));
    d := EndOfCaseStep(c, word, rest);
    d := NameLeads(d, name, More(Semi, tail));
  }

  lemma {:induction false} CompoundUnseenLeads(c: Control, s: Stmt, tail: Syms) returns (d: Control)
    requires s.Compound? && Unseen(c) && InCases(c, Depth(c.blocks)) && c.blocks.Open? && UnseenOk(s, IN_A_CASE)
    ensures AtSemi(c, d, StmtSyms(s, More(Semi, tail)), tail, Depth(c.blocks), Lost(s))
    decreases s, 1
  {
    var name := NameSyms(s.name, More(Semi, tail));
    var end := Then(END, name);
    LongerName(s.name, More(Semi, tail));
    FirstOfStmts(s.body, end);
    WordStep(c, BEGIN, StmtsSyms(s.body, end));
    d := Plain(c, Word(BEGIN)).control;
    if s.body.Next? { d := FirstUnseenLeads(d, s.body, end); }
    if LostFirst(s.body) < Depth(c.blocks) {
      d := EndNameStep(d, s.name, tail);
      OneMoreLost(c, d, StmtSyms(s, More(Semi, tail)), tail, Depth(c.blocks), LostFirst(s.body));
    }
  }

  lemma {:induction false} ConditionalUnseenLeads(c: Control, s: Stmt, tail: Syms) returns (d: Control)
    requires s.Conditional? && Unseen(c) && InCases(c, Depth(c.blocks)) && c.blocks.Open? && UnseenOk(s, IN_A_CASE)
    ensures AtSemi(c, d, StmtSyms(s, More(Semi, tail)), tail, Depth(c.blocks), Lost(s))
    decreases s, 1
  {
    var end := Then(END, Then(IF, More(Semi, tail)));
    var more := ElsesSyms(s.more, end);
    LengthOfSemi(tail);
    LengthOfEnd(IF, More(Semi, tail));
    LongerElses(s.more, end);
    d := CondListLeads(c, IF, s.cond, s.stmts, more);
    if LostFirst(s.stmts) < Depth(c.blocks) {
      d := ElsesUnseenLeads(d, s.more, end);
      if LostFirst(s.stmts) + LostElses(s.more) < Depth(c.blocks) {
        d := EndOfCaseStep(d, IF, More(Semi, tail));
        OneMoreLost(c, d, StmtSyms(s, More(Semi, tail)), tail, Depth(c.blocks), LostFirst(s.stmts) + LostElses(s.more));
      }
    }
  }

  lemma {:induction false} ElsesUnseenLeads(c: Control, e: Elses, end: Syms) returns (d: Control)
    requires InCases(c, Depth(c.blocks)) && c.blocks.Open? && c.bodyStart && c.previous == Some(Semi)
    requires ElsesUnseenOk(e, IN_A_CASE)
    ensures PastList(c, d, ElsesSyms(e, end), end, Depth(c.blocks), LostElses(e))
    decreases e
  {
    match e
    case EndIf => d := c;
    case ElseIf(cond, stmts, next) =>
      var more := ElsesSyms(next, end);
      LongerElses(next, end);
      d := CondListLeads(c, OTHER, cond, stmts, more);
      if LostFirst(stmts) < Depth(c.blocks) { d := ElsesUnseenLeads(d, next, end); }
    case Else(stmts) =>
      var syms := Then(ELSE, StmtsSyms(stmts, end));
      d := ElseListLeads(c, stmts, end);
      assert PastList(c, d, syms, end, Depth(c.blocks), LostElses(e)) && ElsesSyms(e, end) == syms;
  }

  lemma {:induction false} ChoiceUnseenLeads(c: Control, s: Stmt, tail: Syms) returns (d: Control)
    requires s.Choice? && Unseen(c) && InCases(c, Depth(c.blocks)) && c.blocks.Open? && UnseenOk(s, IN_A_CASE)
    ensures AtSemi(c, d, StmtSyms(s, More(Semi, tail)), tail, Depth(c.blocks), Lost(s))
    decreases s, 1
  {
    d := ChoiceLeadsToEnd(c, s, tail, IN_A_CASE);
  }

  /** A CASE statement is read as an expression; it is closed when its arms have not closed it already. */
  lemma {:induction false} ChoiceLeadsToEnd(c: Control, s: Stmt, tail: Syms, place: Place) returns (d: Control)
    requires s.Choice? && Unseen(c) && InCases(c, Depth(c.blocks)) && Fits(c, place) && UnseenOk(s, place)
    ensures var syms := StmtSyms(s, More(Semi, tail));
      if Lost(s) <= Depth(c.blocks) then Outcome(c, syms) == Outcome(d, More(Semi, tail))
        && Cases(d, Depth(c.blocks) - Lost(s))
      else Outcome(c, syms).Some? && Length(Outcome(c, syms).value) > Length(tail)
    decreases s, 0
  {
    var end := Then(END, Then(CASE, More(Semi, tail)));
    var arms := ArmsSyms(s.arms, end);
    LengthOfSemi(tail);
    LengthOfEnd(CASE, More(Semi, tail));
    FirstOfArmsIs(s.arms, More(Semi, tail));
    FirstOfExpr(s.subject, arms);
    NoLabelFirst(s.subject, Some(Word(CASE)), arms, IN_A_CASE);
    d := CaseStep(c, ExprSyms(s.subject, arms), place);
    d := ExprLeads(d, s.subject, arms, IN_A_CASE);
    d := ArmsUnseenLeads(d, s.arms, end);
    if Lost(s) <= Depth(c.blocks) { d := EndOfCaseStep(d, CASE, More(Semi, tail)); }
  }

  predicate PastArms(c: Control, d: Control, a: Arms, end: Syms, depth: nat) {
    if LostArms(a) < depth
    then
      && Outcome(c, ArmsSyms(a, end)) == Outcome(d, end) && InCases(d, depth - LostArms(a))
      && d.previous == if a.EndCase? then c.previous else Some(Semi)
    else CutBy(c, ArmsSyms(a, end), end)
  }

  lemma {:induction false} ArmsUnseenLeads(c: Control, a: Arms, end: Syms) returns (d: Control)
    requires InCases(c, Depth(c.blocks)) && c.blocks.Open? && ArmsUnseenOk(a)
    ensures PastArms(c, d, a, end, Depth(c.blocks))
    decreases a
  {
    match a
    case EndCase => d := c;
    case When(cond, stmts, next) =>
      var more := ArmsSyms(next, end);
      LongerArms(next, end);
      d := CondListLeads(c, WHEN, cond, stmts, more);
      if LostFirst(stmts) < Depth(c.blocks) { d := ArmsUnseenLeads(d, next, end); }
    case ElseDo(stmts) =>
      var syms := Then(ELSE, StmtsSyms(stmts, end));
      d := ElseListLeads(c, stmts, end);
      assert PastList(c, d, syms, end, Depth(c.blocks), LostArms(a)) && ArmsSyms(a, end) == syms;
  }

  lemma {:induction false} WhileUnseenLeads(c: Control, s: Stmt, tail: Syms) returns (d: Control)
    requires s.WhileDo? && Unseen(c) && InCases(c, Depth(c.blocks)) && c.blocks.Open? && UnseenOk(s, IN_A_CASE)
    ensures AtSemi(c, d, StmtSyms(s, More(Semi, tail)), tail, Depth(c.blocks), Lost(s))
    decreases s, 1
  {
    var end := Then(END, Then(WHILE, NameSyms(s.name, More(Semi, tail))));
    d := CondLeads(c, WHILE, s.cond, DO, s.body, end, IN_A_CASE);
    d := DoStep(d, StmtsSyms(s.body, end));
    d := StmtsLeads(d, s.body, end);
    d := EndKeywordName(d, WHILE, s.name, tail);
    OneMoreLost(c, d, StmtSyms(s, More(Semi, tail)), tail, Depth(c.blocks), 0);
  }

  lemma {:induction false} LoopUnseenLeads(c: Control, s: Stmt, tail: Syms) returns (d: Control)
    requires s.Forever? && Unseen(c) && InCases(c, Depth(c.blocks)) && c.blocks.Open? && UnseenOk(s, IN_A_CASE)
    ensures AtSemi(c, d, StmtSyms(s, More(Semi, tail)), tail, Depth(c.blocks), Lost(s))
    decreases s, 1
  {
    var name := NameSyms(s.name, More(Semi, tail));
    var end := Then(END, Then(LOOP, name));
    LengthOfSemi(tail);
    LengthOfEnd(LOOP, name);
    LongerName(s.name, More(Semi, tail));
    FirstOfStmts(s.body, end);
    PlainStep(c, LOOP, StmtsSyms(s.body, end));
    d := FirstUnseenLeads(Plain(c, Word(LOOP)).control, s.body, end);
    if LostFirst(s.body) < Depth(c.blocks) {
      d := EndKeywordName(d, LOOP, s.name, tail);
      OneMoreLost(c, d, StmtSyms(s, More(Semi, tail)), tail, Depth(c.blocks), LostFirst(s.body));
    }
  }

  lemma {:induction false} RepeatUnseenLeads(c: Control, s: Stmt, tail: Syms) returns (d: Control)
    requires s.RepeatUntil? && Unseen(c) && InCases(c, Depth(c.blocks)) && c.blocks.Open? && UnseenOk(s, IN_A_CASE)
    ensures AtSemi(c, d, StmtSyms(s, More(Semi, tail)), tail, Depth(c.blocks), Lost(s))
    decreases s, 1
  {
    var close := Then(REPEAT, NameSyms(s.name, More(Semi, tail)));
    var end := Then(END, close);
    var until := Then(OTHER, ExprSyms(s.until, end));
    LongerName(s.name, More(Semi, tail));
    LongerExpr(s.until, end);
    FirstOfStmts(s.body, until);
    PlainStep(c, REPEAT, StmtsSyms(s.body, until));
    d := FirstUnseenLeads(Plain(c, Word(REPEAT)).control, s.body, until);
    if LostFirst(s.body) < Depth(c.blocks) {
      FirstBetween(s.until, OTHER, END, close, IN_A_CASE);
      PlainStep(d, OTHER, ExprSyms(s.until, end));
      d := BetweenLeads(Plain(d, Word(OTHER)).control, s.until, OTHER, END, close, IN_A_CASE);
      d := EndKeywordName(d, REPEAT, s.name, tail);
      OneMoreLost(c, d, StmtSyms(s, More(Semi, tail)), tail, Depth(c.blocks), LostFirst(s.body));
    }
  }

  // ----- outside of any block -----

  /** The routine ends at a semicolon before `tail`. */
  predicate CutShort(c: Control, syms: Syms, tail: Syms) {
    Outcome(c, syms).Some? && Length(Outcome(c, syms).value) > Length(tail)
  }

  /**
   * A statement that is the body of a procedure or function ends the routine with its own semicolon, or one of those
   * in it does.
   */
  predicate EndsOrCuts(c: Control, s: Stmt, tail: Syms) {
    var syms := StmtSyms(s, More(Semi, tail));
    if WholeBody(s) then Outcome(c, syms) == Some(tail) else CutShort(c, syms, tail)
  }

  /** What comes after the first statement of a list and its semicolon. */
  function AfterFirst(ss: Stmts, tail: Syms): Syms
    requires ss.Next?
  {
    StmtsSyms(ss.more, tail)
  }

  /**
   * The routine ends inside the list, before `after`: at the semicolon of the first statement, when that would be
   * whole as a body, else at one in it.
   */
  predicate CutInFirst(c: Control, syms: Syms, ss: Stmts, tail: Syms, after: Syms) {
    ss.Next? && CutShort(c, syms, after) && (WholeBody(ss.stmt) ==> Outcome(c, syms) == Some(AfterFirst(ss, tail)))
  }

  lemma CutInside(c: Control, syms: Syms, d: Control, ss: Stmts, tail: Syms, after: Syms)
    requires ss.Next? && Outcome(c, syms) == Outcome(d, StmtsSyms(ss, tail))
    requires EndsOrCuts(d, ss.stmt, AfterFirst(ss, tail))
    requires Length(tail) > Length(after)
    ensures CutInFirst(c, syms, ss, tail, after)
  {
    LongerStmts(ss.more, tail);
  }

  lemma {:induction false} BodyEndsOrCuts(c: Control, s: Stmt, tail: Syms)
    requires Unseen(c) && c.blocks.NoBlock? && UnseenOk(s, BARE)
    ensures EndsOrCuts(c, s, tail)
    decreases s, 1
  {
    var semi := More(Semi, tail);
    match s
    case Simple(_, _) => var d := SimpleUnseenLeads(c, s, semi, BARE);
    case Compound(_, _) => var d := StmtLeads(c, s, semi);
    case Labelled(_, _) => var d := StmtLeads(c, s, semi);
    case Choice(_, arms) =>
      NeatArmsLoseNothing(arms);
      var d := ChoiceLeadsToEnd(c, s, tail, BARE);
    case Conditional(_, _, _) => ConditionalIsCut(c, s, tail);
    case WhileDo(_, _, _) => WhileIsCut(c, s, tail);
    case Forever(_, _) => LoopIsCut(c, s, tail);
    case RepeatUntil(_, _, _) => RepeatIsCut(c, s, tail);
  }

  /** A body that is a LOOP without a label is cut in the first statement of its list. */
  lemma {:induction false} LoopIsCut(c: Control, s: Stmt, tail: Syms)
    requires s.Forever? && Unseen(c) && c.blocks.NoBlock? && UnseenOk(s, BARE)
    ensures var end := Then(END, Then(LOOP, NameSyms(s.name, More(Semi, tail))));
      CutInFirst(c, StmtSyms(s, More(Semi, tail)), s.body, end, tail)
    decreases s, 0
  {
    var end := Then(END, Then(LOOP, NameSyms(s.name, More(Semi, tail))));
    var d := Plain(c, Word(LOOP)).control;
    LongerName(s.name, More(Semi, tail));
    FirstOfStmts(s.body, end);
    PlainStep(c, LOOP, StmtsSyms(s.body, end));
    BodyEndsOrCuts(d, s.body.stmt, StmtsSyms(s.body.more, end));
    CutInside(c, StmtSyms(s, More(Semi, tail)), d, s.body, end, tail);
  }

  /** So is one that is a REPEAT … */
  lemma {:induction false} RepeatIsCut(c: Control, s: Stmt, tail: Syms)
    requires s.RepeatUntil? && Unseen(c) && c.blocks.NoBlock? && UnseenOk(s, BARE)
    ensures var until := Then(OTHER, ExprSyms(s.until, Then(END, Then(REPEAT, NameSyms(s.name, More(Semi, tail))))));
      CutInFirst(c, StmtSyms(s, More(Semi, tail)), s.body, until, tail)
    decreases s, 0
  {
    var end := Then(END, Then(REPEAT, NameSyms(s.name, More(Semi, tail))));
    var until := Then(OTHER, ExprSyms(s.until, end));
    var d := Plain(c, Word(REPEAT)).control;
    LongerName(s.name, More(Semi, tail));
    LongerExpr(s.until, end);
    FirstOfStmts(s.body, until);
    PlainStep(c, REPEAT, StmtsSyms(s.body, until));
    BodyEndsOrCuts(d, s.body.stmt, StmtsSyms(s.body.more, until));
    CutInside(c, StmtSyms(s, More(Semi, tail)), d, s.body, until, tail);
  }

  /** … or an IF. */
  lemma {:induction false} ConditionalIsCut(c: Control, s: Stmt, tail: Syms)
    requires s.Conditional? && Unseen(c) && c.blocks.NoBlock? && UnseenOk(s, BARE)
    ensures var more := ElsesSyms(s.more, Then(END, Then(IF, More(Semi, tail))));
      CutInFirst(c, StmtSyms(s, More(Semi, tail)), s.stmts, more, tail)
    decreases s, 0
  {
    var end := Then(END, Then(IF, More(Semi, tail)));
    var more := ElsesSyms(s.more, end);
    LengthOfSemi(tail);
    LengthOfEnd(IF, More(Semi, tail));
    LongerElses(s.more, end);
    var d := CondLeads(c, IF, s.cond, THEN, s.stmts, more, BARE);
    d := ThenIsPlain(d, THEN, StmtsSyms(s.stmts, more));
    BodyEndsOrCuts(d, s.stmts.stmt, StmtsSyms(s.stmts.more, more));
    CutInside(c, StmtSyms(s, More(Semi, tail)), d, s.stmts, more, tail);
  }

  /** The DO of a WHILE is seen, so any first statement of its list is read to its end, and its semicolon cuts. */
  lemma WhileIsCut(c: Control, s: Stmt, tail: Syms)
    requires s.WhileDo? && Unseen(c) && c.blocks.NoBlock? && UnseenOk(s, BARE)
    ensures CutShort(c, StmtSyms(s, More(Semi, tail)), tail)
    ensures Outcome(c, StmtSyms(s, More(Semi, tail))) ==
      Some(AfterFirst(s.body, Then(END, Then(WHILE, NameSyms(s.name, More(Semi, tail))))))
  {
    var name := NameSyms(s.name, More(Semi, tail));
    var end := Then(END, Then(WHILE, name));
    var more := StmtsSyms(s.body.more, end);
    LongerName(s.name, More(Semi, tail));
    LongerStmts(s.body.more, end);
    var d := CondLeads(c, WHILE, s.cond, DO, s.body, end, BARE);
    d := DoStep(d, StmtsSyms(s.body, end));
    d := StmtLeads(d, s.body.stmt, More(Semi, more));
  }
}
