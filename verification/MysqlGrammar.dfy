/** The grammar of routine bodies (MySQL 8.4 manual, section 15.6) as trees, and their tokens. */
module MysqlGrammar {
  import opened Text
  import opened MysqlLexer
  import opened MysqlRoutines

  datatype Syms = Nil | More(head: Sym, tail: Syms)

  /** The first of some tokens. */
  function First(syms: Syms): Option<Sym> { if syms.More? then Some(syms.head) else Option.None }

  function Then(word: Keyword, syms: Syms): Syms { More(Word(word), syms) }

  // ----- trees -----

  /** What a statement is made of besides other statements: single tokens, and CASE expressions. */
  datatype Expr =
    | Empty
    | Atom(sym: Sym, rest: Expr)
    | CaseOf(subject: Expr, whens: Whens, rest: Expr)

  datatype Whens =
    | NoMore
    | Otherwise(value: Expr)
    | Arm(cond: Expr, value: Expr, more: Whens)

  /** A label, or the name behind an END: a word, or in quotes. */
  datatype Tag = WordTag(word: Keyword) | QuotedTag

  datatype Stmt =
    | Simple(first: Keyword, rest: Expr)                          // any statement without statements inside
    | Declare(rest: Expr)
    | Handler(head: Expr, action: Stmt)                           // DECLARE … HANDLER FOR … and what it does
    | Compound(body: Stmts, name: Option<Tag>)                    // BEGIN … END [label]
    | Conditional(cond: Expr, stmts: Stmts, more: Elses)
    | Choice(subject: Expr, arms: Arms)                           // CASE statement
    | WhileDo(cond: Expr, body: Stmts, name: Option<Tag>)
    | Forever(body: Stmts, name: Option<Tag>)                 // LOOP
    | RepeatUntil(body: Stmts, until: Expr, name: Option<Tag>)
    | Labelled(tag: Tag, stmt: Stmt)

  datatype Stmts = Done | Next(stmt: Stmt, more: Stmts)

  datatype Elses = EndIf | ElseIf(cond: Expr, stmts: Stmts, more: Elses) | Else(stmts: Stmts)

  datatype Arms = EndCase | When(cond: Expr, stmts: Stmts, more: Arms) | ElseDo(stmts: Stmts)

  // ----- their tokens, in front of those that come after -----

  function ExprSyms(e: Expr, tail: Syms): Syms {
    match e
    case Empty => tail
    case Atom(s, rest) => More(s, ExprSyms(rest, tail))
    case CaseOf(subject, whens, rest) => Then(CASE,
      ExprSyms(subject, WhensSyms(whens, Then(END, ExprSyms(rest, tail)))))
  }

  function WhensSyms(w: Whens, tail: Syms): Syms {
    match w
    case NoMore => tail
    case Otherwise(value) => Then(ELSE, ExprSyms(value, tail))
    case Arm(cond, value, more) => Then(WHEN, ExprSyms(cond, Then(THEN, ExprSyms(value, WhensSyms(more, tail)))))
  }

  function TagSym(tag: Tag): (s: Sym)
    ensures s.Word? || s.Quoted?
  {
    match tag
    case WordTag(word) => Word(word)
    case QuotedTag => Quoted
  }

  function NameSyms(name: Option<Tag>, tail: Syms): Syms {
    if name.Some? then More(TagSym(name.value), tail) else tail
  }

  function StmtSyms(s: Stmt, tail: Syms): Syms {
    match s
    case Simple(first, rest) => Then(first, ExprSyms(rest, tail))
    case Declare(rest) => Then(DECLARE, ExprSyms(rest, tail))
    case Handler(head, action) => Then(DECLARE, ExprSyms(head, StmtSyms(action, tail)))
    case Compound(body, name) => Then(BEGIN, StmtsSyms(body, Then(END, NameSyms(name, tail))))
    case Conditional(cond, stmts, more) =>
      Then(IF, ExprSyms(cond, Then(THEN, StmtsSyms(stmts, ElsesSyms(more, Then(END, Then(IF, tail)))))))
    case Choice(subject, arms) => Then(CASE, ExprSyms(subject, ArmsSyms(arms, Then(END, Then(CASE, tail)))))
    case WhileDo(cond, body, name) =>
      Then(WHILE, ExprSyms(cond, Then(DO, StmtsSyms(body, Then(END, Then(WHILE, NameSyms(name, tail)))))))
    case Forever(body, name) => Then(LOOP, StmtsSyms(body, Then(END, Then(LOOP, NameSyms(name, tail)))))
    case RepeatUntil(body, until, name) =>
      Then(REPEAT, StmtsSyms(body, Then(OTHER, ExprSyms(until, Then(END, Then(REPEAT, NameSyms(name, tail)))))))
    case Labelled(tag, stmt) => More(TagSym(tag), More(Punct(':', false), StmtSyms(stmt, tail)))
  }

  function StmtsSyms(ss: Stmts, tail: Syms): Syms {
    match ss
    case Done => tail
    case Next(s, more) => StmtSyms(s, More(Semi, StmtsSyms(more, tail)))
  }

  function ElsesSyms(e: Elses, tail: Syms): Syms {
    match e
    case EndIf => tail
    case ElseIf(cond, stmts, more) => Then(OTHER, ExprSyms(cond, Then(THEN, StmtsSyms(stmts, ElsesSyms(more, tail)))))
    case Else(stmts) => Then(ELSE, StmtsSyms(stmts, tail))
  }

  function ArmsSyms(a: Arms, tail: Syms): Syms {
    match a
    case EndCase => tail
    case When(cond, stmts, more) => Then(WHEN, ExprSyms(cond, Then(THEN, StmtsSyms(stmts, ArmsSyms(more, tail)))))
    case ElseDo(stmts) => Then(ELSE, StmtsSyms(stmts, tail))
  }

  // ----- which trees the grammar allows -----

  /** Where an expression stands: inside a CASE expression, outside of any block, in a DECLARE. */
  datatype Place = Place(inCase: bool, bare: bool, inDeclare: bool)

  const INSIDE := Place(false, false, false)
  const IN_A_CASE := Place(true, false, false)
  const IN_DECLARE := Place(false, false, true)
  const BARE := Place(false, true, false)
  const ANYWHERE := Place(true, true, true)

  /**
   * A token of an expression that is no keyword where it stands: a keyword after `.` or `@` is a name, an `end`
   * is one where an operand is due (or anywhere outside a CASE expression), `begin` is one unless a block could start.
   */
  predicate AtomOk(previous: Option<Sym>, s: Sym, next: Option<Sym>, place: Place) {
    && s != Semi && s != Punct(':', false)
    && (place.bare ==> s != Word(DELIMITER))
    && (s.Word? && !Named(previous) ==>
        && s.word !in {CASE, THEN, ELSE, DO}
        && (s.word == END ==> !EndKeywordNext(next) && (place.inCase ==> ExpectsOperand(previous)))
        && (s.word == BEGIN ==> !place.bare && !place.inDeclare)
        && (s.word == ROW && place.bare ==> previous != Some(Word(EACH))))
  }

  function FirstOf(e: Expr, next: Option<Sym>): Option<Sym> {
    match e
    case Empty => next
    case Atom(s, _) => Some(s)
    case CaseOf(_, _, _) => Some(Word(CASE))
  }

  function FirstOfWhens(w: Whens): Option<Sym> {
    Some(Word(match w case NoMore => END case Otherwise(_) => ELSE case Arm(_, _, _) => WHEN))
  }

  function LastOf(e: Expr, previous: Option<Sym>): Option<Sym> {
    match e
    case Empty => previous
    case Atom(s, rest) => LastOf(rest, Some(s))
    case CaseOf(_, _, rest) => LastOf(rest, Some(Word(END)))
  }

  function LastOfWhens(w: Whens, previous: Option<Sym>): Option<Sym> {
    match w
    case NoMore => previous
    case Otherwise(value) => LastOf(value, Some(Word(ELSE)))
    case Arm(_, value, more) => LastOfWhens(more, LastOf(value, Some(Word(THEN))))
  }

  predicate ExprOk(e: Expr, previous: Option<Sym>, next: Option<Sym>, place: Place) {
    match e
    case Empty => true
    case Atom(s, rest) => AtomOk(previous, s, FirstOf(rest, next), place) && ExprOk(rest, Some(s), next, place)
    case CaseOf(subject, whens, rest) =>
      var last := LastOfWhens(whens, LastOf(subject, Some(Word(CASE))));
      && !Named(previous)
      && ExprOk(subject, Some(Word(CASE)), FirstOfWhens(whens), IN_A_CASE)
      && WhensOk(whens)
      && !ExpectsOperand(last) && !Named(last)                  // a value comes before the END
      && !EndKeywordNext(FirstOf(rest, next))
      && ExprOk(rest, Some(Word(END)), next, place)
  }

  predicate WhensOk(w: Whens) {
    match w
    case NoMore => true
    case Otherwise(value) => ExprOk(value, Some(Word(ELSE)), Some(Word(END)), IN_A_CASE)
    case Arm(cond, value, more) =>
      && ExprOk(cond, Some(Word(WHEN)), Some(Word(THEN)), IN_A_CASE)
      && ExprOk(value, Some(Word(THEN)), FirstOfWhens(more), IN_A_CASE)
      && WhensOk(more)
  }

  /** An expression behind a word and in front of another token, that does not leave a name unfinished. */
  predicate UpTo(e: Expr, before: Keyword, next: Sym, place: Place) {
    ExprOk(e, Some(Word(before)), Some(next), place) && !Named(LastOf(e, Some(Word(before))))
  }

  predicate Between(e: Expr, before: Keyword, after: Keyword, place: Place) { UpTo(e, before, Word(after), place) }

  predicate NameOk(name: Option<Tag>) {
    name.Some? && name.value.WordTag? ==>
      name.value.word !in {BEGIN, CASE, END, THEN, ELSE, DO, IF, WHILE, LOOP, REPEAT, DELIMITER}
  }

  /** The first word of a list of statements is not what makes a BEGIN a transaction. */
  predicate NoTransaction(ss: Stmts) { ss.Next? ==> FirstSym(ss.stmt) != Word(WORK) }

  function FirstSym(s: Stmt): (first: Sym)
    ensures first.Word? || first.Quoted?
  {
    match s
    case Simple(first, _) => Word(first)
    case Declare(_) => Word(DECLARE)
    case Handler(_, _) => Word(DECLARE)
    case Compound(_, _) => Word(BEGIN)
    case Conditional(_, _, _) => Word(IF)
    case Choice(_, _) => Word(CASE)
    case WhileDo(_, _, _) => Word(WHILE)
    case Forever(_, _) => Word(LOOP)
    case RepeatUntil(_, _, _) => Word(REPEAT)
    case Labelled(tag, _) => TagSym(tag)
  }

  predicate NoCaseOf(e: Expr) { e.Empty? || (e.Atom? && NoCaseOf(e.rest)) }

  /** A statement without statements inside. */
  predicate SimpleOk(first: Keyword, rest: Expr, place: Place) {
    && first !in {BEGIN, CASE, IF, WHILE, LOOP, REPEAT, END, THEN, ELSE, DECLARE}
    && (place.bare ==> first !in {FOLLOWS, PRECEDES, ROW, DELIMITER})
    && ExprOk(rest, Some(Word(first)), Some(Semi), place)
  }

  /** A statement that starts where the splitter expects one, at a place. */
  predicate StmtOk(s: Stmt, place: Place) {
    match s
    case Simple(first, rest) => SimpleOk(first, rest, place)
    case Declare(rest) => place == INSIDE && ExprOk(rest, Some(Word(DECLARE)), Some(Semi), IN_DECLARE)
    case Handler(head, action) =>
      && place == INSIDE && action.Compound? && StmtOk(action, INSIDE)
      && Between(head, DECLARE, BEGIN, IN_DECLARE) && NoCaseOf(head) && !InAList(LastOf(head, Some(Word(DECLARE))))
    case Compound(body, name) => NoTransaction(body) && StmtsOk(body, INSIDE) && NameOk(name)
    case Conditional(cond, stmts, more) => Between(cond, IF, THEN, INSIDE) && StmtsOk(stmts, INSIDE) && ElsesOk(more)
    case Choice(subject, arms) =>
      && ExprOk(subject, Some(Word(CASE)), FirstOfArms(arms), INSIDE) && !Named(LastOf(subject, Some(Word(CASE))))
      && ArmsOk(arms)
    case WhileDo(cond, body, name) => Between(cond, WHILE, DO, INSIDE) && StmtsOk(body, INSIDE) && NameOk(name)
    case Forever(body, name) => StmtsOk(body, INSIDE) && NameOk(name)
    case RepeatUntil(body, until, name) => StmtsOk(body, INSIDE) && Between(until, OTHER, END, INSIDE) && NameOk(name)
    case Labelled(tag, stmt) =>
      && tag.WordTag? && (place.bare ==> tag.word != DELIMITER)
      && (stmt.Compound? || stmt.WhileDo? || stmt.Forever? || stmt.RepeatUntil?)
      && StmtOk(stmt, place)
  }

  function FirstOfArms(a: Arms): Option<Sym> {
    Some(Word(match a case EndCase => END case When(_, _, _) => WHEN case ElseDo(_) => ELSE))
  }

  predicate StmtsOk(ss: Stmts, place: Place) { ss.Next? ==> StmtOk(ss.stmt, place) && StmtsOk(ss.more, place) }

  predicate ElsesOk(e: Elses) {
    match e
    case EndIf => true
    case ElseIf(cond, stmts, more) => Between(cond, OTHER, THEN, INSIDE) && StmtsOk(stmts, INSIDE) && ElsesOk(more)
    case Else(stmts) => StmtsOk(stmts, INSIDE)
  }

  predicate ArmsOk(a: Arms) {
    match a
    case EndCase => true
    case When(cond, stmts, more) => Between(cond, WHEN, THEN, INSIDE) && StmtsOk(stmts, INSIDE) && ArmsOk(more)
    case ElseDo(stmts) => StmtsOk(stmts, INSIDE)
  }

  // ----- statements that the splitter does not see start -----

  /** What comes after a DO that the splitter takes for that of a WHILE: no word that opens a block there. */
  predicate AfterDoOk(rest: Expr) {
    rest.Atom?
      && (rest.sym.Word? ==> rest.sym.word !in {BEGIN, END, IF, WHILE, LOOP, REPEAT, DECLARE, FOLLOWS, PRECEDES, ROW})
  }

  /**
   * A statement that is not where the splitter expects one: the body of a procedure or function (the place is
   * `BARE`), and the first of each list in it when that is no block and has no label. `IN_A_CASE` is for those in a
   * CASE.
   */
  predicate UnseenOk(s: Stmt, place: Place) {
    match s
    case Simple(first, rest) => SimpleOk(first, rest, place) && (first == DO ==> AfterDoOk(rest))
    case Declare(_) => false
    case Handler(_, _) => false
    case Compound(body, name) =>
      if place.bare then StmtOk(s, place) else NameOk(name) && (body.Next? ==> FirstUnseenOk(body, place))
    case Conditional(cond, stmts, more) =>
      Between(cond, IF, THEN, place) && FirstUnseenOk(stmts, place) && (place.bare || ElsesUnseenOk(more, place))
    case Choice(subject, arms) =>
      && ExprOk(subject, Some(Word(CASE)), FirstOfArms(arms), IN_A_CASE) && !Named(LastOf(subject, Some(Word(CASE))))
      && !arms.EndCase? && ArmsUnseenOk(arms)
    case WhileDo(cond, body, name) =>
      Between(cond, WHILE, DO, place) && body.Next? && StmtsOk(body, place) && NameOk(name)
    case Forever(body, name) => FirstUnseenOk(body, place) && NameOk(name)
    case RepeatUntil(body, until, name) =>
      && FirstUnseenOk(body, place) && NameOk(name)
      && (place.bare || (Between(until, OTHER, END, place) && !ExpectsOperand(LastOf(until, Some(Word(OTHER))))))
    case Labelled(_, _) => StmtOk(s, place)
  }

  /** A list that is not empty, with only its first statement unseen; outside of any block the others are not read. */
  predicate FirstUnseenOk(ss: Stmts, place: Place) {
    ss.Next? && UnseenOk(ss.stmt, place) && (place.bare || StmtsOk(ss.more, place))
  }

  predicate ElsesUnseenOk(e: Elses, place: Place) {
    match e
    case EndIf => true
    case ElseIf(cond, stmts, more) =>
      Between(cond, OTHER, THEN, place) && FirstUnseenOk(stmts, place) && ElsesUnseenOk(more, place)
    case Else(stmts) => FirstUnseenOk(stmts, place)
  }

  predicate ArmsUnseenOk(a: Arms) {
    match a
    case EndCase => true
    case When(cond, stmts, more) =>
      Between(cond, WHEN, THEN, IN_A_CASE) && FirstUnseenOk(stmts, IN_A_CASE) && ArmsUnseenOk(more)
    case ElseDo(stmts) => FirstUnseenOk(stmts, IN_A_CASE)
  }

  /** A statement that the splitter reads to its end without seeing it start, and what it holds as well. */
  predicate Neat(s: Stmt) { s.Simple? || s.Labelled? || (s.Choice? && NeatArms(s.arms)) }

  /** A body with names that are clear outside of blocks only, that the splitter does not cut. */
  predicate WholeBody(s: Stmt) { s.Compound? || Neat(s) }

  /** Every arm of a CASE starts with such a statement. */
  predicate NeatArms(a: Arms) {
    match a
    case EndCase => true
    case When(_, stmts, more) => (stmts.Next? ==> Neat(stmts.stmt)) && NeatArms(more)
    case ElseDo(stmts) => stmts.Next? ==> Neat(stmts.stmt)
  }

  // ----- statements with names that are no keywords anywhere -----

  /** A statement whose names are no keywords to the splitter, whatever it takes the statement for. */
  predicate ClearOk(s: Stmt) {
    match s
    case Simple(first, rest) => SimpleOk(first, rest, ANYWHERE) && (first == DO ==> AfterDoOk(rest))
    case Declare(rest) => ExprOk(rest, Some(Word(DECLARE)), Some(Semi), ANYWHERE)
    case Handler(head, action) =>
      && UpTo(head, DECLARE, FirstSym(action), ANYWHERE) && !InAList(LastOf(head, Some(Word(DECLARE))))
      && NoCaseOf(head)
      && ClearOk(action)
    case Compound(body, name) => NoTransaction(body) && ClearAll(body) && NameOk(name)
    case Conditional(cond, stmts, more) =>
      Between(cond, IF, THEN, ANYWHERE) && stmts.Next? && ClearAll(stmts) && ClearElses(more)
    case Choice(subject, arms) =>
      && ExprOk(subject, Some(Word(CASE)), FirstOfArms(arms), ANYWHERE) && !Named(LastOf(subject, Some(Word(CASE))))
      && !arms.EndCase? && ClearArms(arms)
    case WhileDo(cond, body, name) =>
      Between(cond, WHILE, DO, ANYWHERE) && body.Next? && ClearAll(body) && NameOk(name)
    case Forever(body, name) => body.Next? && ClearAll(body) && NameOk(name)
    case RepeatUntil(body, until, name) =>
      && body.Next? && ClearAll(body) && NameOk(name)
      && Between(until, OTHER, END, ANYWHERE) && !ExpectsOperand(LastOf(until, Some(Word(OTHER))))
    case Labelled(tag, stmt) =>
      && tag != WordTag(DELIMITER)
      && (stmt.Compound? || stmt.WhileDo? || stmt.Forever? || stmt.RepeatUntil?)
      && ClearOk(stmt)
  }

  predicate ClearAll(ss: Stmts) { ss.Next? ==> ClearOk(ss.stmt) && ClearAll(ss.more) }

  predicate ClearElses(e: Elses) {
    match e
    case EndIf => true
    case ElseIf(cond, stmts, more) =>
      Between(cond, OTHER, THEN, ANYWHERE) && stmts.Next? && ClearAll(stmts) && ClearElses(more)
    case Else(stmts) => stmts.Next? && ClearAll(stmts)
  }

  predicate ClearArms(a: Arms) {
    match a
    case EndCase => true
    case When(cond, stmts, more) =>
      Between(cond, WHEN, THEN, ANYWHERE) && stmts.Next? && ClearAll(stmts) && ClearArms(more)
    case ElseDo(stmts) => stmts.Next? && ClearAll(stmts)
  }

  // ----- which statements make the splitter lose count -----

  /**
   * How a statement is met: whether it is seen to start, whether it is what a handler does, whether the innermost
   * block is a CASE that counts as an expression, whether no block is open.
   */
  datatype Spot = Spot(seen: bool, handled: bool, inCase: bool, bare: bool)

  const SEEN := Spot(true, false, false, false)
  const SEEN_BODY := Spot(true, false, false, true)
  const BODY := Spot(false, false, false, true)
  const IN_AN_ARM := Spot(false, false, true, false)

  /**
   * The END of a statement closes a block that it did not open: of an IF, WHILE, LOOP or REPEAT that is not seen to
   * start; of a BEGIN that is neither seen nor the action of a handler nor a whole body; or of one in it.
   */
  predicate Loses(s: Stmt, p: Spot) {
    match s
    case Simple(_, _) => false
    case Declare(_) => false
    case Handler(_, action) => Loses(action, p.(seen := false, handled := p.handled || p.seen))
    case Compound(body, _) =>
      if p.seen || p.handled || p.bare then AnyLoses(body, SEEN) else body.Next? || p.inCase
    case Conditional(_, stmts, more) => !p.seen || AnyLoses(stmts, SEEN) || ElsesLose(more, SEEN)
    case Choice(_, arms) => ArmsLose(arms, if p.seen then SEEN else IN_AN_ARM)
    case WhileDo(_, body, _) => !p.seen || AnyLoses(body, SEEN)
    case Forever(body, _) => !p.seen || AnyLoses(body, SEEN)
    case RepeatUntil(body, _, _) => !p.seen || AnyLoses(body, SEEN)
    case Labelled(tag, stmt) => Loses(stmt, p.(seen := tag.WordTag?))
  }

  /** The same of a list; only its first statement can be unseen, and outside of any block its semicolons count too. */
  predicate AnyLoses(ss: Stmts, p: Spot) {
    ss.Next? && (p.bare || Loses(ss.stmt, p) || AnyLoses(ss.more, p.(seen := true, handled := false)))
  }

  predicate ElsesLose(e: Elses, p: Spot) {
    match e
    case EndIf => false
    case ElseIf(_, stmts, more) => AnyLoses(stmts, p) || ElsesLose(more, p)
    case Else(stmts) => AnyLoses(stmts, p)
  }

  predicate ArmsLose(a: Arms, p: Spot) {
    match a
    case EndCase => false
    case When(_, stmts, more) => AnyLoses(stmts, p) || ArmsLose(more, p)
    case ElseDo(stmts) => AnyLoses(stmts, p)
  }

  // ----- routines -----

  datatype Owner = CurrentUser(parens: bool) | Account(name: Sym, host: Option<Sym>)

  /** `CREATE [OR REPLACE] [DEFINER = user] [AGGREGATE] PROCEDURE|FUNCTION|TRIGGER|EVENT` */
  datatype Header = Header(orReplace: bool, definer: Option<Owner>, aggregate: bool, kind: Keyword)

  datatype Routine =
    | OneStatement(header: Header, text: Expr)                                    // a body without statements inside
    | WithBody(header: Header, head: Expr, body: Stmt)                            // … that of a procedure or function
    | TriggerOf(header: Header, head: Expr, order: Option<(Keyword, Sym)>,
      body: Stmt)   // … FOR EACH ROW [FOLLOWS|PRECEDES other]
    | EventOf(header: Header, head: Expr, body: Stmt)                             // … DO

  function UserSyms(u: Owner): seq<Sym> {
    match u
    case CurrentUser(parens) => [Word(CURRENT_USER)] + if parens then [Punct('(', false), Punct(')', false)] else []
    case Account(name, host) => [name] + if host.Some? then [Punct('@', false), host.value] else []
  }

  function DefinerSyms(definer: Option<Owner>): seq<Sym> {
    if definer.Some? then [Word(DEFINER), Punct('=', false)] + UserSyms(definer.value) else []
  }

  function OrSyms(orReplace: bool): seq<Sym> { if orReplace then [Word(OR), Word(REPLACE)] else [] }

  function KindSyms(aggregate: bool, kind: Keyword): seq<Sym> {
    if aggregate then [Word(AGGREGATE), Word(kind)] else [Word(kind)]
  }

  function HeaderSyms(h: Header): seq<Sym> {
    [Word(CREATE)] + OrSyms(h.orReplace) + DefinerSyms(h.definer) + KindSyms(h.aggregate, h.kind)
  }

  function Prepend(syms: seq<Sym>, tail: Syms): Syms {
    if syms == [] then tail else More(syms[0], Prepend(syms[1..], tail))
  }

  function OrderSyms(order: Option<(Keyword, Sym)>, tail: Syms): Syms {
    if order.Some? then Then(order.value.0, More(order.value.1, tail)) else tail
  }

  /** What comes after the header. */
  function RestSyms(r: Routine, tail: Syms): Syms {
    match r
    case OneStatement(_, text) => ExprSyms(text, tail)
    case WithBody(_, head, body) => ExprSyms(head, StmtSyms(body, tail))
    case TriggerOf(_, head, order, body) => ExprSyms(head,
      Then(EACH, Then(ROW, OrderSyms(order, StmtSyms(body, tail)))))
    case EventOf(_, head, body) => ExprSyms(head, Then(DO, StmtSyms(body, tail)))
  }

  function RoutineSyms(r: Routine, tail: Syms): Syms { Prepend(HeaderSyms(r.header), RestSyms(r, tail)) }

  datatype Script = NoRoutines | Script(first: Routine, more: Script)

  /** A script of routines, each with its semicolon. */
  function ScriptSyms(s: Script): Syms {
    match s
    case NoRoutines => Nil
    case Script(r, more) => RoutineSyms(r, More(Semi, ScriptSyms(more)))
  }

  function Count(s: Script): nat { if s.NoRoutines? then 0 else 1 + Count(s.more) }

  predicate IsName(s: Sym) { s.Word? || s.Quoted? }

  predicate UserOk(u: Owner) {
    u.Account? ==> IsName(u.name) && u.name != Word(CURRENT_USER) && (u.host.Some? ==> IsName(u.host.value))
  }

  predicate HeaderOk(h: Header) {
    h.kind in {PROCEDURE, FUNCTION, TRIGGER, EVENT} && (h.definer.Some? ==> UserOk(h.definer.value))
  }

  /** The tokens between the header, which ends with `kind`, and the body. */
  predicate HeadOk(kind: Keyword, head: Expr, next: Sym) {
    UpTo(head, kind, next, BARE) && !InAList(LastOf(head, Some(Word(kind))))
  }

  predicate RoutineOk(r: Routine) {
    && HeaderOk(r.header)
    && match r
       case OneStatement(h, text) => ExprOk(text, Some(Word(h.kind)), Some(Semi), BARE)
       case WithBody(h, head, body) => HeadOk(h.kind, head, FirstSym(body)) && (UnseenOk(body, BARE) || ClearOk(body))
       case TriggerOf(h, head, order, body) =>
         && HeadOk(h.kind, head, Word(EACH)) && (StmtOk(body, BARE) || ClearOk(body))
         && (order.Some? ==> (order.value.0.FOLLOWS? || order.value.0.PRECEDES?) && IsName(order.value.1))
       case EventOf(h, head, body) => HeadOk(h.kind, head, Word(DO)) && (StmtOk(body, BARE) || ClearOk(body))
  }

  /** The splitter does not lose count in the body. */
  predicate Whole(r: Routine) {
    match r
    case OneStatement(_, _) => true
    case WithBody(_, _, body) => !Loses(body, BODY)
    case TriggerOf(_, _, _, body) => !Loses(body, SEEN_BODY)
    case EventOf(_, _, body) => !Loses(body, SEEN_BODY)
  }

  predicate AllWhole(s: Script) { s.Script? ==> Whole(s.first) && AllWhole(s.more) }

  predicate ScriptOk(s: Script) { s.Script? ==> RoutineOk(s.first) && ScriptOk(s.more) }
}
