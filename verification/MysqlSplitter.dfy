/**
 * MySQL scripts: a semicolon cuts, unless a block of a stored routine is open around it. What is open is kept
 * as a stack of blocks.
 */
module MysqlRoutines {
  import opened Text
  import opened MysqlLexer

  datatype Block = BeginBlock | IfBlock | LoopBlock | WhileBlock | RepeatBlock | CaseStatement | CaseExpression

  /** The blocks that are open, the innermost first. */
  datatype Blocks = NoBlock | Open(block: Block, outer: Blocks)

  // ----- the header -----

  predicate HasWord(header: seq<Sym>, i: nat, word: Keyword) { i < |header| && header[i] == Word(word) }

  predicate HasName(header: seq<Sym>, i: nat) { i < |header| && (header[i].Word? || header[i].Quoted?) }

  predicate HasPunct(header: seq<Sym>, i: nat, c: char) { i < |header| && header[i].Punct? && header[i].mark == c }

  /**
   * What comes after an optional part of the header: where to go on, that it is no routine, or too few tokens to
   * tell.
   */
  datatype Part = At(i: nat) | NoRoutine | TooFew

  function OrReplace(header: seq<Sym>, i: nat): Part {
    if i >= |header| then TooFew
    else if !HasWord(header, i, OR) then At(i)
    else if i + 1 >= |header| then TooFew
    else if HasWord(header, i + 1, REPLACE) then At(i + 2)
    else NoRoutine
  }

  /** `CURRENT_USER`, `CURRENT_USER()`, a user or `user@host`. */
  function User(header: seq<Sym>, i: nat): Part {
    if i >= |header| then TooFew
    else if HasWord(header, i, CURRENT_USER) then
      if i + 1 >= |header| then TooFew
      else if !HasPunct(header, i + 1, '(') then At(i + 1)
      else if i + 2 >= |header| then TooFew
      else if HasPunct(header, i + 2, ')') then At(i + 3)
      else NoRoutine
    else if !HasName(header, i) then NoRoutine
    else if i + 1 >= |header| then TooFew
    else if !HasPunct(header, i + 1, '@') then At(i + 1)
    else if i + 2 >= |header| then TooFew
    else if HasName(header, i + 2) then At(i + 3)
    else NoRoutine
  }

  function Definer(header: seq<Sym>, i: nat): Part {
    if i >= |header| then TooFew
    else if !HasWord(header, i, DEFINER) then At(i)
    else if i + 1 >= |header| then TooFew
    else if HasPunct(header, i + 1, '=') then User(header, i + 2)
    else NoRoutine
  }

  function RoutineKind(header: seq<Sym>, i: nat): Option<bool> {
    if i >= |header| then Option.None
    else
      var k := if HasWord(header, i, AGGREGATE) then i + 1 else i;
      if k >= |header| then Option.None
      else Some(HasWord(header, k, PROCEDURE) || HasWord(header, k, FUNCTION) || HasWord(header, k, TRIGGER)
        || HasWord(header, k, EVENT))
  }

  /** What a statement that begins with these tokens is: a routine, or not, or not known yet. */
  function RoutineHeader(header: seq<Sym>): Option<bool> {
    if header == [] then Option.None
    else if !HasWord(header, 0, CREATE) then Some(false)
    else
      match OrReplace(header, 1)
      case TooFew => Option.None
      case NoRoutine => Some(false)
      case At(i) =>
        match Definer(header, i)
        case TooFew => Option.None
        case NoRoutine => Some(false)
        case At(j) => RoutineKind(header, j)
  }

  // ----- the body -----

  /** What is remembered while a routine is read. */
  datatype Control = Control(
    blocks: Blocks,
    bodyStart: bool,        // a statement is expected next
    inDeclare: bool,        // a DECLARE is being read
    bodyClosed: bool,       // the stack has been empty again
    previous: Option<Sym>)

  predicate IsEndKeyword(word: Keyword) { word.IF? || word.CASE? || word.LOOP? || word.WHILE? || word.REPEAT? }

  predicate IsOperandWord(word: Keyword) {
    word.WHEN? || word.THEN? || word.ELSE? || word.CASE? || word.AND? || word.OR? || word.NOT?
  }

  /** Tokens after which a value is due, so that an `end` there is one. */
  predicate ExpectsOperand(s: Option<Sym>) {
    s.Some? &&
    if s.value.Punct? then
      IsPunct(s, ',') || IsPunct(s, '(') || IsPunct(s, '=') || IsPunct(s, '<') || IsPunct(s, '>') || IsPunct(s, '+')
        || IsPunct(s, '-')
      || IsPunct(s, '*') || IsPunct(s, '/') || IsPunct(s, '%') || IsPunct(s, '!') || IsPunct(s, '&') || IsPunct(s, '|')
        || IsPunct(s, '^')
      || IsPunct(s, '~')
    else s.value.Word? && IsOperandWord(s.value.word)
  }

  /** Whether the word after is a keyword that an END can have. */
  predicate EndKeywordNext(peek: Option<Sym>) { peek.Some? && peek.value.Word? && IsEndKeyword(peek.value.word) }

  /** After these marks every word is a name. */
  predicate Named(previous: Option<Sym>) { IsPunct(previous, '.') || IsPunct(previous, '@') }

  predicate InAList(previous: Option<Sym>) { IsPunct(previous, ',') || IsPunct(previous, '(') }

  predicate IsTransaction(peek: Option<Sym>) { peek == Some(Word(WORK)) || peek == Some(Semi) }

  /** A word right before `:`, but not `:=`. */
  predicate IsLabel(peek: Option<Sym>) { IsPunct(peek, ':') && !peek.value.beforeEq }

  function OpenBlock(c: Control, block: Block): Control { c.(blocks := Open(block, c.blocks), inDeclare := false) }

  function CloseBlock(c: Control): Control
    requires c.blocks.Open?
  {
    c.(blocks := c.blocks.outer, bodyClosed := c.bodyClosed || c.blocks.outer.NoBlock?)
  }

  /** Whether an END closes the innermost block. */
  predicate Closes(c: Control, peek: Option<Sym>) {
    c.blocks.Open? &&
    if c.blocks.block.CaseExpression? then !ExpectsOperand(c.previous) else c.bodyStart || EndKeywordNext(peek)
  }

  /** What a word of the body does, and whether it takes the token after it along. */
  datatype Turn = Turn(control: Control, skip: bool)

  function Plain(c: Control, s: Sym): Turn { Turn(c.(bodyStart := false, previous := Some(s)), false) }

  function With(c: Control, s: Sym, bodyStart: bool): Turn {
    Turn(c.(bodyStart := bodyStart, previous := Some(s)), false)
  }

  function Skipping(c: Control, peek: Option<Sym>, bodyStart: bool): Turn
    requires peek.Some?
  {
    Turn(c.(bodyStart := bodyStart, previous := peek), true)
  }

  /** What the word `s` does, with the token `peek` after it. */
  function WordTurn(c: Control, s: Sym, peek: Option<Sym>): Turn
    requires s.Word?
  {
    var word := s.word;
    if IsLabel(peek) then Skipping(c, peek, true)
    else if Named(c.previous) then Plain(c, s)
    else if word == BEGIN then
      if !InAList(c.previous) && !IsTransaction(peek) && (c.bodyStart || c.blocks.NoBlock? || c.inDeclare)
      then With(OpenBlock(c, BeginBlock), s, true) else Plain(c, s)
    else if word == CASE then With(OpenBlock(c, if c.bodyStart then CaseStatement else CaseExpression), s, false)
    else if word == IF && c.bodyStart then With(OpenBlock(c, IfBlock), s, false)
    else if word == WHILE && c.bodyStart then With(OpenBlock(c, WhileBlock), s, false)
    else if (word == LOOP || word == REPEAT) && c.bodyStart then
      With(OpenBlock(c, if word == LOOP then LoopBlock else RepeatBlock), s, true)
    else if word == END then
      if !Closes(c, peek) then Plain(c, s)
      else if EndKeywordNext(peek) then Skipping(CloseBlock(c), peek, false)
      else Plain(CloseBlock(c), s)
    else if word == THEN || word == ELSE then
      With(c, s, c.blocks.Open? && (c.blocks.block.IfBlock? || c.blocks.block.CaseStatement?))
    else if word == DO && !c.bodyStart then With(c, s, true)
    else if word == DECLARE && c.bodyStart then Plain(c.(inDeclare := true), s)
    else if word == ROW && c.blocks.NoBlock? && IsWordSym(c.previous, EACH) then With(c, s, true)
    else if (word == FOLLOWS || word == PRECEDES) && c.bodyStart && c.blocks.NoBlock?
      && peek.Some? then Skipping(c, peek, true)
    else Plain(c, s)
  }
}

module MysqlSplitter {
  import opened Text
  import opened Statements
  import opened MysqlLexer
  import opened MysqlRoutines

  /** A statement while it is read. */
  datatype Statement = Statement(start: nat, hasContent: bool, header: seq<Sym>, routine: Option<bool>,
    control: Control)

  const UNREAD := Control(NoBlock, false, false, false, Option.None)

  function Fresh(start: nat): Statement { Statement(start, false, [], Option.None, UNREAD) }

  predicate InBody(st: Statement) { st.routine == Some(true) && st.control.blocks.Open? }

  /** The start of the line of position `i`. */
  function LineStart(sql: string, i: nat): (s: nat)
    requires i <= |sql|
    ensures s <= i
  {
    if i == 0 || sql[i - 1] == '\n' then i else LineStart(sql, i - 1)
  }

  predicate IsDelimiter(sql: string, t: Token)
    requires t.end <= |sql|
  {
    t.sym == Word(DELIMITER) && (t.end >= |sql| || IsSpace(sql[t.end]))
  }

  /** First on its line, with the blocks of the routine all closed. */
  predicate AfterBody(sql: string, st: Statement, t: Token)
    requires t.start <= |sql|
  {
    && st.routine == Some(true) && st.control.bodyClosed && st.control.blocks.NoBlock?
    && SkipSpaces(sql, LineStart(sql, t.start), t.start) == t.start
  }

  /** What a token does: the statement after it, where to read on, and the texts that end with it. */
  datatype Reading = Reading(statement: Statement, next: nat, texts: seq<(nat, nat)>)

  function SymOf(t: Option<Token>): Option<Sym> { if t.Some? then Some(t.value.sym) else Option.None }

  function TakeSemi(sql: string, st: Statement, t: Token): Reading {
    if InBody(st) then
      Reading(st.(control := st.control.(bodyStart := true, inDeclare := false, previous := Some(t.sym))), t.end, [])
    else
      Reading(Fresh(t.end), t.end, if st.hasContent then [(st.start, t.start)] else [])
  }

  function TakeDelimiter(sql: string, st: Statement, t: Token): Reading
    requires t.start <= t.end <= |sql|
  {
    var end := LineEnd(sql, t.end);
    var line := LineStart(sql, t.start);
    Reading(Fresh(end), end, if st.hasContent then [(st.start, line), (line, end)] else [(st.start, end)])
  }

  function TakeContent(sql: string, st: Statement, t: Token): Reading
    requires t.start <= t.end <= |sql|
  {
    var st := st.(hasContent := true);
    if st.routine.None? then
      var header := st.header + [t.sym];
      Reading(st.(header := header, routine := RoutineHeader(header), control := st.control.(previous := Some(t.sym))),
        t.end, [])
    else if !st.routine.value || !t.sym.Word? then
      Reading(st.(control := Plain(st.control, t.sym).control), t.end, [])
    else
      var peek := NextToken(sql, t.end);
      var turn := WordTurn(st.control, t.sym, SymOf(peek));
      Reading(st.(control := turn.control), if turn.skip && peek.Some? then peek.value.end else t.end, [])
  }

  function Take(sql: string, st: Statement, t: Token): (r: Reading)
    requires t.start < t.end <= |sql|
    ensures t.end <= r.next <= |sql|
  {
    if t.sym == Semi then TakeSemi(sql, st, t)
    else if IsDelimiter(sql, t) && (!st.hasContent || AfterBody(sql, st, t)) then TakeDelimiter(sql, st, t)
    else TakeContent(sql, st, t)
  }

  predicate KeepAll(s: string) { true }

  /** The range of `sql[lo..hi]`, trimmed. */
  function Trim(sql: string, lo: nat, hi: nat): Option<Range> {
    if lo <= hi <= |sql| then Piece(sql, lo, hi, KeepAll) else Option.None
  }

  function Push(ranges: seq<Range>, sql: string, texts: seq<(nat, nat)>): seq<Range>
    decreases |texts|
  {
    if texts == [] then ranges else Push(Add(ranges, Trim(sql, texts[0].0, texts[0].1)), sql, texts[1..])
  }

  lemma PushOne(ranges: seq<Range>, sql: string, a: (nat, nat))
    ensures Push(ranges, sql, [a]) == Add(ranges, Trim(sql, a.0, a.1))
  {
    assert [a][1..] == [];
  }

  lemma PushTwo(ranges: seq<Range>, sql: string, a: (nat, nat), b: (nat, nat))
    ensures Push(ranges, sql, [a, b]) == Add(Add(ranges, Trim(sql, a.0, a.1)), Trim(sql, b.0, b.1))
  {
    assert [a, b][1..] == [b];
    PushOne(Add(ranges, Trim(sql, a.0, a.1)), sql, b);
  }

  /** The ranges of a script from `i` on, behind `ranges`, when `st` is the statement being read. */
  function Split(ranges: seq<Range>, sql: string, i: nat, st: Statement): seq<Range>
    requires i <= |sql|
    decreases |sql| - i
  {
    match NextToken(sql, i)
    case None => if st.hasContent then Add(ranges, Trim(sql, st.start, |sql|)) else ranges
    case Some(t) => var r := Take(sql, st, t); Split(Push(ranges, sql, r.texts), sql, r.next, r.statement)
  }

  // ----- the scanner -----

  /** The statement being read. */
  class Current {
    var start: nat
    var hasContent: bool
    var header: seq<Sym>
    var routine: Option<bool>
    var blocks: Blocks
    var bodyStart: bool
    var inDeclare: bool
    var bodyClosed: bool
    var previous: Option<Sym>

    constructor (start: nat)
      ensures Snapshot() == Fresh(start)
    {
      this.start, hasContent, header, routine := start, false, [], Option.None;
      blocks, bodyStart, inDeclare, bodyClosed, previous := NoBlock, false, false, false, Option.None;
    }

    function View(): Control
      reads this
    {
      Control(blocks, bodyStart, inDeclare, bodyClosed, previous)
    }

    function Snapshot(): Statement
      reads this
    {
      Statement(start, hasContent, header, routine, View())
    }

    method OpenBlock(block: Block)
      modifies this`blocks, this`inDeclare
      ensures View() == MysqlRoutines.OpenBlock(old(View()), block)
    {
      blocks := Open(block, blocks);
      inDeclare := false;
    }

    method CloseBlock()
      requires blocks.Open?
      modifies this`blocks, this`bodyClosed
      ensures View() == MysqlRoutines.CloseBlock(old(View()))
    {
      blocks := blocks.outer;
      if blocks.NoBlock? { bodyClosed := true; }
    }

    /** Reads a word of a routine, with the token `peek` after it; `skip` when that one is read too. */
    method ReadWord(s: Sym, peek: Option<Sym>) returns (skip: bool)
      requires s.Word?
      modifies this`blocks, this`bodyStart, this`inDeclare, this`bodyClosed, this`previous
      ensures Turn(View(), skip) == WordTurn(old(View()), s, peek)
    {
      var bodyStart := this.bodyStart;
      this.bodyStart := false;
      skip := false;
      var word := s.word;
      if IsLabel(peek) {
        this.bodyStart, previous := true, peek;
        return true;
      }
      if Named(previous) {
      } else if word == BEGIN {
        if !InAList(previous) && !IsTransaction(peek) && (bodyStart || blocks.NoBlock? || inDeclare) {
          OpenBlock(BeginBlock);
          this.bodyStart := true;
        }
      } else if word == CASE {
        OpenBlock(if bodyStart then CaseStatement else CaseExpression);
      } else if word == IF && bodyStart {
        OpenBlock(IfBlock);
      } else if word == WHILE && bodyStart {
        OpenBlock(WhileBlock);
      } else if (word == LOOP || word == REPEAT) && bodyStart {
        OpenBlock(if word == LOOP then LoopBlock else RepeatBlock);
        this.bodyStart := true;
      } else if word == END {
        if blocks.Open? && (if blocks.block.CaseExpression? then !ExpectsOperand(previous)
          else bodyStart || EndKeywordNext(peek)) {
          CloseBlock();
          if EndKeywordNext(peek) {
            previous := peek;
            return true;
          }
        }
      } else if word == THEN || word == ELSE {
        if blocks.Open? && (blocks.block.IfBlock? || blocks.block.CaseStatement?) { this.bodyStart := true; }
      } else if word == DO && !bodyStart {
        this.bodyStart := true;
      } else if word == DECLARE && bodyStart {
        inDeclare := true;
      } else if word == ROW && blocks.NoBlock? && IsWordSym(previous, EACH) {
        this.bodyStart := true;
      } else if (word == FOLLOWS || word == PRECEDES) && bodyStart && blocks.NoBlock? && peek.Some? {
        this.bodyStart, previous := true, peek;
        return true;
      }
      previous := Some(s);
    }

    /** Reads a token that belongs to the statement; `next` is where to read on. */
    method ReadContent(sql: string, t: Token) returns (next: nat)
      requires t.start < t.end <= |sql|
      modifies this
      ensures Reading(Snapshot(), next, []) == TakeContent(sql, old(Snapshot()), t)
    {
      hasContent := true;
      next := t.end;
      if routine.None? {
        header := header + [t.sym];
        routine := RoutineHeader(header);
        previous := Some(t.sym);
      } else if !routine.value || !t.sym.Word? {
        bodyStart := false;
        previous := Some(t.sym);
      } else {
        var peek := ReadToken(sql, t.end);
        var skip := ReadWord(t.sym, SymOf(peek));
        if skip && peek.Some? { next := peek.value.end; }
      }
    }
  }

  /** Splits a script into its statements. */
  method SplitMysql(sql: string) returns (ranges: seq<Range>)
    ensures ranges == Split([], sql, 0, Fresh(0))
  {
    ranges := [];
    var current := new Current(0);
    var i: nat := 0;
    var token := ReadToken(sql, i);
    while token.Some?
      invariant i <= |sql| && token == NextToken(sql, i)
      invariant fresh(current)
      invariant Split(ranges, sql, i, current.Snapshot()) == Split([], sql, 0, Fresh(0))
      decreases |sql| - i
    {
      ranges, current, i := ReadNext(sql, ranges, current, token.value);
      token := ReadToken(sql, i);
    }
    if current.hasContent {
      ranges := PushTrimmed(ranges, sql, current.start, |sql|);
    }
  }

  method PushTrimmed(ranges: seq<Range>, sql: string, from: nat, to: nat) returns (pushed: seq<Range>)
    ensures pushed == Add(ranges, Trim(sql, from, to))
  {
    if from <= to <= |sql| {
      pushed := PushStatement(ranges, sql, from, to, KeepAll);
    } else {
      pushed := ranges;
    }
  }

  /** Reads one token. */
  method ReadNext(sql: string, ranges: seq<Range>, current: Current, t: Token)
      returns (pushed: seq<Range>, after: Current, next: nat)
    requires t.start < t.end <= |sql|
    modifies current
    ensures after == current || fresh(after)
    ensures var r := Take(sql, old(current.Snapshot()), t);
      after.Snapshot() == r.statement && next == r.next && pushed == Push(ranges, sql, r.texts)
  {
    pushed, after, next := ranges, current, t.end;
    PushOne(ranges, sql, (current.start, t.start));
    if t.sym == Semi {
      if current.routine == Some(true) && current.blocks.Open? {
        current.bodyStart, current.inDeclare, current.previous := true, false, Some(t.sym);
      } else {
        if current.hasContent { pushed := PushTrimmed(pushed, sql, current.start, t.start); }
        after := new Current(t.end);
      }
    } else if IsDelimiter(sql, t) && (!current.hasContent || AfterBody(sql, current.Snapshot(), t)) {
      var from := current.start;
      PushOne(ranges, sql, (from, LineEnd(sql, t.end)));
      PushTwo(ranges, sql, (from, LineStart(sql, t.start)), (LineStart(sql, t.start), LineEnd(sql, t.end)));
      if current.hasContent {
        from := LineStart(sql, t.start);
        pushed := PushTrimmed(pushed, sql, current.start, from);
      }
      next := LineEnd(sql, t.end);
      pushed := PushTrimmed(pushed, sql, from, next);
      after := new Current(next);
    } else {
      next := current.ReadContent(sql, t);
    }
  }
}
