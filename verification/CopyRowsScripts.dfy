/** The printed SQL is split into its statements, in the dialect it is printed for. */
module PenCuts {
  import opened Text
  import opened Statements
  import opened Automata
  import opened CopyRows
  import opened Pens

  /** A script that the pen can write from start to end, and that ends outside quotes. */
  ghost predicate Written(d: Dialect, sql: string) { Calm(StateAt(PenOf(d), sql, |sql|)) }

  /** The state after a character, and whether it is a cut. */
  lemma PenStep(d: Dialect, sql: string, i: nat)
    requires i < |sql|
    ensures StateAt(PenOf(d), sql, i + 1) == Step(d, StateAt(PenOf(d), sql, i), sql[i])
    ensures i in Cuts(PenOf(d), sql) <==> sql[i] == ';' && Calm(StateAt(PenOf(d), sql, i))
  {}

  predicate Sound(d: Dialect, p: Pen) { p.In? || p.Escaped? || p.Half? ==> QuoteChar(d, p.quote) }

  lemma {:induction false} PenIsSound(d: Dialect, sql: string, i: nat)
    requires i <= |sql|
    ensures Sound(d, StateAt(PenOf(d), sql, i))
  {
    if i > 0 {
      PenIsSound(d, sql, i - 1);
      PenStep(d, sql, i - 1);
    }
  }

  /** A bad state stays, so there is none in a script that ends well. */
  lemma {:induction false} BadStays(d: Dialect, sql: string, i: nat, j: nat)
    requires i <= j <= |sql| && StateAt(PenOf(d), sql, i) == Bad
    ensures StateAt(PenOf(d), sql, j) == Bad
    decreases j - i
  {
    if i < j {
      PenStep(d, sql, i);
      BadStays(d, sql, i + 1, j);
    }
  }

  lemma WrittenStep(d: Dialect, sql: string, i: nat)
    requires Written(d, sql) && i < |sql|
    ensures Sound(d, StateAt(PenOf(d), sql, i))
    ensures Step(d, StateAt(PenOf(d), sql, i), sql[i]) != Bad
    ensures StateAt(PenOf(d), sql, i + 1) == Step(d, StateAt(PenOf(d), sql, i), sql[i])
    ensures i in Cuts(PenOf(d), sql) <==> sql[i] == ';' && Calm(StateAt(PenOf(d), sql, i))
  {
    PenIsSound(d, sql, i);
    PenStep(d, sql, i);
    if StateAt(PenOf(d), sql, i + 1) == Bad { BadStays(d, sql, i + 1, |sql|); }
  }

  /** Writing a part of a script. */
  lemma {:induction false} WritesPart(d: Dialect, sql: string, i: nat, text: string, q: Pen)
    requires FoundAt(text, sql, i) && Writes(d, StateAt(PenOf(d), sql, i), text, q)
    ensures StateAt(PenOf(d), sql, i + |text|) == q
    ensures forall k: nat :: i <= k < i + |text| ==> k !in Cuts(PenOf(d), sql)
    decreases |text|
  {
    if text != "" {
      assert sql[i + 0] == text[0];
      PenStep(d, sql, i);
      var rest := text[1..];
      forall k {:trigger rest[k]} | 0 <= k < |rest| ensures sql[i + 1 + k] == rest[k] {
        assert sql[i + (k + 1)] == text[k + 1];
      }
      WritesPart(d, sql, i + 1, rest, q);
    }
  }

  /** A text that starts with one of these is no comment and not blank, so it is kept. */
  lemma LetterIsText(s: string)
    requires s != "" && IsLetter(s[0])
    ensures HasStatementText(s)
  {
    MatchTwo(s, "--", 0);
    MatchTwo(s, "/*", 0);
    NotSpace(s[0]);
  }
}

module PostgresRows {
  import opened Text
  import opened Statements
  import opened Automata
  import opened PostgresLexer
  import opened PostgresSplitter
  import C = CopyRows
  import P = Pens
  import opened PenCuts

  /** The pen and the lexer are at the same place. */
  predicate Same(p: P.Pen, s: Lex) {
    match p
    case Out(word) => s.Code? && (!word ==> s.prev == Other)
    case Dash => s == Lex.Dash
    case In(q) => s == Lex.Quoted(q, false)
    case Half(q) => s == Lex.MaybeClosed(q, false)
    case _ => false
  }

  lemma SameStep(p: P.Pen, s: Lex, c: char)
    requires Same(p, s) && P.Step(C.Postgres, p, c) != P.Bad
    ensures Same(P.Step(C.Postgres, p, c), Step(s, c))
  {}

  lemma SameCut(sql: string, k: nat)
    requires Written(C.Postgres, sql) && k < |sql|
    ensures k in Cuts(Postgres(), sql) <==> k in Cuts(P.PenOf(C.Postgres), sql)
  {
    SameState(sql, k);
    assert P.Calm(StateAt(P.PenOf(C.Postgres), sql, k)) == InCode(StateAt(Postgres(), sql, k));
  }

  lemma {:induction false} SameState(sql: string, i: nat)
    requires Written(C.Postgres, sql) && i <= |sql|
    ensures Same(StateAt(P.PenOf(C.Postgres), sql, i), StateAt(Postgres(), sql, i))
  {
    if i > 0 {
      SameState(sql, i - 1);
      WrittenStep(C.Postgres, sql, i - 1);
      SameStep(StateAt(P.PenOf(C.Postgres), sql, i - 1), StateAt(Postgres(), sql, i - 1), sql[i - 1]);
    }
  }

  /** PostgreSQL's scanner cuts a written script where the pen does. */
  lemma PostgresCuts(sql: string)
    requires Written(C.Postgres, sql)
    ensures SplitAtCode(sql) == SplitAt(sql, Cuts(P.PenOf(C.Postgres), sql), HasStatementText)
  {
    forall k: nat | k < |sql| ensures k in Cuts(Postgres(), sql) <==> k in Cuts(P.PenOf(C.Postgres), sql) {
      SameCut(sql, k);
    }
    assert Cuts(Postgres(), sql) == Cuts(P.PenOf(C.Postgres), sql);
  }
}

module SqliteRows {
  import opened Text
  import opened Statements
  import opened Automata
  import opened SqliteLexer
  import S = SqliteSplitter
  import C = CopyRows
  import opened Pens
  import opened PenCuts

  ghost function State(sql: string, i: nat): Pen
    requires i <= |sql|
  {
    StateAt(PenOf(C.Sqlite), sql, i)
  }

  ghost predicate IsCut(sql: string, k: nat) { k in Cuts(PenOf(C.Sqlite), sql) }

  /** From `i` to `j` the pen makes no cut. */
  ghost predicate Uncut(sql: string, i: nat, j: nat) { forall k: nat :: i <= k < j ==> !IsCut(sql, k) }

  lemma {:induction false} QuoteIsWritten(sql: string, j: nat, q: char)
    requires Written(C.Sqlite, sql) && j <= |sql| && State(sql, j) == In(q)
    ensures State(sql, QuoteEnd(sql, j, q)) == Half(q) && Uncut(sql, j, QuoteEnd(sql, j, q))
    decreases |sql| - j
  {
    if j < |sql| {
      WrittenStep(C.Sqlite, sql, j);
      if sql[j] != q {
        QuoteIsWritten(sql, j + 1, q);
      } else if j + 1 < |sql| && sql[j + 1] == q {
        WrittenStep(C.Sqlite, sql, j + 1);
        QuoteIsWritten(sql, j + 2, q);
      }
    }
  }

  lemma {:induction false} WordIsWritten(sql: string, j: nat)
    requires Written(C.Sqlite, sql) && j <= |sql| && State(sql, j) == Out(true)
    ensures State(sql, WordEnd(sql, j)) == Out(true) && Uncut(sql, j, WordEnd(sql, j))
    decreases |sql| - j
  {
    if j < |sql| && WordPart(sql[j]) {
      WrittenStep(C.Sqlite, sql, j);
      WordIsWritten(sql, j + 1);
    }
  }

  /** None of the words is CREATE. */
  predicate NoCreate(words: seq<string>) { forall k :: 0 <= k < |words| ==> words[k] != "CREATE" }

  lemma NoCreateIsNoTrigger(words: seq<string>)
    requires NoCreate(words)
    ensures !S.IsTrigger(words)
  {
    if |words| >= 3 { assert words[1..][0] == words[1]; }
  }

  /** A word that the pen can write is not CREATE. */
  lemma WrittenWord(sql: string, i: nat)
    requires Written(C.Sqlite, sql) && i < |sql| && Calm(State(sql, i)) && WordStart(sql[i])
    ensures Upper(sql[i..WordEnd(sql, i + 1)]) != "CREATE" && State(sql, i + 1) == Out(true)
  {
    WrittenStep(C.Sqlite, sql, i);
    var word := sql[i..WordEnd(sql, i + 1)];
    assert Upper(word)[0] == UpperChar(word[0]);
  }

  lemma NoComment(sql: string, i: nat)
    requires Written(C.Sqlite, sql) && i < |sql| && Calm(State(sql, i))
    ensures !LineCommentAt(sql, i) && !BlockCommentAt(sql, i) && sql[i] != '[' && sql[i] != '`'
  {
    WrittenStep(C.Sqlite, sql, i);
    if sql[i] == '-' && i + 1 < |sql| { WrittenStep(C.Sqlite, sql, i + 1); }
  }

  /** The lexeme at a place where the pen is outside quotes. */
  lemma LexemeIsWritten(sql: string, i: nat)
    requires Written(C.Sqlite, sql) && i < |sql| && Calm(State(sql, i))
    ensures Calm(State(sql, LexemeEnd(sql, i))) && Uncut(sql, i + 1, LexemeEnd(sql, i))
    ensures IsCut(sql, i) <==> LexemeAt(sql, i) == Significant(Semi)
    ensures LexemeAt(sql, i).Significant? && LexemeAt(sql, i).token.Name? ==> LexemeAt(sql, i).token.text != "CREATE"
  {
    NoComment(sql, i);
    WrittenStep(C.Sqlite, sql, i);
    if IsQuote(sql[i]) {
      QuoteIsWritten(sql, i + 1, sql[i]);
    } else if WordStart(sql[i]) {
      WrittenWord(sql, i);
      WordIsWritten(sql, i + 1);
    } else if sql[i] == ';' {
      NotSpace(';');
    }
  }

  lemma {:induction false} CutsAreWritten(sql: string, i: nat, h: S.History, k: nat)
    requires Written(C.Sqlite, sql) && i <= |sql| && Calm(State(sql, i)) && NoCreate(S.FirstWords(h))
    ensures k in S.Cuts(sql, i, h) <==> i <= k && IsCut(sql, k)
    decreases |sql| - i
  {
    if i < |sql| {
      LexemeIsWritten(sql, i);
      NoCreateIsNoTrigger(S.FirstWords(h));
      var end := LexemeEnd(sql, i);
      match LexemeAt(sql, i)
      case Gap => CutsAreWritten(sql, end, h, k);
      case Significant(token) =>
        if token == Semi {
          CutsAreWritten(sql, end, S.Empty, k);
        } else {
          CutsAreWritten(sql, end, S.Then(h, token), k);
        }
    }
  }

  /** SQLite's scanner cuts a written script where the pen does. */
  lemma SqliteCuts(sql: string)
    requires Written(C.Sqlite, sql)
    ensures S.SplitAtSeparators(sql) == SplitAt(sql, Cuts(PenOf(C.Sqlite), sql), HasStatementText)
  {
    forall k: nat ensures k in S.Cuts(sql, 0, S.Empty) <==> k in Cuts(PenOf(C.Sqlite), sql) {
      CutsAreWritten(sql, 0, S.Empty, k);
    }
    assert S.Cuts(sql, 0, S.Empty) == Cuts(PenOf(C.Sqlite), sql);
  }
}

module MysqlRows {
  import opened Text
  import opened Statements
  import opened Automata
  import opened MysqlLexer
  import M = MysqlSplitter
  import C = CopyRows
  import P = Pens
  import opened PenCuts

  ghost function State(sql: string, i: nat): P.Pen
    requires i <= |sql|
  {
    StateAt(P.PenOf(C.Mysql), sql, i)
  }

  ghost predicate IsCut(sql: string, k: nat) { k in Cuts(P.PenOf(C.Mysql), sql) }

  /** From `i` to `j` the pen makes no cut. */
  ghost predicate Uncut(sql: string, i: nat, j: nat) { forall k: nat :: i <= k < j ==> !IsCut(sql, k) }

  lemma {:induction false} QuoteIsWritten(sql: string, j: nat, q: char)
    requires Written(C.Mysql, sql) && j <= |sql| && State(sql, j) == P.In(q)
    ensures State(sql, QuotedEnd(sql, j, q)) == P.Half(q) && Uncut(sql, j, QuotedEnd(sql, j, q))
    decreases |sql| - j
  {
    if j < |sql| {
      WrittenStep(C.Mysql, sql, j);
      if sql[j] == '\\' && q != '`' {
        if j + 1 < |sql| {
          WrittenStep(C.Mysql, sql, j + 1);
          QuoteIsWritten(sql, j + 2, q);
        }
      } else if sql[j] != q {
        QuoteIsWritten(sql, j + 1, q);
      } else if j + 1 < |sql| && sql[j + 1] == q {
        WrittenStep(C.Mysql, sql, j + 1);
        QuoteIsWritten(sql, j + 2, q);
      }
    }
  }

  predicate Letters(text: string) { forall k :: 0 <= k < |text| ==> P.PlainLetter(text[k]) }

  lemma {:induction false} WordIsWritten(sql: string, i: nat, j: nat)
    requires Written(C.Mysql, sql) && i <= j <= |sql| && State(sql, j) == P.Out(true) && Letters(sql[i..j])
    ensures State(sql, WordEnd(sql, j)) == P.Out(true) && Uncut(sql, j, WordEnd(sql, j))
    ensures Letters(sql[i..WordEnd(sql, j)])
    decreases |sql| - j
  {
    if WordAt(sql, j) {
      WrittenStep(C.Mysql, sql, j);
      assert sql[i..j + 1] == sql[i..j] + [sql[j]];
      WordIsWritten(sql, i, j + 1);
    }
  }

  /** A word that the pen can write is none of these. */
  lemma LettersAreNoKeyword(text: string)
    requires text != "" && Letters(text)
    ensures Word(KeywordOf(Upper(text))) != Word(CREATE) && Word(KeywordOf(Upper(text))) != Word(DELIMITER)
  {
    var upper := Upper(text);
    assert upper[0] == UpperChar(text[0]) && P.PlainLetter(text[0]);
    assert |text| > 4 ==> upper[4] == UpperChar(text[4]) && P.PlainLetter(text[4]);
  }

  lemma WrittenWord(sql: string, i: nat)
    requires Written(C.Mysql, sql) && i < |sql| && P.Calm(State(sql, i)) && WordAt(sql, i)
    ensures var e := WordEnd(sql, i + 1);
      P.Calm(State(sql, e)) && Uncut(sql, i, e) && WordIn(sql, i, e) != Word(CREATE)
        && WordIn(sql, i, e) != Word(DELIMITER)
  {
    WrittenStep(C.Mysql, sql, i);
    assert sql[i..i + 1] == [sql[i]];
    WordIsWritten(sql, i, i + 1);
    LettersAreNoKeyword(sql[i..WordEnd(sql, i + 1)]);
  }

  lemma NoComment(sql: string, i: nat)
    requires Written(C.Mysql, sql) && i < |sql| && P.Calm(State(sql, i))
    ensures !LineCommentAt(sql, i) && !BlockCommentAt(sql, i) && sql[i] != '"'
  {
    WrittenStep(C.Mysql, sql, i);
    if sql[i] == '-' && i + 1 < |sql| { WrittenStep(C.Mysql, sql, i + 1); }
  }

  /** A token where the pen is outside quotes. */
  ghost predicate WrittenToken(sql: string, t: Token) {
    && t.start < t.end <= |sql| && P.Calm(State(sql, t.end))
    && (IsCut(sql, t.start) <==> t.sym == Semi) && Uncut(sql, t.start + 1, t.end)
      && (t.sym == Semi ==> t.end == t.start + 1)
    && t.sym != Word(CREATE) && t.sym != Word(DELIMITER) && !IsSpace(sql[t.start])
  }

  lemma TokenIsWritten(sql: string, i: nat)
    requires Written(C.Mysql, sql) && i < |sql| && P.Calm(State(sql, i)) && !IsSpace(sql[i])
    ensures WrittenToken(sql, TokenAt(sql, i))
  {
    NoComment(sql, i);
    WrittenStep(C.Mysql, sql, i);
    if IsQuote(sql[i]) {
      QuoteIsWritten(sql, i + 1, sql[i]);
    } else if sql[i] != ';' && WordAt(sql, i) {
      WrittenWord(sql, i);
    }
  }

  ghost predicate Blanks(sql: string, i: nat, j: nat) { i <= j <= |sql| && forall k :: i <= k < j ==> IsSpace(sql[k]) }

  /** What is read at a place where the pen is outside quotes: blanks, and a token or the end of the script. */
  lemma {:induction false} NextIsWritten(sql: string, i: nat)
    requires Written(C.Mysql, sql) && i <= |sql| && P.Calm(State(sql, i))
    ensures var t := NextToken(sql, i); var end := if t.Some? then t.value.start else |sql|;
      Blanks(sql, i, end) && Uncut(sql, i, end) && (t.Some? ==> WrittenToken(sql, t.value))
    decreases |sql| - i
  {
    if i < |sql| {
      NoComment(sql, i);
      if IsSpace(sql[i]) {
        WrittenStep(C.Mysql, sql, i);
        NotSpace(';');
        NotSpace('\'');
        NotSpace('`');
        NextIsWritten(sql, i + 1);
      } else {
        TokenIsWritten(sql, i);
      }
    }
  }

  /** A statement of a written script is no routine. */
  ghost predicate Ordinary(sql: string, i: nat, st: M.Statement) {
    && st.start <= i <= |sql|
    && if st.hasContent then st.routine == Some(false) && !Blanks(sql, st.start, i)
      else st == M.Fresh(st.start) && Blanks(sql, st.start, i)
  }

  lemma TakeOrdinary(sql: string, i: nat, st: M.Statement, t: Token)
    requires Ordinary(sql, i, st) && WrittenToken(sql, t) && i <= t.start && Blanks(sql, i, t.start)
    ensures var r := M.Take(sql, st, t); r.next == t.end && Ordinary(sql, t.end, r.statement)
    ensures var r := M.Take(sql, st, t);
      if t.sym == Semi then r.statement == M.Fresh(t.end)
        && r.texts == (if st.hasContent then [(st.start, t.start)] else [])
      else r.statement.start == st.start && r.texts == []
  {
    if t.sym != Semi {
      if !st.hasContent { assert (st.header + [t.sym])[0] == t.sym; }
      assert st.start <= t.start < t.end && !IsSpace(sql[t.start]);
    }
  }

  lemma BlankPiece(sql: string, lo: nat, hi: nat)
    requires Blanks(sql, lo, hi)
    ensures Piece(sql, lo, hi, M.KeepAll) == Option.None
  {
    SkipSpacesIs(sql, lo, hi, hi);
  }

  ghost function PenChunks(sql: string, start: nat, i: nat): seq<Range>
    requires start <= i <= |sql|
  {
    Chunks(sql, start, i, Cuts(P.PenOf(C.Mysql), sql), M.KeepAll)
  }

  lemma Skip(sql: string, start: nat, i: nat, j: nat)
    requires start <= i <= j <= |sql| && Uncut(sql, i, j)
    ensures PenChunks(sql, start, i) == PenChunks(sql, start, j)
  {
    forall k: nat | i <= k < j ensures k !in Cuts(P.PenOf(C.Mysql), sql) { assert !IsCut(sql, k); }
    ChunksSkip(sql, start, i, j, Cuts(P.PenOf(C.Mysql), sql), M.KeepAll);
  }

  lemma SplitAtSemi(ranges: seq<Range>, sql: string, i: nat, st: M.Statement, t: Token)
    requires Ordinary(sql, i, st) && WrittenToken(sql, t) && i <= t.start && t.sym == Semi
    ensures var texts := if st.hasContent then [(st.start, t.start)] else [];
      ranges + PenChunks(sql, st.start, t.start) == M.Push(ranges, sql, texts) + PenChunks(sql, t.end, t.end)
    requires Blanks(sql, i, t.start)
  {
    M.PushOne(ranges, sql, (st.start, t.start));
    if !st.hasContent { BlankPiece(sql, st.start, t.start); }
    AddFront(ranges, Piece(sql, st.start, t.start, M.KeepAll), PenChunks(sql, t.end, t.end));
  }

  lemma {:induction false} SplitIsChunks(ranges: seq<Range>, sql: string, i: nat, st: M.Statement)
    requires Written(C.Mysql, sql) && Ordinary(sql, i, st) && P.Calm(State(sql, i))
    ensures M.Split(ranges, sql, i, st) == ranges + PenChunks(sql, st.start, i)
    decreases |sql| - i
  {
    NextIsWritten(sql, i);
    match NextToken(sql, i)
    case None =>
      Skip(sql, st.start, i, |sql|);
      if !st.hasContent { BlankPiece(sql, st.start, |sql|); }
      AddFront(ranges, Piece(sql, st.start, |sql|, M.KeepAll), []);
    case Some(t) =>
      var r := M.Take(sql, st, t);
      TakeOrdinary(sql, i, st, t);
      Skip(sql, st.start, i, t.start);
      if t.sym == Semi {
        SplitAtSemi(ranges, sql, i, st, t);
        SplitIsChunks(M.Push(ranges, sql, r.texts), sql, t.end, r.statement);
      } else {
        Skip(sql, st.start, t.start, t.end);
        SplitIsChunks(ranges, sql, t.end, r.statement);
      }
  }

  /** MySQL's scanner cuts a written script where the pen does. */
  lemma MysqlCuts(sql: string)
    requires Written(C.Mysql, sql)
    ensures M.Split([], sql, 0, M.Fresh(0)) == SplitAt(sql, Cuts(P.PenOf(C.Mysql), sql), M.KeepAll)
  {
    SplitIsChunks([], sql, 0, M.Fresh(0));
  }
}
