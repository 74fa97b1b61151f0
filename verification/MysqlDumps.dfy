/** A routine in a script for the mysql client: `$$` behind its END, and a `DELIMITER` line after it. */
module MysqlDumps {
  import opened Text
  import opened Statements
  import opened MysqlLexer
  import opened MysqlRoutines
  import opened MysqlSplitter
  import opened MysqlScripts
  import opened MysqlPrinting

  const ROUTINE: string := "CREATE EVENT BEGIN END $$\n"
  const LINE: string := "DELIMITER "

  ghost predicate Dump(sql: string, s: string) {
    sql == ROUTINE + LINE + s && forall k :: 0 <= k < |s| ==> s[k] != '\n'
  }

  lemma Characters(sql: string, s: string)
    requires Dump(sql, s)
    ensures |sql| == 36 + |s| && FoundAt("CREATE", sql, 0) && FoundAt("EVENT", sql, 7) && FoundAt("BEGIN", sql, 13)
    ensures FoundAt("END", sql, 19) && FoundAt("DELIMITER", sql, 26)
    ensures sql[6] == ' ' && sql[12] == ' ' && sql[18] == ' ' && sql[22] == ' ' && sql[23] == '$' && sql[24] == '$'
    ensures sql[25] == '\n' && sql[35] == ' ' && forall k :: 26 <= k < |sql| ==> sql[k] != '\n'
  {
    assert |ROUTINE| == 26 && |LINE| == 10;
    forall k | 0 <= k < 26 ensures sql[k] == ROUTINE[k] {}
    forall k | 26 <= k < 36 ensures sql[k] == LINE[k - 26] {}
    forall k | 36 <= k < |sql| ensures sql[k] == s[k - 36] {}
  }

  lemma WordIsSpelled(text: string, word: Keyword)
    requires text != "" && forall k :: 0 <= k < |text| ==> 'A' <= text[k] <= 'Z'
    requires KeywordOf(text) == word
    ensures Spells(text, Word(word))
  {
    NotSpace(text[0]);
    assert Upper(text) == text;
  }

  lemma HeaderIsSpelled()
    ensures Spells("CREATE", Word(CREATE)) && Spells("EVENT", Word(EVENT))
  {
    WordIsSpelled("CREATE", CREATE);
    WordIsSpelled("EVENT", EVENT);
  }

  lemma BlockIsSpelled()
    ensures Spells("BEGIN", Word(BEGIN)) && Spells("END", Word(END))
  {
    WordIsSpelled("BEGIN", BEGIN);
    WordIsSpelled("END", END);
  }

  /** A word at `d`, read from there or from the blank before. */
  lemma WordIsNext(sql: string, i: nat, d: nat, text: string, word: Keyword)
    requires Spells(text, Word(word)) && FoundAt(text, sql, d) && d + |text| < |sql| && sql[d + |text|] == ' '
    requires i == d || (i + 1 == d && IsSpace(sql[i]))
    ensures NextToken(sql, i) == Some(Token(Word(word), d, d + |text|))
  {
    TokenIsRead(sql, d, text, Word(word));
  }

  lemma WordsAreRead(sql: string, s: string)
    requires Dump(sql, s)
    ensures |sql| >= 36
    ensures NextToken(sql, 0) == Some(Token(Word(CREATE), 0, 6))
    ensures NextToken(sql, 6) == Some(Token(Word(EVENT), 7, 12))
    ensures NextToken(sql, 12) == Some(Token(Word(BEGIN), 13, 18))
    ensures NextToken(sql, 18) == Some(Token(Word(END), 19, 22))
  {
    Characters(sql, s);
    CommonSpaces();
    HeaderIsSpelled();
    BlockIsSpelled();
    WordIsNext(sql, 0, 0, "CREATE", CREATE);
    WordIsNext(sql, 6, 7, "EVENT", EVENT);
    WordIsNext(sql, 12, 13, "BEGIN", BEGIN);
    WordIsNext(sql, 18, 19, "END", END);
  }

  /** The two `$`: the first is a mark, the second a word of its own. */
  lemma DollarsAreRead(sql: string, s: string)
    requires Dump(sql, s)
    ensures NextToken(sql, 22) == Some(Token(Punct('$', false), 23, 24))
    ensures NextToken(sql, 24) == Some(Token(Word(OTHER), 24, 25))
  {
    Characters(sql, s);
    CommonSpaces();
    NotSpace('$');
    assert sql[24..25] == "$" && Upper("$") == "$";
    assert WordEnd(sql, 25) == 25;
  }

  lemma DelimiterLies(sql: string, s: string)
    requires Dump(sql, s)
    ensures |sql| >= 36 && FoundAt("DELIMITER", sql, 26) && sql[25] == '\n' && sql[35] == ' '
  {
    Characters(sql, s);
  }

  lemma DelimiterIsSpelled()
    ensures Spells("DELIMITER", Word(DELIMITER))
  {
    assert KeywordOf("DELIMITER") == DELIMITER;
    WordIsSpelled("DELIMITER", DELIMITER);
  }

  lemma DelimiterIsRead(sql: string, s: string)
    requires Dump(sql, s)
    ensures |sql| >= 36 && NextToken(sql, 25) == Some(Token(Word(DELIMITER), 26, 35))
  {
    DelimiterLies(sql, s);
    DelimiterIsSpelled();
    CommonSpaces();
    WordIsNext(sql, 25, 26, "DELIMITER", DELIMITER);
  }

  // ----- what the tokens do -----

  const BEHIND_EVENT := Statement(0, true, [Word(CREATE), Word(EVENT)], Some(true),
    Control(NoBlock, false, false, false, Some(Word(EVENT))))

  const BEHIND_END := BEHIND_EVENT.(control := Control(NoBlock, false, false, true, Some(Word(END))))

  lemma HeaderIsTaken(sql: string, s: string)
    requires Dump(sql, s)
    ensures var r := Take(sql, Fresh(0), Token(Word(CREATE), 0, 6));
      r.texts == [] && r.next == 6 && Take(sql, r.statement, Token(Word(EVENT), 7, 12)) == Reading(BEHIND_EVENT, 12, [])
  {
    Characters(sql, s);
    assert [] + [Word(CREATE)] == [Word(CREATE)] && [Word(CREATE)] + [Word(EVENT)] == [Word(CREATE), Word(EVENT)];
  }

  /** A word of the routine that takes no other along. */
  lemma WordIsTaken(sql: string, st: Statement, t: Token, peek: Token, after: Control)
    requires t.start < t.end <= |sql| && t.sym.Word? && t.sym != Word(DELIMITER) && NextToken(sql, t.end) == Some(peek)
    requires st.hasContent && st.routine == Some(true)
    requires WordTurn(st.control, t.sym, Some(peek.sym)) == Turn(after, false)
    ensures Take(sql, st, t) == Reading(st.(control := after), t.end, [])
  {
    TakeIsContent(sql, st, t);
  }

  const BEGIN_TOKEN := Token(Word(BEGIN), 13, 18)
  const END_TOKEN := Token(Word(END), 19, 22)
  const MARK_TOKEN := Token(Punct('$', false), 23, 24)
  const DOLLAR_TOKEN := Token(Word(OTHER), 24, 25)

  const BEHIND_BEGIN := BEHIND_EVENT.(
    control := Control(Open(BeginBlock, NoBlock), true, false, false, Some(Word(BEGIN))))

  const BEHIND_MARK := BEHIND_END.(control := Control(NoBlock, false, false, true, Some(Punct('$', false))))

  const BEHIND_DOLLARS := BEHIND_END.(control := Control(NoBlock, false, false, true, Some(Word(OTHER))))

  lemma BlockTurns()
    ensures WordTurn(BEHIND_EVENT.control, Word(BEGIN), Some(Word(END))) == Turn(BEHIND_BEGIN.control, false)
    ensures WordTurn(BEHIND_BEGIN.control, Word(END), Some(Punct('$', false))) == Turn(BEHIND_END.control, false)
  {}

  lemma DollarTurns()
    ensures WordTurn(BEHIND_MARK.control, Word(OTHER), Some(Word(DELIMITER))) == Turn(BEHIND_DOLLARS.control, false)
    ensures Plain(BEHIND_END.control, Punct('$', false)).control == BEHIND_MARK.control
  {}

  lemma BlockIsTaken(sql: string)
    requires |sql| >= 36 && NextToken(sql, 18) == Some(END_TOKEN) && NextToken(sql, 22) == Some(MARK_TOKEN)
    ensures Take(sql, BEHIND_EVENT, BEGIN_TOKEN) == Reading(BEHIND_BEGIN, 18, [])
    ensures Take(sql, BEHIND_BEGIN, END_TOKEN) == Reading(BEHIND_END, 22, [])
  {
    BlockTurns();
    WordIsTaken(sql, BEHIND_EVENT, BEGIN_TOKEN, END_TOKEN, BEHIND_BEGIN.control);
    WordIsTaken(sql, BEHIND_BEGIN, END_TOKEN, MARK_TOKEN, BEHIND_END.control);
  }

  lemma DollarsAreTaken(sql: string)
    requires |sql| >= 36 && NextToken(sql, 25) == Some(Token(Word(DELIMITER), 26, 35))
    ensures Take(sql, BEHIND_END, MARK_TOKEN) == Reading(BEHIND_MARK, 24, [])
    ensures Take(sql, BEHIND_MARK, DOLLAR_TOKEN) == Reading(BEHIND_DOLLARS, 25, [])
  {
    DollarTurns();
    TakeIsContent(sql, BEHIND_END, MARK_TOKEN);
    WordIsTaken(sql, BEHIND_MARK, DOLLAR_TOKEN, Token(Word(DELIMITER), 26, 35), BEHIND_DOLLARS.control);
  }

  lemma LineIsTaken(sql: string, s: string)
    requires Dump(sql, s) && |sql| >= 36
    ensures Take(sql, BEHIND_DOLLARS, Token(Word(DELIMITER), 26, 35)) ==
      Reading(Fresh(|sql|), |sql|, [(0, 26), (26, |sql|)])
  {
    Characters(sql, s);
    CommonSpaces();
    NoLineEnd(sql, 35);
    assert LineStart(sql, 26) == 26;
  }

  lemma ReadOne(sql: string, ranges: seq<Range>, i: nat, st: Statement, t: Token, next: nat, after: Statement)
    requires i <= |sql| && NextToken(sql, i) == Some(t) && Take(sql, st, t) == Reading(after, next, [])
    ensures Split(ranges, sql, i, st) == Split(ranges, sql, next, after)
  {
    assert Push(ranges, sql, []) == ranges;
  }

  /** Up to the `DELIMITER` line. */
  lemma {:induction false} RoutineIsRead(sql: string, s: string)
    requires Dump(sql, s) && |sql| >= 36
    ensures Split([], sql, 0, Fresh(0)) == Split([], sql, 25, BEHIND_DOLLARS)
  {
    WordsAreRead(sql, s);
    DollarsAreRead(sql, s);
    HeaderIsTaken(sql, s);
    BlockIsTaken(sql);
    DelimiterIsRead(sql, s);
    DollarsAreTaken(sql);
    var create := Take(sql, Fresh(0), Token(Word(CREATE), 0, 6)).statement;
    ReadOne(sql, [], 0, Fresh(0), Token(Word(CREATE), 0, 6), 6, create);
    ReadOne(sql, [], 6, create, Token(Word(EVENT), 7, 12), 12, BEHIND_EVENT);
    ReadOne(sql, [], 12, BEHIND_EVENT, BEGIN_TOKEN, 18, BEHIND_BEGIN);
    ReadOne(sql, [], 18, BEHIND_BEGIN, END_TOKEN, 22, BEHIND_END);
    ReadOne(sql, [], 22, BEHIND_END, MARK_TOKEN, 24, BEHIND_MARK);
    ReadOne(sql, [], 24, BEHIND_MARK, DOLLAR_TOKEN, 25, BEHIND_DOLLARS);
  }

  lemma LineIsPushed(sql: string, st: Statement, n: nat)
    requires 36 <= n == |sql| && NextToken(sql, 25) == Some(Token(Word(DELIMITER), 26, 35))
    requires Take(sql, st, Token(Word(DELIMITER), 26, 35)) == Reading(Fresh(n), n, [(0, 26), (26, n)])
    ensures Split([], sql, 25, st) == Add(Add([], Trim(sql, 0, 26)), Trim(sql, 26, n))
  {
    PushTwo([], sql, (0, 26), (26, n));
    assert NextToken(sql, n).None?;
  }

  /** The routine is a statement up to the `DELIMITER` line, and the line is one, whatever is in it. */
  lemma {:induction false} DelimiterAfterRoutine(sql: string, s: string)
    requires Dump(sql, s)
    ensures Split([], sql, 0, Fresh(0)) == [Range(0, 25), Range(26, BackSpaces(sql, 26, |sql|))]
  {
    DelimiterIsRead(sql, s);
    RoutineIsRead(sql, s);
    LineIsTaken(sql, s);
    LineIsPushed(sql, BEHIND_DOLLARS, |sql|);
    TextsAreTrimmed(sql, s);
  }

  lemma TextsAreTrimmed(sql: string, s: string)
    requires Dump(sql, s)
    ensures Trim(sql, 0, 26) == Some(Range(0, 25))
    ensures Trim(sql, 26, |sql|) == Some(Range(26, BackSpaces(sql, 26, |sql|)))
  {
    Characters(sql, s);
    CommonSpaces();
    NotSpace('C');
    NotSpace('D');
    NotSpace('$');
    assert sql[0 + 0] == "CREATE"[0] && sql[26 + 0] == "DELIMITER"[0];
    BackSpacesIs(sql, 0, 26, 25);
    if BackSpaces(sql, 26, |sql|) == 26 { BacksBlanks(sql, 26, |sql|, 26); }
  }
}
