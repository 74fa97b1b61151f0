/** A script of one routine that is cut: ``CREATE PROCEDURE P ( ) BEGIN `x` : LOOP SELECT 1 ; END LOOP ; END ;`` */
module MysqlLimits {
  import opened Text
  import opened MysqlLexer
  import opened MysqlRoutines
  import opened MysqlSplitter
  import opened MysqlGrammar
  import opened MysqlScripts
  import opened MysqlPrinting

  function A(sym: Sym, text: string, more: Lexemes): Lexemes { Lexeme(sym, text, more) }

  function Mark(c: char, more: Lexemes): Lexemes { Lexeme(Punct(c, false), [c], more) }

  function Semicolon(more: Lexemes): Lexemes { Lexeme(Semi, ";", more) }

  /** `END LOOP ; END ;` */
  function Ends(): Lexemes {
    A(Word(END), "END", A(Word(LOOP), "LOOP", Semicolon(A(Word(END), "END", Semicolon(Nothing)))))
  }

  /** LOOP, a SELECT, and the above. */
  function Loop(): Lexemes {
    A(Word(LOOP), "LOOP", A(Word(OTHER), "SELECT", A(Word(OTHER), "1", Semicolon(Ends()))))
  }

  /** A procedure `p` with a block that holds the loop, with its label. */
  function Cut(): Lexemes {
    A(Word(CREATE), "CREATE", A(Word(PROCEDURE), "PROCEDURE", A(Word(OTHER), "P", Mark('(', Mark(')',
      A(Word(BEGIN), "BEGIN", A(Quoted, "`x`", Mark(':', Loop()))))))))
  }

  /** The same as a tree. */
  function CutScript(): Script {
    var select := Next(Simple(OTHER, Atom(Word(OTHER), Empty)), Done);
    var body := Compound(Next(Labelled(QuotedTag, Forever(select, Option.None)), Done), Option.None);
    var head := Atom(Word(OTHER), Atom(Punct('(', false), Atom(Punct(')', false), Empty)));
    Script(WithBody(Header(false, Option.None, false, PROCEDURE), head, body), NoRoutines)
  }

  lemma WordOk(word: Keyword, text: string, more: Lexemes)
    requires text != "" && forall k :: 0 <= k < |text| ==> WordChar(text[k]) && text[k] < '\U{80}' && text[k] != '$'
    requires SpellsWord(text, word) && LexemesOk(more)
    ensures LexemesOk(A(Word(word), text, more))
  {
    NotSpace(text[0]);
  }

  lemma CreateOk(more: Lexemes)
    requires LexemesOk(more)
    ensures LexemesOk(A(Word(CREATE), "CREATE", more))
  {
    assert Upper("CREATE") == "CREATE";
    WordOk(CREATE, "CREATE", more);
  }

  lemma ProcedureOk(more: Lexemes)
    requires LexemesOk(more)
    ensures LexemesOk(A(Word(PROCEDURE), "PROCEDURE", more))
  {
    assert Upper("PROCEDURE") == "PROCEDURE";
    WordOk(PROCEDURE, "PROCEDURE", more);
  }

  lemma POk(more: Lexemes)
    requires LexemesOk(more)
    ensures LexemesOk(A(Word(OTHER), "P", more))
  {
    assert Upper("P") == "P";
    WordOk(OTHER, "P", more);
  }

  lemma BeginOk(more: Lexemes)
    requires LexemesOk(more)
    ensures LexemesOk(A(Word(BEGIN), "BEGIN", more))
  {
    assert Upper("BEGIN") == "BEGIN";
    WordOk(BEGIN, "BEGIN", more);
  }

  lemma LoopOk(more: Lexemes)
    requires LexemesOk(more)
    ensures LexemesOk(A(Word(LOOP), "LOOP", more))
  {
    assert Upper("LOOP") == "LOOP";
    WordOk(LOOP, "LOOP", more);
  }

  lemma SelectOk(more: Lexemes)
    requires LexemesOk(more)
    ensures LexemesOk(A(Word(OTHER), "SELECT", more))
  {
    assert Upper("SELECT") == "SELECT";
    WordOk(OTHER, "SELECT", more);
  }

  lemma OneOk(more: Lexemes)
    requires LexemesOk(more)
    ensures LexemesOk(A(Word(OTHER), "1", more))
  {
    assert Upper("1") == "1";
    WordOk(OTHER, "1", more);
  }

  lemma EndOk(more: Lexemes)
    requires LexemesOk(more)
    ensures LexemesOk(A(Word(END), "END", more))
  {
    assert Upper("END") == "END";
    WordOk(END, "END", more);
  }

  lemma MarkOk(c: char, more: Lexemes)
    requires c in "():" && LexemesOk(more)
    ensures LexemesOk(Mark(c, more))
  {
    NotSpace(c);
  }

  lemma SemicolonOk(more: Lexemes)
    requires LexemesOk(more)
    ensures LexemesOk(Semicolon(more))
  {
    NotSpace(';');
  }

  lemma QuotedOk(more: Lexemes)
    requires LexemesOk(more)
    ensures LexemesOk(A(Quoted, "`x`", more))
  {
    NotSpace('`');
    var text := "`x`" + " ";
    assert |text| == 4 && text[1] == 'x' && text[2] == '`' && text[3] == ' ';
    assert QuotedEnd(text, 2, '`') == 3;
  }

  lemma EndsOk()
    ensures LexemesOk(Ends())
  {
    SemicolonOk(Nothing);
    EndOk(Semicolon(Nothing));
    SemicolonOk(A(Word(END), "END", Semicolon(Nothing)));
    var loop := Semicolon(A(Word(END), "END", Semicolon(Nothing)));
    LoopOk(loop);
    EndOk(A(Word(LOOP), "LOOP", loop));
  }

  lemma LoopsOk()
    ensures LexemesOk(Loop())
  {
    EndsOk();
    SemicolonOk(Ends());
    OneOk(Semicolon(Ends()));
    var one := A(Word(OTHER), "1", Semicolon(Ends()));
    SelectOk(one);
    LoopOk(A(Word(OTHER), "SELECT", one));
  }

  lemma CutOk()
    ensures LexemesOk(Cut())
  {
    LoopsOk();
    MarkOk(':', Loop());
    QuotedOk(Mark(':', Loop()));
    var named := A(Quoted, "`x`", Mark(':', Loop()));
    BeginOk(named);
    var body := A(Word(BEGIN), "BEGIN", named);
    MarkOk(')', body);
    MarkOk('(', Mark(')', body));
    POk(Mark('(', Mark(')', body)));
    var name := A(Word(OTHER), "P", Mark('(', Mark(')', body)));
    ProcedureOk(name);
    CreateOk(A(Word(PROCEDURE), "PROCEDURE", name));
  }

  lemma EndsAre()
    ensures SymsOf(Ends()) == Then(END, Then(LOOP, More(Semi, Then(END, More(Semi, Nil)))))
  {
    assert SymsOf(Semicolon(Nothing)) == More(Semi, Nil);
    var end := A(Word(END), "END", Semicolon(Nothing));
    assert SymsOf(end) == Then(END, More(Semi, Nil));
    assert SymsOf(Semicolon(end)) == More(Semi, Then(END, More(Semi, Nil)));
  }

  lemma LoopIs()
    ensures SymsOf(Loop()) == Then(LOOP, Then(OTHER, Then(OTHER, More(Semi, SymsOf(Ends())))))
  {
    var one := A(Word(OTHER), "1", Semicolon(Ends()));
    assert SymsOf(one) == Then(OTHER, More(Semi, SymsOf(Ends())));
  }

  lemma CutIs()
    ensures SymsOf(Cut()) == Then(CREATE, Then(PROCEDURE, Then(OTHER, More(Punct('(', false), More(Punct(')', false),
      Then(BEGIN, More(Quoted, More(Punct(':', false), SymsOf(Loop())))))))))
  {
    var named := A(Quoted, "`x`", Mark(':', Loop()));
    assert SymsOf(named) == More(Quoted, More(Punct(':', false), SymsOf(Loop())));
    var marks := Mark('(', Mark(')', A(Word(BEGIN), "BEGIN", named)));
    assert SymsOf(marks) == More(Punct('(', false), More(Punct(')', false), Then(BEGIN, SymsOf(named))));
  }

  lemma TreeIs()
    ensures ScriptSyms(CutScript()) == SymsOf(Cut())
  {
    EndsAre();
    LoopIs();
    CutIs();
    var r := CutScript().first;
    assert HeaderSyms(r.header) == [Word(CREATE), Word(PROCEDURE)];
    assert StmtSyms(r.body, More(Semi, Nil)) == Then(BEGIN, More(Quoted, More(Punct(':', false), SymsOf(Loop()))));
    PrependTwo(Word(CREATE), Word(PROCEDURE), RestSyms(r, More(Semi, Nil)));
  }

  lemma PrependTwo(a: Sym, b: Sym, tail: Syms)
    ensures Prepend([a, b], tail) == More(a, More(b, tail))
  {
    assert [a, b][1..] == [b] && [b][1..] == [];
    assert Prepend([b], tail) == More(b, Prepend([], tail));
  }

  lemma BodyOk()
    ensures ClearOk(CutScript().first.body) && Loses(CutScript().first.body, BODY)
  {
    var body := CutScript().first.body;
    assert ClearOk(body.body.stmt.stmt.body.stmt);
    assert ClearOk(body.body.stmt.stmt);
    assert Loses(body.body.stmt, SEEN);
  }

  lemma HeadIsOk()
    ensures var r := CutScript().first; HeaderOk(r.header) && HeadOk(PROCEDURE, r.head, Word(BEGIN))
  {
    var head := CutScript().first.head;
    assert ExprOk(head.rest.rest, Some(Punct(')', false)), Some(Word(BEGIN)), BARE);
    assert ExprOk(head.rest, Some(Punct('(', false)), Some(Word(BEGIN)), BARE);
  }

  lemma TreeOk()
    ensures ScriptOk(CutScript()) && Count(CutScript()) == 1 && !AllWhole(CutScript())
  {
    BodyOk();
    HeadIsOk();
    var s := CutScript();
    assert RoutineOk(s.first) && !Whole(s.first) && s.more.NoRoutines?;
  }

  /** The printed script reads as one routine, which MySQL accepts, and its text is not its range. */
  lemma QuotedLabelIsCut()
    ensures ScriptOk(CutScript()) && Reads(Print(Cut()), 0, ScriptSyms(CutScript())) && Count(CutScript()) == 1
    ensures !AreRoutines(Print(Cut()), 0, CutScript(), Split([], Print(Cut()), 0, Fresh(0)))
  {
    CutOk();
    TreeIs();
    TreeOk();
    PrintReads(Cut(), Print(Cut()), 0);
    PrintedRoutines(Cut(), CutScript());
  }
}
