/** Printed scripts: words and quoted names spelled in any way, a blank after each token. */
module MysqlPrinting {
  import opened Text
  import opened Statements
  import opened MysqlLexer
  import opened MysqlSplitter
  import opened MysqlGrammar
  import opened MysqlScripts

  /** Tokens and how they are spelled. */
  datatype Lexemes = Nothing | Lexeme(sym: Sym, text: string, more: Lexemes)

  function SymsOf(ls: Lexemes): Syms {
    match ls
    case Nothing => Nil
    case Lexeme(s, _, more) => More(s, SymsOf(more))
  }

  /** A blank, except in `:=`, `>=` and the like. */
  function Gap(s: Sym): string { if s.Punct? && s.beforeEq then "" else " " }

  function Print(ls: Lexemes): string {
    match ls
    case Nothing => ""
    case Lexeme(s, text, more) => text + Gap(s) + Print(more)
  }

  predicate IsMark(c: char) { !WordChar(c) && !IsSpace(c) && !IsQuote(c) && c != ';' && c != '#' }

  /**
   * The word in whatever case (a quantifier, so that a proof that does not ask for the keyword does not look it up).
   */
  ghost predicate SpellsWord(text: string, word: Keyword) {
    forall upper {:trigger KeywordOf(upper)} :: upper == Upper(text) ==> KeywordOf(upper) == word
  }

  /** A text that is read as the token, whatever blank comes after it. */
  ghost predicate Spells(text: string, s: Sym) {
    text != "" && !IsSpace(text[0]) &&
    match s
    case Word(word) => (forall k :: 0 <= k < |text| ==> WordChar(text[k]) && text[k] != '$') && SpellsWord(text, word)
    case Quoted => IsQuote(text[0]) && QuotedEnd(text + " ", 1, text[0]) == |text|
    case Versioned => false
    case Semi => text == ";"
    case Punct(mark, _) => text == [mark] && IsMark(mark)
  }

  ghost predicate LexemesOk(ls: Lexemes) {
    ls.Lexeme? ==>
      && Spells(ls.text, ls.sym) && LexemesOk(ls.more)
      && (ls.sym.Punct? && ls.sym.beforeEq ==> ls.more.Lexeme? && ls.more.sym.Punct? && ls.more.sym.mark == '=')
  }

  /** Inside a longer text a quoted text ends where it ends on its own, if it does. */
  lemma {:induction false} QuotedEndInside(own: string, whole: string, d: nat, j: nat, quote: char)
    requires FoundAt(own, whole, d) && j <= |own| && QuotedEnd(own, j, quote) < |own|
    ensures QuotedEnd(whole, d + j, quote) == d + QuotedEnd(own, j, quote)
    decreases |own| - j
  {
    if own[j] == '\\' && quote != '`' {
      QuotedEndInside(own, whole, d, j + 2, quote);
    } else if own[j] != quote {
      QuotedEndInside(own, whole, d, j + 1, quote);
    } else if j + 1 < |own| {
      assert whole[d + (j + 1)] == own[j + 1];
      if own[j + 1] == quote { QuotedEndInside(own, whole, d, j + 2, quote); }
    }
  }

  lemma {:induction false} WordEndIs(sql: string, i: nat, e: nat)
    requires i <= e <= |sql| && (e < |sql| ==> !WordChar(sql[e]))
    requires forall k :: i <= k < e ==> WordChar(sql[k]) && sql[k] != '$'
    ensures WordEnd(sql, i) == e
    decreases e - i
  {
    if i < e { WordEndIs(sql, i + 1, e); }
  }

  /** The text of a lexeme at `d`, with what comes right after it. */
  ghost predicate PrintedAt(sql: string, d: nat, text: string, s: Sym) {
    && Spells(text, s) && FoundAt(text, sql, d)
    && d + |text| < |sql|
    && (if s.Punct? && s.beforeEq then sql[d + |text|] == '=' else sql[d + |text|] == ' ')
  }

  lemma WordIsRead(sql: string, d: nat, text: string, s: Sym)
    requires PrintedAt(sql, d, text, s) && s.Word?
    ensures NextToken(sql, d) == Some(Token(s, d, d + |text|))
  {
    var e := d + |text|;
    assert sql[d + 0] == text[0];
    forall k | d <= k < e ensures sql[k] == text[k - d] { assert sql[d + (k - d)] == text[k - d]; }
    CommonSpaces();
    WordEndIs(sql, d + 1, e);
    assert sql[d..e] == text;
  }

  lemma QuotedIsRead(sql: string, d: nat, text: string, s: Sym)
    requires PrintedAt(sql, d, text, s) && s.Quoted?
    ensures NextToken(sql, d) == Some(Token(s, d, d + |text|))
  {
    var own := text + " ";
    forall k {:trigger own[k]} | 0 <= k < |own| ensures sql[d + k] == own[k] {
      if k < |text| { assert sql[d + k] == text[k]; }
    }
    assert own[0] == text[0] == sql[d + 0];
    QuotedEndInside(own, sql, d, 1, text[0]);
  }

  lemma MarkIsRead(sql: string, d: nat, text: string, s: Sym)
    requires PrintedAt(sql, d, text, s) && (s.Punct? || s.Semi?)
    ensures NextToken(sql, d) == Some(Token(s, d, d + |text|))
  {
    assert sql[d + 0] == text[0];
  }

  lemma TokenIsRead(sql: string, d: nat, text: string, s: Sym)
    requires PrintedAt(sql, d, text, s)
    ensures NextToken(sql, d) == Some(Token(s, d, d + |text|))
  {
    match s {
      case Word(_) => WordIsRead(sql, d, text, s);
      case Quoted => QuotedIsRead(sql, d, text, s);
      case _ => MarkIsRead(sql, d, text, s);
    }
  }

  lemma ReadsOneMore(sql: string, d: nat, e: nat, s: Sym, syms: Syms)
    requires d <= e <= |sql| && NextToken(sql, d) == Some(Token(s, d, e)) && Reads(sql, e, syms)
    ensures Reads(sql, d, More(s, syms))
  {}

  lemma ReadsFromBlank(sql: string, e: nat, gap: string, syms: Syms)
    requires gap == "" || (gap == " " && e < |sql| && sql[e] == ' ')
    requires e + |gap| <= |sql| && Reads(sql, e + |gap|, syms)
    ensures Reads(sql, e, syms)
  {
    CommonSpaces();
    if gap != "" { ReadsAfterBlank(sql, e, syms); }
  }

  lemma ReadsWithGap(sql: string, d: nat, e: nat, gap: string, s: Sym, syms: Syms)
    requires d <= e < |sql| && NextToken(sql, d) == Some(Token(s, d, e))
    requires gap == "" || (gap == " " && sql[e] == ' ')
    requires e + |gap| <= |sql| && Reads(sql, e + |gap|, syms)
    ensures Reads(sql, d, More(s, syms))
  {
    ReadsFromBlank(sql, e, gap, syms);
    ReadsOneMore(sql, d, e, s, syms);
  }

  lemma {:induction false} ReadsPrinted(sql: string, d: nat, text: string, s: Sym, syms: Syms)
    requires PrintedAt(sql, d, text, s)
    requires d + |text| + |Gap(s)| <= |sql| && Reads(sql, d + |text| + |Gap(s)|, syms)
    ensures Reads(sql, d, More(s, syms))
  {
    TokenIsRead(sql, d, text, s);
    ReadsWithGap(sql, d, d + |text|, Gap(s), s, syms);
  }

  lemma {:induction false} PrintReads(ls: Lexemes, sql: string, d: nat)
    requires LexemesOk(ls) && FoundAt(Print(ls), sql, d) && |sql| == d + |Print(ls)|
    ensures Reads(sql, d, SymsOf(ls))
    decreases ls
  {
    if ls.Lexeme? {
      PrintStarts(ls, sql, d);
      PrintReads(ls.more, sql, d + |ls.text| + |Gap(ls.sym)|);
      ReadsPrinted(sql, d, ls.text, ls.sym, SymsOf(ls.more));
    }
  }

  lemma ReadsAfterBlank(sql: string, e: nat, syms: Syms)
    requires e < |sql| && IsSpace(sql[e]) && Reads(sql, e + 1, syms)
    ensures Reads(sql, e, syms)
  {}

  lemma PrintStarts(ls: Lexemes, sql: string, d: nat)
    requires LexemesOk(ls) && ls.Lexeme? && FoundAt(Print(ls), sql, d) && |sql| == d + |Print(ls)|
    ensures PrintedAt(sql, d, ls.text, ls.sym)
    ensures var e := d + |ls.text| + |Gap(ls.sym)|; FoundAt(Print(ls.more), sql, e) && |sql| == e + |Print(ls.more)|
  {
    var gap, more := Gap(ls.sym), Print(ls.more);
    FoundInParts(ls.text + gap, more, sql, d);
    FoundInParts(ls.text, gap, sql, d);
    var e := d + |ls.text|;
    if gap == "" {
      assert ls.more.text == "=" && more[0] == '=';
      assert sql[e + 0] == more[0];
    } else {
      assert sql[e + 0] == gap[0];
    }
  }

  /**
   * A printed script of routines is split into exactly one range for each of them if and only if their bodies are
   * whole.
   */
  lemma PrintedRoutines(ls: Lexemes, s: Script)
    requires LexemesOk(ls) && SymsOf(ls) == ScriptSyms(s) && ScriptOk(s)
    ensures var ranges := Split([], Print(ls), 0, Fresh(0));
      (AreRoutines(Print(ls), 0, s, ranges) <==> AllWhole(s)) && (AllWhole(s) ==> |ranges| == Count(s))
  {
    PrintReads(ls, Print(ls), 0);
    OneRangePerRoutine(Print(ls), s);
  }
}
