/** The database context in a message: added for the agent, stripped for the person. */
module ContextBlock {
  import opened Text
  import opened Statements

  const OPEN := "<dbunny-context>"
  const CLOSE := "</dbunny-context>"

  function WithContext(text: string, context: string): string { text + "\n\n" + OPEN + "\n" + context + "\n" + CLOSE }

  /** A message without the block that starts at `start`; one that is still arriving goes to the end. */
  function StripOne(out: string, start: nat): (r: string)
    requires start < |out|
    ensures |r| < |out|
  {
    var end := IndexOf(out, CLOSE, start);
    var after := if end < 0 then "" else out[end + |CLOSE|..];
    TrimEnd(out[..start]) + if SkipSpaces(after, 0, |after|) == |after| then "" else "\n\n" + TrimStart(after)
  }

  /** The message without its blocks. */
  function StripContext(text: string): string
    decreases |text|
  {
    var start := IndexOf(text, OPEN, 0);
    if start < 0 then text else StripContext(StripOne(text, start))
  }

  method Strip(text: string) returns (out: string)
    ensures out == StripContext(text)
  {
    out := text;
    var start := IndexOf(out, OPEN, 0);
    while start >= 0
      invariant start == IndexOf(out, OPEN, 0)
      invariant StripContext(out) == StripContext(text)
      decreases |out|
    {
      out := StripOne(out, start);
      start := IndexOf(out, OPEN, 0);
    }
  }

  /** Nothing that reads as an opening marker is left. */
  lemma {:induction false} NoMarkerLeft(text: string)
    ensures !Contains(StripContext(text), OPEN)
    decreases |text|
  {
    var start := IndexOf(text, OPEN, 0);
    if start < 0 {
      forall i: nat ensures !MatchAt(text, OPEN, i) { IndexOfIsFirst(text, OPEN, 0, i); }
    } else {
      NoMarkerLeft(StripOne(text, start));
    }
  }

  /** A text without a marker is left as it is. */
  lemma NothingToStrip(text: string)
    requires !Contains(text, OPEN)
    ensures StripContext(text) == text
  {}

  // ----- a message of the agent and its beginnings -----

  /** The message, or a part of it that reaches past the opening marker. */
  ghost predicate Reaches(message: string, text: string, context: string) {
    var whole := WithContext(text, context);
    |text| + 2 + |OPEN| <= |message| <= |whole| && FoundAt(message, whole, 0)
  }

  lemma SixParts(a: string, b: string, c: string, d: string, e: string, f: string, whole: string)
    requires whole == a + b + c + d + e + f
    ensures FoundAt(a, whole, 0) && FoundAt(b, whole, |a|) && FoundAt(c, whole, |a + b|)
    ensures FoundAt(d, whole, |a + b + c|) && FoundAt(e, whole, |a + b + c + d|)
    ensures FoundAt(f, whole, |a + b + c + d + e|)
  {
    FoundWhole(whole);
    FoundInParts(a + b + c + d + e, f, whole, 0);
    FoundInParts(a + b + c + d, e, whole, 0);
    FoundInParts(a + b + c, d, whole, 0);
    FoundInParts(a + b, c, whole, 0);
    FoundInParts(a, b, whole, 0);
  }

  lemma FoundIsMatch(mark: string, s: string, i: nat)
    ensures FoundAt(mark, s, i) <==> MatchAt(s, mark, i)
  {}

  /** The parts of a message: the text, a blank line, the marker, a line each for the context, the closing marker. */
  ghost predicate Parts(whole: string, text: string, context: string) {
    var body := |text| + 2 + |OPEN|;
    && |whole| == body + 2 + |context| + |CLOSE|
    && FoundAt(text, whole, 0) && FoundAt("\n\n", whole, |text|) && MatchAt(whole, OPEN, |text| + 2)
    && FoundAt("\n", whole, body) && FoundAt(context, whole, body + 1) && FoundAt("\n", whole, body + 1 + |context|)
    && MatchAt(whole, CLOSE, body + 2 + |context|)
  }

  lemma WholeHasParts(text: string, context: string)
    ensures Parts(WithContext(text, context), text, context)
  {
    var whole := WithContext(text, context);
    assert whole == text + "\n\n" + OPEN + "\n" + context + ("\n" + CLOSE);
    SixParts(text, "\n\n", OPEN, "\n", context, "\n" + CLOSE, whole);
    FoundInParts("\n", CLOSE, whole, |text| + 2 + |OPEN| + 1 + |context|);
    FoundIsMatch(OPEN, whole, |text| + 2);
    FoundIsMatch(CLOSE, whole, |text| + 2 + |OPEN| + 2 + |context|);
  }

  /** A marker has no line feed, so where one is read there is none. */
  lemma NoLineFeedInMarker(s: string, mark: string, i: nat, k: nat)
    requires mark == OPEN || mark == CLOSE
    requires MatchAt(s, mark, i) && i <= k < i + |mark|
    ensures s[k] != '\n'
  {
    assert s[i + (k - i)] == mark[k - i];
  }

  lemma MatchInside(own: string, whole: string, d: nat, mark: string, i: nat)
    requires FoundAt(own, whole, d) && d <= i && i + |mark| <= d + |own| && MatchAt(whole, mark, i)
    ensures MatchAt(own, mark, i - d)
  {
    forall k {:trigger mark[k]} | 0 <= k < |mark| ensures own[i - d + k] == mark[k] {
      assert whole[d + (i - d + k)] == own[i - d + k];
    }
  }

  /** The opening marker is not read before its place. */
  lemma NoMarkerBefore(whole: string, text: string, context: string, i: nat)
    requires Parts(whole, text, context) && !Contains(text, OPEN) && i < |text| + 2
    ensures !MatchAt(whole, OPEN, i)
  {
    var line := "\n\n";
    assert whole[|text| + 0] == line[0] && whole[|text| + 1] == line[1];
    if MatchAt(whole, OPEN, i) {
      if i + |OPEN| <= |text| {
        MatchInside(text, whole, 0, OPEN, i);
      } else {
        NoLineFeedInMarker(whole, OPEN, i, if i <= |text| then |text| else i);
      }
    }
  }

  /** The closing marker is not read before its place, from the opening one on. */
  lemma NoClosingBefore(whole: string, text: string, context: string, i: nat)
    requires Parts(whole, text, context) && !Contains(context, CLOSE)
    requires |text| + 2 <= i < |text| + 2 + |OPEN| + 2 + |context|
    ensures !MatchAt(whole, CLOSE, i)
  {
    var body := |text| + 2 + |OPEN|;
    var line := "\n";
    assert whole[body + 0] == line[0] && whole[body + 1 + |context| + 0] == line[0];
    if MatchAt(whole, CLOSE, i) {
      if i < body {
        if i + |CLOSE| > body { NoLineFeedInMarker(whole, CLOSE, i, body); }
        if i == |text| + 2 { MarkersDiffer(whole, i); }
      } else if i == body {
        NoLineFeedInMarker(whole, CLOSE, i, body);
      } else if i + |CLOSE| <= body + 1 + |context| {
        MatchInside(context, whole, body + 1, CLOSE, i);
      } else {
        NoLineFeedInMarker(whole, CLOSE, i, body + 1 + |context|);
      }
    }
  }

  lemma SecondOf(s: string, mark: string, i: nat)
    requires MatchAt(s, mark, i) && |mark| > 1
    ensures s[i + 1] == mark[1]
  {}

  lemma MarkersDiffer(s: string, i: nat)
    requires MatchAt(s, OPEN, i)
    ensures !MatchAt(s, CLOSE, i)
  {
    SecondOf(s, OPEN, i);
    if MatchAt(s, CLOSE, i) { SecondOf(s, CLOSE, i); }
  }

  /** What is read in the beginning of a message is read in the message. */
  lemma MatchInMessage(message: string, whole: string, mark: string, i: nat)
    requires FoundAt(message, whole, 0) && i + |mark| <= |message|
    ensures MatchAt(message, mark, i) <==> MatchAt(whole, mark, i)
  {
    if MatchAt(whole, mark, i) { MatchInside(message, whole, 0, mark, i); }
    if MatchAt(message, mark, i) {
      forall k {:trigger mark[k]} | 0 <= k < |mark| ensures whole[i + k] == mark[k] {
        assert whole[0 + (i + k)] == message[i + k];
      }
    }
  }

  lemma MarkersOfMessage(message: string, text: string, context: string)
    requires Reaches(message, text, context) && !Contains(text, OPEN) && !Contains(context, CLOSE)
    ensures IndexOf(message, OPEN, 0) == |text| + 2
    ensures var end := IndexOf(message, CLOSE, |text| + 2); end < 0 || end + |CLOSE| == |message|
  {
    var whole := WithContext(text, context);
    WholeHasParts(text, context);
    MatchInMessage(message, whole, OPEN, |text| + 2);
    forall k: nat | 0 <= k < |text| + 2 ensures !MatchAt(message, OPEN, k) {
      NoMarkerBefore(whole, text, context, k);
      if k + |OPEN| <= |message| { MatchInMessage(message, whole, OPEN, k); }
    }
    IndexOfIs(message, OPEN, 0, |text| + 2);
    var end := IndexOf(message, CLOSE, |text| + 2);
    if end >= 0 {
      MatchInMessage(message, whole, CLOSE, end);
      if end < |whole| - |CLOSE| { NoClosingBefore(whole, text, context, end); }
    }
  }

  /** Blanks at the end do not change what is left without them. */
  lemma TrimEndOfLine(text: string)
    ensures TrimEnd(text + "\n\n") == TrimEnd(text)
  {
    var more := text + "\n\n";
    CommonSpaces();
    assert FoundAt(text, more, 0);
    BackSpacesInside(text, more, 0, 0, |text|);
    var t := BackSpaces(text, 0, |text|);
    forall k | t <= k < |more| ensures IsSpace(more[k]) {
      if k < |text| { BacksBlanks(text, 0, |text|, k); }
    }
    if t > 0 { assert more[t - 1] == text[t - 1]; }
    BackSpacesIs(more, 0, |more|, t);
  }

  /** What is left of a text without a marker has none. */
  lemma NoMarkerInTrimmed(text: string)
    requires !Contains(text, OPEN)
    ensures !Contains(TrimEnd(text), OPEN)
  {
    forall i: nat ensures !MatchAt(TrimEnd(text), OPEN, i) {
      if MatchAt(TrimEnd(text), OPEN, i) {
        forall k {:trigger OPEN[k]} | 0 <= k < |OPEN| ensures text[i + k] == OPEN[k] {
          assert TrimEnd(text)[i + k] == OPEN[k];
        }
        assert MatchAt(text, OPEN, i);
      }
    }
  }

  /**
   * Stripping undoes adding, at every stage of the arrival of a message: from the opening marker on, what is shown
   * is the text without the blanks at its end.
   */
  lemma StripUndoesContext(message: string, text: string, context: string)
    requires Reaches(message, text, context) && !Contains(text, OPEN) && !Contains(context, CLOSE)
    ensures StripContext(message) == TrimEnd(text)
  {
    MarkersOfMessage(message, text, context);
    var start := |text| + 2;
    assert message[..start] == text + "\n\n" by { MessageStarts(message, text, context); }
    TrimEndOfLine(text);
    assert StripOne(message, start) == TrimEnd(text) + "";
    assert TrimEnd(text) + "" == TrimEnd(text);
    NoMarkerInTrimmed(text);
    NothingToStrip(TrimEnd(text));
  }

  lemma MessageStarts(message: string, text: string, context: string)
    requires Reaches(message, text, context)
    ensures message[..|text| + 2] == text + "\n\n"
  {
    var whole := WithContext(text, context);
    assert whole[..|text| + 2] == text + "\n\n";
    forall k | 0 <= k < |text| + 2 ensures message[k] == whole[k] { assert whole[0 + k] == message[k]; }
  }

  /** For a context without a closing marker that is so exactly when the text has no opening one. */
  lemma StripUndoesContextExactly(text: string, context: string)
    requires !Contains(context, CLOSE)
    ensures StripContext(WithContext(text, context)) == TrimEnd(text) <==> !Contains(text, OPEN)
  {
    var whole := WithContext(text, context);
    if !Contains(text, OPEN) {
      FoundWhole(whole);
      StripUndoesContext(whole, text, context);
    } else {
      NoMarkerLeft(whole);
      var i: nat :| MatchAt(text, OPEN, i);
      MarkerStays(text, i);
    }
  }

  lemma MarkerStays(text: string, i: nat)
    requires MatchAt(text, OPEN, i)
    ensures MatchAt(TrimEnd(text), OPEN, i)
  {
    var t := BackSpaces(text, 0, |text|);
    var last := i + |OPEN| - 1;
    assert text[i + (|OPEN| - 1)] == OPEN[|OPEN| - 1];
    NotSpace('>');
    if t <= last { BacksBlanks(text, 0, |text|, last); }
    forall k {:trigger OPEN[k]} | 0 <= k < |OPEN| ensures TrimEnd(text)[i + k] == OPEN[k] {
      assert text[i + k] == OPEN[k];
    }
  }
}
