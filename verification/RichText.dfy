/** Texts with tags in them, parsed with a stack of the tags that are open. */
module RichText {
  import opened Text
  import opened Statements

  /** Nodes in order; the last one is outermost. */
  datatype Nodes = Empty | Snoc(init: Nodes, last: Node)

  datatype Node = Words(text: string) | Tag(tag: string, children: Nodes)

  function Open(tag: string): string { "<" + tag + ">" }

  function Close(tag: string): string { "</" + tag + ">" }

  function Show(nodes: Nodes): string {
    match nodes
    case Empty => ""
    case Snoc(init, last) => Show(init) + ShowNode(last)
  }

  function ShowNode(node: Node): string {
    match node
    case Words(text) => text
    case Tag(tag, children) => Open(tag) + Show(children) + Close(tag)
  }

  // ----- the pattern -----

  predicate NameChar(c: char) { IsWord(c) || c == '-' }

  /** Where the name that goes on at `i` ends, if a `>` comes after it. */
  function TagEnd(s: string, i: nat): (e: Option<nat>)
    ensures e.Some? ==> i <= e.value < |s|
    decreases |s| - i
  {
    if i >= |s| then None
    else if s[i] == '>' then Some(i)
    else if NameChar(s[i]) then TagEnd(s, i + 1)
    else None
  }

  /** A match of `<(\/?)([a-zA-Z][\w-]*)>`: the tag is `s[from..to]`. */
  datatype Match = Match(closing: bool, from: nat, to: nat)

  function NameAt(s: string, from: nat, closing: bool): (m: Option<Match>)
    ensures m.Some? ==> m.value.from == from < m.value.to < |s|
  {
    if from >= |s| || !IsLetter(s[from]) then None
    else
      var e := TagEnd(s, from + 1);
      if e.Some? then Some(Match(closing, from, e.value)) else None
  }

  function TagAt(s: string, i: nat): (m: Option<Match>)
    ensures m.Some? ==> i < m.value.from < m.value.to < |s|
  {
    if i >= |s| || s[i] != '<' then None
    else if i + 1 < |s| && s[i + 1] == '/' then NameAt(s, i + 2, true)
    else NameAt(s, i + 1, false)
  }

  /** The first match from `i` on, or the end of the text. */
  function FindTag(s: string, i: nat): (k: nat)
    requires i <= |s|
    ensures i <= k <= |s| && (k < |s| ==> TagAt(s, k).Some?)
    decreases |s| - i
  {
    if i == |s| || TagAt(s, i).Some? then i else FindTag(s, i + 1)
  }

  // ----- the parser -----

  /** `s[a..b]`, by recursion. */
  function Slice(s: string, a: nat, b: nat): (t: string)
    requires a <= b <= |s|
    ensures |t| == b - a
  {
    if a == b then "" else Slice(s, a, b - 1) + [s[b - 1]]
  }

  lemma {:induction false} SliceIs(s: string, a: nat, b: nat)
    requires a <= b <= |s|
    ensures Slice(s, a, b) == s[a..b]
    decreases b - a
  {
    if a < b {
      SliceIs(s, a, b - 1);
      assert s[a..b] == s[a..b - 1] + [s[b - 1]];
    }
  }

  lemma {:induction false} SliceOfBoth(s: string, a: nat, b: nat, c: nat)
    requires a <= b <= c <= |s|
    ensures Slice(s, a, b) + Slice(s, b, c) == Slice(s, a, c)
    decreases c - b
  {
    if b < c {
      SliceOfBoth(s, a, b, c - 1);
      assert Slice(s, a, b) + (Slice(s, b, c - 1) + [s[c - 1]]) == Slice(s, a, b) + Slice(s, b, c - 1) + [s[c - 1]];
    }
  }

  /** The tags that are open, the innermost outermost, with what has been read inside each. */
  datatype Stack = Bottom(children: Nodes) | Frame(outer: Stack, tag: string, children: Nodes)

  function Push(stack: Stack, node: Node): Stack { stack.(children := Snoc(stack.children, node)) }

  /** What a tag does: it opens, closes the innermost one that is open, or stays as text. */
  function TakeTag(stack: Stack, closing: bool, tag: string): Stack {
    if !closing then Frame(stack, tag, Empty)
    else if stack.Frame? && stack.tag == tag then Push(stack.outer, Tag(tag, stack.children))
    else Push(stack, Words(Close(tag)))
  }

  /** A text as the pattern cuts it: pieces of text and tags. */
  datatype Piece = Bit(text: string) | Mark(closing: bool, tag: string)

  datatype Pieces = Done | Piece(head: Piece, more: Pieces)

  function WithBit(text: string, more: Pieces): Pieces { if text == "" then more else Piece(Bit(text), more) }

  /** The tag at `k`. */
  function MarkAt(s: string, k: nat): Piece
    requires TagAt(s, k).Some?
  {
    Mark(TagAt(s, k).value.closing, Slice(s, TagAt(s, k).value.from, TagAt(s, k).value.to))
  }

  function Cut(s: string, last: nat): Pieces
    requires last <= |s|
    decreases |s| - last
  {
    var k := FindTag(s, last);
    WithBit(Slice(s, last, k), if k == |s| then Done else Piece(MarkAt(s, k), Cut(s, TagAt(s, k).value.to + 1)))
  }

  function Take(stack: Stack, p: Piece): Stack {
    if p.Bit? then Push(stack, Words(p.text)) else TakeTag(stack, p.closing, p.tag)
  }

  function TakeAll(stack: Stack, ps: Pieces): Stack
    decreases ps
  {
    if ps.Done? then stack else TakeAll(Take(stack, ps.head), ps.more)
  }

  function Append(nodes: Nodes, more: Nodes): Nodes {
    match more
    case Empty => nodes
    case Snoc(init, last) => Snoc(Append(nodes, init), last)
  }

  /** A frame that is still open at the end becomes text and children of the one around it. */
  function Unwind(stack: Stack): Nodes {
    match stack
    case Bottom(children) => children
    case Frame(outer, tag, children) => Append(Snoc(Unwind(outer), Words(Open(tag))), children)
  }

  /** The innermost open tag turned back into text. */
  function Reopen(stack: Stack): Stack
    requires stack.Frame?
  {
    stack.outer.(children := Append(Snoc(stack.outer.children, Words(Open(stack.tag))), stack.children))
  }

  lemma {:induction false} AppendAll(a: Nodes, b: Nodes, c: Nodes)
    ensures Append(a, Append(b, c)) == Append(Append(a, b), c)
  {
    if c.Snoc? { AppendAll(a, b, c.init); }
  }

  lemma ReopenUnwinds(stack: Stack)
    requires stack.Frame?
    ensures Unwind(Reopen(stack)) == Unwind(stack)
  {
    var outer, opening := stack.outer, Words(Open(stack.tag));
    if outer.Frame? {
      AppendAll(Snoc(Unwind(outer.outer), Words(Open(outer.tag))), Snoc(outer.children, opening), stack.children);
    }
  }

  function Depth(stack: Stack): nat { if stack.Bottom? then 0 else 1 + Depth(stack.outer) }

  lemma ReopenIsLower(stack: Stack)
    requires stack.Frame?
    ensures Depth(Reopen(stack)) == Depth(stack) - 1
  {}

  /** Adds a node, joined with the last one when both are texts. */
  function Join(nodes: Nodes, node: Node): Nodes {
    if node.Words? && nodes.Snoc? && nodes.last.Words? then Snoc(nodes.init, Words(nodes.last.text + node.text))
      else Snoc(nodes, node)
  }

  function Merge(nodes: Nodes): Nodes {
    match nodes
    case Empty => Empty
    case Snoc(init, last) => Join(Merge(init), if last.Tag? then Tag(last.tag, Merge(last.children)) else last)
  }

  function ParseRich(s: string): Nodes { Merge(Unwind(TakeAll(Bottom(Empty), Cut(s, 0)))) }

  method ReadTag(stack: Stack, closing: bool, tag: string) returns (after: Stack)
    ensures after == TakeTag(stack, closing, tag)
  {
    if !closing {
      after := Frame(stack, tag, Empty);
    } else if stack.Frame? && stack.tag == tag {
      after := Push(stack.outer, Tag(stack.tag, stack.children));
    } else {
      after := Push(stack, Words(Close(tag)));
    }
  }

  method Parse(s: string) returns (nodes: Nodes)
    ensures nodes == ParseRich(s)
  {
    ghost var all := TakeAll(Bottom(Empty), Cut(s, 0));
    var stack := Bottom(Empty);
    var last := 0;
    var k := FindTag(s, 0);
    while k < |s|
      invariant last <= |s| && k == FindTag(s, last)
      invariant TakeAll(stack, Cut(s, last)) == all
      decreases |s| - last
    {
      var m := TagAt(s, k).value;
      SliceIs(s, last, k);
      SliceIs(s, m.from, m.to);
      if k > last { stack := Push(stack, Words(s[last..k])); }
      stack := ReadTag(stack, m.closing, s[m.from..m.to]);
      last := m.to + 1;
      k := FindTag(s, last);
    }
    SliceIs(s, last, |s|);
    if last < |s| { stack := Push(stack, Words(s[last..|s|])); }
    while stack.Frame?
      invariant Unwind(stack) == Unwind(all)
      decreases Depth(stack)
    {
      ReopenUnwinds(stack);
      ReopenIsLower(stack);
      stack := Reopen(stack);
    }
    nodes := Merge(stack.children);
  }

  // ----- parsing, then showing -----

  function ShowStack(stack: Stack): string {
    match stack
    case Bottom(children) => Show(children)
    case Frame(outer, tag, children) => ShowStack(outer) + Open(tag) + Show(children)
  }

  lemma {:induction false} ShowPush(stack: Stack, node: Node)
    ensures ShowStack(Push(stack, node)) == ShowStack(stack) + ShowNode(node)
  {
    if stack.Frame? {
      assert ShowStack(stack.outer) + Open(stack.tag) + (Show(stack.children) + ShowNode(node))
        == ShowStack(stack.outer) + Open(stack.tag) + Show(stack.children) + ShowNode(node);
    }
  }

  lemma ShowTakeTag(stack: Stack, closing: bool, tag: string)
    ensures ShowStack(TakeTag(stack, closing, tag)) == ShowStack(stack) + if closing then Close(tag) else Open(tag)
  {
    if !closing {
      assert ShowStack(stack) + Open(tag) + "" == ShowStack(stack) + Open(tag);
    } else if stack.Frame? && stack.tag == tag {
      ShowPush(stack.outer, Tag(tag, stack.children));
      assert ShowStack(stack.outer) + (Open(tag) + Show(stack.children) + Close(tag))
        == ShowStack(stack.outer) + Open(tag) + Show(stack.children) + Close(tag);
    } else {
      ShowPush(stack, Words(Close(tag)));
    }
  }

  lemma {:induction false} TagEndIsMark(s: string, i: nat)
    ensures TagEnd(s, i).Some? ==> s[TagEnd(s, i).value] == '>'
    decreases |s| - i
  {
    if i < |s| && s[i] != '>' && NameChar(s[i]) { TagEndIsMark(s, i + 1); }
  }

  function ShowPiece(p: Piece): string { if p.Bit? then p.text else if p.closing then Close(p.tag) else Open(p.tag) }

  function ShowPieces(ps: Pieces): string { if ps.Done? then "" else ShowPiece(ps.head) + ShowPieces(ps.more) }

  lemma OpenIsWritten(s: string, k: nat, from: nat, end: nat)
    requires k + 1 == from < end < |s| && s[k] == '<' && s[end] == '>'
    ensures Slice(s, k, end + 1) == Open(Slice(s, from, end))
  {
    SliceOfBoth(s, k, from, end);
  }

  lemma CloseIsWritten(s: string, k: nat, from: nat, end: nat)
    requires k + 2 == from < end < |s| && s[k] == '<' && s[k + 1] == '/' && s[end] == '>'
    ensures Slice(s, k, end + 1) == Close(Slice(s, from, end))
  {
    SliceOfBoth(s, k, from, end);
    assert Slice(s, k, from) == Slice(s, k, k + 1) + [s[k + 1]] == "</";
  }

  lemma TagIsWritten(s: string, k: nat)
    requires TagAt(s, k).Some?
    ensures Slice(s, k, TagAt(s, k).value.to + 1) == ShowPiece(MarkAt(s, k))
  {
    var m := TagAt(s, k).value;
    TagEndIsMark(s, m.from + 1);
    if m.closing { CloseIsWritten(s, k, m.from, m.to); } else { OpenIsWritten(s, k, m.from, m.to); }
  }

  /** After `e` comes a tag, or the end of the text. */
  predicate Stops(s: string, e: nat) { e == |s| || TagAt(s, e).Some? }

  /** The text from `d` on is made of these pieces. */
  ghost predicate MadeOf(s: string, d: nat, ps: Pieces)
    decreases ps
  {
    match ps
    case Done => d == |s|
    case Piece(Bit(text), more) => IsBit(s, d, text) && MadeOf(s, d + |text|, more)
    case Piece(Mark(closing, tag), more) =>
      IsMark(s, d, Mark(closing, tag)) && MadeOf(s, d + LengthOf(Mark(closing, tag)), more)
  }

  function LengthOf(p: Piece): nat { if p.Bit? then |p.text| else if p.closing then |p.tag| + 3 else |p.tag| + 2 }

  /** A text at `d` that goes up to a tag, or to the end. */
  ghost predicate IsBit(s: string, d: nat, text: string) {
    text != "" && d + |text| <= |s| && FindTag(s, d) == d + |text| && Slice(s, d, d + |text|) == text
      && Stops(s, d + |text|)
  }

  /** A tag at `d`. */
  ghost predicate IsMark(s: string, d: nat, p: Piece) {
    TagAt(s, d).Some? && MarkAt(s, d) == p && TagAt(s, d).value.to + 1 == d + LengthOf(p)
  }

  lemma {:induction false} FindTagAgain(s: string, i: nat)
    requires i <= |s|
    ensures FindTag(s, FindTag(s, i)) == FindTag(s, i)
    decreases |s| - i
  {
    if i < |s| && TagAt(s, i).None? { FindTagAgain(s, i + 1); }
  }

  lemma {:induction false} CutIsMadeOf(s: string, last: nat)
    requires last <= |s|
    ensures MadeOf(s, last, Cut(s, last))
    decreases |s| - last, 1
  {
    var k := FindTag(s, last);
    FindTagAgain(s, last);
    CutFromStop(s, k);
    CutBefore(s, last, k);
    if last < k { WithBitMadeOf(s, last, Slice(s, last, k), Cut(s, k)); }
  }

  lemma CutBefore(s: string, last: nat, k: nat)
    requires last <= |s| && k == FindTag(s, last) == FindTag(s, k)
    ensures Cut(s, last) == WithBit(Slice(s, last, k), Cut(s, k))
  {}

  lemma WithBitMadeOf(s: string, d: nat, text: string, more: Pieces)
    requires IsBit(s, d, text) && MadeOf(s, d + |text|, more)
    ensures MadeOf(s, d, Piece(Bit(text), more))
  {}

  lemma {:induction false} CutFromStop(s: string, k: nat)
    requires k <= |s| && FindTag(s, k) == k
    ensures MadeOf(s, k, Cut(s, k)) && Cut(s, k) == if k == |s| then Done
      else Piece(MarkAt(s, k), Cut(s, TagAt(s, k).value.to + 1))
    decreases |s| - k, 0
  {
    if k < |s| {
      LengthIs(s, k);
      CutIsMadeOf(s, TagAt(s, k).value.to + 1);
    }
  }

  lemma LengthIs(s: string, k: nat)
    requires TagAt(s, k).Some?
    ensures IsMark(s, k, MarkAt(s, k))
  {}

  /** The pieces of a text are all of it. */
  lemma {:induction false} ShowMadeOf(s: string, d: nat, ps: Pieces)
    requires d <= |s| && MadeOf(s, d, ps)
    ensures ShowPieces(ps) == Slice(s, d, |s|)
    decreases ps
  {
    if ps.Piece? {
      var e := d + LengthOf(ps.head);
      if ps.head.Mark? { TagIsWritten(s, d); }
      ShowMadeOf(s, e, ps.more);
      SliceOfBoth(s, d, e, |s|);
    }
  }

  lemma ShowTake(stack: Stack, p: Piece)
    ensures ShowStack(Take(stack, p)) == ShowStack(stack) + ShowPiece(p)
  {
    if p.Bit? { ShowPush(stack, Words(p.text)); } else { ShowTakeTag(stack, p.closing, p.tag); }
  }

  lemma Associates(a: string, b: string, c: string)
    ensures a + b + c == a + (b + c)
  {}

  lemma {:induction false} ShowTakeAll(stack: Stack, ps: Pieces)
    ensures ShowStack(TakeAll(stack, ps)) == ShowStack(stack) + ShowPieces(ps)
    decreases ps
  {
    if ps.Done? {
      assert ShowStack(stack) + "" == ShowStack(stack);
    } else {
      ShowTake(stack, ps.head);
      ShowTakeAll(Take(stack, ps.head), ps.more);
      Associates(ShowStack(stack), ShowPiece(ps.head), ShowPieces(ps.more));
    }
  }

  lemma {:induction false} ShowAppend(nodes: Nodes, more: Nodes)
    ensures Show(Append(nodes, more)) == Show(nodes) + Show(more)
  {
    match more
    case Empty => assert Show(nodes) + "" == Show(nodes);
    case Snoc(init, last) =>
      ShowAppend(nodes, init);
      assert Show(nodes) + Show(init) + ShowNode(last) == Show(nodes) + (Show(init) + ShowNode(last));
  }

  lemma {:induction false} ShowUnwind(stack: Stack)
    ensures Show(Unwind(stack)) == ShowStack(stack)
  {
    if stack.Frame? {
      ShowUnwind(stack.outer);
      ShowAppend(Snoc(Unwind(stack.outer), Words(Open(stack.tag))), stack.children);
    }
  }

  lemma ShowJoin(nodes: Nodes, node: Node)
    ensures Show(Join(nodes, node)) == Show(nodes) + ShowNode(node)
  {
    if node.Words? && nodes.Snoc? && nodes.last.Words? {
      assert Show(nodes.init) + (nodes.last.text + node.text) == Show(nodes.init) + nodes.last.text + node.text;
    }
  }

  lemma {:induction false} ShowMerge(nodes: Nodes)
    ensures Show(Merge(nodes)) == Show(nodes)
  {
    match nodes
    case Empty =>
    case Snoc(init, last) =>
      ShowMerge(init);
      if last.Tag? { ShowMerge(last.children); }
      ShowJoin(Merge(init), if last.Tag? then Tag(last.tag, Merge(last.children)) else last);
  }

  /** Showing what was parsed gives the text back, whatever the text: tags that do not close or match included. */
  lemma ShowUndoesParse(s: string)
    ensures Show(ParseRich(s)) == s
  {
    var stack := TakeAll(Bottom(Empty), Cut(s, 0));
    ShowTakeAll(Bottom(Empty), Cut(s, 0));
    CutIsMadeOf(s, 0);
    ShowMadeOf(s, 0, Cut(s, 0));
    SliceIs(s, 0, |s|);
    assert "" + s[0..|s|] == s;
    ShowUnwind(stack);
    ShowMerge(Unwind(stack));
  }

  // ----- what is parsed is normal -----

  /** At every level no text is empty and no two texts are side by side. */
  predicate Normal(nodes: Nodes) {
    nodes.Snoc? ==>
      && Normal(nodes.init)
      && (nodes.last.Words? ==> nodes.last.text != "" && !(nodes.init.Snoc? && nodes.init.last.Words?))
      && (nodes.last.Tag? ==> Normal(nodes.last.children))
  }

  /** At every level no text is empty. */
  predicate NoEmpty(nodes: Nodes) {
    nodes.Snoc? ==>
      NoEmpty(nodes.init) && (nodes.last.Words? ==> nodes.last.text != "")
        && (nodes.last.Tag? ==> NoEmpty(nodes.last.children))
  }

  predicate NoEmptyStack(stack: Stack) { NoEmpty(stack.children) && (stack.Frame? ==> NoEmptyStack(stack.outer)) }

  predicate NoEmptyBit(ps: Pieces) { ps.Piece? ==> (ps.head.Bit? ==> ps.head.text != "") && NoEmptyBit(ps.more) }

  lemma {:induction false} CutHasNoEmptyBit(s: string, last: nat)
    requires last <= |s|
    ensures NoEmptyBit(Cut(s, last))
    decreases |s| - last
  {
    var k := FindTag(s, last);
    if k < |s| { CutHasNoEmptyBit(s, TagAt(s, k).value.to + 1); }
  }

  lemma {:induction false} TakeAllLeavesNoEmpty(stack: Stack, ps: Pieces)
    requires NoEmptyStack(stack) && NoEmptyBit(ps)
    ensures NoEmptyStack(TakeAll(stack, ps))
    decreases ps
  {
    if ps.Piece? { TakeAllLeavesNoEmpty(Take(stack, ps.head), ps.more); }
  }

  lemma {:induction false} NoEmptyAppend(nodes: Nodes, more: Nodes)
    requires NoEmpty(nodes) && NoEmpty(more)
    ensures NoEmpty(Append(nodes, more))
  {
    if more.Snoc? { NoEmptyAppend(nodes, more.init); }
  }

  lemma {:induction false} UnwindLeavesNoEmpty(stack: Stack)
    requires NoEmptyStack(stack)
    ensures NoEmpty(Unwind(stack))
  {
    if stack.Frame? {
      UnwindLeavesNoEmpty(stack.outer);
      NoEmptyAppend(Snoc(Unwind(stack.outer), Words(Open(stack.tag))), stack.children);
    }
  }

  lemma {:induction false} MergeIsNormal(nodes: Nodes)
    requires NoEmpty(nodes)
    ensures Normal(Merge(nodes))
  {
    if nodes.Snoc? {
      MergeIsNormal(nodes.init);
      if nodes.last.Tag? { MergeIsNormal(nodes.last.children); }
    }
  }

  /** What is parsed never has two adjacent or empty texts at any level. */
  lemma ParseIsNormal(s: string)
    ensures Normal(ParseRich(s))
  {
    var stack := TakeAll(Bottom(Empty), Cut(s, 0));
    CutHasNoEmptyBit(s, 0);
    TakeAllLeavesNoEmpty(Bottom(Empty), Cut(s, 0));
    UnwindLeavesNoEmpty(stack);
    MergeIsNormal(Unwind(stack));
  }

  // ----- showing, then parsing -----

  lemma {:induction false} MergeKeepsNormal(nodes: Nodes)
    requires Normal(nodes)
    ensures Merge(nodes) == nodes
  {
    if nodes.Snoc? {
      MergeKeepsNormal(nodes.init);
      if nodes.last.Tag? { MergeKeepsNormal(nodes.last.children); }
    }
  }

  predicate IsName(tag: string) { tag != "" && IsLetter(tag[0]) && forall k :: 0 <= k < |tag| ==> NameChar(tag[k]) }

  predicate NoTag(text: string) { forall k: nat :: k < |text| ==> TagAt(text, k).None? }

  /** A tree that can be written: tags have names, and no text has a complete tag in it. */
  predicate Writable(nodes: Nodes) {
    nodes.Snoc? ==>
      && Writable(nodes.init)
      && (nodes.last.Words? ==> NoTag(nodes.last.text))
      && (nodes.last.Tag? ==> IsName(nodes.last.tag) && Writable(nodes.last.children))
  }

  lemma {:induction false} TagEndIs(s: string, i: nat, e: nat)
    requires i <= e < |s| && s[e] == '>' && forall k :: i <= k < e ==> NameChar(s[k])
    ensures TagEnd(s, i) == Some(e)
    decreases e - i
  {
    if i < e { TagEndIs(s, i + 1, e); }
  }

  lemma NameIsRead(s: string, i: nat, tag: string, closing: bool)
    requires IsName(tag) && FoundAt(tag, s, i) && i + |tag| < |s| && s[i + |tag|] == '>'
    ensures NameAt(s, i, closing) == Some(Match(closing, i, i + |tag|)) && Slice(s, i, i + |tag|) == tag && s[i] != '/'
  {
    assert s[i + 0] == tag[0];
    forall k | i + 1 <= k < i + |tag| ensures NameChar(s[k]) { assert s[i + (k - i)] == tag[k - i]; }
    TagEndIs(s, i + 1, i + |tag|);
    SliceFound(tag, s, i, |tag|);
    assert tag[..|tag|] == tag;
  }

  lemma {:induction false} SliceFound(own: string, s: string, d: nat, n: nat)
    requires FoundAt(own, s, d) && n <= |own|
    ensures Slice(s, d, d + n) == own[..n]
  {
    if n > 0 {
      SliceFound(own, s, d, n - 1);
      assert s[d + (n - 1)] == own[n - 1];
    }
  }

  lemma OpenIsRead(s: string, i: nat, tag: string)
    requires IsName(tag) && FoundAt(Open(tag), s, i)
    ensures TagAt(s, i) == Some(Match(false, i + 1, i + 1 + |tag|)) && Slice(s, i + 1, i + 1 + |tag|) == tag
  {
    FoundInParts("<" + tag, ">", s, i);
    FoundInParts("<", tag, s, i);
    assert s[i + 0] == "<"[0] && s[i + 1 + |tag| + 0] == ">"[0];
    NameIsRead(s, i + 1, tag, false);
  }

  lemma CloseParts(s: string, i: nat, tag: string)
    requires FoundAt(Close(tag), s, i)
    ensures FoundAt(tag, s, i + 2) && i + 2 + |tag| < |s|
    ensures s[i] == '<' && s[i + 1] == '/' && s[i + 2 + |tag|] == '>'
  {
    var start := "</";
    FoundInParts(start + tag, ">", s, i);
    FoundInParts(start, tag, s, i);
    assert s[i + 0] == start[0] && s[i + 1] == start[1] && s[i + 2 + |tag| + 0] == ">"[0];
  }

  lemma CloseIsRead(s: string, i: nat, tag: string)
    requires IsName(tag) && FoundAt(Close(tag), s, i)
    ensures TagAt(s, i) == Some(Match(true, i + 2, i + 2 + |tag|)) && Slice(s, i + 2, i + 2 + |tag|) == tag
  {
    CloseParts(s, i, tag);
    NameIsRead(s, i + 2, tag, true);
  }

  lemma {:induction false} TagEndInside(own: string, whole: string, d: nat, i: nat)
    requires FoundAt(own, whole, d) && i <= |own| && (d + |own| < |whole| ==> whole[d + |own|] == '<')
    requires TagEnd(whole, d + i).Some?
    ensures TagEnd(own, i).Some?
    decreases |own| - i
  {
    if i < |own| {
      assert whole[d + i] == own[i];
      if NameChar(own[i]) { TagEndInside(own, whole, d, i + 1); }
    }
  }

  lemma NameInside(own: string, whole: string, d: nat, from: nat, closing: bool)
    requires FoundAt(own, whole, d) && from <= |own| && (d + |own| < |whole| ==> whole[d + |own|] == '<')
    requires NameAt(whole, d + from, closing).Some?
    ensures NameAt(own, from, closing).Some?
  {
    if from < |own| {
      assert whole[d + from] == own[from];
      TagEndInside(own, whole, d, from + 1);
    }
  }

  /** No tag starts in a text without a tag, whatever tag comes after it. */
  lemma NoTagInside(text: string, s: string, d: nat, k: nat)
    requires NoTag(text) && FoundAt(text, s, d) && Stops(s, d + |text|) && k < |text|
    ensures TagAt(s, d + k).None?
  {
    assert s[d + k] == text[k] && TagAt(text, k).None?;
    if k + 1 < |text| { assert s[d + (k + 1)] == text[k + 1]; }
    if TagAt(s, d + k).Some? {
      if k + 1 < |text| && text[k + 1] == '/' {
        NameInside(text, s, d, k + 2, true);
      } else {
        NameInside(text, s, d, k + 1, false);
      }
    }
  }

  lemma {:induction false} FindTagIs(s: string, i: nat, e: nat)
    requires i <= e <= |s| && Stops(s, e) && forall k: nat :: i <= k < e ==> TagAt(s, k).None?
    ensures FindTag(s, i) == e
    decreases e - i
  {
    if i < e { FindTagIs(s, i + 1, e); }
  }

  lemma FindAfterText(text: string, s: string, d: nat)
    requires NoTag(text) && FoundAt(text, s, d) && Stops(s, d + |text|)
    ensures FindTag(s, d) == d + |text| && Slice(s, d, d + |text|) == text
  {
    forall k: nat | d <= k < d + |text| ensures TagAt(s, k).None? { NoTagInside(text, s, d, k - d); }
    FindTagIs(s, d, d + |text|);
    SliceFound(text, s, d, |text|);
    assert text[..|text|] == text;
  }

  // ----- the pieces of a tree -----

  function PiecesOf(nodes: Nodes, tail: Pieces): Pieces
    decreases nodes
  {
    match nodes
    case Empty => tail
    case Snoc(init, Words(text)) => PiecesOf(init, Piece(Bit(text), tail))
    case Snoc(init, Tag(tag, children)) => PiecesOf(init,
      Piece(Mark(false, tag), PiecesOf(children, Piece(Mark(true, tag), tail))))
  }

  function PushAll(stack: Stack, nodes: Nodes): Stack { stack.(children := Append(stack.children, nodes)) }

  lemma {:induction false} AppendToEmpty(nodes: Nodes)
    ensures Append(Empty, nodes) == nodes
  {
    if nodes.Snoc? { AppendToEmpty(nodes.init); }
  }

  /** Taking the pieces of some nodes pushes the nodes. */
  lemma {:induction false} TakePieces(stack: Stack, nodes: Nodes, tail: Pieces)
    ensures TakeAll(stack, PiecesOf(nodes, tail)) == TakeAll(PushAll(stack, nodes), tail)
    decreases nodes
  {
    match nodes
    case Empty =>
    case Snoc(init, Words(text)) => TakePieces(stack, init, Piece(Bit(text), tail));
    case Snoc(init, Tag(tag, children)) =>
      var close := Piece(Mark(true, tag), tail);
      TakePieces(stack, init, Piece(Mark(false, tag), PiecesOf(children, close)));
      TakePieces(Frame(PushAll(stack, init), tag, Empty), children, close);
      AppendToEmpty(children);
  }

  lemma {:induction false} CutIs(s: string, d: nat, ps: Pieces)
    requires d <= |s| && MadeOf(s, d, ps)
    ensures Cut(s, d) == ps
    decreases ps
  {
    match ps
    case Done =>
    case Piece(Bit(text), more) =>
      CutIs(s, d + |text|, more);
      CutAtBit(s, d, text);
    case Piece(Mark(closing, tag), more) =>
      CutIs(s, d + LengthOf(Mark(closing, tag)), more);
  }

  lemma CutAtBit(s: string, d: nat, text: string)
    requires IsBit(s, d, text)
    ensures Cut(s, d) == Piece(Bit(text), Cut(s, d + |text|))
  {
    var e := d + |text|;
    assert FindTag(s, e) == e;
  }

  lemma FourParts(a: string, b: string, c: string, e: string, s: string, d: nat)
    requires FoundAt(a + (b + c + e), s, d)
    ensures FoundAt(a, s, d) && FoundAt(b, s, d + |a|) && FoundAt(c, s, d + |a| + |b|)
    ensures FoundAt(e, s, d + |a| + |b| + |c|)
  {
    FoundInParts(a, b + c + e, s, d);
    FoundInParts(b + c, e, s, d + |a|);
    FoundInParts(b, c, s, d + |a|);
  }

  lemma ShownWithWords(init: Nodes, text: string, s: string, d: nat)
    requires FoundAt(Show(Snoc(init, Words(text))), s, d)
    ensures FoundAt(Show(init), s, d) && FoundAt(text, s, d + |Show(init)|)
    ensures |Show(Snoc(init, Words(text)))| == |Show(init)| + |text|
  {
    assert Show(Snoc(init, Words(text))) == Show(init) + text;
    FoundInParts(Show(init), text, s, d);
  }

  lemma WithMark(s: string, d: nat, p: Piece, more: Pieces)
    requires p.Mark? && IsMark(s, d, p) && MadeOf(s, d + LengthOf(p), more)
    ensures MadeOf(s, d, Piece(p, more))
  {}

  lemma WithText(s: string, d: nat, text: string, tail: Pieces)
    requires text != "" && NoTag(text) && FoundAt(text, s, d) && MadeOf(s, d + |text|, tail)
    requires !(tail.Piece? && tail.head.Bit?)
    ensures MadeOf(s, d, Piece(Bit(text), tail))
  {
    TailStops(s, d + |text|, tail);
    FindAfterText(text, s, d);
  }

  /** The text of a tree is made of the pieces of the tree. */
  lemma {:induction false} ShownIsMadeOf(s: string, d: nat, nodes: Nodes, tail: Pieces)
    requires Normal(nodes) && Writable(nodes) && FoundAt(Show(nodes), s, d) && MadeOf(s, d + |Show(nodes)|, tail)
    requires tail.Piece? && tail.head.Bit? ==> !(nodes.Snoc? && nodes.last.Words?)
    ensures MadeOf(s, d, PiecesOf(nodes, tail))
    decreases nodes, 2
  {
    match nodes
    case Empty =>
    case Snoc(init, Words(text)) =>
      ShownWithWords(init, text, s, d);
      WithText(s, d + |Show(init)|, text, tail);
      ShownIsMadeOf(s, d, init, Piece(Bit(text), tail));
    case Snoc(init, Tag(tag, children)) =>
      TaggedIsMadeOf(s, d, init, tag, children, tail);
  }

  lemma {:induction false} TaggedIsMadeOf(s: string, d: nat, init: Nodes, tag: string, children: Nodes, tail: Pieces)
    requires var nodes := Snoc(init, Tag(tag, children));
      Normal(nodes) && Writable(nodes) && FoundAt(Show(nodes), s, d) && MadeOf(s, d + |Show(nodes)|, tail)
    ensures MadeOf(s, d, PiecesOf(Snoc(init, Tag(tag, children)), tail))
    decreases Snoc(init, Tag(tag, children)), 1
  {
    PiecesWithTag(init, tag, children, tail);
    TagCloses(s, d, init, tag, children, tail);
    BothAreMadeOf(s, d, init, tag, children, tail);
  }

  /** Some nodes and a tag behind them. */
  lemma {:induction false} BothAreMadeOf(s: string, d: nat, init: Nodes, tag: string, children: Nodes, tail: Pieces)
    requires Normal(init) && Writable(init) && Normal(children) && Writable(children)
    requires FoundAt(Show(init), s, d) && InTag(s, d + |Show(init)|, tag, children, tail)
    ensures MadeOf(s, d, PiecesOf(init, Piece(Mark(false, tag), PiecesOf(children, Piece(Mark(true, tag), tail)))))
    decreases Snoc(init, Tag(tag, children)), 0
  {
    TagIsMadeOf(s, d + |Show(init)|, tag, children, tail);
    ShownIsMadeOf(s, d, init, Piece(Mark(false, tag), PiecesOf(children, Piece(Mark(true, tag), tail))));
  }

  lemma PiecesWithTag(init: Nodes, tag: string, children: Nodes, tail: Pieces)
    requires var nodes := Snoc(init, Tag(tag, children)); Normal(nodes) && Writable(nodes)
    ensures Normal(init) && Writable(init) && Normal(children) && Writable(children) && IsName(tag)
    ensures PiecesOf(Snoc(init, Tag(tag, children)), tail) ==
      PiecesOf(init, Piece(Mark(false, tag), PiecesOf(children, Piece(Mark(true, tag), tail))))
  {}

  /** Where a tag behind some nodes starts, and the pieces from its closing mark on. */
  lemma {:induction false} TagCloses(s: string, d: nat, init: Nodes, tag: string, children: Nodes, tail: Pieces)
    requires IsName(tag)
    requires var nodes := Snoc(init, Tag(tag, children));
      FoundAt(Show(nodes), s, d) && MadeOf(s, d + |Show(nodes)|, tail)
    ensures FoundAt(Show(init), s, d) && InTag(s, d + |Show(init)|, tag, children, tail)
  {
    TagParts(s, d, init, tag, children);
    WithMark(s, d + |Show(init)| + 2 + |tag| + |Show(children)|, Mark(true, tag), tail);
  }

  /** A tag is at `e`: its mark, the text of its children, and the pieces after that. */
  ghost predicate InTag(s: string, e: nat, tag: string, children: Nodes, tail: Pieces) {
    var body := e + 2 + |tag|;
    && IsMark(s, e, Mark(false, tag)) && FoundAt(Show(children), s, body)
    && MadeOf(s, body + |Show(children)|, Piece(Mark(true, tag), tail))
  }

  /** The pieces of a tag and its children. */
  lemma {:induction false} TagIsMadeOf(s: string, e: nat, tag: string, children: Nodes, tail: Pieces)
    requires Normal(children) && Writable(children) && InTag(s, e, tag, children, tail)
    ensures MadeOf(s, e, Piece(Mark(false, tag), PiecesOf(children, Piece(Mark(true, tag), tail))))
    decreases children, 3
  {
    var close := Piece(Mark(true, tag), tail);
    ShownIsMadeOf(s, e + 2 + |tag|, children, close);
    WithMark(s, e, Mark(false, tag), PiecesOf(children, close));
  }

  lemma TailStops(s: string, d: nat, tail: Pieces)
    requires d <= |s| && MadeOf(s, d, tail) && !(tail.Piece? && tail.head.Bit?)
    ensures Stops(s, d)
  {}

  /** A tag with its children, behind some nodes: where its parts are. */
  lemma {:induction false} TagParts(s: string, d: nat, init: Nodes, tag: string, children: Nodes)
    requires IsName(tag) && FoundAt(Show(Snoc(init, Tag(tag, children))), s, d)
    ensures var e := d + |Show(init)|;
      var body := e + 2 + |tag|;
      var end := body + |Show(children)|;
      && FoundAt(Show(init), s, d) && FoundAt(Show(children), s, body)
      && IsMark(s, e, Mark(false, tag)) && IsMark(s, end, Mark(true, tag))
      && end + 3 + |tag| == d + |Show(Snoc(init, Tag(tag, children)))|
  {
    var e := d + |Show(init)|;
    assert Show(Snoc(init, Tag(tag, children))) == Show(init) + (Open(tag) + Show(children) + Close(tag));
    FourParts(Show(init), Open(tag), Show(children), Close(tag), s, d);
    OpenIsRead(s, e, tag);
    CloseIsRead(s, e + 2 + |tag| + |Show(children)|, tag);
  }

  /** Parsing gives a tree back from its text. */
  lemma ParseUndoesShow(nodes: Nodes)
    requires Normal(nodes) && Writable(nodes)
    ensures ParseRich(Show(nodes)) == nodes
  {
    var s := Show(nodes);
    ShownIsMadeOf(s, 0, nodes, Done);
    CutIs(s, 0, PiecesOf(nodes, Done));
    TakePieces(Bottom(Empty), nodes, Done);
    AppendToEmpty(nodes);
    MergeKeepsNormal(nodes);
  }
}
