/**
 * The practice page's small Markdown reader: a line-driven state machine
 * that turns a message into paragraphs, bullet and numbered lists,
 * headings and code blocks (inline markup is not part of this model).
 *
 * The patterns are JavaScript regular expressions without flags: `\s` is
 * `Text.IsJsSpace`, `.` is any character but a line terminator, and `$` is
 * the end of the line.
 */
module Markdown {
  import opened Wrappers
  import Text

  datatype Block =
    | Paragraph(text: string)
    | Bullets(items: seq<string>)
    | Numbered(items: seq<string>)
    | Heading(level: nat, text: string)
    | Code(text: string)

  datatype ListKind = Unordered | Ordered

  // ---- Lines and line patterns --------------------------------------------------------

  /** One trailing carriage return dropped. */
  function DropCr(s: string): (r: string)
    ensures r <= s
  {
    if |s| > 0 && s[|s| - 1] == '\r' then s[..|s| - 1] else s
  }

  /** `md.split(/\r?\n/)`: split at each line feed, a carriage return before it going with it. */
  function SplitLines(md: string): (r: seq<string>)
    ensures |r| >= 1
  {
    var pieces := Text.SplitChar(md, '\n');
    seq(|pieces|, i requires 0 <= i < |pieces| => if i < |pieces| - 1 then DropCr(pieces[i]) else pieces[i])
  }

  predicate NoTerminator(s: string) {
    forall i :: 0 <= i < |s| ==> !Text.IsJsLineTerminator(s[i])
  }

  predicate AllSpace(s: string) {
    forall i :: 0 <= i < |s| ==> Text.IsJsSpace(s[i])
  }

  /**
   * The tail `\s+(.+)$` of the heading and list patterns: at least one
   * white-space character, then a non-empty capture running to the end
   * without line terminators. The greedy `\s+` leaves the capture the text
   * after the white-space run, or, when the rest is all white space, its
   * last character.
   */
  function SpacedContent(rest: string): Option<string> {
    var i := Text.LeadingCount(rest, Text.IsJsSpace);
    if i == 0 then None
    else if i < |rest| then (if NoTerminator(rest[i..]) then Some(rest[i..]) else None)
    else if |rest| >= 2 && !Text.IsJsLineTerminator(rest[|rest| - 1]) then Some(rest[|rest| - 1..])
    else None
  }

  /** A prefix is all white space exactly when it lies within the leading white-space run. */
  lemma SpacePrefixes(rest: string)
    ensures forall j :: 0 <= j <= |rest| ==> (AllSpace(rest[..j]) <==> j <= Text.LeadingCount(rest, Text.IsJsSpace))
  {
    var i := Text.LeadingCount(rest, Text.IsJsSpace);
    forall j | 0 <= j <= |rest|
      ensures AllSpace(rest[..j]) <==> j <= i
    {
      if j > i {
        assert rest[..j][i] == rest[i];
      }
    }
  }

  /**
   * The tail matches exactly when the text splits into a white-space run
   * and a non-empty capture without line terminators; the greedy run makes
   * the capture the shortest such split leaves.
   */
  lemma SpacedContentMeaning(rest: string)
    ensures SpacedContent(rest).Some? ==>
      var c := SpacedContent(rest).value;
      0 < |c| < |rest| && rest == rest[..|rest| - |c|] + c && AllSpace(rest[..|rest| - |c|]) && NoTerminator(c)
      && forall j :: |rest| - |c| < j < |rest| ==> !AllSpace(rest[..j])
    ensures SpacedContent(rest).None? ==>
      forall j :: 1 <= j < |rest| && AllSpace(rest[..j]) ==> !NoTerminator(rest[j..])
  {
    var i := Text.LeadingCount(rest, Text.IsJsSpace);
    SpacePrefixes(rest);
    if SpacedContent(rest).Some? {
      var c := SpacedContent(rest).value;
      assert rest == rest[..|rest| - |c|] + c;
    } else if i > 0 {
      forall j | 1 <= j < |rest| && AllSpace(rest[..j])
        ensures !NoTerminator(rest[j..])
      {
        if i < |rest| {
          var t :| 0 <= t < |rest[i..]| && Text.IsJsLineTerminator(rest[i..][t]);
          assert rest[j..][i - j + t] == rest[i + t];
        } else {
          assert rest[j..][|rest| - 1 - j] == rest[|rest| - 1];
        }
      }
    }
  }

  predicate IsHash(c: char) { c == '#' }

  predicate IsDigit(c: char) { '0' <= c <= '9' }

  /** `/^(#{1,6})\s+(.+)$/`: the level and the heading's text. */
  function HeadingMatch(line: string): Option<(nat, string)> {
    var k := Text.LeadingCount(line, IsHash);
    if 1 <= k <= 6 then
      match SpacedContent(line[k..])
      case Some(c) => Some((k, c))
      case None => None
    else None
  }

  /** `/^\s*[-*]\s+(.+)$/`: the bullet's text. */
  function BulletMatch(line: string): Option<string> {
    var p := Text.LeadingCount(line, Text.IsJsSpace);
    if p < |line| && (line[p] == '-' || line[p] == '*') then SpacedContent(line[p + 1..]) else None
  }

  /** `/^\s*\d+\.\s+(.+)$/`: the numbered item's text. */
  function NumberedMatch(line: string): Option<string> {
    var p := Text.LeadingCount(line, Text.IsJsSpace);
    var d := Text.LeadingCount(line[p..], IsDigit);
    if d >= 1 && p + d < |line| && line[p + d] == '.' then SpacedContent(line[p + d + 1..]) else None
  }

  /** `/^\s*$/`. */
  predicate BlankLine(line: string) {
    Text.LeadingCount(line, Text.IsJsSpace) == |line|
  }

  predicate IsFence(line: string) {
    Text.StartsWith(line, "```")
  }

  /**
   * A heading's level is its number of leading `#`, one to six, and a
   * line opening with seven or more is no heading.
   */
  lemma HeadingLevel(line: string)
    ensures HeadingMatch(line).Some? ==>
      var level := HeadingMatch(line).value.0;
      1 <= level <= 6 && level < |line| && (forall i :: 0 <= i < level ==> line[i] == '#') && line[level] != '#'
      && Text.IsJsSpace(line[level])
    ensures Text.StartsWith(line, "#######") ==> HeadingMatch(line).None?
  {
    var k := Text.LeadingCount(line, IsHash);
    if Text.StartsWith(line, "#######") {
      assert forall i :: 0 <= i < 7 ==> line[i] == "#######"[i];
      LeadingAtLeast(line, 7);
    }
  }

  lemma {:induction false} LeadingAtLeast(line: string, n: nat)
    requires n <= |line| && forall i :: 0 <= i < n ==> line[i] == '#'
    ensures Text.LeadingCount(line, IsHash) >= n
    decreases n
  {
    if n > 0 {
      LeadingAtLeast(line[1..], n - 1);
    }
  }

  // ---- The block parser -----------------------------------------------------------

  /** What a line outside a code block is taken for, the patterns tried in the parser's order. */
  datatype LineKind =
    | FenceLine
    | HeadingLine(level: nat, text: string)
    | BulletLine(item: string)
    | NumberedLine(item: string)
    | Blank
    | TextLine(trimmed: string)

  function Classify(line: string): (k: LineKind)
    ensures k.FenceLine? <==> IsFence(line)
    ensures k.TextLine? ==> k.trimmed == Text.JsTrim(line)
  {
    if IsFence(line) then FenceLine
    else if HeadingMatch(line).Some? then HeadingLine(HeadingMatch(line).value.0, HeadingMatch(line).value.1)
    else if BulletMatch(line).Some? then BulletLine(BulletMatch(line).value)
    else if NumberedMatch(line).Some? then NumberedLine(NumberedMatch(line).value)
    else if BlankLine(line) then Blank
    else TextLine(Text.JsTrim(line))
  }

  /** The kind of each line, in order. */
  function Kinds(lines: seq<string>): (r: seq<LineKind>)
    ensures |r| == |lines|
  {
    seq(|lines|, i requires 0 <= i < |lines| => Classify(lines[i]))
  }

  /**
   * The parser's variables: inside a code fence, the code lines so far,
   * the paragraph's lines, the open list's kind and items, and the blocks
   * emitted.
   */
  datatype Parser = Parser(inCode: bool, code: seq<string>, para: seq<string>, listKind: Option<ListKind>,
                           items: seq<string>, out: seq<Block>)

  const Start: Parser := Parser(false, [], [], None, [], [])

  /** `flushPara`: an open paragraph becomes one block of its lines joined by spaces. */
  function FlushPara(p: Parser): Parser {
    if |p.para| > 0 then p.(out := p.out + [Paragraph(Text.Join(p.para, " "))], para := []) else p
  }

  function ListBlock(kind: Option<ListKind>, items: seq<string>): Block {
    if kind == Some(Unordered) then Bullets(items) else Numbered(items)
  }

  /** `flushList`: an open list becomes one bullet or numbered block, and the list is closed. */
  function FlushList(p: Parser): Parser {
    if |p.items| > 0 then p.(out := p.out + [ListBlock(p.listKind, p.items)], items := [], listKind := None)
    else p
  }

  /** A list item of the given kind: another kind's open list is flushed first. */
  function AddItem(p: Parser, kind: ListKind, item: string): Parser {
    var q := FlushPara(p);
    var r := if q.listKind.Some? && q.listKind != Some(kind) then FlushList(q) else q;
    r.(listKind := Some(kind), items := r.items + [item])
  }

  /**
   * One pass of the loop over a line of the given kind. A text line joins
   * the paragraph; as written the open list stays open (`inOrder` false),
   * in order it is closed first.
   */
  function StepKind(p: Parser, line: string, kind: LineKind, inOrder: bool): Parser {
    if kind.FenceLine? then
      if p.inCode then p.(out := p.out + [Code(Text.Join(p.code, "\n"))], code := [], inCode := false)
      else FlushList(FlushPara(p)).(inCode := true)
    else if p.inCode then p.(code := p.code + [line])
    else match kind
      case HeadingLine(level, text) =>
        var q := FlushList(FlushPara(p));
        q.(out := q.out + [Heading(level, text)])
      case BulletLine(item) => AddItem(p, Unordered, item)
      case NumberedLine(item) => AddItem(p, Ordered, item)
      case Blank => FlushList(FlushPara(p))
      case TextLine(t) =>
        var q := if inOrder then FlushList(p) else p;
        q.(para := q.para + [t])
  }

  /** The parser after the given lines, of the given kinds, from `p`. */
  function FoldFrom(p: Parser, lines: seq<string>, kinds: seq<LineKind>, inOrder: bool): Parser
    requires |kinds| == |lines|
    decreases |lines|
  {
    if |lines| == 0 then p
    else
      var n := |lines| - 1;
      StepKind(FoldFrom(p, lines[..n], kinds[..n], inOrder), lines[n], kinds[n], inOrder)
  }

  /** After the loop: the paragraph, then the list, are flushed; code after an unclosed fence is dropped. */
  function Finish(p: Parser): seq<Block> {
    FlushList(FlushPara(p)).out
  }

  /** `parse` as written. */
  function Parse(md: string): seq<Block> {
    var lines := SplitLines(md);
    Finish(FoldFrom(Start, lines, Kinds(lines), false))
  }

  /** `parse` with paragraph text closing an open list first, so that blocks keep the text's order. */
  function ParseInOrder(md: string): seq<Block> {
    var lines := SplitLines(md);
    Finish(FoldFrom(Start, lines, Kinds(lines), true))
  }

  lemma FoldSnoc(p: Parser, lines: seq<string>, kinds: seq<LineKind>, i: nat, inOrder: bool)
    requires |kinds| == |lines| && i < |lines|
    ensures FoldFrom(p, lines[..i + 1], kinds[..i + 1], inOrder)
         == StepKind(FoldFrom(p, lines[..i], kinds[..i], inOrder), lines[i], kinds[i], inOrder)
  {
    assert lines[..i + 1][..i] == lines[..i];
    assert kinds[..i + 1][..i] == kinds[..i];
  }

  // ---- Properties of the parser ------------------------------------------------------

  /** Inside a code fence nothing is open, and a list is open exactly when it has items. */
  predicate Settled(p: Parser) {
    (p.inCode ==> p.para == [] && p.items == []) && (p.items == [] <==> p.listKind.None?)
  }

  lemma StepSettled(p: Parser, line: string, kind: LineKind, inOrder: bool)
    requires Settled(p)
    ensures Settled(StepKind(p, line, kind, inOrder))
  {
  }

  /** Every state the loop reaches is settled, whatever the lines. */
  lemma {:induction false} FoldSettled(lines: seq<string>, kinds: seq<LineKind>, inOrder: bool)
    requires |kinds| == |lines|
    ensures Settled(FoldFrom(Start, lines, kinds, inOrder))
    decreases |lines|
  {
    if |lines| > 0 {
      var n := |lines| - 1;
      FoldSettled(lines[..n], kinds[..n], inOrder);
      StepSettled(FoldFrom(Start, lines[..n], kinds[..n], inOrder), lines[n], kinds[n], inOrder);
    }
  }

  /** Each line trimmed, in order. */
  function Trims(lines: seq<string>): (r: seq<string>)
    ensures |r| == |lines|
  {
    seq(|lines|, i requires 0 <= i < |lines| => Text.JsTrim(lines[i]))
  }

  /** Text outside code and lists joins the paragraph and nothing else changes. */
  lemma TextStep(p: Parser, line: string, kind: LineKind, inOrder: bool)
    requires !p.inCode && p.items == [] && kind.TextLine?
    ensures StepKind(p, line, kind, inOrder) == p.(para := p.para + [kind.trimmed])
  {
  }

  /** Every line is paragraph text. */
  predicate AllText(kinds: seq<LineKind>) {
    forall i :: 0 <= i < |kinds| ==> kinds[i].TextLine?
  }

  function TextOf(k: LineKind): string {
    if k.TextLine? then k.trimmed else ""
  }

  /** The texts of paragraph lines, in order. */
  function Texts(kinds: seq<LineKind>): (r: seq<string>)
    ensures |r| == |kinds|
  {
    seq(|kinds|, i requires 0 <= i < |kinds| => TextOf(kinds[i]))
  }

  /** The text of a paragraph line is the line trimmed. */
  lemma TextsTrimmed(lines: seq<string>)
    requires AllText(Kinds(lines))
    ensures Texts(Kinds(lines)) == Trims(lines)
  {
    forall i | 0 <= i < |lines|
      ensures Texts(Kinds(lines))[i] == Trims(lines)[i]
    {
      assert Kinds(lines)[i] == Classify(lines[i]);
    }
  }

  /** One more text line joins the gathered paragraph. */
  lemma TextSnoc(p: Parser, lines: seq<string>, kinds: seq<LineKind>, inOrder: bool)
    requires |kinds| == |lines| > 0 && !p.inCode && p.items == [] && kinds[|lines| - 1].TextLine?
    requires var n := |lines| - 1;
      FoldFrom(p, lines[..n], kinds[..n], inOrder) == p.(para := p.para + Texts(kinds[..n]))
    ensures FoldFrom(p, lines, kinds, inOrder) == p.(para := p.para + Texts(kinds))
  {
    var n := |lines| - 1;
    TextStep(FoldFrom(p, lines[..n], kinds[..n], inOrder), lines[n], kinds[n], inOrder);
    assert Texts(kinds[..n]) + [TextOf(kinds[n])] == Texts(kinds);
  }

  /**
   * Consecutive text lines outside code and lists are gathered into the
   * open paragraph, nothing being emitted meanwhile.
   */
  lemma {:induction false} TextLinesGather(p: Parser, lines: seq<string>, kinds: seq<LineKind>, inOrder: bool)
    requires |kinds| == |lines| && !p.inCode && p.items == [] && AllText(kinds)
    ensures FoldFrom(p, lines, kinds, inOrder) == p.(para := p.para + Texts(kinds))
    decreases |lines|
  {
    if |lines| > 0 {
      var n := |lines| - 1;
      assert AllText(kinds[..n]);
      TextLinesGather(p, lines[..n], kinds[..n], inOrder);
      TextSnoc(p, lines, kinds, inOrder);
    }
  }

  /** After a text run the paragraph holds the lines trimmed. */
  lemma GatheredTrimmed(p: Parser, lines: seq<string>)
    requires !p.inCode && p.para == [] && p.items == [] && AllText(Kinds(lines))
    ensures FoldFrom(p, lines, Kinds(lines), false) == p.(para := Trims(lines))
  {
    TextLinesGather(p, lines, Kinds(lines), false);
    TextsTrimmed(lines);
    assert p.para + Texts(Kinds(lines)) == Trims(lines);
  }

  lemma FinishParagraph(p: Parser, texts: seq<string>)
    requires p.items == [] && |texts| > 0
    ensures Finish(p.(para := texts)) == p.out + [Paragraph(Text.Join(texts, " "))]
  {
  }

  /** Text lines after a flush make one paragraph of their trimmed texts. */
  lemma TextOnlyParagraph(p: Parser, lines: seq<string>)
    requires !p.inCode && p.para == [] && p.items == [] && |lines| > 0 && AllText(Kinds(lines))
    ensures Finish(FoldFrom(p, lines, Kinds(lines), false)) == p.out + [Paragraph(Text.Join(Trims(lines), " "))]
  {
    GatheredTrimmed(p, lines);
    FinishParagraph(p, Trims(lines));
  }

  /**
   * A message made only of text lines is one paragraph: the trimmed lines
   * joined by single spaces.
   */
  lemma OneParagraph(md: string)
    requires forall i :: 0 <= i < |SplitLines(md)| ==> Classify(SplitLines(md)[i]).TextLine?
    ensures Parse(md) == [Paragraph(Text.Join(Trims(SplitLines(md)), " "))]
  {
    var lines := SplitLines(md);
    assert AllText(Kinds(lines)) by {
      forall i | 0 <= i < |lines|
        ensures Kinds(lines)[i].TextLine?
      {
        assert Kinds(lines)[i] == Classify(lines[i]);
      }
    }
    TextOnlyParagraph(Start, lines);
  }

  /**
   * An item of the other kind closes the open list into its block first;
   * an item of the same kind extends it.
   */
  lemma ListKindChange(p: Parser, kind: ListKind, item: string)
    requires Settled(p) && p.para == [] && p.items != []
    ensures p.listKind != Some(kind) ==>
      AddItem(p, kind, item).out == p.out + [ListBlock(p.listKind, p.items)] && AddItem(p, kind, item).items == [item]
    ensures p.listKind == Some(kind) ==> AddItem(p, kind, item).out == p.out && AddItem(p, kind, item).items == p.items + [item]
  {
  }

  /** Inside a code block every line but a fence is code. */
  lemma CodeStep(p: Parser, line: string, kind: LineKind, inOrder: bool)
    requires p.inCode && !kind.FenceLine?
    ensures StepKind(p, line, kind, inOrder) == p.(code := p.code + [line])
  {
  }

  /**
   * Once a fence is open and no fence follows, the lines after it only
   * gather code, and the end of the message drops them: the blocks are
   * those emitted before the fence.
   */
  lemma {:induction false} UnclosedFenceDropped(p: Parser, lines: seq<string>, kinds: seq<LineKind>, inOrder: bool)
    requires Settled(p) && p.inCode && |kinds| == |lines|
    requires forall i :: 0 <= i < |kinds| ==> !kinds[i].FenceLine?
    ensures FoldFrom(p, lines, kinds, inOrder) == p.(code := p.code + lines)
    ensures Finish(FoldFrom(p, lines, kinds, inOrder)) == p.out
    decreases |lines|
  {
    if |lines| > 0 {
      var n := |lines| - 1;
      UnclosedFenceDropped(p, lines[..n], kinds[..n], inOrder);
      CodeStep(FoldFrom(p, lines[..n], kinds[..n], inOrder), lines[n], kinds[n], inOrder);
      assert p.code + lines[..n] + [lines[n]] == p.code + lines;
    }
  }

  /** The same for lines none of which opens with three backticks. */
  lemma UnclosedFenceLines(p: Parser, lines: seq<string>, inOrder: bool)
    requires Settled(p) && p.inCode
    requires forall i :: 0 <= i < |lines| ==> !IsFence(lines[i])
    ensures Finish(FoldFrom(p, lines, Kinds(lines), inOrder)) == p.out
  {
    forall i | 0 <= i < |lines|
      ensures !Kinds(lines)[i].FenceLine?
    {
      assert Kinds(lines)[i] == Classify(lines[i]);
    }
    UnclosedFenceDropped(p, lines, Kinds(lines), inOrder);
  }

  // ---- Paragraph text after a list ------------------------------------------------------

  /** A paragraph and a list are never open together. */
  predicate Separate(p: Parser) {
    Settled(p) && (p.para == [] || p.items == [])
  }

  /** With the list closed before paragraph text, a paragraph and a list are never open together. */
  lemma InOrderSeparate(p: Parser, line: string, kind: LineKind)
    requires Separate(p)
    ensures Separate(StepKind(p, line, kind, true))
  {
  }

  /** In order, every state the loop reaches is separate. */
  lemma {:induction false} FoldInOrderSeparate(lines: seq<string>, kinds: seq<LineKind>)
    requires |kinds| == |lines|
    ensures Separate(FoldFrom(Start, lines, kinds, true))
    decreases |lines|
  {
    if |lines| > 0 {
      var n := |lines| - 1;
      FoldInOrderSeparate(lines[..n], kinds[..n]);
      InOrderSeparate(FoldFrom(Start, lines[..n], kinds[..n], true), lines[n], kinds[n]);
    }
  }

  /** When they are never open together, the final flushes emit the open block in place. */
  lemma SeparateFinish(p: Parser)
    requires Separate(p)
    ensures Finish(p) == p.out + (if p.para != [] then [Paragraph(Text.Join(p.para, " "))] else [])
                               + (if p.items != [] then [ListBlock(p.listKind, p.items)] else [])
  {
  }

  /**
   * In order, the blocks of any message are those emitted by the loop and
   * then the one block left open, if any.
   */
  lemma ParseInOrderFinish(md: string)
    ensures var lines := SplitLines(md);
      var p := FoldFrom(Start, lines, Kinds(lines), true);
      Separate(p) && ParseInOrder(md) == p.out + (if p.para != [] then [Paragraph(Text.Join(p.para, " "))] else [])
                                                + (if p.items != [] then [ListBlock(p.listKind, p.items)] else [])
  {
    var lines := SplitLines(md);
    FoldInOrderSeparate(lines, Kinds(lines));
    SeparateFinish(FoldFrom(Start, lines, Kinds(lines), true));
  }

  /** `\s+(.+)$` on " a" captures "a". */
  lemma SpacedA()
    ensures SpacedContent(" a") == Some("a")
  {
    assert Text.LeadingCount(" a"[1..], Text.IsJsSpace) == 0;
    assert Text.LeadingCount(" a", Text.IsJsSpace) == 1;
    assert " a"[1..] == "a";
    assert NoTerminator("a");
  }

  /** "- a" matches the bullet pattern with the item "a". */
  lemma BulletMatchA()
    ensures BulletMatch("- a") == Some("a")
  {
    assert Text.LeadingCount("- a", Text.IsJsSpace) == 0;
    assert "- a"[1..] == " a";
    SpacedA();
  }

  /** "- a" is a bullet item "a". */
  lemma BulletA()
    ensures Classify("- a") == BulletLine("a")
  {
    assert "- a"[0] == '-';
    assert !IsFence("- a");
    assert Text.LeadingCount("- a", IsHash) == 0;
    assert HeadingMatch("- a").None?;
    BulletMatchA();
  }

  /** "b" is paragraph text. */
  lemma TextB()
    ensures Classify("b") == TextLine("b")
  {
    var l := "b";
    assert Text.LeadingCount(l, IsHash) == 0;
    assert Text.LeadingCount(l, Text.IsJsSpace) == 0;
    assert Text.LeadingCount(l, IsDigit) == 0;
    assert Text.TrimRight(l, Text.IsJsSpace) == l;
  }

  /** "- a\nb" is the lines "- a" and "b". */
  lemma SplitAB()
    ensures SplitLines("- a\nb") == ["- a", "b"]
  {
    var s := "- a\nb";
    assert Text.IndexOf(s, '\n') == Some(3);
    assert s[..3] == "- a" && s[4..] == "b";
    assert Text.IndexOf("b", '\n') == None;
    assert Text.SplitChar(s, '\n') == ["- a", "b"];
  }

  /** The lines "- a" and "b" are a bullet and paragraph text. */
  lemma KindsAB()
    ensures Kinds(["- a", "b"]) == [BulletLine("a"), TextLine("b")]
  {
    BulletA();
    TextB();
  }

  /** A bullet "a" then paragraph text "b", folded. */
  lemma FoldTwo(l1: string, l2: string, inOrder: bool)
    ensures FoldFrom(Start, [l1, l2], [BulletLine("a"), TextLine("b")], inOrder)
         == if inOrder then Parser(false, [], ["b"], None, [], [Bullets(["a"])])
            else Parser(false, [], ["b"], Some(Unordered), ["a"], [])
  {
    var lines := [l1, l2];
    var kinds := [BulletLine("a"), TextLine("b")];
    assert lines[..1] == [l1] && lines[..1][..0] == [];
    assert kinds[..1] == [BulletLine("a")] && kinds[..1][..0] == [];
    var p1 := StepKind(Start, l1, BulletLine("a"), inOrder);
    assert p1 == Parser(false, [], [], Some(Unordered), ["a"], []);
    assert FoldFrom(Start, lines[..1], kinds[..1], inOrder) == p1;
  }

  /** The two lines of "- a\nb" folded: a bullet, then paragraph text. */
  lemma FoldAB(inOrder: bool)
    ensures var lines := SplitLines("- a\nb");
      FoldFrom(Start, lines, Kinds(lines), inOrder)
      == if inOrder then Parser(false, [], ["b"], None, [], [Bullets(["a"])])
         else Parser(false, [], ["b"], Some(Unordered), ["a"], [])
  {
    SplitAB();
    KindsAB();
    FoldTwo("- a", "b", inOrder);
  }

  /**
   * As written, a text line right after a list item joins a paragraph while
   * the list stays open, and the end of the message flushes the paragraph
   * first: "- a\nb" comes out as the paragraph "b" before the list "a".
   */
  lemma TextAfterListReordered()
    ensures var lines := SplitLines("- a\nb");
      !Separate(FoldFrom(Start, lines, Kinds(lines), false))
    ensures Parse("- a\nb") == [Paragraph("b"), Bullets(["a"])]
  {
    FoldAB(false);
  }

  /** In order, "- a\nb" comes out as the list "a" before the paragraph "b". */
  lemma TextAfterListInOrder()
    ensures ParseInOrder("- a\nb") == [Bullets(["a"]), Paragraph("b")]
  {
    FoldAB(true);
  }

  // ---- The loop ---------------------------------------------------------------------------

  /** `parse` as written: the loop over the classified lines, then the two flushes. */
  method ParseBlocks(md: string) returns (elements: seq<Block>)
    ensures elements == Parse(md)
  {
    var lines := SplitLines(md);
    var kinds := Kinds(lines);
    var inCode, codeBuffer, para, listType, listItems;
    inCode, codeBuffer, para, listType, listItems, elements := ParseLines(lines, kinds);
    ghost var p := Parser(inCode, codeBuffer, para, listType, listItems, elements);
    para, elements := FlushParaVars(p, para, elements);
    listType, listItems, elements := FlushListVars(FlushPara(p), listType, listItems, elements);
  }

  /** The loop of `parse` over lines of the given kinds, on the parser's variables. */
  method ParseLines(lines: seq<string>, kinds: seq<LineKind>)
    returns (inCode: bool, codeBuffer: seq<string>, para: seq<string>, listType: Option<ListKind>,
             listItems: seq<string>, elements: seq<Block>)
    requires |kinds| == |lines|
    ensures Parser(inCode, codeBuffer, para, listType, listItems, elements) == FoldFrom(Start, lines, kinds, false)
  {
    inCode, codeBuffer, para, listType, listItems, elements := false, [], [], None, [], [];
    for i := 0 to |lines|
      invariant Parser(inCode, codeBuffer, para, listType, listItems, elements)
             == FoldFrom(Start, lines[..i], kinds[..i], false)
    {
      FoldSnoc(Start, lines, kinds, i, false);
      inCode, codeBuffer, para, listType, listItems, elements :=
        Line(lines[i], kinds[i], inCode, codeBuffer, para, listType, listItems, elements);
    }
    assert lines[..|lines|] == lines && kinds[..|lines|] == kinds;
  }

  /** `flushPara` on the loop's variables, which `p` holds. */
  method FlushParaVars(ghost p: Parser, para: seq<string>, elements: seq<Block>)
    returns (para': seq<string>, elements': seq<Block>)
    requires p.para == para && p.out == elements
    ensures para' == FlushPara(p).para && elements' == FlushPara(p).out
  {
    para', elements' := para, elements;
    if |para| > 0 {
      elements' := elements + [Paragraph(Text.Join(para, " "))];
      para' := [];
    }
  }

  /** `flushList` on the loop's variables, which `p` holds. */
  method FlushListVars(ghost p: Parser, listType: Option<ListKind>, listItems: seq<string>, elements: seq<Block>)
    returns (listType': Option<ListKind>, listItems': seq<string>, elements': seq<Block>)
    requires p.listKind == listType && p.items == listItems && p.out == elements
    ensures listType' == FlushList(p).listKind && listItems' == FlushList(p).items && elements' == FlushList(p).out
  {
    listType', listItems', elements' := listType, listItems, elements;
    if |listItems| > 0 {
      if listType == Some(Unordered) {
        elements' := elements + [Bullets(listItems)];
      } else {
        elements' := elements + [Numbered(listItems)];
      }
      listItems' := [];
      listType' := None;
    }
  }

  /** One pass of the loop on the parser's variables, for a line of the given kind. */
  method Line(line: string, kind: LineKind, inCode: bool, codeBuffer: seq<string>, para: seq<string>, listType: Option<ListKind>,
              listItems: seq<string>, elements: seq<Block>)
    returns (inCode': bool, codeBuffer': seq<string>, para': seq<string>, listType': Option<ListKind>,
             listItems': seq<string>, elements': seq<Block>)
    ensures Parser(inCode', codeBuffer', para', listType', listItems', elements')
         == StepKind(Parser(inCode, codeBuffer, para, listType, listItems, elements), line, kind, false)
  {
    ghost var p := Parser(inCode, codeBuffer, para, listType, listItems, elements);
    inCode', codeBuffer', para', listType', listItems', elements' := inCode, codeBuffer, para, listType, listItems, elements;
    if kind.FenceLine? {
      if inCode {
        elements' := elements + [Code(Text.Join(codeBuffer, "\n"))];
        codeBuffer' := [];
        inCode' := false;
      } else {
        para', elements' := FlushParaVars(p, para, elements);
        listType', listItems', elements' := FlushListVars(FlushPara(p), listType, listItems, elements');
        inCode' := true;
      }
    } else if inCode {
      codeBuffer' := codeBuffer + [line];
    } else if kind.TextLine? {
      para' := para + [kind.trimmed];
    } else if kind.HeadingLine? || kind.Blank? {
      para', elements' := FlushParaVars(p, para, elements);
      listType', listItems', elements' := FlushListVars(FlushPara(p), listType, listItems, elements');
      if kind.HeadingLine? {
        elements' := elements' + [Heading(kind.level, kind.text)];
      }
    } else {
      var itemKind := if kind.BulletLine? then Unordered else Ordered;
      para', elements' := FlushParaVars(p, para, elements);
      if listType.Some? && listType != Some(itemKind) {
        listType', listItems', elements' := FlushListVars(FlushPara(p), listType, listItems, elements');
      }
      listType' := Some(itemKind);
      listItems' := listItems' + [kind.item];
    }
  }
}
