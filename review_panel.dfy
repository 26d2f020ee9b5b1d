/**
 * The review panel of the practice page: the streamed review is read as two
 * sections of bullets, "What went well" and "What could be better", and
 * shown as plain Markdown when neither section has a bullet.
 *
 * The patterns carry the `i` flag, which without the `u` flag folds only
 * ASCII letters: a line matches exactly when its ASCII-lower-cased text
 * matches the lower-case pattern.
 */
module ReviewPanel {
  import opened Wrappers
  import Text
  import Markdown
  import RolePlaySessionsController

  /** ASCII lower case. */
  function Lower(c: char): char {
    if 'A' <= c <= 'Z' then (c as int + 32) as char else c
  }

  function LowerAll(s: string): (r: string)
    ensures |r| == |s| && forall i :: 0 <= i < |s| ==> r[i] == Lower(s[i])
  {
    seq(|s|, i requires 0 <= i < |s| => Lower(s[i]))
  }

  /** Lower-casing twice changes nothing more. */
  lemma LowerAllIdempotent(s: string)
    ensures LowerAll(LowerAll(s)) == LowerAll(s)
  {
  }

  predicate AllSpace(s: string) {
    forall i :: 0 <= i < |s| ==> Text.IsJsSpace(s[i])
  }

  const GoodTitle: string := "what went well"
  const ImproveTitle: string := "what could be better"
  const ControlKey: string := "\"wrapping_up\""

  /** `/^<title>\s*:\s*$/i`, on the lower-cased line. */
  predicate HeaderLower(l: string, title: string) {
    Text.StartsWith(l, title)
    && var r := Text.TrimLeft(l[|title|..], Text.IsJsSpace);
    |r| >= 1 && r[0] == ':' && AllSpace(r[1..])
  }

  predicate IsHeader(line: string, title: string) {
    HeaderLower(LowerAll(line), title)
  }

  /** `\s*:\s*(true|false)\s*` after the key. */
  predicate FlagAfterKey(r: string) {
    var b := Text.TrimLeft(r, Text.IsJsSpace);
    |b| >= 1 && b[0] == ':'
    && var c := Text.JsTrim(b[1..]);
    c == "true" || c == "false"
  }

  /** `/^\{\s*"wrapping_up"\s*:\s*(true|false)\s*\}$/i`, on the lower-cased line. */
  predicate ControlLower(l: string) {
    |l| >= 2 && l[0] == '{' && l[|l| - 1] == '}'
    && var a := Text.TrimLeft(l[1..|l| - 1], Text.IsJsSpace);
    Text.StartsWith(a, ControlKey) && FlagAfterKey(a[|ControlKey|..])
  }

  /** The reply's control line. */
  predicate IsControl(line: string) {
    ControlLower(LowerAll(line))
  }

  /** `/^[-*]\s+/`. */
  predicate IsBullet(line: string) {
    |line| >= 2 && (line[0] == '-' || line[0] == '*') && Text.IsJsSpace(line[1])
  }

  /** What a trimmed line of the review is. */
  datatype ReviewLine = Ignored | GoodHeader | ImproveHeader | Bullet(text: string)

  function Classify(line: string): (k: ReviewLine)
    ensures k.Bullet? ==> IsBullet(line)
  {
    if line == "" || IsControl(line) then Ignored
    else if IsHeader(line, GoodTitle) then GoodHeader
    else if IsHeader(line, ImproveTitle) then ImproveHeader
    else if IsBullet(line) then Bullet(Text.JsTrim(line[1..]))
    else Ignored
  }

  /** The headers and the control line match whatever the case of their letters. */
  lemma MatchIgnoresCase(line: string)
    ensures IsHeader(LowerAll(line), GoodTitle) == IsHeader(line, GoodTitle)
    ensures IsHeader(LowerAll(line), ImproveTitle) == IsHeader(line, ImproveTitle)
    ensures IsControl(LowerAll(line)) == IsControl(line)
  {
    LowerAllIdempotent(line);
  }

  /** Lower-casing keeps bullet marks and white space. */
  lemma LowerKeepsMarks(c: char)
    ensures (Lower(c) == '-' <==> c == '-') && (Lower(c) == '*' <==> c == '*')
    ensures Text.IsJsSpace(Lower(c)) <==> Text.IsJsSpace(c)
  {
  }

  lemma BulletIgnoresCase(line: string)
    ensures IsBullet(LowerAll(line)) == IsBullet(line)
  {
    if |line| >= 2 {
      LowerKeepsMarks(line[0]);
      LowerKeepsMarks(line[1]);
    }
  }

  /** A line that is no bullet is read the same whatever the case of its letters. */
  lemma ClassifyIgnoresCase(line: string)
    requires !IsBullet(line)
    ensures Classify(LowerAll(line)) == Classify(line)
  {
    MatchIgnoresCase(line);
    BulletIgnoresCase(line);
  }

  datatype Section = Good | Improve

  /** The loop's variables: the current section and the bullets of each. */
  datatype Split = Split(section: Option<Section>, good: seq<string>, improve: seq<string>)

  const Start: Split := Split(None, [], [])

  function StepKind(s: Split, k: ReviewLine): Split {
    match k
    case Ignored => s
    case GoodHeader => s.(section := Some(Good))
    case ImproveHeader => s.(section := Some(Improve))
    case Bullet(t) =>
      if s.section == Some(Good) then s.(good := s.good + [t])
      else if s.section == Some(Improve) then s.(improve := s.improve + [t])
      else s
  }

  /** One raw line, trimmed. */
  function Step(s: Split, raw: string): Split {
    StepKind(s, Classify(Text.JsTrim(raw)))
  }

  function Fold(s: Split, lines: seq<string>): Split
    decreases |lines|
  {
    if |lines| == 0 then s else Step(Fold(s, lines[..|lines| - 1]), lines[|lines| - 1])
  }

  /** `splitReview`: both sections, or nothing when neither has a bullet. */
  function SplitReview(text: string): Option<(seq<string>, seq<string>)> {
    var f := Fold(Start, Markdown.SplitLines(text));
    if f.good == [] && f.improve == [] then None else Some((f.good, f.improve))
  }

  /** What the panel shows for a review. */
  datatype Panel = NoPanel | Plain(blocks: seq<Markdown.Block>) | Sections(good: seq<string>, improve: seq<string>)

  /** `ReviewPanel`: nothing for no review, the two sections when found, else the review as Markdown. */
  function Show(review: string): (p: Panel)
    ensures p.NoPanel? <==> review == ""
    ensures p.Plain? <==> review != "" && SplitReview(review).None?
    ensures p.Sections? ==> p.good != [] || p.improve != []
  {
    if review == "" then NoPanel
    else match SplitReview(review)
      case None => Plain(Markdown.Parse(review))
      case Some((g, i)) => Sections(g, i)
  }

  // ---- Properties -------------------------------------------------------------------------

  /** The sections only ever grow, and each line adds at most one bullet. */
  lemma StepGrows(s: Split, k: ReviewLine)
    ensures s.good <= StepKind(s, k).good && s.improve <= StepKind(s, k).improve
    ensures |StepKind(s, k).good| + |StepKind(s, k).improve| <= |s.good| + |s.improve| + 1
  {
  }

  /** Over many lines the sections keep every bullet found so far, in order. */
  lemma {:induction false} FoldGrows(s: Split, lines: seq<string>)
    ensures s.good <= Fold(s, lines).good && s.improve <= Fold(s, lines).improve
    ensures |Fold(s, lines).good| + |Fold(s, lines).improve| <= |s.good| + |s.improve| + |lines|
    decreases |lines|
  {
    if |lines| > 0 {
      var init := lines[..|lines| - 1];
      FoldGrows(s, init);
      StepGrows(Fold(s, init), Classify(Text.JsTrim(lines[|lines| - 1])));
    }
  }

  /** Lines without a header leave the section unset. */
  predicate NoHeader(lines: seq<string>)
    decreases |lines|
  {
    |lines| == 0
    || (NoHeader(lines[..|lines| - 1])
        && !Classify(Text.JsTrim(lines[|lines| - 1])).GoodHeader? && !Classify(Text.JsTrim(lines[|lines| - 1])).ImproveHeader?)
  }

  /** Before any header no section is open, so bullets there are dropped. */
  lemma {:induction false} BeforeHeaderDropped(lines: seq<string>)
    requires NoHeader(lines)
    ensures Fold(Start, lines) == Start
    decreases |lines|
  {
    if |lines| > 0 {
      BeforeHeaderDropped(lines[..|lines| - 1]);
    }
  }

  /** A review with no header line has no sections, and shows as Markdown. */
  lemma NoHeaderPlain(text: string)
    requires text != "" && NoHeader(Markdown.SplitLines(text))
    ensures SplitReview(text).None? && Show(text) == Plain(Markdown.Parse(text))
  {
    BeforeHeaderDropped(Markdown.SplitLines(text));
  }

  /** Both control lines, in any case and with any padding the pattern allows, are ignored. */
  lemma ControlIgnored(s: Split, raw: string)
    requires IsControl(Text.JsTrim(raw))
    ensures Step(s, raw) == s
  {
  }

  const WrapUpLine: string := "{" + ControlKey + ": true}"

  lemma WrapUpLineTrimmed()
    ensures Text.JsTrim(WrapUpLine) == WrapUpLine && LowerAll(WrapUpLine) == WrapUpLine
  {
    var l := WrapUpLine;
    assert Text.TrimRight(l, Text.IsJsSpace) == l;
    assert Text.LeadingCount(l, Text.IsJsSpace) == 0;
    assert forall i :: 0 <= i < |l| ==> Lower(l[i]) == l[i];
  }

  lemma TrueAfterColon()
    ensures FlagAfterKey(": true")
  {
    assert Text.LeadingCount(": true", Text.IsJsSpace) == 0;
    assert ": true"[1..] == " true";
    assert Text.TrimRight(" true", Text.IsJsSpace) == " true";
    assert Text.LeadingCount(" true", Text.IsJsSpace) == 1 by {
      assert Text.LeadingCount(" true"[1..], Text.IsJsSpace) == 0;
    }
  }

  lemma KeyThenFlag()
    ensures var inner := ControlKey + ": true";
      Text.TrimLeft(inner, Text.IsJsSpace) == inner && Text.StartsWith(inner, ControlKey) && inner[|ControlKey|..] == ": true"
  {
    var inner := ControlKey + ": true";
    assert Text.LeadingCount(inner, Text.IsJsSpace) == 0;
  }

  lemma WrapUpLineControl()
    ensures IsControl(WrapUpLine)
  {
    WrapUpLineTrimmed();
    TrueAfterColon();
    KeyThenFlag();
    var l := WrapUpLine;
    assert l[1..|l| - 1] == ControlKey + ": true";
  }

  /** The control line the role-play prompt asks for, `{"wrapping_up": true}`, is one of them. */
  lemma WrapUpLineIgnored(s: Split)
    ensures Step(s, RolePlaySessionsController.WrapUpLine) == s
  {
    assert RolePlaySessionsController.WrapUpLine == WrapUpLine;
    WrapUpLineTrimmed();
    WrapUpLineControl();
  }

  const Shouted: string := "WHAT WENT WELL :"

  lemma ShoutedTrimmed()
    ensures Text.JsTrim(Shouted) == Shouted
  {
    assert Text.TrimRight(Shouted, Text.IsJsSpace) == Shouted;
    assert Text.LeadingCount(Shouted, Text.IsJsSpace) == 0;
  }

  lemma ShoutedLowered()
    ensures LowerAll(Shouted) == GoodTitle + " :"
  {
    var t := GoodTitle + " :";
    assert |Shouted| == |t| == 16;
    forall i | 0 <= i < 16
      ensures Lower(Shouted[i]) == t[i]
    {
      if i < 8 {
        assert Shouted[..8] == "WHAT WEN" && t[..8] == "what wen";
        assert Shouted[i] == Shouted[..8][i] && t[i] == t[..8][i];
      } else {
        assert Shouted[8..] == "T WELL :" && t[8..] == "t well :";
        assert Shouted[i] == Shouted[8..][i - 8] && t[i] == t[8..][i - 8];
      }
    }
  }

  lemma SpacedColonHeader()
    ensures HeaderLower(GoodTitle + " :", GoodTitle) && !ControlLower(GoodTitle + " :")
  {
    assert (GoodTitle + " :")[|GoodTitle|..] == " :";
    assert Text.LeadingCount(" :", Text.IsJsSpace) == 1 by {
      assert Text.LeadingCount(" :"[1..], Text.IsJsSpace) == 0;
    }
  }

  /** Upper case and with a space before the colon, the first header still opens its section. */
  lemma ShoutedHeader(s: Split)
    ensures Step(s, Shouted) == s.(section := Some(Good))
  {
    ShoutedTrimmed();
    ShoutedLowered();
    SpacedColonHeader();
  }

  /** A bullet joins the section of the last header, trimmed of its marker. */
  lemma BulletJoinsSection(s: Split, raw: string)
    requires Classify(Text.JsTrim(raw)).Bullet?
    ensures var t := Classify(Text.JsTrim(raw)).text;
      Step(s, raw) == (if s.section == Some(Good) then s.(good := s.good + [t])
                       else if s.section == Some(Improve) then s.(improve := s.improve + [t])
                       else s)
  {
  }

  // ---- The loop ---------------------------------------------------------------------------

  /** `splitReview` as written: a loop pushing bullets into the current section. */
  method SplitReviewLines(text: string) returns (r: Option<(seq<string>, seq<string>)>)
    ensures r == SplitReview(text)
  {
    var lines := Markdown.SplitLines(text);
    var section: Option<Section> := None;
    var good: seq<string> := [];
    var improve: seq<string> := [];
    for i := 0 to |lines|
      invariant Split(section, good, improve) == Fold(Start, lines[..i])
    {
      assert lines[..i + 1][..i] == lines[..i];
      var k := Classify(Text.JsTrim(lines[i]));
      match k {
        case Ignored =>
        case GoodHeader => section := Some(Good);
        case ImproveHeader => section := Some(Improve);
        case Bullet(t) =>
          if section == Some(Good) {
            good := good + [t];
          } else if section == Some(Improve) {
            improve := improve + [t];
          }
      }
    }
    assert lines[..|lines|] == lines;
    if |good| == 0 && |improve| == 0 {
      return None;
    }
    return Some((good, improve));
  }
}
