/**
 * The character summary a session's setup prompt shows: a handful of
 * profile fields picked out of the scenario's instructions by regular
 * expressions, one line per field found.
 */
module CharacterSummary {
  import opened Wrappers
  import Text

  /** The profile fields, in the order the summary lists them. */
  datatype Field = Name | Role | Personality | EmotionalState | Worries

  function Rank(f: Field): nat {
    match f
    case Name => 0
    case Role => 1
    case Personality => 2
    case EmotionalState => 3
    case Worries => 4
  }

  /** The text in front of the captured value on the field's line. */
  function Label(f: Field): (r: string)
    ensures '\n' !in r
  {
    match f
    case Name => "Name: "
    case Role => "Role: "
    case Personality => "Personality: "
    case EmotionalState => "Current state: "
    case Worries => "Worries: "
  }

  const Bullet: char := '\U{2022}'

  /** `[^\n•]`. */
  predicate CaptureChar(c: char) { c != '\n' && c != Bullet }

  /** The end of the run of `\s` starting at `i`. */
  function SkipSpace(s: string, i: nat): (j: nat)
    requires i <= |s|
    ensures i <= j <= |s| && (j == |s| || !Text.IsRegexSpace(s[j]))
  {
    i + Text.LeadingCount(s[i..], Text.IsRegexSpace)
  }

  /** `\s*(\w+)` at `i`: the word after optional white space. */
  function WordAt(s: string, i: nat): (r: Option<string>)
    requires i <= |s|
    ensures r.Some? ==> |r.value| > 0 && forall k :: 0 <= k < |r.value| ==> Text.IsWordChar(r.value[k])
  {
    var j := SkipSpace(s, i);
    var k := Text.LeadingCount(s[j..], Text.IsWordChar);
    if k == 0 then None else Some(s[j..j + k])
  }

  /**
   * `\s*([^\n•]+)` at `i` once `\s*` has given back all but `k` of its
   * characters: the first split point, from the greediest down, at which a
   * non-newline non-bullet character follows.
   */
  function GiveBack(s: string, i: nat, k: nat): (r: Option<string>)
    requires i + k <= |s|
    ensures r.Some? ==> |r.value| > 0 && forall j :: 0 <= j < |r.value| ==> CaptureChar(r.value[j])
    decreases k
  {
    if i + k < |s| && CaptureChar(s[i + k]) then
      var n := Text.LeadingCount(s[i + k..], CaptureChar);
      Some(s[i + k..i + k + n])
    else if k == 0 then None
    else GiveBack(s, i, k - 1)
  }

  /** `\s*([^\n•]+)` at `i`. */
  function TextAt(s: string, i: nat): (r: Option<string>)
    requires i <= |s|
    ensures r.Some? ==> |r.value| > 0 && forall j :: 0 <= j < |r.value| ==> CaptureChar(r.value[j])
  {
    GiveBack(s, i, Text.LeadingCount(s[i..], Text.IsRegexSpace))
  }

  /**
   * One element of a pattern before its capture. A run of `\s*` is taken
   * whole: in these patterns it is always followed by a character that is
   * not white space, so giving any of it back cannot help a match.
   */
  datatype Atom = Exact(c: char) | Folded(lit: string) | Spaces

  /** `\s*(\w+)` or `\s*([^\n•]+)`, the capture that ends each pattern. */
  datatype Capture = WordCapture | TextCapture

  datatype Pattern = Pattern(prefix: seq<Atom>, capture: Capture)

  /** The field's case-insensitive regular expression. */
  function PatternOf(f: Field): Pattern {
    match f
    case Name => Pattern([Exact(Bullet), Spaces, Folded("Name:")], WordCapture)
    case Role => Pattern([Folded("Role"), Spaces, Exact('&'), Spaces, Folded("Tenure:")], TextCapture)
    case Personality => Pattern([Exact(Bullet), Spaces, Folded("Personality:")], TextCapture)
    case EmotionalState => Pattern([Exact(Bullet), Spaces, Folded("Emotional State:")], TextCapture)
    case Worries => Pattern([Exact(Bullet), Spaces, Folded("Worries:")], TextCapture)
  }

  /** The capture when the atoms match from `i` and the capture matches where they end. */
  function MatchPattern(atoms: seq<Atom>, capture: Capture, s: string, i: nat): (r: Option<string>)
    requires i <= |s|
    ensures r.Some? ==> |r.value| > 0 && forall j :: 0 <= j < |r.value| ==> CaptureChar(r.value[j])
    ensures r.Some? && capture == WordCapture ==> forall j :: 0 <= j < |r.value| ==> Text.IsWordChar(r.value[j])
    decreases |atoms|
  {
    if |atoms| == 0 then
      match capture
      case WordCapture =>
        var w := WordAt(s, i);
        assert w.Some? ==> forall j :: 0 <= j < |w.value| ==> CaptureChar(w.value[j]);
        w
      case TextCapture => TextAt(s, i)
    else match atoms[0]
      case Exact(c) =>
        if i < |s| && s[i] == c then MatchPattern(atoms[1..], capture, s, i + 1) else None
      case Folded(lit) =>
        if Text.MatchesFold(s, i, lit) then MatchPattern(atoms[1..], capture, s, i + |lit|) else None
      case Spaces => MatchPattern(atoms[1..], capture, s, SkipSpace(s, i))
  }

  /** The capture of the field's pattern when a match starts at `p`. */
  function MatchAt(f: Field, s: string, p: nat): (r: Option<string>)
    requires p < |s|
    ensures r.Some? ==> |r.value| > 0 && forall j :: 0 <= j < |r.value| ==> CaptureChar(r.value[j])
    ensures r.Some? && f == Name ==> forall j :: 0 <= j < |r.value| ==> Text.IsWordChar(r.value[j])
  {
    MatchPattern(PatternOf(f).prefix, PatternOf(f).capture, s, p)
  }

  /** The leftmost position in `p..n` at which `at` gives a capture, with the capture. */
  function Leftmost(at: nat -> Option<string>, n: nat, p: nat): (r: Option<(nat, string)>)
    ensures r.Some? ==> p <= r.value.0 < n && at(r.value.0) == Some(r.value.1)
    decreases n - p
  {
    if p >= n then None
    else match at(p)
      case Some(c) => Some((p, c))
      case None => Leftmost(at, n, p + 1)
  }

  /** The position found is the leftmost one, and none is missed. */
  lemma {:induction false} LeftmostFirst(at: nat -> Option<string>, n: nat, p: nat)
    ensures Leftmost(at, n, p).Some? ==> forall q :: p <= q < Leftmost(at, n, p).value.0 ==> at(q).None?
    ensures Leftmost(at, n, p).None? ==> forall q :: p <= q < n ==> at(q).None?
    decreases n - p
  {
    if p < n && at(p).None? {
      LeftmostFirst(at, n, p + 1);
    }
  }

  /** The capture of the field's pattern at each position of `s`. */
  function MatchesIn(f: Field, s: string): nat -> Option<string> {
    (q: nat) => if q < |s| then MatchAt(f, s, q) else None
  }

  /** `=~`: the leftmost match at or after `p`, with its position. */
  function FirstMatch(f: Field, s: string, p: nat): Option<(nat, string)> {
    Leftmost(MatchesIn(f, s), |s|, p)
  }

  /** The match found is a match, it is the leftmost one, and none is missed. */
  lemma FirstMatchLeftmost(f: Field, s: string, p: nat)
    ensures FirstMatch(f, s, p).Some? ==>
              p <= FirstMatch(f, s, p).value.0 < |s| && MatchAt(f, s, FirstMatch(f, s, p).value.0) == Some(FirstMatch(f, s, p).value.1)
    ensures FirstMatch(f, s, p).Some? ==> forall q :: p <= q < FirstMatch(f, s, p).value.0 ==> MatchAt(f, s, q).None?
    ensures FirstMatch(f, s, p).None? ==> forall q :: p <= q < |s| ==> MatchAt(f, s, q).None?
  {
    var at := MatchesIn(f, s);
    LeftmostFirst(at, |s|, p);
    forall q | p <= q < |s|
      ensures at(q) == MatchAt(f, s, q)
    {
    }
  }

  /** The value the line shows: the name as captured, the other fields stripped. */
  function Shown(f: Field, capture: string): string {
    if f == Name then capture else Text.Strip(capture)
  }

  /** The value the field's line shows when its pattern matches anywhere. */
  function Found(f: Field, s: string): Option<string> {
    match FirstMatch(f, s, 0)
    case None => None
    case Some(m) => Some(Shown(f, m.1))
  }

  /** The field's entry, if it was found. */
  function Part(f: Field, v: Option<string>): seq<(Field, string)> {
    if v.Some? then [(f, v.value)] else []
  }

  /** The fields in the order the summary lists them. */
  const Fields: seq<Field> := [Name, Role, Personality, EmotionalState, Worries]

  /** The entries of the fields `fs`, in their order, for a given way of finding each field. */
  function EntriesOf(find: Field -> Option<string>, fs: seq<Field>): seq<(Field, string)>
    decreases |fs|
  {
    if |fs| == 0 then []
    else EntriesOf(find, fs[..|fs| - 1]) + Part(fs[|fs| - 1], find(fs[|fs| - 1]))
  }

  /** How each field is found in the instructions. */
  function FindIn(instructions: string): Field -> Option<string> {
    (f: Field) => Found(f, instructions)
  }

  /** The fields found, in summary order, with the value each shows. */
  function Entries(instructions: string): seq<(Field, string)> {
    if Text.Blank(instructions) then [] else EntriesOf(FindIn(instructions), Fields)
  }

  function Line(e: (Field, string)): string { Label(e.0) + e.1 }

  /** The lines of the given entries. */
  function Render(es: seq<(Field, string)>): (r: seq<string>)
    ensures |r| == |es|
  {
    seq(|es|, i requires 0 <= i < |es| => Line(es[i]))
  }

  /** One more `if instructions =~ ...` step of the summary, for field `f`. */
  lemma RenderStep(find: Field -> Option<string>, fs: seq<Field>, parts: seq<string>, f: Field)
    requires parts == Render(EntriesOf(find, fs))
    ensures (if find(f).Some? then parts + [Label(f) + find(f).value] else parts)
            == Render(EntriesOf(find, fs + [f]))
  {
    assert (fs + [f])[..|fs|] == fs;
    if find(f).None? {
      assert EntriesOf(find, fs + [f]) == EntriesOf(find, fs);
    }
  }

  /** The value the field's line shows, from the match the method looks at. */
  lemma FoundFrom(f: Field, s: string, m: Option<(nat, string)>)
    requires m == FirstMatch(f, s, 0)
    ensures FindIn(s)(f) == if m.Some? then Some(Shown(f, m.value.1)) else None
  { }

  /** The summary's lines. */
  function SummaryLines(instructions: string): seq<string> {
    Render(Entries(instructions))
  }

  /**
   * One `if instructions =~ pattern` block: the field's line is appended
   * when its pattern matches.
   */
  method AppendFieldLine(instructions: string, f: Field, parts: seq<string>, ghost fs: seq<Field>)
    returns (parts': seq<string>)
    requires parts == Render(EntriesOf(FindIn(instructions), fs))
    ensures parts' == Render(EntriesOf(FindIn(instructions), fs + [f]))
  {
    var m := FirstMatch(f, instructions, 0);
    FoundFrom(f, instructions, m);
    RenderStep(FindIn(instructions), fs, parts, f);
    parts' := parts;
    if m.Some? {
      parts' := parts + [Label(f) + Shown(f, m.value.1)];
    }
  }

  /** `extract_character_summary`: the lines found, joined by newlines. */
  method ExtractCharacterSummary(instructions: string) returns (summary: string)
    ensures summary == Text.Join(SummaryLines(instructions), "\n")
  {
    if Text.Blank(instructions) {
      assert SummaryLines(instructions) == [];
      return "";
    }
    var parts: seq<string> := [];
    ghost var fs: seq<Field> := [];
    parts := AppendFieldLine(instructions, Name, parts, fs);
    fs := fs + [Name];
    parts := AppendFieldLine(instructions, Role, parts, fs);
    fs := fs + [Role];
    parts := AppendFieldLine(instructions, Personality, parts, fs);
    fs := fs + [Personality];
    parts := AppendFieldLine(instructions, EmotionalState, parts, fs);
    fs := fs + [EmotionalState];
    parts := AppendFieldLine(instructions, Worries, parts, fs);
    fs := fs + [Worries];
    assert fs == Fields;
    summary := Text.Join(parts, "\n");
  }

  /** Blank instructions give an empty summary. */
  lemma BlankSummary(instructions: string)
    requires Text.Blank(instructions)
    ensures SummaryLines(instructions) == []
  {
  }

  /** Stripping keeps a property every character has. */
  lemma StripKeeps(c: string, p: char -> bool)
    requires forall j :: 0 <= j < |c| ==> p(c[j])
    ensures forall j :: 0 <= j < |Text.Strip(c)| ==> p(Text.Strip(c)[j])
  {
    var right := Text.TrimRight(c, Text.IsStripSpace);
    assert right == c[..|right|];
    var both := Text.TrimLeft(right, Text.IsStripSpace);
    assert both == right[|right| - |both|..];
    assert Text.Strip(c) == both;
    forall j | 0 <= j < |both|
      ensures p(both[j])
    {
      assert both[j] == c[|right| - |both| + j];
    }
  }

  /** The value a line shows has no newline and no bullet; a name is one word. */
  predicate WellFormed(e: (Field, string)) {
    (forall j :: 0 <= j < |e.1| ==> CaptureChar(e.1[j]))
    && (e.0 == Name ==> |e.1| > 0 && forall j :: 0 <= j < |e.1| ==> Text.IsWordChar(e.1[j]))
  }

  /** What a field's found value looks like. */
  lemma FoundWellFormed(f: Field, s: string)
    ensures Found(f, s).Some? ==> WellFormed((f, Found(f, s).value))
  {
    FirstMatchLeftmost(f, s, 0);
    match FirstMatch(f, s, 0)
    case None =>
    case Some(m) =>
      var c := m.1;
      assert MatchAt(f, s, m.0) == Some(c);
      if f != Name {
        StripKeeps(c, CaptureChar);
      }
  }

  /** In summary order without repeats. */
  predicate InOrder(es: seq<(Field, string)>) {
    forall i, j :: 0 <= i < j < |es| ==> Rank(es[i].0) < Rank(es[j].0)
  }

  /** Fields listed in summary order without repeats. */
  predicate Ascending(fs: seq<Field>) {
    forall i, j :: 0 <= i < j < |fs| ==> Rank(fs[i]) < Rank(fs[j])
  }

  lemma {:induction false} EntriesOfShape(find: Field -> Option<string>, fs: seq<Field>)
    requires forall f :: find(f).Some? ==> WellFormed((f, find(f).value))
    requires Ascending(fs)
    ensures |EntriesOf(find, fs)| <= |fs|
    ensures InOrder(EntriesOf(find, fs))
    ensures forall i :: 0 <= i < |EntriesOf(find, fs)| ==>
              WellFormed(EntriesOf(find, fs)[i]) && EntriesOf(find, fs)[i].0 in fs
    decreases |fs|
  {
    if |fs| > 0 {
      var init, last := fs[..|fs| - 1], fs[|fs| - 1];
      assert Ascending(init);
      EntriesOfShape(find, init);
      var es0 := EntriesOf(find, init);
      forall i | 0 <= i < |es0|
        ensures Rank(es0[i].0) < Rank(last) && es0[i].0 in fs
      {
        var k :| 0 <= k < |init| && init[k] == es0[i].0;
        assert fs[k] == init[k];
      }
    }
  }

  /** The value the entries show for field `f`, if they have a line for it. */
  function Lookup(es: seq<(Field, string)>, f: Field): Option<string>
    decreases |es|
  {
    if |es| == 0 then None
    else if es[|es| - 1].0 == f then Some(es[|es| - 1].1)
    else Lookup(es[..|es| - 1], f)
  }

  /** The entries show, for each field listed, exactly what `find` gives for it. */
  lemma {:induction false} EntriesOfField(find: Field -> Option<string>, fs: seq<Field>, f: Field)
    ensures Lookup(EntriesOf(find, fs), f) == if f in fs then find(f) else None
    decreases |fs|
  {
    if |fs| > 0 {
      var init, last := fs[..|fs| - 1], fs[|fs| - 1];
      EntriesOfField(find, init, f);
      var es0 := EntriesOf(find, init);
      var es := EntriesOf(find, fs);
      assert f in fs <==> f in init || f == last by {
        SplitLast(fs);
      }
      if find(last).Some? {
        assert es[..|es| - 1] == es0;
      } else {
        assert es == es0;
      }
    }
  }

  lemma SplitLast<T>(xs: seq<T>)
    requires |xs| > 0
    ensures xs == xs[..|xs| - 1] + [xs[|xs| - 1]]
  { }

  /**
   * At most one line per field, in the order Name, Role, Personality,
   * Current state, Worries; no value holds a newline or a bullet, and the
   * name is a single word.
   */
  lemma EntriesShape(instructions: string)
    ensures |Entries(instructions)| <= 5
    ensures InOrder(Entries(instructions))
    ensures forall i :: 0 <= i < |Entries(instructions)| ==> WellFormed(Entries(instructions)[i])
  {
    if !Text.Blank(instructions) {
      var find := FindIn(instructions);
      forall f | find(f).Some?
        ensures WellFormed((f, find(f).value))
      {
        FoundWellFormed(f, instructions);
      }
      EntriesOfShape(find, Fields);
    }
  }

  /**
   * A field has a line exactly when the instructions are not blank and its
   * pattern matches somewhere, and the line shows what `Found` takes from
   * the leftmost match.
   */
  lemma EntryForField(instructions: string, f: Field)
    ensures Lookup(Entries(instructions), f) == if Text.Blank(instructions) then None else Found(f, instructions)
  {
    if !Text.Blank(instructions) {
      var find := FindIn(instructions);
      assert find(f) == Found(f, instructions);
      assert f in Fields by {
        match f
        case Name => assert Fields[0] == f;
        case Role => assert Fields[1] == f;
        case Personality => assert Fields[2] == f;
        case EmotionalState => assert Fields[3] == f;
        case Worries => assert Fields[4] == f;
      }
      EntriesOfField(find, Fields, f);
    }
  }

  /** Each line has no newline, so the summary splits back into its lines. */
  lemma SummaryRoundTrip(instructions: string)
    requires |SummaryLines(instructions)| > 0
    ensures Text.SplitChar(Text.Join(SummaryLines(instructions), "\n"), '\n') == SummaryLines(instructions)
  {
    var es := Entries(instructions);
    var ls := SummaryLines(instructions);
    EntriesShape(instructions);
    forall i | 0 <= i < |ls|
      ensures '\n' !in ls[i]
    {
      assert ls[i] == Label(es[i].0) + es[i].1;
      assert WellFormed(es[i]);
    }
    assert "\n" == ['\n'];
    Text.SplitCharJoin(ls, '\n');
  }
}
