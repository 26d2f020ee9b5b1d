/**
 * The data migration that moves each system prompt's plain `content`
 * column into a rich-text record holding HTML paragraphs.
 */
module SystemPromptRichTextMigration {
  import opened Wrappers
  import Text
  import Html
  import Splitting

  predicate IsNewline(c: char) { c == '\n' }

  /** A prompt row as the migration reads it: its id and the legacy `content` column. */
  datatype LegacyPrompt = LegacyPrompt(id: nat, content: Option<string>)

  /** `sp[:content].to_s`. */
  function Body(p: LegacyPrompt): string {
    p.content.GetOr("")
  }

  /** One paragraph: escaped, single newlines turned into `<br>`, wrapped in `<p>`. */
  function ParagraphHtml(p: string): (r: string)
    ensures '\n' !in r
  {
    var inner := Html.BreakLines(Html.Escape(p));
    assert forall k :: 0 <= k < |"<p>" + inner + "</p>"| ==> ("<p>" + inner + "</p>")[k] != '\n';
    Html.Paragraph(inner)
  }

  /** The paragraphs one after the other, with no separator. */
  function Render(ps: seq<string>): (r: string)
    ensures '\n' !in r
  {
    if |ps| == 0 then ""
    else
      var h := ParagraphHtml(ps[0]);
      var t := Render(ps[1..]);
      assert forall k :: 0 <= k < |h + t| ==> (h + t)[k] != '\n';
      h + t
  }

  /** The HTML body written for a prompt: its paragraphs split on runs of two or more newlines. */
  function ToHtml(body: string): (r: string)
    ensures '\n' !in r
  {
    Render(Splitting.Split(body, IsNewline))
  }

  /** A paragraph the splitter returns unchanged. */
  predicate Piece(p: string) {
    |p| > 0 && !IsNewline(p[0]) && !IsNewline(p[|p| - 1]) && Splitting.NoPair(p, IsNewline)
  }

  lemma JoinHead(ps: seq<string>, sep: string)
    requires |ps| > 0 && |ps[0]| > 0
    ensures |Text.Join(ps, sep)| > 0 && Text.Join(ps, sep)[0] == ps[0][0]
  {
  }

  /** Paragraphs joined by a run of separator characters split back into themselves. */
  lemma {:induction false} RawSplitJoin(ps: seq<string>, run: string, sep: char -> bool)
    requires |ps| > 0
    requires |run| >= 2 && forall k :: 0 <= k < |run| ==> sep(run[k])
    requires forall i :: 0 <= i < |ps| ==>
      |ps[i]| > 0 && !sep(ps[i][0]) && !sep(ps[i][|ps[i]| - 1]) && Splitting.NoPair(ps[i], sep)
    ensures Splitting.RawSplit(Text.Join(ps, run), sep) == ps
  {
    if |ps| == 1 {
      Splitting.RawSplitLast(ps[0], sep);
    } else {
      RawSplitJoin(ps[1..], run, sep);
      JoinHead(ps[1..], run);
      Splitting.RawSplitCons(ps[0], run, Text.Join(ps[1..], run), sep);
      assert [ps[0]] + ps[1..] == ps;
    }
  }

  /**
   * A body whose paragraphs are separated by exactly one blank line is
   * rendered as those paragraphs, in order.
   */
  lemma ToHtmlParagraphs(ps: seq<string>)
    requires forall i :: 0 <= i < |ps| ==> Piece(ps[i])
    ensures ToHtml(Text.Join(ps, "\n\n")) == Render(ps)
  {
    if |ps| > 0 {
      var body := Text.Join(ps, "\n\n");
      JoinHead(ps, "\n\n");
      var run := "\n\n";
      assert |run| == 2 && run[0] == '\n' && run[1] == '\n';
      forall k | 0 <= k < |run|
        ensures IsNewline(run[k])
      {
        assert k == 0 || k == 1;
      }
      assert forall i :: 0 <= i < |ps| ==>
        |ps[i]| > 0 && !IsNewline(ps[i][0]) && !IsNewline(ps[i][|ps[i]| - 1]) && Splitting.NoPair(ps[i], IsNewline);
      RawSplitJoin(ps, run, IsNewline);
      assert Splitting.RawSplit(body, IsNewline) == ps;
      assert ps[|ps| - 1] != "";
      assert Splitting.DropTrailingEmpty(ps) == ps;
      assert Splitting.Split(body, IsNewline) == ps;
    }
  }

  /** Prompts the migration converts: those with a non-blank body. */
  predicate Converts(p: LegacyPrompt) {
    !Text.Blank(Body(p))
  }

  /** `id` belongs to a converted prompt of `prompts`. */
  predicate ConvertedId(prompts: seq<LegacyPrompt>, id: nat) {
    exists i :: 0 <= i < |prompts| && prompts[i].id == id && Converts(prompts[i])
  }

  /** Every converted prompt without a rich-text record has its converted body in `rich`. */
  predicate Installed(prompts: seq<LegacyPrompt>, existing: map<nat, string>, rich: map<nat, string>) {
    forall i :: 0 <= i < |prompts| && Converts(prompts[i]) && prompts[i].id !in existing ==>
      prompts[i].id in rich && rich[prompts[i].id] == ToHtml(Body(prompts[i]))
  }

  /** What the loop of `up` keeps: records are kept, and each is an existing one or a converted prompt's. */
  predicate UpInvariant(prompts: seq<LegacyPrompt>, existing: map<nat, string>, rich: map<nat, string>) {
    (forall id :: id in existing ==> id in rich && rich[id] == existing[id])
    && Installed(prompts, existing, rich)
    && (forall id :: id in rich ==> id in existing || ConvertedId(prompts, id))
  }

  /** The rich-text records after handling one more prompt. */
  function UpStep(rich: map<nat, string>, sp: LegacyPrompt): map<nat, string> {
    if Converts(sp) && sp.id !in rich then rich[sp.id := ToHtml(Body(sp))] else rich
  }

  lemma InstalledStep(prompts: seq<LegacyPrompt>, sp: LegacyPrompt, existing: map<nat, string>, rich: map<nat, string>)
    requires forall i :: 0 <= i < |prompts| ==> prompts[i].id != sp.id
    requires forall id :: id in rich ==> id in existing || ConvertedId(prompts, id)
    requires Installed(prompts, existing, rich)
    ensures Installed(prompts + [sp], existing, UpStep(rich, sp))
  {
    var ps := prompts + [sp];
    var r := UpStep(rich, sp);
    forall i | 0 <= i < |ps| && Converts(ps[i]) && ps[i].id !in existing
      ensures ps[i].id in r && r[ps[i].id] == ToHtml(Body(ps[i]))
    {
      if i < |prompts| {
        assert ps[i] == prompts[i];
      } else {
        assert ps[i] == sp;
      }
    }
  }

  lemma NoOtherStep(prompts: seq<LegacyPrompt>, sp: LegacyPrompt, existing: map<nat, string>, rich: map<nat, string>)
    requires forall id :: id in rich ==> id in existing || ConvertedId(prompts, id)
    ensures forall id :: id in UpStep(rich, sp) ==> id in existing || ConvertedId(prompts + [sp], id)
  {
    var ps := prompts + [sp];
    forall id | id in UpStep(rich, sp)
      ensures id in existing || ConvertedId(ps, id)
    {
      if id in rich {
        if !(id in existing) {
          var i :| 0 <= i < |prompts| && prompts[i].id == id && Converts(prompts[i]);
          assert ps[i] == prompts[i];
        }
      } else {
        assert ps[|prompts|] == sp;
      }
    }
  }

  /** One more prompt of `up` keeps the invariant. */
  lemma UpStepKeeps(prompts: seq<LegacyPrompt>, n: nat, existing: map<nat, string>, rich: map<nat, string>)
    requires forall i, j :: 0 <= i < j < |prompts| ==> prompts[i].id != prompts[j].id
    requires n < |prompts|
    requires UpInvariant(prompts[..n], existing, rich)
    ensures UpInvariant(prompts[..n + 1], existing, UpStep(rich, prompts[n]))
  {
    var done := prompts[..n];
    assert forall i :: 0 <= i < |done| ==> done[i].id != prompts[n].id by {
      forall i | 0 <= i < |done|
        ensures done[i].id != prompts[n].id
      {
        assert done[i] == prompts[i];
      }
    }
    InstalledStep(done, prompts[n], existing, rich);
    NoOtherStep(done, prompts[n], existing, rich);
    PrefixSnoc(prompts, n);
  }

  lemma PrefixSnoc<T>(xs: seq<T>, n: nat)
    requires n < |xs|
    ensures xs[..n + 1] == xs[..n] + [xs[n]]
  { }

  /**
   * `up`: every prompt with a non-blank body gets a rich-text record unless
   * it already has one (`find_or_create_by!` never overwrites); blank
   * bodies are skipped. `existing` maps a prompt id to its rich-text body.
   */
  method Up(prompts: seq<LegacyPrompt>, existing: map<nat, string>) returns (rich: map<nat, string>)
    requires forall i, j :: 0 <= i < j < |prompts| ==> prompts[i].id != prompts[j].id
    ensures forall id :: id in existing ==> id in rich && rich[id] == existing[id]
    ensures Installed(prompts, existing, rich)
    ensures forall id :: id in rich ==> id in existing || ConvertedId(prompts, id)
  {
    rich := existing;
    var n := 0;
    while n < |prompts|
      invariant 0 <= n <= |prompts|
      invariant UpInvariant(prompts[..n], existing, rich)
    {
      var sp := prompts[n];
      var body := Body(sp);
      ghost var before := rich;
      if !Text.Blank(body) && sp.id !in rich {
        rich := rich[sp.id := ToHtml(body)];
      }
      assert rich == UpStep(before, sp);
      UpStepKeeps(prompts, n, existing, before);
      n := n + 1;
    }
    assert prompts[..n] == prompts;
  }
}
