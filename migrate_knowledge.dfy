/**
 * The data migration that moves each knowledge entry's plain `content`
 * column into a rich-text body of HTML paragraphs.
 */
module KnowledgeRichTextMigration {
  import opened Wrappers
  import Text
  import Html
  import Splitting

  /** What `/(?:\s{2,}|\n{2,})/` separates on: runs of two or more ASCII whitespace characters. */
  function IsSep(c: char): bool { Text.IsRegexSpace(c) }

  /** The paragraph texts: split on runs of two or more whitespace characters, each stripped. */
  function ParagraphTexts(text: string): (r: seq<string>)
    ensures |r| == |Splitting.Split(Text.Strip(text), IsSep)|
    ensures forall i :: 0 <= i < |r| ==> Splitting.NoPair(r[i], IsSep)
  {
    var pieces := Splitting.Split(Text.Strip(text), IsSep);
    var r := seq(|pieces|, i requires 0 <= i < |pieces| => Text.Strip(pieces[i]));
    forall i | 0 <= i < |r|
      ensures Splitting.NoPair(r[i], IsSep)
    {
      StripNoPair(pieces[i]);
    }
    r
  }

  /** A substring of a text without a run has none. */
  lemma SliceNoPair(s: string, a: nat, b: nat)
    requires a <= b <= |s|
    requires Splitting.NoPair(s, IsSep)
    ensures Splitting.NoPair(s[a..b], IsSep)
  {
    var t := s[a..b];
    forall k | 0 <= k < |t|
      ensures !Splitting.PairAt(t, IsSep, k)
    {
      assert !Splitting.PairAt(s, IsSep, a + k);
      if k + 1 < |t| {
        assert t[k] == s[a + k] && t[k + 1] == s[a + k + 1];
      }
    }
  }

  lemma StripNoPair(p: string)
    requires Splitting.NoPair(p, IsSep)
    ensures Splitting.NoPair(Text.Strip(p), IsSep)
  {
    var right := Text.TrimRight(p, Text.IsStripSpace);
    assert right == p[..|right|];
    SliceNoPair(p, 0, |right|);
    var both := Text.TrimLeft(right, Text.IsStripSpace);
    assert both == right[|right| - |both|..|right|];
    SliceNoPair(right, |right| - |both|, |right|);
  }

  /** No HTML text character is an ASCII whitespace character. */
  lemma SepNotEntity()
    ensures forall c :: IsSep(c) ==> !Html.EntityChar(c)
  {
  }

  /** The paragraphs, escaped and wrapped in `<p>`: exactly two tags open per paragraph. */
  function Render(ts: seq<string>): (r: string)
    ensures Html.Count(r, '<') == 2 * |ts|
  {
    if |ts| == 0 then ""
    else
      var h := Html.Paragraph(Html.Escape(ts[0]));
      var t := Render(ts[1..]);
      Html.ParagraphTags(ts[0]);
      Html.CountAppend(h, t, '<');
      h + t
  }

  /** `plain_text_to_html`: as many `<p>` elements as the text has paragraphs. */
  function PlainTextToHtml(text: string): (r: string)
    ensures Html.Count(r, '<') == 2 * |Splitting.Split(Text.Strip(text), IsSep)|
  {
    Render(ParagraphTexts(text))
  }

  /**
   * No emitted paragraph, once escaped, holds two whitespace characters in a
   * row: escaping keeps the whitespace of the stripped piece as it was.
   */
  lemma EmittedNoAdjacentSpace(text: string, i: nat)
    requires i < |ParagraphTexts(text)|
    ensures forall k :: 0 <= k < |Html.Escape(ParagraphTexts(text)[i])| - 1 ==>
      !(IsSep(Html.Escape(ParagraphTexts(text)[i])[k]) && IsSep(Html.Escape(ParagraphTexts(text)[i])[k + 1]))
  {
    var t := ParagraphTexts(text)[i];
    assert Splitting.NoPair(t, IsSep);
    forall k | 0 <= k < |t| - 1
      ensures !(IsSep(t[k]) && IsSep(t[k + 1]))
    {
      assert !Splitting.PairAt(t, IsSep, k);
    }
    SepNotEntity();
    Html.EscapeNoAdjacent(t, IsSep);
  }

  /** A knowledge row as the migration reads it. */
  datatype LegacyKnowledge = LegacyKnowledge(id: nat, content: Option<string>)

  predicate Converts(k: LegacyKnowledge) {
    k.content.Some? && !Text.Blank(k.content.value)
  }

  /** `id` belongs to a row of `rows` whose content is converted. */
  predicate ConvertedId(rows: seq<LegacyKnowledge>, id: nat) {
    exists i :: 0 <= i < |rows| && rows[i].id == id && Converts(rows[i])
  }

  /** Every converted row has its HTML body. */
  predicate Installed(rows: seq<LegacyKnowledge>, r: map<nat, string>) {
    forall i :: 0 <= i < |rows| && Converts(rows[i]) ==>
      rows[i].id in r && r[rows[i].id] == PlainTextToHtml(rows[i].content.value)
  }

  /** Every body of a row that is not converted is as it was. */
  predicate Kept(rows: seq<LegacyKnowledge>, bodies: map<nat, string>, r: map<nat, string>) {
    forall id :: id in bodies && !ConvertedId(rows, id) ==> id in r && r[id] == bodies[id]
  }

  /** Every body was there before or is a converted row's. */
  predicate NoOther(rows: seq<LegacyKnowledge>, bodies: map<nat, string>, r: map<nat, string>) {
    forall id :: id in r ==> id in bodies || ConvertedId(rows, id)
  }

  /** What the loop of `up` keeps. */
  predicate UpInvariant(rows: seq<LegacyKnowledge>, bodies: map<nat, string>, r: map<nat, string>) {
    Installed(rows, r) && Kept(rows, bodies, r) && NoOther(rows, bodies, r)
  }

  function UpStep(r: map<nat, string>, row: LegacyKnowledge): map<nat, string> {
    if Converts(row) then r[row.id := PlainTextToHtml(row.content.value)] else r
  }

  lemma InstalledStep(rows: seq<LegacyKnowledge>, row: LegacyKnowledge, r: map<nat, string>)
    requires forall i :: 0 <= i < |rows| ==> rows[i].id != row.id
    requires Installed(rows, r)
    ensures Installed(rows + [row], UpStep(r, row))
  {
    var rs := rows + [row];
    var r' := UpStep(r, row);
    forall i | 0 <= i < |rs| && Converts(rs[i])
      ensures rs[i].id in r' && r'[rs[i].id] == PlainTextToHtml(rs[i].content.value)
    {
      if i < |rows| {
        assert rs[i] == rows[i];
      } else {
        assert rs[i] == row;
      }
    }
  }

  lemma KeptStep(rows: seq<LegacyKnowledge>, row: LegacyKnowledge, bodies: map<nat, string>, r: map<nat, string>)
    requires Kept(rows, bodies, r)
    ensures Kept(rows + [row], bodies, UpStep(r, row))
  {
    var rs := rows + [row];
    forall id | ConvertedId(rows, id)
      ensures ConvertedId(rs, id)
    {
      var i :| 0 <= i < |rows| && rows[i].id == id && Converts(rows[i]);
      assert rs[i] == rows[i];
    }
    assert Converts(row) ==> ConvertedId(rs, row.id) by {
      assert rs[|rows|] == row;
    }
  }

  lemma NoOtherStep(rows: seq<LegacyKnowledge>, row: LegacyKnowledge, bodies: map<nat, string>, r: map<nat, string>)
    requires NoOther(rows, bodies, r)
    ensures NoOther(rows + [row], bodies, UpStep(r, row))
  {
    var rs := rows + [row];
    var r' := UpStep(r, row);
    forall id | id in r'
      ensures id in bodies || ConvertedId(rs, id)
    {
      if id in r && !(id in bodies) {
        var i :| 0 <= i < |rows| && rows[i].id == id && Converts(rows[i]);
        assert rs[i] == rows[i];
      } else if id !in r {
        assert rs[|rows|] == row;
      }
    }
  }

  /** One more row of `up` keeps the invariant. */
  lemma UpInvariantStep(rows: seq<LegacyKnowledge>, n: nat, bodies: map<nat, string>, r: map<nat, string>)
    requires forall i, j :: 0 <= i < j < |rows| ==> rows[i].id != rows[j].id
    requires n < |rows|
    requires UpInvariant(rows[..n], bodies, r)
    ensures UpInvariant(rows[..n + 1], bodies, UpStep(r, rows[n]))
  {
    var done := rows[..n];
    assert forall i :: 0 <= i < |done| ==> done[i].id != rows[n].id by {
      forall i | 0 <= i < |done|
        ensures done[i].id != rows[n].id
      {
        assert done[i] == rows[i];
      }
    }
    InstalledStep(done, rows[n], r);
    KeptStep(done, rows[n], bodies, r);
    NoOtherStep(done, rows[n], bodies, r);
    PrefixSnoc(rows, n);
  }

  lemma PrefixSnoc<T>(xs: seq<T>, n: nat)
    requires n < |xs|
    ensures xs[..n + 1] == xs[..n] + [xs[n]]
  { }

  /**
   * `up`: every row with non-blank content gets it as HTML, every other
   * body is left as it was, and no other body appears (`UpInvariant` over
   * all rows).
   */
  method Up(rows: seq<LegacyKnowledge>, bodies: map<nat, string>) returns (r: map<nat, string>)
    requires forall i, j :: 0 <= i < j < |rows| ==> rows[i].id != rows[j].id
    ensures UpInvariant(rows, bodies, r)
  {
    r := bodies;
    var n := 0;
    while n < |rows|
      invariant 0 <= n <= |rows|
      invariant UpInvariant(rows[..n], bodies, r)
    {
      var row := rows[n];
      ghost var before := r;
      if row.content.Some? && !Text.Blank(row.content.value) {
        r := r[row.id := PlainTextToHtml(row.content.value)];
      }
      assert r == UpStep(before, row);
      UpInvariantStep(rows, n, bodies, before);
      n := n + 1;
    }
    assert rows[..n] == rows;
  }
}
