/** Coaching knowledge entries folded into the prompts. */
module Knowledges {
  import opened Wrappers
  import Text
  import Ordering

  /**
   * `legacy` is the plain `content` column that `pluck(:content)` reads;
   * `richText` is the plain text of the rich-text body.
   */
  datatype Knowledge = Knowledge(legacy: Option<string>, richText: string, active: bool, createdAt: nat)

  function IsActive(k: Knowledge): bool { k.active }

  function Newness(k: Knowledge): int { 0 - k.createdAt as int }

  /** `Knowledge.active.order(created_at: :desc)`. */
  function NewestActive(ks: seq<Knowledge>): (r: seq<Knowledge>)
    ensures forall i :: 0 <= i < |r| ==> r[i].active && r[i] in ks
    ensures forall i, j :: 0 <= i < j < |r| ==> r[i].createdAt >= r[j].createdAt
    ensures multiset(r) == multiset(Ordering.Filter(ks, IsActive))
    ensures Ordering.SortedBy(r, Newness)
  {
    var act := Ordering.Filter(ks, IsActive);
    Ordering.FilterMembers(ks, IsActive);
    var r := Ordering.SortBy(act, Newness);
    Ordering.SameMembers(r, act);
    r
  }

  /**
   * `compact.reject(&:blank?)`: the present texts of the input, in order and
   * as often as they occur.
   */
  function PresentTexts(ts: seq<Option<string>>): (r: seq<string>)
    ensures |r| == |Ordering.Filter(ts, Text.Present)|
    ensures forall i :: 0 <= i < |r| ==> Ordering.Filter(ts, Text.Present)[i] == Some(r[i])
    ensures forall i :: 0 <= i < |r| ==> !Text.Blank(r[i]) && Some(r[i]) in ts
  {
    if |ts| == 0 then []
    else if Text.Present(ts[0]) then [ts[0].value] + PresentTexts(ts[1..])
    else PresentTexts(ts[1..])
  }

  /** The legacy `content` column. */
  function LegacyText(k: Knowledge): Option<string> { k.legacy }

  /** The plain text of the rich-text body, `content_plain_text`. */
  function RichText(k: Knowledge): Option<string> { Some(k.richText) }

  /** `pluck` or `map` of one column: that column of each entry, in order. */
  function Pluck(ks: seq<Knowledge>, column: Knowledge -> Option<string>): seq<Option<string>> {
    seq(|ks|, i requires 0 <= i < |ks| => column(ks[i]))
  }

  function Filled(column: Knowledge -> Option<string>): Knowledge -> bool {
    (k: Knowledge) => Text.Present(column(k))
  }

  function ActiveFilled(column: Knowledge -> Option<string>): Knowledge -> bool {
    (k: Knowledge) => k.active && Text.Present(column(k))
  }

  /**
   * The entries a corpus is made of: every active entry whose column is
   * present, each as often as it is in the table, newest first.
   */
  function Sources(ks: seq<Knowledge>, column: Knowledge -> Option<string>): (r: seq<Knowledge>)
    ensures multiset(r) == multiset(Ordering.Filter(ks, ActiveFilled(column)))
    ensures forall i, j :: 0 <= i < j < |r| ==> r[i].createdAt >= r[j].createdAt
  {
    var ns := NewestActive(ks);
    var r := Ordering.Filter(ns, Filled(column));
    assert Ordering.SortedBy(ns, Newness);
    Ordering.FilterSorted(ns, Filled(column), Newness);
    assert forall i, j :: 0 <= i < j < |r| ==> Newness(r[i]) <= Newness(r[j]);
    Ordering.FilterPermutation(ns, Ordering.Filter(ks, IsActive), Filled(column));
    Ordering.FilterFilter(ks, IsActive, Filled(column), ActiveFilled(column));
    r
  }

  /** Plucking commutes with dropping the entries whose column is not present. */
  lemma {:induction false} PluckPresent(ks: seq<Knowledge>, column: Knowledge -> Option<string>)
    ensures Ordering.Filter(Pluck(ks, column), Text.Present) == Pluck(Ordering.Filter(ks, Filled(column)), column)
  {
    if |ks| > 0 {
      assert Pluck(ks, column)[1..] == Pluck(ks[1..], column);
      PluckPresent(ks[1..], column);
      if Filled(column)(ks[0]) {
        assert Pluck([ks[0]] + Ordering.Filter(ks[1..], Filled(column)), column)
            == [column(ks[0])] + Pluck(Ordering.Filter(ks[1..], Filled(column)), column);
      }
    }
  }

  /**
   * The texts of a corpus, `...order(created_at: :desc).pluck(...).compact.reject(&:blank?)`:
   * the column of each of its sources, in their order.
   */
  function Entries(ks: seq<Knowledge>, column: Knowledge -> Option<string>): (r: seq<string>)
    ensures |r| == |Sources(ks, column)|
    ensures forall i :: 0 <= i < |r| ==> column(Sources(ks, column)[i]) == Some(r[i]) && !Text.Blank(r[i])
  {
    var ns := NewestActive(ks);
    PluckPresent(ns, column);
    PresentTexts(Pluck(ns, column))
  }

  /** Every active entry with a present column contributes its text to the corpus. */
  lemma EveryActiveEntryIncluded(ks: seq<Knowledge>, column: Knowledge -> Option<string>, k: Knowledge)
    requires k in ks && k.active && Text.Present(column(k))
    ensures column(k).value in Entries(ks, column)
  {
    Ordering.FilterKeeps(ks, ActiveFilled(column), k);
    var src := Sources(ks, column);
    assert k in multiset(Ordering.Filter(ks, ActiveFilled(column)));
    assert k in multiset(src);
    var i :| 0 <= i < |src| && src[i] == k;
    assert Entries(ks, column)[i] == column(k).value;
  }

  /** The entries of the legacy-column corpus. */
  function LegacyEntries(ks: seq<Knowledge>): seq<string> {
    Entries(ks, LegacyText)
  }

  /** The entries of the rich-text corpus. */
  function RichEntries(ks: seq<Knowledge>): seq<string> {
    Entries(ks, RichText)
  }

  /** The corpus the review and coaching prompts embed, entries separated by a blank line. */
  function LegacyCorpus(ks: seq<Knowledge>): string {
    Text.Join(LegacyEntries(ks), "\n\n")
  }

  /** The corpus the debrief prompt embeds. */
  function RichCorpus(ks: seq<Knowledge>): string {
    Text.Join(RichEntries(ks), "\n\n")
  }

  /** With no active knowledge the corpus is empty. */
  lemma NoActiveNoCorpus(ks: seq<Knowledge>)
    requires forall i :: 0 <= i < |ks| ==> !ks[i].active
    ensures LegacyCorpus(ks) == "" && RichCorpus(ks) == ""
  {
    Ordering.FilterNone(ks, IsActive);
  }
}
