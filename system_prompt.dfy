/** Named prompt texts kept in the database, with a rich-text body and a legacy text column. */
module SystemPrompts {
  import opened Wrappers
  import Text

  /** A rich-text body: its stored HTML and the plain text it renders to. */
  datatype RichBody = RichBody(html: string, plainText: string)

  /** `body` is the rich-text body, if any; `legacy` is the older plain text column. */
  datatype SystemPrompt = SystemPrompt(key: Option<string>, body: Option<RichBody>, legacy: Option<string>)

  /** `content.body&.present?`: the body's HTML is present. */
  predicate BodyPresent(p: SystemPrompt) {
    p.body.Some? && !Text.Blank(p.body.value.html)
  }

  /** `content.to_plain_text`: the body's plain text, none without a body. */
  function RichText(p: SystemPrompt): Option<string> {
    if p.body.Some? then Some(p.body.value.plainText) else None
  }

  /** The custom validation: the body's HTML or the legacy column must be present. */
  predicate ContentPresent(p: SystemPrompt) {
    BodyPresent(p) || Text.Present(p.legacy)
  }

  /** Key present and not used by another prompt, and some content present. */
  predicate Valid(p: SystemPrompt, otherKeys: seq<string>) {
    Text.Present(p.key) && p.key.value !in otherKeys && ContentPresent(p)
  }

  /** `find_by(key:)`: the first prompt with that key. */
  function Find(ps: seq<SystemPrompt>, key: string): (r: Option<SystemPrompt>)
    ensures r.Some? ==> r.value in ps && r.value.key == Some(key)
    ensures r.None? ==> forall i :: 0 <= i < |ps| ==> ps[i].key != Some(key)
  {
    if |ps| == 0 then None
    else if ps[0].key == Some(key) then Some(ps[0])
    else Find(ps[1..], key)
  }

  /**
   * `fetch(key) { fallback }`: the rich text when present, else the legacy
   * text when present, else the block's value (None when no block is given).
   */
  function Fetch(ps: seq<SystemPrompt>, key: string, fallback: Option<string>): (r: Option<string>)
    ensures Find(ps, key).Some? && Text.Present(RichText(Find(ps, key).value))
            ==> r == RichText(Find(ps, key).value)
    ensures (Find(ps, key).Some? && !Text.Present(RichText(Find(ps, key).value))
             && Text.Present(Find(ps, key).value.legacy)) ==> r == Find(ps, key).value.legacy
    ensures (Find(ps, key).None? || (!Text.Present(RichText(Find(ps, key).value))
             && !Text.Present(Find(ps, key).value.legacy))) ==> r == fallback
  {
    match Find(ps, key)
    case Some(p) =>
      if Text.Present(RichText(p)) then RichText(p)
      else if Text.Present(p.legacy) then p.legacy
      else fallback
    case None => fallback
  }

  /** What `fetch` returns is present text, unless it is the fallback. */
  lemma FetchPresentOrFallback(ps: seq<SystemPrompt>, key: string, fallback: Option<string>)
    ensures Text.Present(Fetch(ps, key, fallback)) || Fetch(ps, key, fallback) == fallback
  {
  }

  /**
   * When the prompt found for the key passes validation, and a present body
   * renders to present plain text, the fallback is never used.
   */
  lemma ValidPromptFetched(ps: seq<SystemPrompt>, key: string, fallback: Option<string>, otherKeys: seq<string>)
    requires Find(ps, key).Some? && Valid(Find(ps, key).value, otherKeys)
    requires BodyPresent(Find(ps, key).value) ==> Text.Present(RichText(Find(ps, key).value))
    ensures Text.Present(Fetch(ps, key, fallback))
    ensures Fetch(ps, key, fallback) == RichText(Find(ps, key).value)
            || Fetch(ps, key, fallback) == Find(ps, key).value.legacy
  {
  }

  /**
   * A body whose HTML has markup but no text, such as `<div><br></div>`,
   * passes validation, yet `fetch` skips it and, without a legacy text,
   * returns the fallback.
   */
  lemma MarkupOnlyBodyFallsBack(fallback: Option<string>)
    ensures var p := SystemPrompt(Some("clary_soul"), Some(RichBody("<div><br></div>", "")), None);
      Valid(p, []) && Fetch([p], "clary_soul", fallback) == fallback
  {
    assert !Text.IsBlankSpace("clary_soul"[0]);
    assert !Text.IsBlankSpace("<div><br></div>"[0]);
  }
}
