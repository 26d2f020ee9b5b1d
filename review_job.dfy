/**
 * The conversation review job: it asks the model for a short review of the
 * session, relays the review to the session's page as it streams, and
 * reports whether the session should wrap up.
 */
module ConversationReviewJob {
  import opened Wrappers
  import Text
  import Json
  import Llm
  import Events
  import Ordering
  import RolePlaySessions
  import ConversationReviewService

  const ReviewModel: string := "gpt-4o-mini"
  const ReviewTemperature: real := 0.2
  const ReviewMaxTokens: nat := 120

  /** The request the job makes for the messages it built. */
  function ReviewRequest(messages: seq<Llm.PromptMessage>): Llm.Request {
    Llm.Request(messages, ReviewModel, ReviewTemperature, Llm.Capped(ReviewMaxTokens))
  }

  // ---- The status line -------------------------------------------------------

  /** A last line the job takes as its status line: braces at both ends, and valid JSON. */
  predicate IsStatusLine(line: string) {
    Text.StartsWith(line, "{") && Text.EndsWith(line, "}") && Json.Parse(line).Some?
  }

  /**
   * The flag and the review without its status line. Without a status
   * line, or when the line does not parse, there is no flag and the text is
   * kept whole. The text kept is always a prefix of the review.
   */
  function ParseStatus(content: string): (r: (Option<bool>, string))
    ensures r.0.None? ==> r.1 == content
    ensures Text.StartsWith(content, r.1)
  {
    var line := Text.LastLine(content);
    if Text.StartsWith(line, "{") && Text.EndsWith(line, "}") then
      match Json.Parse(line)
      // `JSON::ParserError` is rescued: no flag, the text as it came.
      case None => (None, content)
      case Some(obj) => (Some(Json.Truthy(Json.Get(obj, "wrapping_up"))), Text.WithoutLastLine(content))
    else (None, content)
  }

  /** A flag is reported exactly when the last line is a status line. */
  lemma ParseStatusFlag(content: string)
    ensures ParseStatus(content).0.Some? <==> IsStatusLine(Text.LastLine(content))
  {
  }

  /** The single-line JSON objects the reply may end with have no line break and sit between braces. */
  lemma PrintedLine(obj: Json.Object)
    requires Json.ValidObject(obj)
    ensures var l := Json.Print(obj);
      |l| >= 2 && l[0] == '{' && l[|l| - 1] == '}' && forall i :: 0 <= i < |l| ==> l[i] != '\n'
  {
    var l := Json.Print(obj);
    if |obj| > 0 {
      PrintMembersOneLine(obj);
      assert l == "{" + Json.PrintMembers(obj) + "}";
    }
  }

  lemma {:induction false} PrintMembersOneLine(obj: Json.Object)
    requires |obj| > 0 && Json.ValidObject(obj)
    ensures forall i :: 0 <= i < |Json.PrintMembers(obj)| ==> Json.PrintMembers(obj)[i] != '\n'
  {
    var k := obj[0].0;
    var v := obj[0].1;
    assert forall j :: 0 <= j < |k| ==> Json.IsStrChar(k[j]);
    assert Json.ValidValue(v);
    var head := Json.PrintString(k) + ": " + Json.PrintValue(v);
    assert forall i :: 0 <= i < |head| ==> head[i] != '\n';
    if |obj| > 1 {
      assert Json.ValidObject(obj[1..]);
      PrintMembersOneLine(obj[1..]);
    }
  }

  /**
   * A review written as the prompt asks, bullets then one JSON line, gives
   * back the line's `wrapping_up` truth value and the bullets without
   * trailing white space.
   */
  lemma StatusRoundTrip(bullets: string, obj: Json.Object)
    requires Json.ValidObject(obj)
    ensures ParseStatus(bullets + "\n" + Json.Print(obj))
         == (Some(Json.Truthy(Json.Get(obj, "wrapping_up"))), Text.RStrip(bullets))
  {
    var l := Json.Print(obj);
    var c := bullets + "\n" + l;
    PrintedLineFramed(obj);
    assert Text.LastLine(c) == l && Text.WithoutLastLine(c) == Text.RStrip(bullets) by {
      PrintedLine(obj);
      Text.LastLineAfter(bullets, l);
      Text.StripUnchanged(l);
    }
    Json.ParsePrint(obj);
    ParseStatusParsed(c, obj);
  }

  /** The printed object starts with "{" and ends with "}". */
  lemma PrintedLineFramed(obj: Json.Object)
    requires Json.ValidObject(obj)
    ensures Text.StartsWith(Json.Print(obj), "{") && Text.EndsWith(Json.Print(obj), "}")
  {
    var l := Json.Print(obj);
    PrintedLine(obj);
    assert l[..1] == "{";
    assert l[|l| - 1..] == "}";
  }

  /** A last line between braces that parses gives its flag and the text before it. */
  lemma ParseStatusParsed(content: string, obj: Json.Object)
    requires Text.StartsWith(Text.LastLine(content), "{") && Text.EndsWith(Text.LastLine(content), "}")
    requires Json.Parse(Text.LastLine(content)) == Some(obj)
    ensures ParseStatus(content) == (Some(Json.Truthy(Json.Get(obj, "wrapping_up"))), Text.WithoutLastLine(content))
  {
  }

  /** Both answers the prompt asks for are read back, and an object without the key reads as false. */
  lemma StatusAnswers(bullets: string, b: bool)
    ensures ParseStatus(bullets + "\n" + Json.Print([("wrapping_up", Json.Bool(b))])) == (Some(b), Text.RStrip(bullets))
    ensures ParseStatus(bullets + "\n" + Json.Print([])) == (Some(false), Text.RStrip(bullets))
  {
    var obj: Json.Object := [("wrapping_up", Json.Bool(b))];
    assert Json.ValidObject(obj) by {
      var k := "wrapping_up";
      assert forall j :: 0 <= j < |k| ==> Json.IsStrChar(k[j]);
    }
    StatusRoundTrip(bullets, obj);
    assert Json.Get(obj, "wrapping_up") == Some(Json.Bool(b));
    StatusRoundTrip(bullets, []);
  }

  /** A last line between braces that is not valid JSON is left in the review, and no flag is reported. */
  lemma MalformedStatusKept(content: string)
    requires Text.StartsWith(Text.LastLine(content), "{") && Text.EndsWith(Text.LastLine(content), "}")
    requires Json.Parse(Text.LastLine(content)).None?
    ensures ParseStatus(content) == (None, content)
  {
  }

  // ---- What the job broadcasts ----------------------------------------------

  function IsNonEmpty(c: string): bool { c != "" }

  /** The pieces the job relays: the stream's pieces without the empty ones, in order. */
  function Kept(chunks: seq<string>): seq<string> {
    Ordering.Filter(chunks, IsNonEmpty)
  }

  /** The job relays every non-empty piece and nothing else. */
  lemma KeptMembers(chunks: seq<string>)
    ensures forall i :: 0 <= i < |Kept(chunks)| ==> Kept(chunks)[i] != "" && Kept(chunks)[i] in chunks
    ensures forall i :: 0 <= i < |chunks| && chunks[i] != "" ==> chunks[i] in Kept(chunks)
  {
    Ordering.FilterMembers(chunks, IsNonEmpty);
  }

  lemma KeptSnoc(chunks: seq<string>, c: string)
    ensures Kept(chunks + [c]) == Kept(chunks) + (if c != "" then [c] else [])
  {
    Ordering.FilterAppend(chunks, [c], IsNonEmpty);
  }

  /** What closes a run: `review_complete` with the cleaned text, then `review_status` only when there is a flag. */
  function StatusEvents(status: (Option<bool>, string)): seq<Events.Event> {
    [Events.ReviewComplete(status.1)] + (if status.0.Some? then [Events.ReviewStatus(status.0.value)] else [])
  }

  /** The broadcasts of a run of the job on a stream: start, pieces, the review, and the flag if any. */
  function ReviewEvents(reply: Llm.StreamReply): seq<Events.Event> {
    var kept := Kept(reply.chunks);
    [Events.ReviewStart] + Events.ReviewChunkEvents(kept)
    + (if reply.Failed? then [] else StatusEvents(ParseStatus(Text.Concat(kept))))
  }

  /**
   * The order of the job's broadcasts: `review_start`, one `review_chunk`
   * per non-empty piece in stream order, then, unless the stream raised,
   * `review_complete` with a prefix of the streamed text and, only when a
   * flag was read, one `review_status`.
   */
  lemma ReviewEventsOrder(reply: Llm.StreamReply)
    ensures var es := ReviewEvents(reply);
      var kept := Kept(reply.chunks);
      var n := |kept|;
      var status := ParseStatus(Text.Concat(kept));
      |es| >= 1 + n && es[0] == Events.ReviewStart
      && (forall i :: 0 <= i < n ==> es[1 + i] == Events.ReviewChunk(kept[i]) && kept[i] != "")
      && (reply.Failed? ==> |es| == 1 + n)
      && (reply.Streamed? ==>
            |es| == 2 + n + (if status.0.Some? then 1 else 0)
            && es[1 + n] == Events.ReviewComplete(status.1)
            && Text.StartsWith(Text.Concat(kept), status.1)
            && (status.0.Some? ==> es[2 + n] == Events.ReviewStatus(status.0.value)))
  {
    var kept := Kept(reply.chunks);
    KeptMembers(reply.chunks);
    var status := ParseStatus(Text.Concat(kept));
    var tail := if reply.Failed? then [] else StatusEvents(status);
    Events.ReviewChunksThen(kept, tail);
  }

  /** The relaying loop: each non-empty piece is appended to the review and broadcast. */
  method RelayReview(chunks: seq<string>) returns (content: string, relayed: seq<Events.Event>)
    ensures content == Text.Concat(Kept(chunks))
    ensures relayed == Events.ReviewChunkEvents(Kept(chunks))
  {
    content := "";
    relayed := [];
    ghost var kept: seq<string> := [];
    var i := 0;
    while i < |chunks|
      invariant 0 <= i <= |chunks|
      invariant kept == Kept(chunks[..i])
      invariant content == Text.Concat(kept)
      invariant relayed == Events.ReviewChunkEvents(kept)
    {
      assert chunks[..i + 1] == chunks[..i] + [chunks[i]];
      KeptSnoc(chunks[..i], chunks[i]);
      // Nil and empty pieces are skipped.
      if chunks[i] != "" {
        Text.ConcatSnoc(kept, chunks[i]);
        Events.ReviewChunkEventsSnoc(kept, chunks[i]);
        content := content + chunks[i];
        relayed := relayed + [Events.ReviewChunk(chunks[i])];
        kept := kept + [chunks[i]];
      }
      i := i + 1;
    }
    assert chunks[..|chunks|] == chunks;
  }

  /**
   * `perform`: builds the review prompt from the session, asks the model
   * with the job's settings and returns what it broadcasts, in order. A
   * stream that raises ends the job after the pieces it delivered.
   */
  method Perform(session: RolePlaySessions.Session, db: RolePlaySessions.Db, now: int, reply: Llm.StreamReply)
    returns (request: Llm.Request, events: seq<Events.Event>)
    ensures request == ReviewRequest(ConversationReviewService.BuildMessagesFor(
      session.rolePlay, session.startedAt, session.chatMessages, db.knowledge, now))
    ensures events == ReviewEvents(reply)
  {
    request := ReviewRequest(ConversationReviewService.BuildMessagesFor(
      session.rolePlay, session.startedAt, session.chatMessages, db.knowledge, now));
    events := Broadcast(reply);
  }

  /** The broadcasts of `perform` on the model's stream, in order. */
  method Broadcast(reply: Llm.StreamReply) returns (events: seq<Events.Event>)
    ensures events == ReviewEvents(reply)
  {
    var content, relayed := RelayReview(reply.chunks);
    // A stream that raises leaves the job before the review is completed.
    var closing: seq<Events.Event> := [];
    if reply.Streamed? {
      closing := Complete(content);
    }
    events := [Events.ReviewStart] + relayed + closing;
  }

  /** After the stream: the status line is read, then `review_complete` and, with a flag, `review_status`. */
  method Complete(content: string) returns (closing: seq<Events.Event>)
    ensures closing == StatusEvents(ParseStatus(content))
  {
    var status := ParseStatus(content);
    closing := [Events.ReviewComplete(status.1)];
    if status.0.Some? {
      closing := closing + [Events.ReviewStatus(status.0.value)];
    }
  }
}
