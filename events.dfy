/**
 * What the server sends to a session's stream. Both channels and the review
 * job broadcast to the same kind of stream; the pages react to these values.
 */
module Events {
  import opened Wrappers
  import ChatMessages
  import CoachMessages

  /**
   * A message as the pages receive it. Chat messages carry their phase;
   * coach messages and the page's own placeholder have none, and the
   * placeholder has no creation time.
   */
  datatype Payload = Payload(role: string, content: string, phase: Option<string>, createdAt: Option<nat>)

  function ChatPayload(m: ChatMessages.ChatMessage): Payload {
    Payload(m.role, m.content, Some(m.phase), Some(m.createdAt))
  }

  function CoachPayload(m: CoachMessages.CoachMessage): Payload {
    Payload(m.role, m.content, None, Some(m.createdAt))
  }

  /**
   * One broadcast, by its `type`. `ReviewEnqueued` is not sent to the page:
   * it records, at its place in the log, that a review job was queued.
   * An `AssistantComplete` without a `wrapping_up` key carries None.
   */
  datatype Event =
    | UserMessage(message: Payload)
    | AssistantStart
    | AssistantChunk(content: string)
    | AssistantComplete(message: Payload, wrappingUp: Option<bool>)
    | Error(text: string)
    | PhaseChanged(phase: string)
    | ReviewEnqueued(sessionId: nat)
    | ReviewStart
    | ReviewChunk(content: string)
    | ReviewComplete(content: string)
    | ReviewStatus(flag: bool)

  /** One `assistant_chunk` per streamed piece, in order. */
  function ChunkEvents(chunks: seq<string>): (r: seq<Event>)
    ensures |r| == |chunks|
    ensures forall i :: 0 <= i < |r| ==> r[i] == AssistantChunk(chunks[i])
  {
    seq(|chunks|, i requires 0 <= i < |chunks| => AssistantChunk(chunks[i]))
  }

  lemma ChunkEventsSnoc(chunks: seq<string>, c: string)
    ensures ChunkEvents(chunks + [c]) == ChunkEvents(chunks) + [AssistantChunk(c)]
  {
  }

  /** One `review_chunk` per relayed piece, in order. */
  function ReviewChunkEvents(chunks: seq<string>): (r: seq<Event>)
    ensures |r| == |chunks|
    ensures forall i :: 0 <= i < |r| ==> r[i] == ReviewChunk(chunks[i])
  {
    seq(|chunks|, i requires 0 <= i < |chunks| => ReviewChunk(chunks[i]))
  }

  lemma ReviewChunkEventsSnoc(chunks: seq<string>, c: string)
    ensures ReviewChunkEvents(chunks + [c]) == ReviewChunkEvents(chunks) + [ReviewChunk(c)]
  {
  }

  /** A review's broadcasts: the start, one review chunk per piece in order, then `tail`. */
  lemma ReviewChunksThen(chunks: seq<string>, tail: seq<Event>)
    ensures var es := [ReviewStart] + ReviewChunkEvents(chunks) + tail;
      var n := |chunks|;
      |es| == 1 + n + |tail| && es[0] == ReviewStart
      && (forall i :: 0 <= i < n ==> es[1 + i] == ReviewChunk(chunks[i]))
      && (forall j :: 0 <= j < |tail| ==> es[1 + n + j] == tail[j])
  {
    var pre := [ReviewStart] + ReviewChunkEvents(chunks);
    var es := pre + tail;
    var n := |chunks|;
    forall i | 0 <= i < n ensures es[1 + i] == ReviewChunk(chunks[i]) { assert es[1 + i] == pre[1 + i]; }
  }

  /**
   * A stream's broadcasts: the start, one chunk event per piece in order,
   * then `tail`; no error among them unless `tail` has one.
   */
  lemma ChunksThen(chunks: seq<string>, tail: seq<Event>)
    ensures var es := [AssistantStart] + ChunkEvents(chunks) + tail;
      var n := |chunks|;
      |es| == 1 + n + |tail| && es[0] == AssistantStart
      && (forall i :: 0 <= i < n ==> es[1 + i] == AssistantChunk(chunks[i]))
      && es[..1 + n] + tail == es
      && ((forall i :: 0 <= i < |tail| ==> !tail[i].Error?) ==> forall i :: 0 <= i < |es| ==> !es[i].Error?)
  {
    var pre := [AssistantStart] + ChunkEvents(chunks);
    var es := pre + tail;
    var n := |chunks|;
    assert es[..1 + n] == pre;
    forall i | 0 <= i < n
      ensures es[1 + i] == AssistantChunk(chunks[i])
    {
      assert es[1 + i] == pre[1 + i];
    }
    if forall i :: 0 <= i < |tail| ==> !tail[i].Error? {
      forall i | 0 <= i < |es|
        ensures !es[i].Error?
      {
        if i >= 1 + n {
          assert es[i] == tail[i - 1 - n];
        }
      }
    }
  }
}
