/**
 * The coaching chat that follows a session: the coach's prompt, built from
 * the whole role-play transcript, the knowledge and the coaching history,
 * and one user turn with its streamed reply.
 */
module CoachChannel {
  import opened Wrappers
  import Text
  import ChatMessages
  import CoachMessages
  import RolePlaySessions
  import Knowledges
  import Events
  import Llm
  import ConversationReviewService
  import Ordering

  const CoachModel: string := "gpt-4o"
  const CoachTemperature: real := 0.8
  /** Nucleus 0.9, presence and frequency penalties 0.1. */
  const CoachSampling: Llm.Sampling := Llm.Penalised(0.1, 0.1)
  const Apology: string := "There was an error. Please try again."

  /** The coaching system prompt, already stripped (its prose is not reproduced). */
  const CoachSystemPrompt: string := "You are Clary, an expert leadership coach. [...]"

  const TranscriptLabel: string := "Transcript (full):\n"
  const KnowledgeLabel: string := "\n\nKnowledge (use only if relevant):\n"
  /** The closing requirement (prose not reproduced); it ends with a full stop. */
  const Requirement: string := "\n\nCoaching requirement: [...] " + "to illustrate your point."

  // ---- The prompt ------------------------------------------------------------

  /** A transcript line: the speaker as the review names them, then the text. */
  function Entry(m: ChatMessages.ChatMessage): string {
    ConversationReviewService.Label(m.role) + ": " + m.content
  }

  function Entries(ms: seq<ChatMessages.ChatMessage>): (r: seq<string>)
    ensures |r| == |ms|
    ensures forall i :: 0 <= i < |ms| ==> r[i] == Entry(ms[i])
  {
    seq(|ms|, i requires 0 <= i < |ms| => Entry(ms[i]))
  }

  /** Every message of the session, of every phase, in creation order, separated by a blank line. */
  function FullTranscript(ms: seq<ChatMessages.ChatMessage>): string {
    Text.Join(Entries(ChatMessages.Ordered(ms)), "\n\n")
  }

  /** On a log kept in creation order, the transcript has one entry per message of the log, in log order. */
  lemma FullTranscriptInLogOrder(ms: seq<ChatMessages.ChatMessage>)
    requires ChatMessages.Chronological(ms)
    ensures FullTranscript(ms) == Text.Join(Entries(ms), "\n\n")
  {
    ChatMessages.OrderedChronological(ms);
  }

  /** The context block before stripping. */
  function ContextText(transcript: string, knowledge: string): string {
    TranscriptLabel + transcript + KnowledgeLabel + knowledge + Requirement
  }

  /** `context_block.strip`. */
  function ContextBlock(transcript: string, knowledge: string): string {
    Text.Strip(ContextText(transcript, knowledge) + "\n")
  }

  /**
   * Stripping only drops the heredoc's final line break: the block is the
   * transcript, then the knowledge, then the requirement, whatever white
   * space either of them carries.
   */
  lemma ContextBlockShape(transcript: string, knowledge: string)
    ensures ContextBlock(transcript, knowledge) == ContextText(transcript, knowledge)
  {
    var x := ContextText(transcript, knowledge);
    assert x[0] == TranscriptLabel[0];
    assert x[|x| - 1] == Requirement[|Requirement| - 1];
    Text.TrimRightSnoc(x, '\n', Text.IsStripSpace);
    Text.StripUnchanged(x);
  }

  function HistoryEntry(m: CoachMessages.CoachMessage): Llm.PromptMessage {
    Llm.PromptMessage(m.role, Some(m.content))
  }

  /** `coach_messages.ordered.map { {role:, content:} }`, in the order given. */
  function History(cs: seq<CoachMessages.CoachMessage>): (r: seq<Llm.PromptMessage>)
    ensures |r| == |cs|
    ensures forall i :: 0 <= i < |cs| ==> r[i] == HistoryEntry(cs[i])
  {
    seq(|cs|, i requires 0 <= i < |cs| => HistoryEntry(cs[i]))
  }

  /** `build_messages`: the session's role-play messages, its coaching messages and the knowledge table. */
  function BuildMessages(ms: seq<ChatMessages.ChatMessage>, cs: seq<CoachMessages.CoachMessage>,
                         ks: seq<Knowledges.Knowledge>): seq<Llm.PromptMessage> {
    [Llm.PromptMessage("system", Some(CoachSystemPrompt)),
     Llm.PromptMessage("user", Some(ContextBlock(FullTranscript(ms), Knowledges.LegacyCorpus(ks))))]
    + History(CoachMessages.Ordered(cs))
  }

  /**
   * The coach sees the system prompt, then the context with the whole
   * transcript and the knowledge, then each coaching message of a
   * chronological history, in order, with its own role.
   */
  lemma BuildMessagesShape(ms: seq<ChatMessages.ChatMessage>, cs: seq<CoachMessages.CoachMessage>,
                           ks: seq<Knowledges.Knowledge>)
    requires CoachMessages.Chronological(cs)
    ensures var r := BuildMessages(ms, cs, ks);
      |r| == 2 + |cs|
      && r[0] == Llm.PromptMessage("system", Some(CoachSystemPrompt))
      && r[1] == Llm.PromptMessage("user", Some(ContextText(FullTranscript(ms), Knowledges.LegacyCorpus(ks))))
      && forall i :: 0 <= i < |cs| ==> r[2 + i] == Llm.PromptMessage(cs[i].role, Some(cs[i].content))
  {
    AssembledShape(FullTranscript(ms), Knowledges.LegacyCorpus(ks), cs);
  }

  lemma AssembledShape(transcript: string, knowledge: string, cs: seq<CoachMessages.CoachMessage>)
    requires CoachMessages.Chronological(cs)
    ensures var r := [Llm.PromptMessage("system", Some(CoachSystemPrompt)),
                      Llm.PromptMessage("user", Some(ContextBlock(transcript, knowledge)))]
                     + History(CoachMessages.Ordered(cs));
      |r| == 2 + |cs|
      && r[1] == Llm.PromptMessage("user", Some(ContextText(transcript, knowledge)))
      && forall i :: 0 <= i < |cs| ==> r[2 + i] == Llm.PromptMessage(cs[i].role, Some(cs[i].content))
  {
    CoachMessages.OrderedChronological(cs);
    ContextBlockShape(transcript, knowledge);
    HeadThenHistory(Llm.PromptMessage("system", Some(CoachSystemPrompt)),
                    Llm.PromptMessage("user", Some(ContextBlock(transcript, knowledge))), cs);
  }

  lemma HeadThenHistory(system: Llm.PromptMessage, context: Llm.PromptMessage, cs: seq<CoachMessages.CoachMessage>)
    ensures var r := [system, context] + History(cs);
      |r| == 2 + |cs| && r[1] == context
      && forall i :: 0 <= i < |cs| ==> r[2 + i] == Llm.PromptMessage(cs[i].role, Some(cs[i].content))
  {
    var h := History(cs);
    forall i | 0 <= i < |cs| ensures ([system, context] + h)[2 + i] == h[i] { }
  }

  /** The streaming call the coach makes: `build_messages` with the coach's model and sampling options. */
  function CoachRequest(ms: seq<ChatMessages.ChatMessage>, cs: seq<CoachMessages.CoachMessage>,
                        ks: seq<Knowledges.Knowledge>): Llm.Request {
    Llm.Request(BuildMessages(ms, cs, ks), CoachModel, CoachTemperature, CoachSampling)
  }

  // ---- A turn ----------------------------------------------------------------

  /** The coach's reply as `create!` stores it: the whole streamed text, when the stream ended and the text is not blank. */
  function CoachReply(clock: nat, reply: Llm.StreamReply): Option<CoachMessages.CoachMessage> {
    var content := Text.Concat(reply.chunks);
    if reply.Streamed? && CoachMessages.ValidAttributes(Some("assistant"), Some(content))
    then Some(CoachMessages.CoachMessage("assistant", content, clock))
    else None
  }

  /** A reply is stored exactly when the stream ended with some text, and it holds all of that text. */
  lemma CoachReplyCases(clock: nat, reply: Llm.StreamReply)
    ensures CoachReply(clock, reply).Some? <==> reply.Streamed? && !Text.Blank(Text.Concat(reply.chunks))
    ensures CoachReply(clock, reply).Some? ==>
      CoachReply(clock, reply).value == CoachMessages.CoachMessage("assistant", Text.Concat(reply.chunks), clock)
  {
    CoachMessages.ValidationCases(Some("assistant"), Some(Text.Concat(reply.chunks)));
  }

  /** What ends a turn: the stored reply, or the apology when the stream raised or `create!` refused the text. */
  function Closing(m: Option<CoachMessages.CoachMessage>): seq<Events.Event> {
    if m.Some? then [Events.AssistantComplete(Events.CoachPayload(m.value), None)] else [Events.Error(Apology)]
  }

  /** The broadcasts of the reply: start, each piece, then one closing event. */
  function ReplyEvents(clock: nat, reply: Llm.StreamReply): seq<Events.Event> {
    [Events.AssistantStart] + Events.ChunkEvents(reply.chunks) + Closing(CoachReply(clock, reply))
  }

  /**
   * A reply's broadcasts start with `assistant_start`, relay each piece in
   * order, and end with exactly one of `assistant_complete` (with the
   * stored reply) and the error.
   */
  lemma ReplyEventsShape(clock: nat, reply: Llm.StreamReply)
    ensures var es := ReplyEvents(clock, reply);
      var n := |reply.chunks|;
      var m := CoachReply(clock, reply);
      |es| == n + 2 && es[0] == Events.AssistantStart
      && (forall i :: 0 <= i < n ==> es[1 + i] == Events.AssistantChunk(reply.chunks[i]))
      && (m.Some? ==> es[n + 1] == Events.AssistantComplete(Events.CoachPayload(m.value), None))
      && (m.None? ==> es[n + 1] == Events.Error(Apology))
  {
    Events.ChunksThen(reply.chunks, Closing(CoachReply(clock, reply)));
  }

  /**
   * What a turn leaves behind, from the coaching log `cs` that holds the
   * user message, stamped `clock`, the role-play log `ms`, and the
   * broadcast and request lists `ev` and `req`.
   */
  predicate TurnOutcome(ms: seq<ChatMessages.ChatMessage>, ks: seq<Knowledges.Knowledge>, reply: Llm.StreamReply,
                        cs: seq<CoachMessages.CoachMessage>, clock: nat, ev: seq<Events.Event>, req: seq<Llm.Request>,
                        cs': seq<CoachMessages.CoachMessage>, ev': seq<Events.Event>, req': seq<Llm.Request>)
  {
    cs' == cs + CoachReply(clock, reply).ToSeq()
    && ev' == ev + ReplyEvents(clock, reply)
    && req' == req + [CoachRequest(ms, cs, ks)]
  }

  /**
   * The connection to one session's coaching stream: the caller's account,
   * the broadcasts made so far and the requests made to the model.
   */
  class Channel {
    const session: RolePlaySessions.Session
    const accountId: nat
    var events: seq<Events.Event>
    var requests: seq<Llm.Request>

    constructor (session: RolePlaySessions.Session, accountId: nat)
      ensures this.session == session && this.accountId == accountId
      ensures events == [] && requests == []
    {
      this.session := session;
      this.accountId := accountId;
      events := [];
      requests := [];
    }

    /** The caller's account owns the session. */
    predicate Authorized() {
      session.accountId == accountId
    }

    /** Broadcasts each piece as it arrives and returns the text they make up. */
    method Relay(chunks: seq<string>) returns (content: string)
      modifies this`events
      ensures content == Text.Concat(chunks)
      ensures events == old(events) + Events.ChunkEvents(chunks)
    {
      content := "";
      var i := 0;
      while i < |chunks|
        invariant 0 <= i <= |chunks|
        invariant content == Text.Concat(chunks[..i])
        invariant events == old(events) + Events.ChunkEvents(chunks[..i])
      {
        assert chunks[..i + 1] == chunks[..i] + [chunks[i]];
        Text.ConcatSnoc(chunks[..i], chunks[i]);
        Events.ChunkEventsSnoc(chunks[..i], chunks[i]);
        content := content + chunks[i];
        events := events + [Events.AssistantChunk(chunks[i])];
        i := i + 1;
      }
      assert chunks[..|chunks|] == chunks;
    }

    /**
     * `send_message`. From another account nothing happens. A blank message
     * makes `create!` raise: nothing is stored or broadcast. Otherwise the
     * user message is stored and broadcast and the coach's reply is
     * streamed, from a history that already holds the new message.
     * `stored` is the user message `create!` stored, if any.
     */
    method SendMessage(content: Option<string>, db: RolePlaySessions.Db, reply: Llm.StreamReply)
      returns (ghost stored: Option<CoachMessages.CoachMessage>)
      requires session.Valid()
      modifies this`events, this`requests, session`coachMessages, session`clock
      ensures session.Valid()
      ensures stored.Some? <==> Authorized() && CoachMessages.ValidAttributes(Some("user"), content)
      ensures stored.Some? ==> stored.value == CoachMessages.CoachMessage("user", content.value, old(session.clock))
      ensures stored.None? ==>
        events == old(events) && requests == old(requests)
        && session.coachMessages == old(session.coachMessages) && session.clock == old(session.clock)
      ensures stored.Some? ==>
        TurnOutcome(session.chatMessages, db.knowledge, reply, old(session.coachMessages) + [stored.value],
                    old(session.clock) + 1, old(events) + [Events.UserMessage(Events.CoachPayload(stored.value))],
                    old(requests), session.coachMessages, events, requests)
    {
      stored := None;
      // `create!` raises on attributes its validations refuse, and the action stops there.
      if Authorized() && CoachMessages.ValidAttributes(Some("user"), content) {
        var m := Turn(content, db, reply);
        stored := Some(m);
      }
    }

    /** An authorized turn whose message passes the validations. */
    method Turn(content: Option<string>, db: RolePlaySessions.Db, reply: Llm.StreamReply)
      returns (ghost stored: CoachMessages.CoachMessage)
      requires session.Valid()
      requires CoachMessages.ValidAttributes(Some("user"), content)
      modifies this`events, this`requests, session`coachMessages, session`clock
      ensures session.Valid()
      ensures stored == CoachMessages.CoachMessage("user", content.value, old(session.clock))
      ensures TurnOutcome(session.chatMessages, db.knowledge, reply, old(session.coachMessages) + [stored],
                          old(session.clock) + 1, old(events) + [Events.UserMessage(Events.CoachPayload(stored))],
                          old(requests), session.coachMessages, events, requests)
    {
      var u := session.CreateCoachMessage(Some("user"), content);
      stored := u.value;
      events := events + [Events.UserMessage(Events.CoachPayload(u.value))];
      Reply(session.chatMessages, db, reply);
    }

    /** The reply to the coaching history as it stands, over the role-play log `ms`. */
    method Reply(ghost ms: seq<ChatMessages.ChatMessage>, db: RolePlaySessions.Db, reply: Llm.StreamReply)
      requires session.Valid() && session.chatMessages == ms
      modifies this`events, this`requests, session`coachMessages, session`clock
      ensures session.Valid()
      ensures TurnOutcome(ms, db.knowledge, reply, old(session.coachMessages), old(session.clock),
                          old(events), old(requests), session.coachMessages, events, requests)
    {
      var request := CoachRequest(session.chatMessages, session.coachMessages, db.knowledge);
      StreamReply(request, reply);
    }

    /** The streamed reply to `request`, stored when it completes, or the apology. */
    method StreamReply(request: Llm.Request, reply: Llm.StreamReply)
      requires session.Valid()
      modifies this`events, this`requests, session`coachMessages, session`clock
      ensures session.Valid()
      ensures requests == old(requests) + [request]
      ensures session.coachMessages == old(session.coachMessages) + CoachReply(old(session.clock), reply).ToSeq()
      ensures events == old(events) + ReplyEvents(old(session.clock), reply)
    {
      ghost var e0 := events;
      ghost var clock0 := session.clock;
      events := events + [Events.AssistantStart];
      requests := requests + [request];
      var text := Relay(reply.chunks);
      var m: Option<CoachMessages.CoachMessage> := None;
      // A stream that raises, or a text `create!` refuses, is rescued with the apology.
      if reply.Streamed? {
        m := session.CreateCoachMessage(Some("assistant"), Some(text));
      }
      assert m == CoachReply(clock0, reply);
      var closing := Closing(m);
      events := events + closing;
      Ordering.AppendAssoc(e0, [Events.AssistantStart], Events.ChunkEvents(reply.chunks), closing);
    }
  }
}
