/**
 * The role-play chat channel: a user turn, a phase transition, the opening
 * message of a phase, the message lists sent to the model, and the
 * streaming of its reply into the transcript and the session's stream.
 */
module ChatChannel {
  import opened Wrappers
  import Text
  import Json
  import ChatMessages
  import RolePlays
  import RolePlaySessions
  import Events
  import Llm
  import Ordering

  const Apology: string := "Sorry, there was an error processing your message. Please try again."
  const IntroApology: string := "Sorry, there was an error. Please try again."
  const SetupGreeting: string := "Hello, I'm ready to learn about this scenario."
  const RolePlayGreeting: string := "Hello"
  /** The fixed debrief opener, stored without asking the model. */
  const DebriefOpener: string := "How do you think that went?"

  /** Sampling used for a user turn: nucleus 0.9, presence and frequency penalties 0.2. */
  const TurnSampling: Llm.Sampling := Llm.Penalised(0.2, 0.2)

  /** `temperature_for_phase`. */
  function TemperatureForPhase(phase: string): (r: real)
    ensures phase == "role_play" ==> r == 0.95
    ensures phase == "debrief" ==> r == 0.7
    ensures phase != "role_play" && phase != "debrief" ==> r == 0.8
  {
    if phase == "setup" then 0.8
    else if phase == "role_play" then 0.95
    else if phase == "debrief" then 0.7
    else 0.8
  }

  // ---- The trailing control line -----------------------------------------

  /** A line the channel takes as the status line: `{`, `wrapping_up`, and valid JSON. */
  predicate IsFlagLine(line: string) {
    Text.StartsWith(line, "{") && Text.Contains(line, "wrapping_up") && Json.Parse(line).Some?
  }

  /**
   * `parse_wrapping_up_flag`: the flag and the reply without its status
   * line, or no flag and the reply unchanged. The text kept is always a
   * prefix of the reply.
   */
  function ParseWrappingUpFlag(content: string): (r: (Option<bool>, string))
    ensures r.0.Some? <==> IsFlagLine(Text.LastLine(content))
    ensures r.0.None? ==> r.1 == content
    ensures r.0.Some? ==>
      r.0.value == Json.Truthy(Json.Get(Json.Parse(Text.LastLine(content)).value, "wrapping_up"))
      && r.1 == Text.WithoutLastLine(content)
    ensures Text.StartsWith(content, r.1)
  {
    var line := Text.LastLine(content);
    if IsFlagLine(line) then
      (Some(Json.Truthy(Json.Get(Json.Parse(line).value, "wrapping_up"))), Text.WithoutLastLine(content))
    else (None, content)
  }

  /** The reply text as stored: cleaned of its status line only in the role-play phase. */
  function Cleaned(phase: string, content: string): (r: (Option<bool>, string))
    ensures phase != "role_play" ==> r == (None, content)
    ensures phase == "role_play" ==> r == ParseWrappingUpFlag(content)
  {
    if phase == "role_play" then ParseWrappingUpFlag(content) else (None, content)
  }

  // ---- Message lists -------------------------------------------------------

  function PromptOf(m: ChatMessages.ChatMessage): Llm.PromptMessage {
    Llm.PromptMessage(m.role, Some(m.content))
  }

  /** One `{role:, content:}` entry per message, in order. */
  function History(ms: seq<ChatMessages.ChatMessage>): (r: seq<Llm.PromptMessage>)
    ensures |r| == |ms|
    ensures forall i :: 0 <= i < |ms| ==> r[i] == PromptOf(ms[i])
  {
    seq(|ms|, i requires 0 <= i < |ms| => PromptOf(ms[i]))
  }

  function System(content: Option<string>): Llm.PromptMessage {
    Llm.PromptMessage("system", content)
  }

  /**
   * What `build_messages_for_phase` returns for a log kept in creation
   * order, given the phase's system prompt: the system message (for role
   * play only when the prompt is present), then the messages of the phase
   * in order; nil outside the phases.
   */
  function PhaseMessages(phase: string, system: Option<string>, ms: seq<ChatMessages.ChatMessage>): Option<seq<Llm.PromptMessage>>
  {
    if RolePlaySessions.ValidPhase(phase) then
      Some((if phase == "role_play" && !Text.Present(system) then [] else [System(system)])
           + History(ChatMessages.WithPhase(ms, phase)))
    else None
  }

  /**
   * The list for a phase holds every message of that phase and no other,
   * in log order, after the system message that setup and debrief always
   * have and role play has exactly when its prompt is present.
   */
  lemma PhaseMessagesShape(phase: string, system: Option<string>, ms: seq<ChatMessages.ChatMessage>)
    ensures PhaseMessages(phase, system, ms).Some? <==> RolePlaySessions.ValidPhase(phase)
    ensures RolePlaySessions.ValidPhase(phase) ==>
      var r := PhaseMessages(phase, system, ms).value;
      var w := ChatMessages.WithPhase(ms, phase);
      var k := if phase == "role_play" && !Text.Present(system) then 0 else 1;
      |r| == k + |w|
      && (k == 1 ==> r[0] == System(system))
      && (forall i :: k <= i < |r| ==> r[i] == PromptOf(w[i - k]) && w[i - k].phase == phase && w[i - k] in ms)
  {
    if RolePlaySessions.ValidPhase(phase) {
      var head := if phase == "role_play" && !Text.Present(system) then [] else [System(system)];
      var w := ChatMessages.WithPhase(ms, phase);
      assert PhaseMessages(phase, system, ms).value == head + History(w);
      ChatMessages.WithPhaseMembers(ms, phase);
      HistoryAfter(head, w);
    }
  }

  /** The entries after a prefix `head` are the history of `w`, one per message. */
  lemma HistoryAfter(head: seq<Llm.PromptMessage>, w: seq<ChatMessages.ChatMessage>)
    ensures |head + History(w)| == |head| + |w|
    ensures forall i :: 0 <= i < |head| ==> (head + History(w))[i] == head[i]
    ensures forall i :: |head| <= i < |head| + |w| ==> (head + History(w))[i] == PromptOf(w[i - |head|])
  {
  }

  /** `each { messages << ... }` over a list of messages. */
  method PushHistory(messages: seq<Llm.PromptMessage>, ms: seq<ChatMessages.ChatMessage>) returns (r: seq<Llm.PromptMessage>)
    ensures r == messages + History(ms)
  {
    r := messages;
    var i := 0;
    while i < |ms|
      invariant 0 <= i <= |ms|
      invariant r == messages + History(ms[..i])
    {
      assert History(ms[..i + 1]) == History(ms[..i]) + [PromptOf(ms[i])];
      r := r + [PromptOf(ms[i])];
      i := i + 1;
    }
    assert ms[..|ms|] == ms;
  }

  /** Events of a streamed reply after its chunks: the completion (and review) or one error. */
  function Outcome(m: Option<ChatMessages.ChatMessage>, flag: Option<bool>, apology: string, enqueue: seq<Events.Event>): seq<Events.Event> {
    if m.Some? then [Events.AssistantComplete(Events.ChatPayload(m.value), flag)] + enqueue
    else [Events.Error(apology)]
  }

  /** `perform_later` of the review job, only for an admin during role play. */
  function Enqueue(admin: bool, phase: string, sessionId: nat): (r: seq<Events.Event>)
    ensures r != [] <==> admin && phase == "role_play"
    ensures r != [] ==> r == [Events.ReviewEnqueued(sessionId)]
  {
    if admin && phase == "role_play" then [Events.ReviewEnqueued(sessionId)] else []
  }

  /**
   * The assistant message a user turn's reply stores, stamped `clock`: the
   * chunks concatenated and cleaned; none when the stream failed or the
   * text is blank (then `create!` raises and the error is rescued).
   */
  function TurnMessage(phase: string, clock: nat, reply: Llm.StreamReply): (r: Option<ChatMessages.ChatMessage>)
    ensures r.Some? ==> (reply.Streamed? && r.value.role == "assistant" && r.value.phase == phase
      && r.value.content == Cleaned(phase, Text.Concat(reply.chunks)).1 && r.value.createdAt == clock
      && ChatMessages.Valid(r.value))
    ensures r.None? <==> reply.Failed? || Text.Blank(Cleaned(phase, Text.Concat(reply.chunks)).1) || !RolePlaySessions.ValidPhase(phase)
  {
    var clean := Cleaned(phase, Text.Concat(reply.chunks)).1;
    ChatMessages.ValidationCases(Some("assistant"), Some(clean), Some(phase));
    if reply.Streamed? && ChatMessages.ValidAttributes(Some("assistant"), Some(clean), Some(phase)) then
      Some(ChatMessages.ChatMessage("assistant", clean, phase, clock))
    else None
  }

  /** Everything `stream_ai_response` broadcasts, in order. */
  function TurnEvents(phase: string, admin: bool, sessionId: nat, clock: nat, reply: Llm.StreamReply): seq<Events.Event> {
    [Events.AssistantStart] + Events.ChunkEvents(reply.chunks)
    + Outcome(TurnMessage(phase, clock, reply), Cleaned(phase, Text.Concat(reply.chunks)).0, Apology, Enqueue(admin, phase, sessionId))
  }

  /** The stored assistant text is the whole reply, or in role play a prefix of it. */
  lemma TurnMessageContent(phase: string, clock: nat, reply: Llm.StreamReply)
    requires TurnMessage(phase, clock, reply).Some?
    ensures phase != "role_play" ==> TurnMessage(phase, clock, reply).value.content == Text.Concat(reply.chunks)
    ensures Text.StartsWith(Text.Concat(reply.chunks), TurnMessage(phase, clock, reply).value.content)
  {
  }

  /**
   * A turn ends with exactly one error event when nothing is stored and
   * with none otherwise; every chunk is broadcast before it.
   */
  lemma TurnEventsOutcome(phase: string, admin: bool, sessionId: nat, clock: nat, reply: Llm.StreamReply)
    ensures var es := TurnEvents(phase, admin, sessionId, clock, reply);
            var n := |reply.chunks|;
            es[0] == Events.AssistantStart
            && (forall i :: 0 <= i < n ==> es[1 + i] == Events.AssistantChunk(reply.chunks[i]))
            && (TurnMessage(phase, clock, reply).None? ==> es == es[..1 + n] + [Events.Error(Apology)])
            && (TurnMessage(phase, clock, reply).Some? ==> forall i :: 0 <= i < |es| ==> !es[i].Error?)
  {
    var m := TurnMessage(phase, clock, reply);
    var tail := Outcome(m, Cleaned(phase, Text.Concat(reply.chunks)).0, Apology, Enqueue(admin, phase, sessionId));
    assert TurnEvents(phase, admin, sessionId, clock, reply) == [Events.AssistantStart] + Events.ChunkEvents(reply.chunks) + tail;
    Events.ChunksThen(reply.chunks, tail);
    if m.Some? {
      assert forall i :: 0 <= i < |tail| ==> !tail[i].Error?;
    }
  }

  /** Where the elements of `pre + tail` come from. */
  lemma PrefixParts<T>(pre: seq<T>, tail: seq<T>)
    ensures (pre + tail)[..|pre|] == pre
    ensures forall i :: 0 <= i < |pre| ==> (pre + tail)[i] == pre[i]
    ensures forall i :: |pre| <= i < |pre| + |tail| ==> (pre + tail)[i] == tail[i - |pre|]
  {
  }

  /** The opening message of a phase, stamped `clock`, as the intro generators store it. */
  function IntroMessage(phase: string, clock: nat, reply: Llm.StreamReply): (r: Option<ChatMessages.ChatMessage>)
    ensures phase == "debrief" ==> r == Some(ChatMessages.ChatMessage("assistant", DebriefOpener, "debrief", clock))
    ensures phase != "debrief" && r.Some? ==> (reply.Streamed? && r.value.content == Text.Concat(reply.chunks)
      && r.value.phase == phase && r.value.role == "assistant" && r.value.createdAt == clock)
  {
    if phase == "debrief" then Some(ChatMessages.ChatMessage("assistant", DebriefOpener, "debrief", clock))
    else if reply.Streamed? && ChatMessages.ValidAttributes(Some("assistant"), Some(Text.Concat(reply.chunks)), Some(phase)) then
      Some(ChatMessages.ChatMessage("assistant", Text.Concat(reply.chunks), phase, clock))
    else None
  }

  /** What `generate_phase_intro` broadcasts: the debrief opener at once, else a streamed intro. */
  function IntroEvents(phase: string, clock: nat, reply: Llm.StreamReply): seq<Events.Event> {
    if phase == "debrief" then
      [Events.AssistantComplete(Events.ChatPayload(IntroMessage(phase, clock, reply).value), None)]
    else if phase == "setup" || phase == "role_play" then
      [Events.AssistantStart] + Events.ChunkEvents(reply.chunks) + Outcome(IntroMessage(phase, clock, reply), None, IntroApology, [])
    else []
  }

  /** The request an intro makes: none for debrief. */
  function IntroRequests(phase: string, rp: RolePlays.RolePlay, systemPrompt: Option<string>, model: string,
                         db: RolePlaySessions.Db): seq<Llm.Request>
  {
    if phase == "setup" then
      [Llm.Request([System(Some(RolePlaySessions.SetupPrompt(rp, db))), Llm.PromptMessage("user", Some(SetupGreeting))],
                   model, TemperatureForPhase("setup"), Llm.Capped(400))]
    else if phase == "role_play" then
      [Llm.Request([System(systemPrompt), Llm.PromptMessage("user", Some(RolePlayGreeting))],
                   model, TemperatureForPhase("role_play"), Llm.Capped(280))]
    else []
  }

  /** The messages an intro stores: the opener, a streamed intro, or nothing. */
  function IntroStored(phase: string, clock: nat, reply: Llm.StreamReply): seq<ChatMessages.ChatMessage> {
    if RolePlaySessions.ValidPhase(phase) then IntroMessage(phase, clock, reply).ToSeq() else []
  }

  /**
   * What the reply to a user turn leaves behind, from the log `log` that
   * holds the user message, stamped `clock`, and the broadcast and request
   * lists `ev` and `req`: the stored reply, its broadcast and one request.
   */
  predicate ReplyOutcome(phase: string, rp: RolePlays.RolePlay, systemPrompt: Option<string>, model: string,
                         admin: bool, sessionId: nat, db: RolePlaySessions.Db, reply: Llm.StreamReply,
                         log: seq<ChatMessages.ChatMessage>, clock: nat, ev: seq<Events.Event>, req: seq<Llm.Request>,
                         log': seq<ChatMessages.ChatMessage>, ev': seq<Events.Event>, req': seq<Llm.Request>)
  {
    log' == log + TurnMessage(phase, clock, reply).ToSeq()
    && ev' == ev + TurnEvents(phase, admin, sessionId, clock, reply)
    && req' == req + [Llm.Request(
         PhaseMessages(phase, RolePlaySessions.PhasePrompt(phase, rp, systemPrompt, log, db), log).GetOr([]),
         model, TemperatureForPhase(phase), TurnSampling)]
  }

  /**
   * The connection to one session's stream: the caller's account and admin
   * flag, the broadcasts made so far (with the review jobs queued, at their
   * place) and the requests made to the model.
   */
  class Channel {
    const session: RolePlaySessions.Session
    const accountId: nat
    const admin: bool
    var events: seq<Events.Event>
    var requests: seq<Llm.Request>

    constructor (session: RolePlaySessions.Session, accountId: nat, admin: bool)
      ensures this.session == session && this.accountId == accountId && this.admin == admin
      ensures events == [] && requests == []
    {
      this.session := session;
      this.accountId := accountId;
      this.admin := admin;
      events := [];
      requests := [];
    }

    /** The caller's account owns the session. */
    predicate Authorized() {
      session.accountId == accountId
    }

    /** `build_messages_for_phase` with the three `build_*_messages`, built entry by entry. */
    method BuildMessagesForPhase(db: RolePlaySessions.Db) returns (messages: Option<seq<Llm.PromptMessage>>)
      requires session.MessagesValid()
      ensures messages == PhaseMessages(session.phase, session.CurrentSystemPrompt(db), session.chatMessages)
    {
      var ms := session.chatMessages;
      var p := session.phase;
      if p == "setup" || p == "role_play" || p == "debrief" {
        ChatMessages.WithPhaseOrdered(ms, p);
        var ordered := ChatMessages.Ordered(ChatMessages.WithPhase(ms, p));
        var head: seq<Llm.PromptMessage>;
        if p == "setup" {
          head := [System(Some(RolePlaySessions.SetupPrompt(session.rolePlay, db)))];
        } else if p == "role_play" {
          head := if Text.Present(session.systemPrompt) then [System(session.systemPrompt)] else [];
        } else {
          head := [System(Some(RolePlaySessions.DebriefPrompt(ms, db)))];
        }
        var r := PushHistory(head, ordered);
        messages := Some(r);
      } else {
        messages := None;
      }
    }

    /** The streaming loop: every chunk is appended to the text and broadcast. */
    method Relay(chunks: seq<string>) returns (content: string)
      modifies this`events
      ensures content == Text.Concat(chunks)
      ensures events == old(events) + Events.ChunkEvents(chunks)
    {
      content := "";
      var i := 0;
      while i < |chunks|
        invariant 0 <= i <= |chunks|
        invariant content == Text.Concat(chunks[..i])
        invariant events == old(events) + Events.ChunkEvents(chunks[..i])
      {
        assert chunks[..i + 1] == chunks[..i] + [chunks[i]];
        Text.ConcatSnoc(chunks[..i], chunks[i]);
        Events.ChunkEventsSnoc(chunks[..i], chunks[i]);
        content := content + chunks[i];
        events := events + [Events.AssistantChunk(chunks[i])];
        i := i + 1;
      }
      assert chunks[..|chunks|] == chunks;
    }

    /** `stream_ai_response`: one request, the streamed chunks, then the stored reply or an error. */
    method StreamAiResponse(messages: Option<seq<Llm.PromptMessage>>, reply: Llm.StreamReply)
      requires session.Valid()
      modifies this`events, this`requests, session`chatMessages, session`clock
      ensures session.Valid()
      ensures requests == old(requests) +
        [Llm.Request(messages.GetOr([]), session.OpenaiModel(), TemperatureForPhase(session.phase), TurnSampling)]
      ensures session.chatMessages == old(session.chatMessages) + TurnMessage(session.phase, old(session.clock), reply).ToSeq()
      ensures events == old(events) + TurnEvents(session.phase, admin, session.id, old(session.clock), reply)
    {
      var phase := session.phase;
      ghost var clock0 := session.clock;
      ghost var e0 := events;
      events := events + [Events.AssistantStart];
      requests := requests + [Llm.Request(messages.GetOr([]), session.OpenaiModel(), TemperatureForPhase(phase), TurnSampling)];
      var content := Relay(reply.chunks);
      // Only a role-play reply is cleaned of its status line.
      var cleaned := Cleaned(phase, content);
      var m: Option<ChatMessages.ChatMessage> := None;
      if reply.Streamed? {
        m := session.CreateChatMessage(Some("assistant"), Some(cleaned.1), Some(phase));
      }
      assert m == TurnMessage(phase, clock0, reply);
      var tail := Outcome(m, cleaned.0, Apology, Enqueue(admin, phase, session.id));
      events := events + tail;
      Ordering.AppendAssoc(e0, [Events.AssistantStart], Events.ChunkEvents(reply.chunks), tail);
    }

    /** `stream_ai_response_for_intro`: as a turn, but uncleaned, for the given phase, with no review. */
    method StreamAiResponseForIntro(messages: seq<Llm.PromptMessage>, phase: string, maxTokens: nat, reply: Llm.StreamReply)
      requires session.Valid()
      requires phase == "setup" || phase == "role_play"
      modifies this`events, this`requests, session`chatMessages, session`clock
      ensures session.Valid()
      ensures requests == old(requests) + [Llm.Request(messages, session.OpenaiModel(), TemperatureForPhase(phase), Llm.Capped(maxTokens))]
      ensures session.chatMessages == old(session.chatMessages) + IntroMessage(phase, old(session.clock), reply).ToSeq()
      ensures events == old(events) + IntroEvents(phase, old(session.clock), reply)
    {
      ghost var clock0 := session.clock;
      ghost var e0 := events;
      events := events + [Events.AssistantStart];
      requests := requests + [Llm.Request(messages, session.OpenaiModel(), TemperatureForPhase(phase), Llm.Capped(maxTokens))];
      var content := Relay(reply.chunks);
      var m: Option<ChatMessages.ChatMessage> := None;
      if reply.Streamed? {
        m := session.CreateChatMessage(Some("assistant"), Some(content), Some(phase));
      }
      assert m == IntroMessage(phase, clock0, reply);
      var tail := Outcome(m, None, IntroApology, []);
      events := events + tail;
      Ordering.AppendAssoc(e0, [Events.AssistantStart], Events.ChunkEvents(reply.chunks), tail);
    }

    /** `generate_debrief_message`: the fixed opener, stored and broadcast with no model call. */
    method GenerateDebriefMessage()
      requires session.Valid()
      modifies this`events, session`chatMessages, session`clock
      ensures session.Valid()
      ensures session.chatMessages == old(session.chatMessages) + IntroMessage("debrief", old(session.clock), Llm.Streamed([])).ToSeq()
      ensures events == old(events) + IntroEvents("debrief", old(session.clock), Llm.Streamed([]))
    {
      ChatMessages.ValidationCases(Some("assistant"), Some(DebriefOpener), Some("debrief"));
      assert !Text.IsBlankSpace(DebriefOpener[0]);
      var m := session.CreateChatMessage(Some("assistant"), Some(DebriefOpener), Some("debrief"));
      events := events + [Events.AssistantComplete(Events.ChatPayload(m.value), None)];
    }

    /** `generate_phase_intro`: dispatch on the session's phase. */
    method GeneratePhaseIntro(db: RolePlaySessions.Db, reply: Llm.StreamReply)
      requires session.Valid()
      modifies this`events, this`requests, session`chatMessages, session`clock
      ensures session.Valid()
      ensures requests == old(requests) + IntroRequests(session.phase, session.rolePlay, session.systemPrompt, session.OpenaiModel(), db)
      ensures session.chatMessages == old(session.chatMessages) + IntroStored(session.phase, old(session.clock), reply)
      ensures events == old(events) + IntroEvents(session.phase, old(session.clock), reply)
    {
      if session.phase == "setup" {
        var messages := [System(Some(RolePlaySessions.SetupPrompt(session.rolePlay, db))),
                         Llm.PromptMessage("user", Some(SetupGreeting))];
        StreamAiResponseForIntro(messages, "setup", 400, reply);
      } else if session.phase == "role_play" {
        var messages := [System(session.systemPrompt), Llm.PromptMessage("user", Some(RolePlayGreeting))];
        StreamAiResponseForIntro(messages, "role_play", 280, reply);
      } else {
        GenerateDebriefMessage();
      }
    }

    /**
     * `send_message`. From another account nothing happens. A blank message
     * makes `create!` raise: nothing is stored or broadcast. Otherwise the
     * user message is stored with the current phase and broadcast, the
     * review job is queued for an admin in role play, and the reply is
     * streamed from a list that already holds the new message. `stored` is
     * the user message `create!` stored, if any.
     */
    method SendMessage(content: Option<string>, db: RolePlaySessions.Db, reply: Llm.StreamReply)
      returns (ghost stored: Option<ChatMessages.ChatMessage>)
      requires session.Valid()
      modifies this`events, this`requests, session`chatMessages, session`clock
      ensures session.Valid()
      ensures stored.Some? <==> Authorized() && ChatMessages.ValidAttributes(Some("user"), content, Some(session.phase))
      ensures stored.Some? ==> stored.value == ChatMessages.ChatMessage("user", content.value, session.phase, old(session.clock))
      ensures stored.None? ==>
        events == old(events) && requests == old(requests)
        && session.chatMessages == old(session.chatMessages) && session.clock == old(session.clock)
      ensures stored.Some? ==>
        ReplyOutcome(session.phase, session.rolePlay, session.systemPrompt, session.OpenaiModel(), admin, session.id, db, reply,
                     old(session.chatMessages) + [stored.value], old(session.clock) + 1,
                     old(events) + [Events.UserMessage(Events.ChatPayload(stored.value))] + Enqueue(admin, session.phase, session.id),
                     old(requests), session.chatMessages, events, requests)
    {
      stored := None;
      // `create!` raises on attributes its validations refuse, and the action stops there.
      if Authorized() && ChatMessages.ValidAttributes(Some("user"), content, Some(session.phase)) {
        var m := Turn(content, db, reply);
        stored := Some(m);
      }
    }

    /** An authorized turn whose message passes the validations. */
    method Turn(content: Option<string>, db: RolePlaySessions.Db, reply: Llm.StreamReply)
      returns (ghost stored: ChatMessages.ChatMessage)
      requires session.Valid()
      requires ChatMessages.ValidAttributes(Some("user"), content, Some(session.phase))
      modifies this`events, this`requests, session`chatMessages, session`clock
      ensures session.Valid()
      ensures stored == ChatMessages.ChatMessage("user", content.value, session.phase, old(session.clock))
      ensures
        ReplyOutcome(session.phase, session.rolePlay, session.systemPrompt, session.OpenaiModel(), admin, session.id, db, reply,
                     old(session.chatMessages) + [stored], old(session.clock) + 1,
                     old(events) + [Events.UserMessage(Events.ChatPayload(stored))] + Enqueue(admin, session.phase, session.id),
                     old(requests), session.chatMessages, events, requests)
    {
      ghost var log0 := session.chatMessages;
      ghost var clock0 := session.clock;
      ghost var ev0 := events;
      var u := session.CreateChatMessage(Some("user"), content, Some(session.phase));
      stored := u.value;
      // The review job is queued before the reply is requested.
      events := events + [Events.UserMessage(Events.ChatPayload(u.value))] + Enqueue(admin, session.phase, session.id);
      Reply(log0, u.value, clock0, ev0, db, reply);
    }

    /** The reply to the user message `u` just stored after `log0`. */
    method Reply(ghost log0: seq<ChatMessages.ChatMessage>, ghost u: ChatMessages.ChatMessage, ghost clock0: nat,
                 ghost ev0: seq<Events.Event>, db: RolePlaySessions.Db, reply: Llm.StreamReply)
      requires session.Valid()
      requires session.chatMessages == log0 + [u] && session.clock == clock0 + 1
      requires events == ev0 + [Events.UserMessage(Events.ChatPayload(u))] + Enqueue(admin, session.phase, session.id)
      modifies this`events, this`requests, session`chatMessages, session`clock
      ensures session.Valid()
      ensures ReplyOutcome(session.phase, session.rolePlay, session.systemPrompt, session.OpenaiModel(), admin, session.id, db, reply,
                           log0 + [u], clock0 + 1,
                           ev0 + [Events.UserMessage(Events.ChatPayload(u))] + Enqueue(admin, session.phase, session.id),
                           old(requests), session.chatMessages, events, requests)
    {
      var messages := BuildMessagesForPhase(db);
      StreamAiResponse(messages, reply);
    }

    /**
     * `transition_phase`: "role_play" or "debrief" is set whatever the
     * current phase, broadcast, and followed by that phase's intro; any
     * other target changes nothing.
     */
    method TransitionPhase(target: Option<string>, db: RolePlaySessions.Db, reply: Llm.StreamReply)
      requires session.Valid()
      modifies this`events, this`requests, session`phase, session`chatMessages, session`clock
      ensures session.Valid()
      ensures !Authorized() || (target != Some("role_play") && target != Some("debrief")) ==>
        events == old(events) && requests == old(requests) && session.phase == old(session.phase)
        && session.chatMessages == old(session.chatMessages) && session.clock == old(session.clock)
      ensures Authorized() && (target == Some("role_play") || target == Some("debrief")) ==>
        session.phase == target.value
        && events == old(events) + [Events.PhaseChanged(target.value)] + IntroEvents(target.value, old(session.clock), reply)
        && session.chatMessages == old(session.chatMessages) + IntroStored(target.value, old(session.clock), reply)
        && requests == old(requests) + IntroRequests(target.value, session.rolePlay, session.systemPrompt, session.OpenaiModel(), db)
    {
      if !Authorized() {
        return;
      }
      if target == Some("role_play") {
        session.TransitionToRolePlay();
      } else if target == Some("debrief") {
        session.TransitionToDebrief();
      } else {
        return;
      }
      events := events + [Events.PhaseChanged(session.phase)];
      GeneratePhaseIntro(db, reply);
    }

    /** `start_conversation`: an intro only when the current phase has no message of any role yet. */
    method StartConversation(db: RolePlaySessions.Db, reply: Llm.StreamReply)
      requires session.Valid()
      modifies this`events, this`requests, session`chatMessages, session`clock
      ensures session.Valid()
      ensures !Authorized() || ChatMessages.WithPhase(old(session.chatMessages), session.phase) != [] ==>
        events == old(events) && requests == old(requests)
        && session.chatMessages == old(session.chatMessages) && session.clock == old(session.clock)
      ensures Authorized() && ChatMessages.WithPhase(old(session.chatMessages), session.phase) == [] ==>
        events == old(events) + IntroEvents(session.phase, old(session.clock), reply)
        && session.chatMessages == old(session.chatMessages) + IntroStored(session.phase, old(session.clock), reply)
        && requests == old(requests) + IntroRequests(session.phase, session.rolePlay, session.systemPrompt, session.OpenaiModel(), db)
    {
      if !Authorized() {
        return;
      }
      if ChatMessages.WithPhase(session.chatMessages, session.phase) != [] {
        return;
      }
      GeneratePhaseIntro(db, reply);
    }
  }
}
