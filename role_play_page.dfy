/**
 * The practice-session page's client state: messages, the streamed reply
 * revealed at reading speed and finalised once fully shown, the review
 * panel's text, the wrap-up state that shows the "End Role Play" button,
 * and what the page sends to the chat channel.
 *
 * The page's state is a `State` value; `Reduce` and `TickStep` say what
 * one event and one timer tick do to it, and the `Page` class applies them
 * in place. React state and the refs mirroring it are one field each.
 *
 * The channel handler is created once, at mount, and its closure keeps the
 * first render's `messages` and `skipStreamingDisplay`. `Page.staleHandler`
 * says whether the handler reads those mount-time values (the page as
 * written) or the current ones (see `StuckFirstReply`).
 */
module RolePlayPage {
  import opened Wrappers
  import Text
  import Events
  import Pacer

  /** What the page asks of the chat channel with `perform`. */
  datatype Action = SendMessage(content: string) | TransitionPhase(phase: string)

  datatype State = State(
    messages: seq<Events.Payload>,
    input: string,
    isStreaming: bool,
    streamingContent: string,
    buffer: string,
    skip: bool,
    done: bool,
    pending: Option<Events.Payload>,
    review: string,
    wrappingUp: bool,
    phase: string,
    carry: nat,
    timerOn: bool,
    alerts: seq<string>,
    performed: seq<Action>)

  /** The review panel's text while a review is queued. */
  const Reviewing: string := "Reviewing\U{2026}"

  /** The page as mounted with the server's messages and phase (the phase defaults to setup). */
  function Mounted(messages: seq<Events.Payload>, phase: Option<string>): State {
    State(messages, "", false, "", "", false, false, None, "", false, phase.GetOr("setup"), 0, false, [], [])
  }

  /**
   * The timer runs exactly while a reply streams visibly, the carry stays below one
   * character, and a reply marked done always has its message waiting.
   */
  predicate Valid(s: State) {
    s.carry < Pacer.UnitMs && (s.timerOn <==> s.isStreaming && !s.skip) && (s.done ==> s.pending.Some?)
  }

  /**
   * The reveal-timer effect, run after a render in which `isStreaming` or
   * `skipStreamingDisplay` changed: the cleanup clears the timer, and a
   * fresh one, with no carry, starts when a reply streams visibly.
   */
  function Effect(wasStreaming: bool, wasSkip: bool, after: State): State {
    var rerun := after.isStreaming != wasStreaming || after.skip != wasSkip;
    var starts := after.isStreaming && !after.skip;
    if rerun then after.(timerOn := starts, carry := if starts then 0 else after.carry) else after
  }

  /**
   * An assistant reply is still being revealed on `assistant_complete` when
   * some of it is visible or buffered.
   */
  predicate ActivelyStreaming(s: State) {
    |s.buffer| > 0 || |s.streamingContent| > 0
  }

  /**
   * `received`: one event of the chat channel. `seenCount` and `seenSkip`
   * are the message count and skip flag the handler reads.
   */
  function Receive(s: State, e: Events.Event, seenCount: nat, seenSkip: bool): State {
    match e
    case UserMessage(m) => s.(messages := s.messages + [m])
    case AssistantStart =>
      Effect(s.isStreaming, s.skip, s.(skip := seenCount == 0, isStreaming := true, streamingContent := "", buffer := "",
                   done := false, pending := None, review := Reviewing))
    case AssistantChunk(c) => if seenSkip then s else s.(buffer := s.buffer + c)
    case AssistantComplete(m, flag) =>
      var s1 := if seenSkip || !ActivelyStreaming(s) then
                  s.(isStreaming := false, messages := s.messages + [m], streamingContent := "", buffer := "",
                     pending := None, done := false, skip := false)
                else s.(done := true, pending := Some(m));
      Effect(s.isStreaming, s.skip, if flag.Some? then s1.(wrappingUp := flag.value) else s1)
    case PhaseChanged(p) => s.(phase := p, wrappingUp := false)
    case Error(text) => Effect(s.isStreaming, s.skip, s.(isStreaming := false, streamingContent := "", alerts := s.alerts + [text]))
    case ReviewStart => s.(review := "")
    case ReviewChunk(c) => s.(review := s.review + c)
    case ReviewComplete(c) => s.(review := c)
    case ReviewStatus(flag) => s.(wrappingUp := flag)
    case ReviewEnqueued(_) => s
  }

  /**
   * The handler as the page has it: with a stale closure it reads the
   * message count at mount and a skip flag of false; otherwise the current
   * ones.
   */
  function Reduce(s: State, e: Events.Event, mountCount: nat, stale: bool): State {
    Receive(s, e, if stale then mountCount else |s.messages|, if stale then false else s.skip)
  }

  /** The message the timer shows when the reply has none waiting: the visible text, by the assistant. */
  function Placeholder(content: string): Events.Payload {
    Events.Payload("assistant", content, None, None)
  }

  /** What one tick moves: the characters due, at most the whole buffer. */
  function TickTaken(s: State, dt: nat): nat {
    Pacer.Taken(Pacer.Due(s.carry, dt), s.buffer)
  }

  /**
   * One tick of the reveal timer after `dt` ms: the characters due move
   * from the buffer to the visible text; then, when the reply is done and
   * the buffer is empty, the waiting message is shown, the streaming state
   * is cleared and the timer stops.
   */
  function TickStep(s: State, dt: nat): State {
    var k := TickTaken(s, dt);
    var moved := s.(carry := Pacer.Carry(s.carry, dt), streamingContent := s.streamingContent + s.buffer[..k],
                    buffer := s.buffer[k..]);
    if s.done && |moved.buffer| == 0 then
      moved.(isStreaming := false, messages := s.messages + [s.pending.GetOr(Placeholder(s.streamingContent))],
             streamingContent := "", pending := None, done := false, timerOn := false)
    else moved
  }

  /** `sendMessage`: blocked on a blank input or while streaming; otherwise sends the input as typed and clears it. */
  function Send(s: State): State {
    if Text.JsTrim(s.input) == "" || s.isStreaming then s
    else s.(performed := s.performed + [SendMessage(s.input)], input := "")
  }

  /** "Start Role Play" is shown in the setup phase, not streaming, once there is a message. */
  predicate ShowsStartRolePlay(s: State) {
    s.phase == "setup" && !s.isStreaming && |s.messages| > 0
  }

  /** "End Role Play" is shown in the role-play phase once the character is wrapping up, not streaming. */
  predicate ShowsEndRolePlay(s: State) {
    s.phase == "role_play" && s.wrappingUp && !s.isStreaming
  }

  // ---- Properties of the reducer ------------------------------------------------------

  /** The mounted page is valid, and every event and tick keeps the page valid. */
  lemma ValidPreserved(s: State, e: Events.Event, mountCount: nat, stale: bool, dt: nat, messages: seq<Events.Payload>, phase: Option<string>)
    requires Valid(s)
    ensures Valid(Mounted(messages, phase))
    ensures Valid(Reduce(s, e, mountCount, stale))
    ensures s.timerOn ==> Valid(TickStep(s, dt))
  {
    Pacer.DueCarry(s.carry, dt);
  }

  /**
   * `assistant_chunk` appends the content to the buffer and leaves the
   * visible text alone, unless the handler sees the skip flag set.
   */
  lemma ChunkBuffers(s: State, c: string, mountCount: nat, stale: bool)
    ensures var r := Reduce(s, Events.AssistantChunk(c), mountCount, stale);
      r.streamingContent == s.streamingContent && r.messages == s.messages
      && (stale || !s.skip ==> r.buffer == s.buffer + c)
      && (!stale && s.skip ==> r == s)
  {
  }

  /**
   * `assistant_complete` shows the message at once, clearing the streaming
   * state, when the handler sees the skip flag or nothing of the reply is
   * visible or buffered; otherwise it only marks the reply done, with the
   * message waiting, and later ticks finish the reveal.
   */
  lemma CompleteCases(s: State, m: Events.Payload, flag: Option<bool>, mountCount: nat, stale: bool)
    requires Valid(s)
    ensures var r := Reduce(s, Events.AssistantComplete(m, flag), mountCount, stale);
      var now := (!stale && s.skip) || !ActivelyStreaming(s);
      (now ==> r.messages == s.messages + [m] && !r.isStreaming && r.streamingContent == "" && r.buffer == ""
               && r.pending.None? && !r.done && !r.timerOn)
      && (!now ==> r.messages == s.messages && r.done && r.pending == Some(m)
                   && r.buffer == s.buffer && r.streamingContent == s.streamingContent && r.isStreaming == s.isStreaming)
  {
  }

  /**
   * `assistant_start` starts a reply: streaming, nothing visible or
   * buffered, nothing waiting, the review panel showing that a review is
   * queued; the timer runs exactly when the reply is typed out, which is
   * when the handler saw earlier messages.
   */
  lemma StartResets(s: State, mountCount: nat, stale: bool)
    requires Valid(s)
    ensures var r := Reduce(s, Events.AssistantStart, mountCount, stale);
      r.isStreaming && r.streamingContent == "" && r.buffer == "" && !r.done && r.pending.None?
      && r.review == Reviewing && r.messages == s.messages
      && (r.skip <==> (if stale then mountCount else |s.messages|) == 0)
      && (r.timerOn <==> !r.skip)
  {
  }

  /**
   * The wrap-up state changes on `assistant_complete` only when the event
   * carries a flag, is reset by `phase_changed` and set from
   * `review_status`; no other event touches it.
   */
  lemma WrappingUpChanges(s: State, e: Events.Event, mountCount: nat, stale: bool)
    ensures var r := Reduce(s, e, mountCount, stale);
      (e.AssistantComplete? ==> r.wrappingUp == (if e.wrappingUp.Some? then e.wrappingUp.value else s.wrappingUp))
      && (e.PhaseChanged? ==> !r.wrappingUp && r.phase == e.phase)
      && (e.ReviewStatus? ==> r.wrappingUp == e.flag)
      && (!(e.AssistantComplete? || e.PhaseChanged? || e.ReviewStatus?) ==> r.wrappingUp == s.wrappingUp)
  {
  }

  /**
   * A tick keeps the reply's text: until the reply is finalised, the
   * visible text followed by the buffer is the same text, the visible part
   * having grown by at most the characters due; and the carry stays below
   * one character.
   */
  lemma TickKeepsText(s: State, dt: nat)
    ensures var r := TickStep(s, dt);
      r.carry < Pacer.UnitMs && r.carry == Pacer.Carry(s.carry, dt)
      && (!r.done ==> r.streamingContent + r.buffer == s.streamingContent + s.buffer
                      || (s.done && r.streamingContent == "" && r.buffer == ""))
      && (r.done ==> r.streamingContent + r.buffer == s.streamingContent + s.buffer
                     && |r.streamingContent| <= |s.streamingContent| + Pacer.Due(s.carry, dt))
  {
    Pacer.DueCarry(s.carry, dt);
    Pacer.MoveKeepsText(s.streamingContent, s.buffer, Pacer.Due(s.carry, dt));
  }

  /**
   * A tick finalises the reply exactly when it is done and the buffer is
   * empty after the move: the waiting message is appended and the
   * streaming state cleared. Otherwise the messages stay as they are.
   */
  lemma TickFinalises(s: State, dt: nat)
    requires Valid(s)
    ensures var r := TickStep(s, dt);
      var finalised := s.done && Pacer.Due(s.carry, dt) >= |s.buffer|;
      (finalised ==> r.messages == s.messages + [s.pending.value] && !r.isStreaming && !r.timerOn
                     && r.streamingContent == "" && r.buffer == "" && r.pending.None? && !r.done)
      && (!finalised ==> r.messages == s.messages && r.isStreaming == s.isStreaming && r.done == s.done
                         && r.pending == s.pending)
  {
    Pacer.MoveKeepsText(s.streamingContent, s.buffer, Pacer.Due(s.carry, dt));
  }

  /** `sendMessage` sends only a non-blank input while nothing streams, and the sent text is the input as typed. */
  lemma SendGuard(s: State)
    ensures Text.JsTrim(s.input) == "" || s.isStreaming ==> Send(s) == s
    ensures !(Text.JsTrim(s.input) == "" || s.isStreaming) ==>
      Send(s).performed == s.performed + [SendMessage(s.input)] && Send(s).input == ""
      && Send(s).(performed := s.performed, input := s.input) == s
  {
  }

  /**
   * Neither transition button shows while a reply streams, they never show
   * together, and a finalised reply brings back the one its phase allows.
   */
  lemma ButtonsExclusive(s: State, dt: nat)
    requires Valid(s)
    ensures s.isStreaming ==> !ShowsStartRolePlay(s) && !ShowsEndRolePlay(s)
    ensures !(ShowsStartRolePlay(s) && ShowsEndRolePlay(s))
    ensures s.done && Pacer.Due(s.carry, dt) >= |s.buffer| && s.phase == "setup" ==> ShowsStartRolePlay(TickStep(s, dt))
  {
    TickFinalises(s, dt);
  }

  // ---- The stale handler --------------------------------------------------------------

  /**
   * On a page mounted with no messages, `assistant_start` sets the skip
   * flag, which stops the timer, but the stale handler still buffers the
   * chunks and, seeing them, defers the message to the timer: the reply is
   * never shown and the page stays streaming, so `sendMessage` is blocked
   * from then on.
   */
  lemma StuckFirstReply(m: Events.Payload, phase: Option<string>)
    ensures var s0 := Mounted([], phase);
      var s1 := Reduce(s0, Events.AssistantStart, 0, true);
      var s2 := Reduce(s1, Events.AssistantChunk("Hi"), 0, true);
      var s3 := Reduce(s2, Events.AssistantComplete(m, None), 0, true);
      s3.isStreaming && s3.done && !s3.timerOn && s3.messages == [] && s3.buffer == "Hi"
      && Send(s3.(input := "Hello")) == s3.(input := "Hello")
  {
  }

  /** The page after the channel delivers `es` in order, with no tick between them. */
  function Replay(s: State, es: seq<Events.Event>, mountCount: nat, stale: bool): State
    decreases |es|
  {
    if |es| == 0 then s else Replay(Reduce(s, es[0], mountCount, stale), es[1..], mountCount, stale)
  }

  /** With a mount count above zero the stale handler leaves the skip flag off. */
  lemma StaleKeepsSkipOff(s: State, e: Events.Event, mountCount: nat)
    requires mountCount > 0 && !s.skip
    ensures !Reduce(s, e, mountCount, true).skip
  {
  }

  /**
   * The stale handler sets the skip flag only on a page mounted with no
   * messages: mounted with some, the flag stays off whatever the channel
   * delivers, so the skip branches are never taken.
   */
  lemma {:induction false} StaleHandlerNeverSkips(s: State, es: seq<Events.Event>, mountCount: nat)
    requires mountCount > 0 && !s.skip
    ensures !Replay(s, es, mountCount, true).skip
    decreases |es|
  {
    if |es| > 0 {
      StaleKeepsSkipOff(s, es[0], mountCount);
      StaleHandlerNeverSkips(Reduce(s, es[0], mountCount, true), es[1..], mountCount);
    }
  }

  /** A page mounted with some messages never sets the skip flag under the stale handler. */
  lemma MountedWithMessagesNeverSkips(messages: seq<Events.Payload>, phase: Option<string>, es: seq<Events.Event>)
    requires |messages| > 0
    ensures !Replay(Mounted(messages, phase), es, |messages|, true).skip
  {
    StaleHandlerNeverSkips(Mounted(messages, phase), es, |messages|);
  }

  /**
   * A handler that reads the current state shows a first reply on a page
   * with no messages at once, as the skip flag intends, and leaves the page
   * ready for input.
   */
  lemma SkippedFirstReply(m: Events.Payload, phase: Option<string>)
    ensures var s0 := Mounted([], phase);
      var s1 := Reduce(s0, Events.AssistantStart, 0, false);
      var s2 := Reduce(s1, Events.AssistantChunk("Hi"), 0, false);
      var s3 := Reduce(s2, Events.AssistantComplete(m, None), 0, false);
      !s3.isStreaming && !s3.done && !s3.skip && s3.messages == [m] && s3.buffer == ""
      && Send(s3.(input := "Hello")).performed == [SendMessage("Hello")]
  {
  }

  /** With the current state read, the skip flag always shows a complete reply at once and buffers nothing. */
  lemma SkipShowsAtOnce(s: State, e: Events.Event, mountCount: nat)
    requires Valid(s) && s.skip && s.isStreaming
    ensures e.AssistantChunk? ==> Reduce(s, e, mountCount, false) == s
    ensures e.AssistantComplete? ==>
      Reduce(s, e, mountCount, false).messages == s.messages + [e.message] && !Reduce(s, e, mountCount, false).isStreaming
  {
  }

  // ---- The page -------------------------------------------------------------------------

  /**
   * The mounted page. `state` holds the component's state hooks and the
   * refs that mirror them; each `set...` call of the source is one update
   * of it, in the source's order.
   */
  class Page {
    /** The number of messages the page was mounted with. */
    const mountCount: nat
    /** Whether the channel handler reads the mount-time messages and skip flag, as the page does. */
    const staleHandler: bool
    var state: State

    /** The page as mounted with the server's messages and phase. */
    constructor(initial: seq<Events.Payload>, initialPhase: Option<string>, stale: bool)
      ensures state == Mounted(initial, initialPhase) && Valid(state)
      ensures mountCount == |initial| && staleHandler == stale
    {
      mountCount := |initial|;
      staleHandler := stale;
      state := Mounted(initial, initialPhase);
    }

    /** The timer effect after a render in which `isStreaming` or the skip flag may have changed. */
    method RunEffect(wasStreaming: bool, wasSkip: bool)
      modifies this`state
      ensures state == Effect(wasStreaming, wasSkip, old(state))
    {
      if state.isStreaming != wasStreaming || state.skip != wasSkip {
        // The cleanup clears the interval; a visible stream starts a fresh one.
        var starts := state.isStreaming && !state.skip;
        state := state.(timerOn := starts);
        if starts {
          state := state.(carry := 0);
        }
      }
    }

    /** `received`: one event of the chat channel, as the handler sees the page. */
    method Received(e: Events.Event)
      modifies this`state
      ensures state == Reduce(old(state), e, mountCount, staleHandler)
    {
      var seenCount := if staleHandler then mountCount else |state.messages|;
      var seenSkip := if staleHandler then false else state.skip;
      match e {
        case UserMessage(m) =>
          state := state.(messages := state.messages + [m]);
        case AssistantStart =>
          OnStart(seenCount);
        case AssistantChunk(c) =>
          if !seenSkip {
            state := state.(buffer := state.buffer + c);
          }
        case AssistantComplete(m, flag) =>
          OnComplete(m, flag, seenSkip);
        case PhaseChanged(p) =>
          state := state.(phase := p);
          state := state.(wrappingUp := false);
        case Error(text) =>
          OnError(text);
        case ReviewStart =>
          state := state.(review := "");
        case ReviewChunk(c) =>
          state := state.(review := state.review + c);
        case ReviewComplete(c) =>
          state := state.(review := c);
        case ReviewStatus(flag) =>
          state := state.(wrappingUp := flag);
        case ReviewEnqueued(_) =>
      }
    }

    /** `assistant_start`. */
    method OnStart(seenCount: nat)
      modifies this`state
      ensures state == Receive(old(state), Events.AssistantStart, seenCount, false)
    {
      var wasStreaming, wasSkip := state.isStreaming, state.skip;
      state := state.(skip := seenCount == 0);
      state := state.(isStreaming := true);
      state := state.(streamingContent := "");
      state := state.(buffer := "");
      state := state.(done := false);
      state := state.(pending := None);
      state := state.(review := Reviewing);
      RunEffect(wasStreaming, wasSkip);
    }

    /** `assistant_complete`: shown at once, or left to the timer while its reveal is under way. */
    method OnComplete(m: Events.Payload, flag: Option<bool>, seenSkip: bool)
      modifies this`state
      ensures state == Receive(old(state), Events.AssistantComplete(m, flag), 0, seenSkip)
    {
      var wasStreaming, wasSkip := state.isStreaming, state.skip;
      var activelyStreaming := |state.buffer| > 0 || |state.streamingContent| > 0;
      if seenSkip || !activelyStreaming {
        ShowAtOnce(m);
      } else {
        state := state.(done := true);
        state := state.(pending := Some(m));
      }
      ghost var s1 := state;
      if flag.Some? {
        state := state.(wrappingUp := flag.value);
      }
      assert state == if flag.Some? then s1.(wrappingUp := flag.value) else s1;
      RunEffect(wasStreaming, wasSkip);
    }

    /** The reply's message is shown at once and the streaming state cleared. */
    method ShowAtOnce(m: Events.Payload)
      modifies this`state
      ensures state == old(state).(isStreaming := false, messages := old(state).messages + [m], streamingContent := "",
                                   buffer := "", pending := None, done := false, skip := false)
    {
      state := state.(isStreaming := false);
      state := state.(messages := state.messages + [m]);
      state := state.(streamingContent := "");
      state := state.(buffer := "");
      state := state.(pending := None);
      state := state.(done := false);
      state := state.(skip := false);
    }

    /** `error`: streaming stops, the visible text is cleared and the message alerted. */
    method OnError(text: string)
      modifies this`state
      ensures state == Receive(old(state), Events.Error(text), 0, false)
    {
      var wasStreaming, wasSkip := state.isStreaming, state.skip;
      state := state.(isStreaming := false);
      state := state.(streamingContent := "");
      state := state.(alerts := state.alerts + [text]);
      RunEffect(wasStreaming, wasSkip);
    }

    /** One tick of the running reveal timer after `dt` ms. */
    method Tick(dt: nat)
      requires state.timerOn
      modifies this`state
      ensures state == TickStep(old(state), dt)
    {
      var n := Pacer.Due(state.carry, dt);
      state := state.(carry := Pacer.Carry(state.carry, dt));
      // The visible text the placeholder would read: its ref lags behind this tick's move.
      var shown := state.streamingContent;
      if n > 0 {
        var prev := state.buffer;
        if |prev| > 0 {
          var take := Pacer.Taken(n, prev);
          state := state.(streamingContent := state.streamingContent + prev[..take]);
          state := state.(buffer := prev[take..]);
        }
      }
      if state.done && |state.buffer| == 0 {
        state := state.(timerOn := false);
        state := state.(isStreaming := false);
        state := state.(messages := state.messages + [state.pending.GetOr(Placeholder(shown))]);
        state := state.(streamingContent := "");
        state := state.(pending := None);
        state := state.(done := false);
      }
    }

    /** Typing into the text area. */
    method Type(text: string)
      modifies this`state
      ensures state == old(state).(input := text)
    {
      state := state.(input := text);
    }

    /** `sendMessage`. */
    method Submit()
      modifies this`state
      ensures state == Send(old(state))
    {
      if Text.JsTrim(state.input) == "" || state.isStreaming {
        return;
      }
      state := state.(performed := state.performed + [SendMessage(state.input)]);
      state := state.(input := "");
    }

    /** The "Start Role Play" button's handler. */
    method StartRolePlay()
      modifies this`state
      ensures state == old(state).(performed := old(state).performed + [TransitionPhase("role_play")])
    {
      state := state.(performed := state.performed + [TransitionPhase("role_play")]);
    }

    /** The "End Role Play" button's handler. */
    method EndRolePlay()
      modifies this`state
      ensures state == old(state).(performed := old(state).performed + [TransitionPhase("debrief")])
    {
      state := state.(performed := state.performed + [TransitionPhase("debrief")]);
    }
  }
}
