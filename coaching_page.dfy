/**
 * The coaching chat page's client state: the messages shown, the streamed
 * reply revealed at reading speed, and the messages sent to the coach
 * channel.
 *
 * React state and the refs mirroring it are one field each; an event's
 * handler runs to completion before the timer effect reacts to the new
 * `isStreaming`.
 */
module CoachingPage {
  import opened Wrappers
  import Text
  import Events
  import Pacer

  class Page {
    var messages: seq<Events.Payload>
    var input: string
    var isStreaming: bool
    var streamingContent: string
    var buffer: string
    var pending: Option<Events.Payload>
    /** Left-over milliseconds of the reveal timer. */
    var carry: nat
    /** Whether the reveal interval is running. */
    var timerOn: bool
    /** Texts shown with `alert`. */
    var alerts: seq<string>
    /** Contents sent with `perform("send_message")`, in order. */
    var sent: seq<string>

    /** The timer runs only while streaming, and the carry stays below one character. */
    predicate Valid()
      reads this
    {
      carry < Pacer.UnitMs && (timerOn ==> isStreaming)
    }

    /** The page as mounted with the server's messages. */
    constructor(initial: seq<Events.Payload>)
      ensures Valid()
      ensures messages == initial && input == "" && !isStreaming && streamingContent == "" && buffer == ""
      ensures pending.None? && carry == 0 && !timerOn && alerts == [] && sent == []
    {
      messages := initial;
      input := "";
      isStreaming := false;
      streamingContent := "";
      buffer := "";
      pending := None;
      carry := 0;
      timerOn := false;
      alerts := [];
      sent := [];
    }

    /**
     * The timer effect, run when `isStreaming` changed: the cleanup clears
     * the timer, and a fresh one starts, with no carry, when streaming
     * began. Its own stop test reads the `isStreaming` it was started
     * with, which is true, so the timer never stops itself.
     */
    method Effect(wasStreaming: bool)
      requires carry < Pacer.UnitMs && (timerOn ==> wasStreaming)
      modifies this`timerOn, this`carry
      ensures Valid()
      ensures isStreaming && !wasStreaming ==> timerOn && carry == 0
      ensures !isStreaming && wasStreaming ==> !timerOn && carry == old(carry)
      ensures isStreaming == wasStreaming ==> timerOn == old(timerOn) && carry == old(carry)
    {
      if isStreaming != wasStreaming {
        timerOn := isStreaming;
        if isStreaming {
          carry := 0;
        }
      }
    }

    /** `received`: one event from the coach channel. */
    method Received(e: Events.Event)
      requires Valid()
      modifies this
      ensures Valid()
      ensures input == old(input) && sent == old(sent)
      ensures e.UserMessage? ==>
        messages == old(messages) + [e.message] && isStreaming == old(isStreaming)
        && streamingContent == old(streamingContent) && buffer == old(buffer) && alerts == old(alerts)
        && pending == old(pending) && carry == old(carry) && timerOn == old(timerOn)
      ensures e.AssistantStart? ==>
        isStreaming && streamingContent == "" && buffer == "" && pending.None?
        && messages == old(messages) && alerts == old(alerts)
        && (!old(isStreaming) ==> timerOn && carry == 0)
        && (old(isStreaming) ==> timerOn == old(timerOn) && carry == old(carry))
      ensures e.AssistantChunk? ==>
        buffer == old(buffer) + e.content && streamingContent == old(streamingContent)
        && messages == old(messages) && isStreaming == old(isStreaming) && timerOn == old(timerOn)
        && pending == old(pending) && carry == old(carry) && alerts == old(alerts)
      ensures e.AssistantComplete? ==>
        messages == old(messages) + [e.message] && !isStreaming && !timerOn
        && streamingContent == "" && buffer == "" && pending.None? && alerts == old(alerts)
        && carry == old(carry)
      ensures e.Error? ==>
        !isStreaming && !timerOn && streamingContent == "" && buffer == old(buffer)
        && messages == old(messages) && alerts == old(alerts) + [if e.text == "" then "Error" else e.text]
        && pending == old(pending) && carry == old(carry)
      ensures !(e.UserMessage? || e.AssistantStart? || e.AssistantChunk? || e.AssistantComplete? || e.Error?) ==>
        messages == old(messages) && isStreaming == old(isStreaming) && streamingContent == old(streamingContent)
        && buffer == old(buffer) && pending == old(pending) && carry == old(carry) && timerOn == old(timerOn)
        && alerts == old(alerts)
    {
      var was := isStreaming;
      match e {
        case UserMessage(m) =>
          messages := messages + [m];
        case AssistantStart =>
          isStreaming := true;
          streamingContent := "";
          buffer := "";
          pending := None;
        case AssistantChunk(c) =>
          buffer := buffer + c;
        case AssistantComplete(m, _) =>
          isStreaming := false;
          messages := messages + [m];
          streamingContent := "";
          buffer := "";
          pending := None;
        case Error(text) =>
          isStreaming := false;
          streamingContent := "";
          alerts := alerts + [if text == "" then "Error" else text];
        case _ =>
      }
      Effect(was);
    }

    /**
     * One tick of the reveal timer after `dt` ms: the characters due move
     * from the front of the buffer to the visible text; nothing else
     * changes.
     */
    method Tick(dt: nat)
      requires Valid() && timerOn
      modifies this`carry, this`streamingContent, this`buffer
      ensures Valid()
      ensures carry == Pacer.Carry(old(carry), dt)
      ensures streamingContent == old(streamingContent) + old(buffer)[..Pacer.Taken(Pacer.Due(old(carry), dt), old(buffer))]
      ensures buffer == old(buffer)[Pacer.Taken(Pacer.Due(old(carry), dt), old(buffer))..]
      ensures streamingContent + buffer == old(streamingContent) + old(buffer)
      ensures |streamingContent| <= |old(streamingContent)| + Pacer.Due(old(carry), dt)
    {
      var n := Pacer.Due(carry, dt);
      Pacer.DueCarry(carry, dt);
      Pacer.MoveKeepsText(streamingContent, buffer, n);
      carry := Pacer.Carry(carry, dt);
      if n > 0 {
        var prev := buffer;
        if |prev| > 0 {
          var take := Pacer.Taken(n, prev);
          streamingContent := streamingContent + prev[..take];
          buffer := prev[take..];
        }
      }
    }

    /** Typing into the text area. */
    method Type(text: string)
      modifies this`input
      ensures input == text
    {
      input := text;
    }

    /**
     * `sendMessage`: blocked while the trimmed input is empty or a reply is
     * streaming; otherwise the input is sent as typed and cleared.
     */
    method SendMessage()
      modifies this`input, this`sent
      ensures Text.JsTrim(old(input)) == "" || old(isStreaming) ==> input == old(input) && sent == old(sent)
      ensures !(Text.JsTrim(old(input)) == "" || old(isStreaming)) ==> sent == old(sent) + [old(input)] && input == ""
    {
      if Text.JsTrim(input) == "" || isStreaming {
        return;
      }
      sent := sent + [input];
      input := "";
    }
  }
}
