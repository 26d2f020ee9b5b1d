/**
 * The after-session coaching page: it opens with the coach's question when
 * the session has no coaching message yet, and shows the coaching chat in
 * creation order. The session is found among the current account's
 * sessions only (`RolePlaySessions.ScopedFind`).
 */
module CoachingSessionsController {
  import opened Wrappers
  import Text
  import ChatMessages
  import CoachMessages
  import RolePlaySessions
  import ChatChannel

  /** The coaching chat after `ensure_intro_message!`: the opener when there was no message, else as it was. */
  function WithIntro(ms: seq<CoachMessages.CoachMessage>, clock: nat): seq<CoachMessages.CoachMessage> {
    if |ms| == 0 then [CoachMessages.CoachMessage("assistant", ChatChannel.DebriefOpener, clock)] else ms
  }

  /** The chat is never empty afterwards, an existing chat is kept, and a second pass adds nothing. */
  lemma WithIntroFacts(ms: seq<CoachMessages.CoachMessage>, clock: nat, later: nat)
    ensures |WithIntro(ms, clock)| > 0
    ensures |ms| > 0 ==> WithIntro(ms, clock) == ms
    ensures ms <= WithIntro(ms, clock)
    ensures WithIntro(WithIntro(ms, clock), later) == WithIntro(ms, clock)
  {
  }

  /** The opener passes the coaching-message validations, so `create!` never raises. */
  lemma OpenerValid()
    ensures CoachMessages.ValidAttributes(Some("assistant"), Some(ChatChannel.DebriefOpener))
  {
    assert ChatChannel.DebriefOpener[0] == 'H';
    CoachMessages.ValidationCases(Some("assistant"), Some(ChatChannel.DebriefOpener));
  }

  /** `ensure_intro_message!`: creates the assistant's opener only when the session has no coaching message. */
  method EnsureIntroMessage(session: RolePlaySessions.Session)
    requires session.Valid()
    modifies session`coachMessages, session`clock
    ensures session.Valid()
    ensures session.coachMessages == WithIntro(old(session.coachMessages), old(session.clock))
    ensures session.clock == if |old(session.coachMessages)| == 0 then old(session.clock) + 1 else old(session.clock)
  {
    if |session.coachMessages| > 0 {
      return;
    }
    OpenerValid();
    var m := session.CreateCoachMessage(Some("assistant"), Some(ChatChannel.DebriefOpener));
  }

  /**
   * `show`: after the opener check the page receives the coaching chat,
   * which is never empty, in creation order, and exactly as stored.
   */
  method Show(session: RolePlaySessions.Session) returns (messages: seq<CoachMessages.CoachMessage>)
    requires session.Valid()
    modifies session`coachMessages, session`clock
    ensures session.Valid()
    ensures session.coachMessages == WithIntro(old(session.coachMessages), old(session.clock))
    ensures messages == session.coachMessages && |messages| > 0
    ensures CoachMessages.Chronological(messages)
  {
    EnsureIntroMessage(session);
    WithIntroFacts(old(session.coachMessages), old(session.clock), session.clock);
    CoachMessages.OrderedChronological(session.coachMessages);
    messages := CoachMessages.Ordered(session.coachMessages);
  }
}
