/** Messages of the after-session coaching chat. */
module CoachMessages {
  import opened Wrappers
  import Text
  import Ordering
  import ChatMessages

  /** A persisted coaching message; `createdAt` is its position in creation order. */
  datatype CoachMessage = CoachMessage(role: string, content: string, createdAt: nat)

  /** Role present and one of user, assistant, system; content present. */
  predicate ValidAttributes(role: Option<string>, content: Option<string>) {
    Text.Present(role) && role.value in ChatMessages.Roles && Text.Present(content)
  }

  lemma ValidationCases(role: Option<string>, content: Option<string>)
    ensures role.None? || role.value !in ChatMessages.Roles ==> !ValidAttributes(role, content)
    ensures content.None? || Text.Blank(content.value) ==> !ValidAttributes(role, content)
    ensures (role.Some? && role.value in ChatMessages.Roles && content.Some? && !Text.Blank(content.value))
            ==> ValidAttributes(role, content)
  {
    if role.Some? && role.value in ChatMessages.Roles {
      assert !Text.IsBlankSpace(role.value[0]);
    }
  }

  function CreatedAt(m: CoachMessage): int { m.createdAt }

  /** `ordered`: ascending creation time. */
  function Ordered(ms: seq<CoachMessage>): (r: seq<CoachMessage>)
    ensures Ordering.SortedBy(r, CreatedAt) && multiset(r) == multiset(ms)
  {
    Ordering.SortBy(ms, CreatedAt)
  }

  predicate Chronological(ms: seq<CoachMessage>) {
    forall i, j :: 0 <= i < j < |ms| ==> ms[i].createdAt < ms[j].createdAt
  }

  lemma OrderedChronological(ms: seq<CoachMessage>)
    requires Chronological(ms)
    ensures Ordered(ms) == ms
  {
    Ordering.SortBySorted(ms, CreatedAt);
  }
}
