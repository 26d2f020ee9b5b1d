/** Messages of the role-play conversation: validations and scopes. */
module ChatMessages {
  import opened Wrappers
  import Text
  import Ordering

  /** The phase names a message (and a session) may carry, in session order. */
  const Phases: seq<string> := ["setup", "role_play", "debrief"]

  const Roles: seq<string> := ["user", "assistant", "system"]

  /** A persisted message; `createdAt` is its position in creation order. */
  datatype ChatMessage = ChatMessage(role: string, content: string, phase: string, createdAt: nat)

  /** The validations `create!` runs on the attributes it is given. */
  predicate ValidAttributes(role: Option<string>, content: Option<string>, phase: Option<string>) {
    Text.Present(role) && role.value in Roles
    && Text.Present(content)
    && phase.Some? && phase.value in Phases
  }

  predicate Valid(m: ChatMessage) {
    ValidAttributes(Some(m.role), Some(m.content), Some(m.phase))
  }

  /** What the validations accept and refuse, case by case. */
  lemma ValidationCases(role: Option<string>, content: Option<string>, phase: Option<string>)
    ensures role.None? || role.value !in Roles ==> !ValidAttributes(role, content, phase)
    ensures content.None? || Text.Blank(content.value) ==> !ValidAttributes(role, content, phase)
    ensures phase.None? || phase.value !in Phases ==> !ValidAttributes(role, content, phase)
    ensures (role.Some? && role.value in Roles && content.Some? && !Text.Blank(content.value)
             && phase.Some? && phase.value in Phases) ==> ValidAttributes(role, content, phase)
  {
    if role.Some? && role.value in Roles {
      assert role.value[0] != ' ' && role.value[0] != '\t';
      assert !Text.Blank(role.value) by {
        if role.value == "user" { assert !Text.IsBlankSpace(role.value[0]); }
        else if role.value == "assistant" { assert !Text.IsBlankSpace(role.value[0]); }
        else { assert !Text.IsBlankSpace(role.value[0]); }
      }
    }
  }

  function HasPhase(p: string): ChatMessage -> bool { (m: ChatMessage) => m.phase == p }

  function HasRole(r: string): ChatMessage -> bool { (m: ChatMessage) => m.role == r }

  /** `setup_phase`, `role_play_phase`, `debrief_phase`. */
  function WithPhase(ms: seq<ChatMessage>, p: string): seq<ChatMessage> {
    Ordering.Filter(ms, HasPhase(p))
  }

  /** A phase scope holds the messages of that phase and no other. */
  lemma WithPhaseMembers(ms: seq<ChatMessage>, p: string)
    ensures forall i :: 0 <= i < |WithPhase(ms, p)| ==> WithPhase(ms, p)[i].phase == p && WithPhase(ms, p)[i] in ms
    ensures forall i :: 0 <= i < |ms| && ms[i].phase == p ==> ms[i] in WithPhase(ms, p)
  {
    Ordering.FilterMembers(ms, HasPhase(p));
  }

  /** `user_messages`. */
  function UserMessages(ms: seq<ChatMessage>): seq<ChatMessage> {
    Ordering.Filter(ms, HasRole("user"))
  }

  /** `assistant_messages`. */
  function AssistantMessages(ms: seq<ChatMessage>): seq<ChatMessage> {
    Ordering.Filter(ms, HasRole("assistant"))
  }

  /** The role scopes hold the messages of that role and no other. */
  lemma RoleScopesMembers(ms: seq<ChatMessage>)
    ensures forall i :: 0 <= i < |UserMessages(ms)| ==> UserMessages(ms)[i].role == "user" && UserMessages(ms)[i] in ms
    ensures forall i :: 0 <= i < |ms| && ms[i].role == "user" ==> ms[i] in UserMessages(ms)
    ensures forall i :: 0 <= i < |AssistantMessages(ms)| ==>
      AssistantMessages(ms)[i].role == "assistant" && AssistantMessages(ms)[i] in ms
    ensures forall i :: 0 <= i < |ms| && ms[i].role == "assistant" ==> ms[i] in AssistantMessages(ms)
  {
    Ordering.FilterMembers(ms, HasRole("user"));
    Ordering.FilterMembers(ms, HasRole("assistant"));
  }

  function CreatedAt(m: ChatMessage): int { m.createdAt }

  /** `ordered`: ascending creation time. */
  function Ordered(ms: seq<ChatMessage>): (r: seq<ChatMessage>)
    ensures Ordering.SortedBy(r, CreatedAt) && multiset(r) == multiset(ms)
  {
    Ordering.SortBy(ms, CreatedAt)
  }

  /** Every message was created after the ones before it. */
  predicate Chronological(ms: seq<ChatMessage>) {
    forall i, j :: 0 <= i < j < |ms| ==> ms[i].createdAt < ms[j].createdAt
  }

  /** On a log kept in creation order, `ordered` is the log itself. */
  lemma OrderedChronological(ms: seq<ChatMessage>)
    requires Chronological(ms)
    ensures Ordered(ms) == ms
  {
    Ordering.SortBySorted(ms, CreatedAt);
  }

  lemma {:induction false} FilterChronological(ms: seq<ChatMessage>, p: ChatMessage -> bool)
    requires Chronological(ms)
    ensures Chronological(Ordering.Filter(ms, p))
  {
    if |ms| > 0 {
      var tail := ms[1..];
      assert Chronological(tail);
      FilterChronological(tail, p);
      Ordering.FilterMembers(tail, p);
      if p(ms[0]) {
        var rest := Ordering.Filter(tail, p);
        forall i | 0 <= i < |rest|
          ensures ms[0].createdAt < rest[i].createdAt
        {
          var k :| 0 <= k < |tail| && tail[k] == rest[i];
          assert tail[k] == ms[k + 1];
        }
        ConsChronological(ms[0], rest);
      }
    }
  }

  lemma ConsChronological(m: ChatMessage, rest: seq<ChatMessage>)
    requires Chronological(rest)
    requires forall i :: 0 <= i < |rest| ==> m.createdAt < rest[i].createdAt
    ensures Chronological([m] + rest)
  {
    var s := [m] + rest;
    forall i, j | 0 <= i < j < |s|
      ensures s[i].createdAt < s[j].createdAt
    {
      assert s[j] == rest[j - 1];
      if i > 0 {
        assert s[i] == rest[i - 1];
      }
    }
  }

  /** The phase scopes of a chronological log, each in creation order. */
  lemma WithPhaseOrdered(ms: seq<ChatMessage>, p: string)
    requires Chronological(ms)
    ensures Ordered(WithPhase(ms, p)) == WithPhase(ms, p)
  {
    FilterChronological(ms, HasPhase(p));
    OrderedChronological(WithPhase(ms, p));
  }

  /** Each valid message is kept by exactly one of the three phase scopes. */
  lemma {:induction false} PhaseScopesPartition(ms: seq<ChatMessage>)
    requires forall i :: 0 <= i < |ms| ==> ms[i].phase in Phases
    ensures |WithPhase(ms, "setup")| + |WithPhase(ms, "role_play")| + |WithPhase(ms, "debrief")| == |ms|
  {
    if |ms| > 0 {
      PhaseScopesPartition(ms[1..]);
    }
  }
}
