/**
 * A practice session: its phase and status, the lifecycle callbacks and
 * transitions that update it, the model it talks to and the system prompt
 * each phase uses.
 */
module RolePlaySessions {
  import opened Wrappers
  import Text
  import Ordering
  import ChatMessages
  import CoachMessages
  import RolePlays
  import SystemPrompts
  import Knowledges
  import CharacterSummary

  const Statuses: seq<string> := ["active", "completed", "abandoned"]

  /** The model used when neither the session nor its scenario names one. */
  const DefaultModel: string := "gpt-4o"

  /** The tables the prompt builders read. */
  datatype Db = Db(prompts: seq<SystemPrompts.SystemPrompt>, knowledge: seq<Knowledges.Knowledge>)

  /** The columns `set_session_number` groups sessions by. */
  datatype Owner = Owner(accountId: nat, accountUserId: Option<nat>, rolePlayId: nat)

  /** `status` is in the list or nil. */
  predicate ValidStatus(status: Option<string>) {
    status.None? || status.value in Statuses
  }

  predicate ValidPhase(phase: string) {
    phase in ChatMessages.Phases
  }

  /** For a valid phase exactly one of `setup?`, `role_play_phase?`, `debrief?` holds. */
  lemma ExactlyOnePhase(phase: string)
    requires ValidPhase(phase)
    ensures (if phase == "setup" then 1 else 0) + (if phase == "role_play" then 1 else 0)
            + (if phase == "debrief" then 1 else 0) == 1
  {
  }

  /** Float#to_i of a time difference given in milliseconds: whole seconds, truncated toward zero. */
  function WholeSeconds(ms: int): (r: int)
    ensures ms >= 0 ==> 0 <= r && r * 1000 <= ms < r * 1000 + 1000
    ensures ms < 0 ==> r <= 0 && r * 1000 - 1000 < ms <= r * 1000
  {
    if ms >= 0 then ms / 1000 else -((-ms) / 1000)
  }

  /** How many of `existing` belong to `owner`. */
  function OwnerCount(existing: seq<Owner>, owner: Owner): (r: nat)
    ensures r <= |existing|
  {
    |Ordering.Filter(existing, (o: Owner) => o == owner)|
  }

  /** Each record of a given owner adds one to that owner's count. */
  lemma OwnerCountSnoc(existing: seq<Owner>, o: Owner, owner: Owner)
    ensures OwnerCount(existing + [o], owner) == OwnerCount(existing, owner) + (if o == owner then 1 else 0)
  {
    Ordering.FilterAppend(existing, [o], (x: Owner) => x == owner);
  }

  class Session {
    const id: nat
    const accountId: nat
    const accountUserId: Option<nat>
    const rolePlay: RolePlays.RolePlay
    /** The role-play prompt stored when the session was created. */
    const systemPrompt: Option<string>
    var phase: string
    var status: Option<string>
    var model: Option<string>
    /** Times are in milliseconds. */
    var startedAt: Option<int>
    var completedAt: Option<int>
    var durationSeconds: Option<int>
    var sessionNumber: Option<nat>
    var chatMessages: seq<ChatMessages.ChatMessage>
    var coachMessages: seq<CoachMessages.CoachMessage>
    /** The creation stamp the next message receives. */
    var clock: nat

    /** The session's own validations and its `belongs_to :account_user`. */
    predicate RecordValid()
      reads this`phase, this`status
    {
      ValidPhase(phase) && ValidStatus(status) && accountUserId.Some?
    }

    /** The stored messages are valid and numbered in creation order. */
    predicate MessagesValid()
      reads this
    {
      (forall i :: 0 <= i < |chatMessages| ==> ChatMessages.Valid(chatMessages[i]) && chatMessages[i].createdAt < clock)
      && ChatMessages.Chronological(chatMessages)
      && (forall i :: 0 <= i < |coachMessages| ==>
            CoachMessages.ValidAttributes(Some(coachMessages[i].role), Some(coachMessages[i].content))
            && coachMessages[i].createdAt < clock)
      && CoachMessages.Chronological(coachMessages)
    }

    /** A saved session. */
    predicate Valid()
      reads this
    {
      RecordValid() && MessagesValid()
    }

    function OwnerKey(): Owner {
      Owner.Owner(accountId, accountUserId, rolePlay.id)
    }

    /** `RolePlaySession.new` with the given attributes; nothing is saved yet. */
    constructor (id: nat, accountId: nat, accountUserId: Option<nat>, rolePlay: RolePlays.RolePlay,
                 systemPrompt: Option<string>, status: Option<string>, phase: string,
                 model: Option<string>, startedAt: Option<int>, sessionNumber: Option<nat>)
      ensures this.id == id && this.accountId == accountId && this.accountUserId == accountUserId
      ensures this.rolePlay == rolePlay && this.systemPrompt == systemPrompt
      ensures this.status == status && this.phase == phase
      ensures this.model == model && this.startedAt == startedAt && this.sessionNumber == sessionNumber
      ensures completedAt.None? && durationSeconds.None?
      ensures chatMessages == [] && coachMessages == [] && clock == 0
      ensures MessagesValid()
    {
      this.id := id;
      this.accountId := accountId;
      this.accountUserId := accountUserId;
      this.rolePlay := rolePlay;
      this.systemPrompt := systemPrompt;
      this.status := status;
      this.phase := phase;
      this.model := model;
      this.startedAt := startedAt;
      this.sessionNumber := sessionNumber;
      completedAt := None;
      durationSeconds := None;
      chatMessages := [];
      coachMessages := [];
      clock := 0;
    }

    /** `openai_model`: the session's model, else the scenario's, else the default. */
    function OpenaiModel(): (r: string)
      reads this`model
      ensures model.Some? ==> r == model.value
      ensures model.None? && rolePlay.model.Some? ==> r == rolePlay.model.value
      ensures model.None? && rolePlay.model.None? ==> r == DefaultModel
    {
      if model.Some? then model.value
      else if rolePlay.model.Some? then rolePlay.model.value
      else DefaultModel
    }

    predicate IsSetup() reads this { phase == "setup" }

    predicate IsRolePlayPhase() reads this { phase == "role_play" }

    predicate IsDebrief() reads this { phase == "debrief" }

    /** `before_create :set_started_at`: a preset time is kept. */
    method SetStartedAt(now: int)
      modifies this`startedAt
      ensures old(startedAt).Some? ==> startedAt == old(startedAt)
      ensures old(startedAt).None? ==> startedAt == Some(now)
    {
      if startedAt.None? {
        startedAt := Some(now);
      }
    }

    /**
     * `before_create :set_session_number`: one more than the sessions already
     * stored for the same account, account user and scenario, unless preset.
     */
    method SetSessionNumber(existing: seq<Owner>)
      modifies this`sessionNumber
      ensures old(sessionNumber).Some? ==> sessionNumber == old(sessionNumber)
      ensures old(sessionNumber).None? ==> sessionNumber == Some(OwnerCount(existing, OwnerKey()) + 1)
    {
      if sessionNumber.None? {
        sessionNumber := Some(OwnerCount(existing, OwnerKey()) + 1);
      }
    }

    /**
     * `before_create :set_model_from_role_play`: fills in the model that
     * `openai_model` would pick, so the effective model does not change.
     */
    method SetModelFromRolePlay()
      modifies this`model
      ensures old(model).Some? ==> model == old(model)
      ensures model.Some? && model.value == old(OpenaiModel())
      ensures OpenaiModel() == old(OpenaiModel())
    {
      if model.None? {
        model := Some(if rolePlay.model.Some? then rolePlay.model.value else DefaultModel);
      }
    }

    /**
     * `save`: the validations, then the three callbacks in declaration
     * order. A record that fails validation is not saved and not changed.
     */
    method Save(now: int, existing: seq<Owner>) returns (saved: bool)
      requires MessagesValid()
      modifies this`startedAt, this`sessionNumber, this`model
      ensures saved <==> RecordValid()
      ensures saved ==> Valid()
      ensures !saved ==> startedAt == old(startedAt) && sessionNumber == old(sessionNumber) && model == old(model)
      ensures saved ==> startedAt == (if old(startedAt).Some? then old(startedAt) else Some(now))
      ensures saved ==> sessionNumber == (if old(sessionNumber).Some? then old(sessionNumber) else Some(OwnerCount(existing, OwnerKey()) + 1))
      ensures saved ==> model == Some(old(OpenaiModel()))
    {
      if !RecordValid() {
        return false;
      }
      SetStartedAt(now);
      SetSessionNumber(existing);
      SetModelFromRolePlay();
      saved := true;
    }

    /** `chat_messages.create!`: the validations, then one message stamped with the next creation time. */
    method CreateChatMessage(role: Option<string>, content: Option<string>, phase: Option<string>)
      returns (m: Option<ChatMessages.ChatMessage>)
      requires MessagesValid()
      modifies this`chatMessages, this`clock
      ensures MessagesValid()
      ensures ChatMessages.ValidAttributes(role, content, phase) ==>
        m == Some(ChatMessages.ChatMessage(role.value, content.value, phase.value, old(clock)))
        && chatMessages == old(chatMessages) + [m.value] && clock == old(clock) + 1
      ensures !ChatMessages.ValidAttributes(role, content, phase) ==>
        m.None? && chatMessages == old(chatMessages) && clock == old(clock)
    {
      if !ChatMessages.ValidAttributes(role, content, phase) {
        return None;
      }
      var msg := ChatMessages.ChatMessage(role.value, content.value, phase.value, clock);
      chatMessages := chatMessages + [msg];
      clock := clock + 1;
      m := Some(msg);
    }

    /** `coach_messages.create!`. */
    method CreateCoachMessage(role: Option<string>, content: Option<string>)
      returns (m: Option<CoachMessages.CoachMessage>)
      requires MessagesValid()
      modifies this`coachMessages, this`clock
      ensures MessagesValid()
      ensures CoachMessages.ValidAttributes(role, content) ==>
        m == Some(CoachMessages.CoachMessage(role.value, content.value, old(clock)))
        && coachMessages == old(coachMessages) + [m.value] && clock == old(clock) + 1
      ensures !CoachMessages.ValidAttributes(role, content) ==>
        m.None? && coachMessages == old(coachMessages) && clock == old(clock)
    {
      if !CoachMessages.ValidAttributes(role, content) {
        return None;
      }
      var msg := CoachMessages.CoachMessage(role.value, content.value, clock);
      coachMessages := coachMessages + [msg];
      clock := clock + 1;
      m := Some(msg);
    }

    /** `transition_to_role_play!`: from any phase, with no check of the current one. */
    method TransitionToRolePlay()
      requires Valid()
      modifies this`phase
      ensures Valid() && phase == "role_play"
    {
      phase := "role_play";
    }

    /** `transition_to_debrief!`: from any phase. */
    method TransitionToDebrief()
      requires Valid()
      modifies this`phase
      ensures Valid() && phase == "debrief"
    {
      phase := "debrief";
    }

    /**
     * `complete!`. Without a start time the subtraction raises and nothing
     * is saved. Both readings of the clock are taken as the same instant.
     */
    method Complete(now: int) returns (ok: bool)
      requires Valid()
      modifies this`status, this`completedAt, this`durationSeconds
      ensures Valid()
      ensures ok <==> startedAt.Some?
      ensures !ok ==> status == old(status) && completedAt == old(completedAt) && durationSeconds == old(durationSeconds)
      ensures ok ==> (status == Some("completed") && completedAt == Some(now)
                      && durationSeconds == Some(WholeSeconds(now - startedAt.value)))
    {
      if startedAt.None? {
        return false;
      }
      status := Some("completed");
      completedAt := Some(now);
      durationSeconds := Some(WholeSeconds(now - startedAt.value));
      ok := true;
    }

    /** `current_system_prompt` of the session as it is now. */
    function CurrentSystemPrompt(db: Db): Option<string>
      reads this
    {
      PhasePrompt(phase, rolePlay, systemPrompt, chatMessages, db)
    }
  }

  /**
   * The system prompt of a phase: built for setup and debrief, the stored
   * one for role play, nil outside the three phases.
   */
  function PhasePrompt(phase: string, rp: RolePlays.RolePlay, systemPrompt: Option<string>,
                       ms: seq<ChatMessages.ChatMessage>, db: Db): (r: Option<string>)
    ensures phase == "setup" ==> r == Some(SetupPrompt(rp, db))
    ensures phase == "role_play" ==> r == systemPrompt
    ensures phase == "debrief" ==> r == Some(DebriefPrompt(ms, db))
    ensures !ValidPhase(phase) ==> r.None?
  {
    if phase == "setup" then Some(SetupPrompt(rp, db))
    else if phase == "role_play" then systemPrompt
    else if phase == "debrief" then Some(DebriefPrompt(ms, db))
    else None
  }

  /** The session with that id among the account's own; another account's session is never found. */
  function ScopedFind(sessions: seq<Session>, accountId: nat, id: nat): (r: Option<Session>)
    ensures r.Some? ==> r.value in sessions && r.value.accountId == accountId && r.value.id == id
    ensures r.None? ==> forall i :: 0 <= i < |sessions| ==> !(sessions[i].accountId == accountId && sessions[i].id == id)
  {
    if |sessions| == 0 then None
    else if sessions[0].accountId == accountId && sessions[0].id == id then Some(sessions[0])
    else ScopedFind(sessions[1..], accountId, id)
  }

  // ---- Prompt texts -------------------------------------------------------

  /** Interpolating a value that may be nil: nil gives the empty text. */
  function Interp(v: Option<string>): string {
    v.GetOr("")
  }

  /** The instruction that closes the setup prompt (its prose is not reproduced). */
  const SetupClosing: string := "IMPORTANT: You are Clary the coach introducing this scenario. [...]"

  /** The debrief prompt's opening and closing instructions (prose not reproduced). */
  const DebriefIntro: string := "You just observed this role play conversation between a manager and a team member. [...]"
  const DebriefClosing: string := "Start by asking \"How do you think that went?\" [...]"

  const CharacterHeader: string := "Character they will speak with:\n"
  const KnowledgeHeader: string := "COACHING KNOWLEDGE (use only if directly relevant):\n"
  const TranscriptHeader: string := "ROLE PLAY TRANSCRIPT:\n"

  /** The character summary of the scenario's instructions: the summary lines joined by "\n". */
  function CharacterSummaryText(rp: RolePlays.RolePlay): string {
    Text.Join(CharacterSummary.SummaryLines(Text.Strip(Interp(rp.llmInstructions))), "\n")
  }

  function ScenarioDetails(rp: RolePlays.RolePlay): string {
    "SCENARIO DETAILS:\nName: " + rp.name
    + "\nCategory: " + (if rp.category.Some? then rp.category.value.name else "")
    + "\nDuration: " + (if rp.durationMinutes.Some? then Text.IntToString(rp.durationMinutes.value) else "")
    + " minutes\n\nDescription:\n" + Text.Strip(Interp(rp.description))
  }

  /**
   * The layout both phase prompts share: the soul prompt, the phase's
   * instructions, its body, an optional block shown only when its text is
   * not blank, and the closing instruction, separated by blank lines.
   */
  function Layout(soul: string, instructions: string, body: string, header: string, optional: string, closing: string): string {
    var block := if Text.Blank(optional) then "" else header + optional;
    soul + "\n\n" + instructions + "\n\n" + (body + "\n\n") + (block + "\n\n" + closing + "\n")
  }

  /** A layout starts with the soul prompt, ends with the closing line, and holds its body and any non-blank block. */
  lemma LayoutShape(soul: string, instructions: string, body: string, header: string, optional: string, closing: string)
    ensures var r := Layout(soul, instructions, body, header, optional, closing);
      Text.StartsWith(r, soul)
      && Text.EndsWith(r, closing + "\n")
      && Text.Contains(r, body + "\n\n")
      && (!Text.Blank(optional) ==> Text.Contains(r, header + optional))
  {
    LayoutStart(soul, instructions, body, header, optional, closing);
    LayoutEnd(soul, instructions, body, header, optional, closing);
    LayoutBody(soul, instructions, body, header, optional, closing);
    LayoutBlock(soul, instructions, body, header, optional, closing);
  }

  lemma LayoutStart(soul: string, instructions: string, body: string, header: string, optional: string, closing: string)
    ensures Text.StartsWith(Layout(soul, instructions, body, header, optional, closing), soul)
  {
    var r := Layout(soul, instructions, body, header, optional, closing);
    assert r == soul + r[|soul|..];
  }

  lemma LayoutEnd(soul: string, instructions: string, body: string, header: string, optional: string, closing: string)
    ensures Text.EndsWith(Layout(soul, instructions, body, header, optional, closing), closing + "\n")
  {
    var r := Layout(soul, instructions, body, header, optional, closing);
    var k := |r| - |closing + "\n"|;
    assert r == r[..k] + (closing + "\n");
  }

  lemma LayoutBody(soul: string, instructions: string, body: string, header: string, optional: string, closing: string)
    ensures Text.Contains(Layout(soul, instructions, body, header, optional, closing), body + "\n\n")
  {
    var block := if Text.Blank(optional) then "" else header + optional;
    Text.ContainsMiddle(soul + "\n\n" + instructions + "\n\n", body + "\n\n", block + "\n\n" + closing + "\n");
  }

  lemma LayoutBlock(soul: string, instructions: string, body: string, header: string, optional: string, closing: string)
    ensures !Text.Blank(optional) ==> Text.Contains(Layout(soul, instructions, body, header, optional, closing), header + optional)
  {
    if !Text.Blank(optional) {
      var before := soul + "\n\n" + instructions + "\n\n" + (body + "\n\n");
      var tail := "\n\n" + closing + "\n";
      assert Layout(soul, instructions, body, header, optional, closing) == before + (header + optional) + tail;
      Text.ContainsMiddle(before, header + optional, tail);
    }
  }

  /** `build_setup_prompt`. */
  function SetupPrompt(rp: RolePlays.RolePlay, db: Db): string {
    Layout(Interp(SystemPrompts.Fetch(db.prompts, "clary_soul", None)),
           Interp(SystemPrompts.Fetch(db.prompts, "setup_intro_system_prompt", None)),
           ScenarioDetails(rp), CharacterHeader, CharacterSummaryText(rp), SetupClosing)
  }

  /**
   * The setup prompt opens with the soul prompt, states the scenario
   * details, has the character block exactly when there is a summary, and
   * ends with the closing instruction.
   */
  lemma SetupPromptShape(rp: RolePlays.RolePlay, db: Db)
    ensures var r := SetupPrompt(rp, db);
      Text.StartsWith(r, Interp(SystemPrompts.Fetch(db.prompts, "clary_soul", None)))
      && Text.EndsWith(r, SetupClosing + "\n")
      && Text.Contains(r, ScenarioDetails(rp))
      && (!Text.Blank(CharacterSummaryText(rp)) ==> Text.Contains(r, CharacterHeader + CharacterSummaryText(rp)))
  {
    var details := ScenarioDetails(rp);
    LayoutShape(Interp(SystemPrompts.Fetch(db.prompts, "clary_soul", None)),
                Interp(SystemPrompts.Fetch(db.prompts, "setup_intro_system_prompt", None)),
                details, CharacterHeader, CharacterSummaryText(rp), SetupClosing);
    Text.ContainsPrefix(SetupPrompt(rp, db), details, "\n\n");
  }

  // ---- Debrief ------------------------------------------------------------

  /** Who said a message, as the debrief transcript names them. */
  function DebriefLabel(role: string): string {
    if role == "user" then "Manager" else "Role Play Character"
  }

  function DebriefEntry(m: ChatMessages.ChatMessage): string {
    DebriefLabel(m.role) + ": " + m.content
  }

  /** An entry is a Manager line exactly when the message is the user's. */
  lemma DebriefEntryLabel(m: ChatMessages.ChatMessage)
    ensures Text.StartsWith(DebriefEntry(m), "Manager: ") <==> m.role == "user"
    ensures m.role != "user" ==> Text.StartsWith(DebriefEntry(m), "Role Play Character: ")
  {
    if m.role != "user" {
      assert DebriefEntry(m)[0] == 'R';
    }
  }

  function DebriefEntries(ms: seq<ChatMessages.ChatMessage>): (r: seq<string>)
    ensures |r| == |ms|
    ensures forall i :: 0 <= i < |ms| ==> r[i] == DebriefEntry(ms[i])
  {
    seq(|ms|, i requires 0 <= i < |ms| => DebriefEntry(ms[i]))
  }

  /** The role-play messages in creation order, one entry each, separated by a blank line. */
  function DebriefTranscript(ms: seq<ChatMessages.ChatMessage>): string {
    Text.Join(DebriefEntries(ChatMessages.Ordered(ChatMessages.WithPhase(ms, "role_play"))), "\n\n")
  }

  /** On a chronological log, the transcript lists the role-play messages in log order and nothing else. */
  lemma DebriefTranscriptInLogOrder(ms: seq<ChatMessages.ChatMessage>)
    requires ChatMessages.Chronological(ms)
    ensures DebriefTranscript(ms) == Text.Join(DebriefEntries(ChatMessages.WithPhase(ms, "role_play")), "\n\n")
  {
    ChatMessages.WithPhaseOrdered(ms, "role_play");
  }

  /** `build_debrief_prompt`. */
  function DebriefPrompt(ms: seq<ChatMessages.ChatMessage>, db: Db): string {
    Layout(Interp(SystemPrompts.Fetch(db.prompts, "clary_soul", None)), DebriefIntro,
           TranscriptHeader + DebriefTranscript(ms), KnowledgeHeader, Knowledges.RichCorpus(db.knowledge),
           DebriefClosing)
  }

  /**
   * The debrief prompt opens with the soul prompt, holds the transcript
   * block, has the knowledge block only for a non-blank corpus, and ends
   * with the closing instruction.
   */
  lemma DebriefPromptShape(ms: seq<ChatMessages.ChatMessage>, db: Db)
    ensures var r := DebriefPrompt(ms, db);
      Text.StartsWith(r, Interp(SystemPrompts.Fetch(db.prompts, "clary_soul", None)))
      && Text.EndsWith(r, DebriefClosing + "\n")
      && Text.Contains(r, TranscriptHeader + DebriefTranscript(ms) + "\n\n")
      && (!Text.Blank(Knowledges.RichCorpus(db.knowledge)) ==>
          Text.Contains(r, KnowledgeHeader + Knowledges.RichCorpus(db.knowledge)))
  {
    LayoutShape(Interp(SystemPrompts.Fetch(db.prompts, "clary_soul", None)), DebriefIntro,
                TranscriptHeader + DebriefTranscript(ms), KnowledgeHeader, Knowledges.RichCorpus(db.knowledge),
                DebriefClosing);
  }
}
