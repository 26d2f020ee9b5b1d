/**
 * Starting and showing a practice session: the role-play prompt stored
 * when the session is created, and the coach's setup introduction, which
 * is generated when the session is created and again on `show` while the
 * setup phase has no message.
 */
module RolePlaySessionsController {
  import opened Wrappers
  import Text
  import Json
  import Llm
  import ChatMessages
  import RolePlays
  import SystemPrompts
  import RolePlaySessions
  import ChatChannel

  // ---- The role-play prompt ---------------------------------------------------

  const PromptKey: string := "role_play_system_prompt"

  const ManagerHeader: string := "\nManager Context " + "(about the human you are speaking to):\n"

  /** The character override that precedes the scenario's notes (prose not reproduced). */
  const OverrideBlock: string := "\nCRITICAL INSTRUCTION - " + "READ CAREFULLY:\n[...]\n" + "Character Notes " + "(BE this person):\n"

  /** The line the character is told to end a concluding reply with. */
  const WrapUpLine: string := "{\"" + WrapUpKey + "\": true}"

  const WrapUpKey: string := "wrapping_up"

  /** The wrap-up instruction (prose not reproduced around the line it quotes). */
  const WrapInstruction: string := "\nCONVERSATION ENDING:\n" + "[...]\n" + WrapUpLine + "\n\n" + "Only include this when " + "[...]\n"

  /** The manager-context block for the user's own context text. */
  function ManagerBlock(context: string): string {
    ManagerHeader + Text.Strip(context) + "\n"
  }

  /** What the user's context adds: its block when present, else nothing. */
  function ContextPart(context: Option<string>): string {
    if Text.Present(context) then ManagerBlock(context.value) else ""
  }

  /** What the scenario's notes add: the override and the notes when present, else nothing. */
  function CharacterPart(rp: RolePlays.RolePlay): string {
    if Text.Present(rp.llmInstructions) then OverrideBlock + rp.llmInstructions.value else ""
  }

  /**
   * The prompt `build_system_prompt` returns, from the fetched base. With no
   * base, appending to nil raises: None.
   */
  function RolePlayPrompt(base: Option<string>, context: Option<string>, rp: RolePlays.RolePlay): Option<string> {
    if base.None? then None
    else Some(base.value + ContextPart(context) + CharacterPart(rp) + WrapInstruction)
  }

  /**
   * `build_system_prompt`: the base template, then the manager context when
   * the user has one, then the override and the scenario's notes when it
   * has some, then the wrap-up instruction.
   */
  method BuildSystemPrompt(prompts: seq<SystemPrompts.SystemPrompt>, context: Option<string>, rp: RolePlays.RolePlay)
    returns (prompt: Option<string>)
    ensures prompt == RolePlayPrompt(SystemPrompts.Fetch(prompts, PromptKey, None), context, rp)
  {
    var base := SystemPrompts.Fetch(prompts, PromptKey, None);
    if base.None? {
      // `nil << text` raises NoMethodError.
      return None;
    }
    var p := base.value;
    if Text.Present(context) {
      p := p + ManagerBlock(context.value);
    } else {
      assert p + ContextPart(context) == p;
    }
    assert p == base.value + ContextPart(context);
    if Text.Present(rp.llmInstructions) {
      p := p + (OverrideBlock + rp.llmInstructions.value);
    } else {
      assert p + CharacterPart(rp) == p;
    }
    assert p == base.value + ContextPart(context) + CharacterPart(rp);
    p := p + WrapInstruction;
    prompt := Some(p);
  }

  /**
   * The base template is a prefix; the manager block follows it exactly
   * when the user's context is present; the scenario's notes, after the
   * override, come last but for the wrap-up instruction exactly when they
   * are present; and the wrap-up instruction always ends the prompt.
   */
  lemma RolePlayPromptShape(base: Option<string>, context: Option<string>, rp: RolePlays.RolePlay)
    ensures RolePlayPrompt(base, context, rp).None? <==> base.None?
    ensures base.Some? ==> Text.StartsWith(RolePlayPrompt(base, context, rp).value, base.value)
    ensures base.Some? ==> Text.EndsWith(RolePlayPrompt(base, context, rp).value, WrapInstruction)
    ensures base.Some? && Text.Present(context) ==>
      Text.StartsWith(RolePlayPrompt(base, context, rp).value, base.value + ManagerBlock(context.value))
    ensures base.Some? && Text.Present(rp.llmInstructions) ==>
      Text.EndsWith(RolePlayPrompt(base, context, rp).value, OverrideBlock + rp.llmInstructions.value + WrapInstruction)
    ensures base.Some? && !Text.Present(context) && !Text.Present(rp.llmInstructions) ==>
      RolePlayPrompt(base, context, rp).value == base.value + WrapInstruction
  {
    if base.Some? {
      var b, c, ch := base.value, ContextPart(context), CharacterPart(rp);
      Text.Layers(b, c, ch, WrapInstruction);
      if !Text.Present(context) && !Text.Present(rp.llmInstructions) {
        assert b + c == b;
        assert b + c + ch == b;
      }
    }
  }

  /** The parsed form of the wrap-up line. */
  const WrapUpObject: Json.Object := [("wrapping_up", Json.Bool(true))]

  /** The wrap-up line is the printed form of `{"wrapping_up": true}`, and parses back to it. */
  lemma WrapUpLineParses()
    ensures Json.Parse(WrapUpLine) == Some(WrapUpObject)
  {
    assert Json.PrintMembers(WrapUpObject) == "\"wrapping_up\"" + ": " + "true";
    assert Json.Print(WrapUpObject) == WrapUpLine;
    assert Json.ValidObject(WrapUpObject);
    Json.ParsePrint(WrapUpObject);
  }

  /** The chat channel takes the wrap-up line as its status line. */
  lemma WrapUpLineIsFlagLine()
    ensures ChatChannel.IsFlagLine(WrapUpLine)
  {
    WrapUpLineParses();
    Text.ContainsMiddle("{\"", WrapUpKey, "\": true}");
  }

  /**
   * A reply that ends with the line the wrap-up instruction quotes is read
   * by the chat channel as wrapping up, and the line is removed from the
   * stored text.
   */
  lemma WrapUpLineRead(reply: string)
    ensures ChatChannel.ParseWrappingUpFlag(reply + "\n" + WrapUpLine) == (Some(true), Text.RStrip(reply))
  {
    var l := WrapUpLine;
    assert '\n' !in l;
    Text.LastLineAfter(reply, l);
    assert l[0] == '{' && l[|l| - 1] == '}';
    Text.StripUnchanged(l);
    WrapUpLineIsFlagLine();
    WrapUpLineParses();
    assert Json.Get(WrapUpObject, "wrapping_up") == Some(Json.Bool(true));
  }

  // ---- The setup introduction --------------------------------------------------

  const IntroTemperature: real := 0.8
  const IntroMaxTokens: nat := 400

  const SetupIntroHead: string := "Hi! I'm Clary, your " + "leadership coach. " + "Today we'll practice "
  const SetupIntroTail: string := " role play. " + "When you're ready, click " + "\"Start Role Play\". " + "Any questions first?"

  /** The scenario's quoted name and its length in minutes, 5 when it has none. */
  function ScenarioLength(rp: RolePlays.RolePlay): string {
    "\"" + rp.name + "\" - a " + Text.IntToString(rp.durationMinutes.GetOr(5)) + "-minute"
  }

  /** `default_setup_intro`. */
  function DefaultSetupIntro(rp: RolePlays.RolePlay): string {
    SetupIntroHead + ScenarioLength(rp) + SetupIntroTail
  }

  /**
   * The fallback names the scenario and its length, reads a missing length
   * as 5 minutes, and is never blank, so `create!` accepts it.
   */
  lemma DefaultSetupIntroFacts(rp: RolePlays.RolePlay)
    ensures DefaultSetupIntro(rp.(durationMinutes := None)) == DefaultSetupIntro(rp.(durationMinutes := Some(5)))
    ensures Text.Contains(DefaultSetupIntro(rp), "\"" + rp.name + "\" - a " + Text.IntToString(rp.durationMinutes.GetOr(5)) + "-minute")
    ensures ChatMessages.ValidAttributes(Some("assistant"), Some(DefaultSetupIntro(rp)), Some("setup"))
  {
    var s := DefaultSetupIntro(rp);
    Text.ContainsMiddle(SetupIntroHead, ScenarioLength(rp), SetupIntroTail);
    assert s[0] == SetupIntroHead[0] == 'H';
    ChatMessages.ValidationCases(Some("assistant"), Some(s), Some("setup"));
  }

  const IntroTextHead: string := "Hi \U{2014} I'm ready to role\U{2011}play "
  const IntroTextTail: string := ". I'll stay in character " + "and keep replies short and natural. "
                                 + "When you're ready, say how " + "you'd like to begin or what you want to cover."

  /** `default_intro_text`: the scenario's name, or "this scenario" without one. */
  function DefaultIntroText(rp: Option<RolePlays.RolePlay>): string {
    IntroTextHead + (if rp.Some? then rp.value.name else "this scenario") + IntroTextTail
  }

  /** Without a scenario the text reads as for a scenario named "this scenario"; with one, it names it. */
  lemma DefaultIntroTextNames(rp: Option<RolePlays.RolePlay>, other: RolePlays.RolePlay)
    ensures DefaultIntroText(None) == DefaultIntroText(Some(other.(name := "this scenario")))
    ensures rp.Some? ==> Text.StartsWith(DefaultIntroText(rp), IntroTextHead + rp.value.name + ".")
  {
    if rp.Some? {
      var h := IntroTextHead + rp.value.name;
      assert IntroTextTail[0] == '.';
      assert DefaultIntroText(rp) == h + IntroTextTail;
      assert (h + IntroTextTail)[..|h| + 1] == h + ".";
    }
  }

  /** The text of the introduction: the model's content when present, else the fallback (also when the call raised). */
  function SetupIntroContent(rp: RolePlays.RolePlay, completion: Llm.Completion): string {
    if completion.Completed? && Text.Present(completion.content) then completion.content.value
    else DefaultSetupIntro(rp)
  }

  /** The introduction text always passes the message validations. */
  lemma SetupIntroContentValid(rp: RolePlays.RolePlay, completion: Llm.Completion)
    ensures ChatMessages.ValidAttributes(Some("assistant"), Some(SetupIntroContent(rp, completion)), Some("setup"))
    ensures completion.Completed? && Text.Present(completion.content) ==> SetupIntroContent(rp, completion) == completion.content.value
    ensures !(completion.Completed? && Text.Present(completion.content)) ==> SetupIntroContent(rp, completion) == DefaultSetupIntro(rp)
  {
    DefaultSetupIntroFacts(rp);
    ChatMessages.ValidationCases(Some("assistant"), Some(SetupIntroContent(rp, completion)), Some("setup"));
  }

  /** The chat completion `generate_setup_intro` asks for. */
  function SetupIntroRequest(rp: RolePlays.RolePlay, model: string, db: RolePlaySessions.Db): Llm.Request {
    Llm.Request([Llm.PromptMessage("system", Some(RolePlaySessions.SetupPrompt(rp, db))),
                 Llm.PromptMessage("user", Some(ChatChannel.SetupGreeting))],
                model, IntroTemperature, Llm.Capped(IntroMaxTokens))
  }

  /**
   * `generate_setup_intro`: one request to the model, then exactly one
   * setup-phase assistant message, holding the reply or the fallback.
   */
  method GenerateSetupIntro(session: RolePlaySessions.Session, db: RolePlaySessions.Db, completion: Llm.Completion)
    returns (request: Llm.Request)
    requires session.Valid()
    modifies session`chatMessages, session`clock
    ensures session.Valid()
    ensures request == SetupIntroRequest(session.rolePlay, session.OpenaiModel(), db)
    ensures session.chatMessages == old(session.chatMessages)
      + [ChatMessages.ChatMessage("assistant", SetupIntroContent(session.rolePlay, completion), "setup", old(session.clock))]
    ensures session.clock == old(session.clock) + 1
  {
    request := SetupIntroRequest(session.rolePlay, session.OpenaiModel(), db);
    var content := SetupIntroContent(session.rolePlay, completion);
    SetupIntroContentValid(session.rolePlay, completion);
    // The rescue path stores the fallback too; the text is always valid, so `create!` succeeds once.
    var m := session.CreateChatMessage(Some("assistant"), Some(content), Some("setup"));
  }

  // ---- Actions -------------------------------------------------------------------

  /** How `create` answers. */
  datatype CreateResult = Redirected(session: RolePlaySessions.Session) | Unprocessable | Raised

  /**
   * `create`: a new session of the scenario in the setup phase, active,
   * holding the role-play prompt. Without a base prompt building it raises;
   * a session without an account user fails validation and the form is
   * shown again; a saved session gets its setup introduction.
   */
  method Create(id: nat, accountId: nat, accountUserId: Option<nat>, rp: RolePlays.RolePlay, context: Option<string>,
                db: RolePlaySessions.Db, now: int, existing: seq<RolePlaySessions.Owner>, completion: Llm.Completion)
    returns (result: CreateResult, request: Option<Llm.Request>)
    ensures result.Raised? <==> SystemPrompts.Fetch(db.prompts, PromptKey, None).None?
    ensures result.Unprocessable? <==> SystemPrompts.Fetch(db.prompts, PromptKey, None).Some? && accountUserId.None?
    ensures !result.Redirected? ==> request.None?
    ensures result.Redirected? ==>
      var s := result.session;
      fresh(s) && s.Valid() && s.id == id && s.accountId == accountId && s.accountUserId == accountUserId
      && s.rolePlay == rp && s.phase == "setup" && s.status == Some("active")
      && s.systemPrompt == RolePlayPrompt(SystemPrompts.Fetch(db.prompts, PromptKey, None), context, rp)
      && s.chatMessages == [ChatMessages.ChatMessage("assistant", SetupIntroContent(rp, completion), "setup", 0)]
      && s.coachMessages == []
      && request == Some(SetupIntroRequest(rp, s.OpenaiModel(), db))
  {
    var prompt := BuildSystemPrompt(db.prompts, context, rp);
    if prompt.None? {
      return Raised, None;
    }
    result, request := Open(id, accountId, accountUserId, rp, prompt.value, db, now, existing, completion);
  }

  /** The part of `create` after the prompt is built: save, then the setup introduction. */
  method Open(id: nat, accountId: nat, accountUserId: Option<nat>, rp: RolePlays.RolePlay, prompt: string,
              db: RolePlaySessions.Db, now: int, existing: seq<RolePlaySessions.Owner>, completion: Llm.Completion)
    returns (result: CreateResult, request: Option<Llm.Request>)
    ensures !result.Raised?
    ensures result.Unprocessable? <==> accountUserId.None?
    ensures !result.Redirected? ==> request.None?
    ensures result.Redirected? ==>
      var s := result.session;
      fresh(s) && s.Valid() && s.id == id && s.accountId == accountId && s.accountUserId == accountUserId
      && s.rolePlay == rp && s.phase == "setup" && s.status == Some("active") && s.systemPrompt == Some(prompt)
      && s.chatMessages == [ChatMessages.ChatMessage("assistant", SetupIntroContent(rp, completion), "setup", 0)]
      && s.coachMessages == []
      && request == Some(SetupIntroRequest(rp, s.OpenaiModel(), db))
  {
    var s := new RolePlaySessions.Session(id, accountId, accountUserId, rp, Some(prompt), Some("active"), "setup",
                                          None, None, None);
    var saved := s.Save(now, existing);
    if !saved {
      return Unprocessable, None;
    }
    var req := GenerateSetupIntro(s, db, completion);
    assert s.chatMessages == [ChatMessages.ChatMessage("assistant", SetupIntroContent(rp, completion), "setup", 0)];
    return Redirected(s), Some(req);
  }

  /**
   * `show`: the setup introduction is generated only in the setup phase
   * when no setup message exists; the page receives every message in
   * creation order. Afterwards a setup-phase session always has a setup
   * message, so showing it again generates nothing.
   */
  method Show(session: RolePlaySessions.Session, db: RolePlaySessions.Db, completion: Llm.Completion)
    returns (messages: seq<ChatMessages.ChatMessage>, request: Option<Llm.Request>)
    requires session.Valid()
    modifies session`chatMessages, session`clock
    ensures session.Valid()
    ensures request.Some? <==> old(session.phase) == "setup" && |ChatMessages.WithPhase(old(session.chatMessages), "setup")| == 0
    ensures request.Some? ==>
      request.value == SetupIntroRequest(session.rolePlay, session.OpenaiModel(), db)
      && session.chatMessages == old(session.chatMessages)
         + [ChatMessages.ChatMessage("assistant", SetupIntroContent(session.rolePlay, completion), "setup", old(session.clock))]
    ensures request.None? ==> session.chatMessages == old(session.chatMessages) && session.clock == old(session.clock)
    ensures session.phase == "setup" ==> |ChatMessages.WithPhase(session.chatMessages, "setup")| > 0
    ensures messages == session.chatMessages
  {
    request := None;
    if session.IsSetup() && |ChatMessages.WithPhase(session.chatMessages, "setup")| == 0 {
      ghost var before := session.chatMessages;
      ghost var clock0 := session.clock;
      var req := GenerateSetupIntro(session, db, completion);
      request := Some(req);
      SetupAppended(before, ChatMessages.ChatMessage("assistant", SetupIntroContent(session.rolePlay, completion), "setup", clock0));
    }
    ChatMessages.OrderedChronological(session.chatMessages);
    messages := ChatMessages.Ordered(session.chatMessages);
  }

  /** Appending a setup-phase message makes the setup scope non-empty. */
  lemma SetupAppended(ms: seq<ChatMessages.ChatMessage>, m: ChatMessages.ChatMessage)
    requires m.phase == "setup"
    ensures |ChatMessages.WithPhase(ms + [m], "setup")| > 0
  {
    ChatMessages.WithPhaseMembers(ms + [m], "setup");
    assert (ms + [m])[|ms|] == m;
  }
}
