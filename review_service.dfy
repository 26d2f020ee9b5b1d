/**
 * The prompt of the conversation review: a system message holding the
 * coaching knowledge, and one user message with the scenario's context
 * and the latest part of the transcript.
 */
module ConversationReviewService {
  import opened Wrappers
  import Text
  import Llm
  import ChatMessages
  import RolePlays
  import Knowledges

  /** How many of the latest messages the transcript shows. */
  const RecentWindow: nat := 12

  /** How much of the description and of the audience text the context quotes. */
  const DescriptionLimit: nat := 300
  const RecommendedLimit: nat := 200

  /** The system prompt's fixed prose, up to its last line "Knowledge:" (the prose is not reproduced). */
  const ReviewHead: string := "You are Clary. " + "You are an AI coach. You are reviewing this conversation [...]" + "\n\nKnowledge:"

  const ContextHeader: string := "Context of " + "the role play you are reviewing:\n"

  /** The review rules between the context and the transcript (prose not reproduced), up to "Conversation transcript:". */
  const ReviewRules: string := "Review the conversation transcript below and provide feedback:\n[...]\n\n" + "Conversation transcript:"

  /** `system_prompt`: the heredoc with the corpus after "Knowledge:", stripped. */
  function SystemPrompt(corpus: string): string {
    Text.Strip(ReviewHead + "\n" + corpus + "\n")
  }

  /**
   * The system prompt is the fixed text followed by the corpus without its
   * trailing white space; a blank corpus leaves the fixed text alone.
   */
  lemma SystemPromptShape(corpus: string)
    ensures Text.RStrip(corpus) == [] ==> SystemPrompt(corpus) == ReviewHead
    ensures Text.RStrip(corpus) != [] ==> SystemPrompt(corpus) == ReviewHead + "\n" + Text.RStrip(corpus)
  {
    assert ReviewHead[0] == 'Y';
    assert ReviewHead[|ReviewHead| - 1] == ':';
    Text.StripFramed(ReviewHead, corpus);
  }

  // ---- The scenario context --------------------------------------------------

  /** Interpolating a value that may be nil: nil gives the empty text. */
  function Interp(v: Option<string>): string {
    v.GetOr("")
  }

  /** `x&.to_plain_text.to_s.strip[0, n]`. */
  function Snippet(text: Option<string>, n: nat): (r: string)
    ensures |r| <= n && Text.StartsWith(Text.Strip(Interp(text)), r)
    ensures |Text.Strip(Interp(text))| <= n ==> r == Text.Strip(Interp(text))
  {
    Text.Take(Text.Strip(Interp(text)), n)
  }

  /**
   * `((Time.current - started_at) / 60.0).round` for times in milliseconds:
   * nil without a start time, else the nearest whole minute, halves away
   * from zero as Float#round rounds them.
   */
  function ElapsedMinutes(startedAt: Option<int>, now: int): (r: Option<int>)
    ensures r.None? <==> startedAt.None?
    ensures r.Some? && now >= startedAt.value ==> -30000 <= (now - startedAt.value) - 60000 * r.value < 30000
    ensures r.Some? && now < startedAt.value ==> -30000 < (now - startedAt.value) - 60000 * r.value <= 30000
  {
    if startedAt.None? then None
    else
      var d := now - startedAt.value;
      Some(if d >= 0 then (d + 30000) / 60000 else -((-d + 30000) / 60000))
  }

  /** Round-half-away-from-zero reads two examples as expected: 90 s is 2 minutes, -90 s is -2. */
  lemma ElapsedExamples()
    ensures ElapsedMinutes(Some(0), 90000) == Some(2)
    ensures ElapsedMinutes(Some(90000), 0) == Some(-2)
    ensures ElapsedMinutes(Some(0), 89999) == Some(1)
  {
  }

  /**
   * A time as the prompt shows it. Messages and sessions are stamped with
   * their creation position or a millisecond count; the calendar
   * formatting of `iso8601` and `strftime` is not modelled.
   */
  function TimeText(t: int): string {
    Text.IntToString(t)
  }

  /** The category as the context should show it: its name; none gives "". */
  function CategoryText(c: Option<RolePlays.Category>): string {
    if c.Some? then c.value.name else ""
  }

  /**
   * The category as the source interpolates it: `#{role_play.category}`
   * calls `to_s` on the record, which Category does not define, so Ruby's
   * default `#<Category:0x…>` appears, `addr` standing for the object's
   * address.
   */
  function CategoryTextAsWritten(c: Option<RolePlays.Category>, addr: string): string {
    if c.Some? then "#<Category:0x" + addr + ">" else ""
  }

  /**
   * As written, the context never carries the category's name (for a name
   * not starting with "#"), and two categories at the same address read
   * the same whatever their names.
   */
  lemma CategoryAsWrittenHidesName(c: RolePlays.Category, d: RolePlays.Category, addr: string)
    requires !Text.StartsWith(c.name, "#")
    ensures CategoryTextAsWritten(Some(c), addr) != c.name
    ensures CategoryTextAsWritten(Some(c), addr) == CategoryTextAsWritten(Some(d), addr)
  {
    var t := CategoryTextAsWritten(Some(c), addr);
    assert t[..1] == "#";
  }

  /** The context lines between the category and the message count. */
  function Details(rp: RolePlays.RolePlay, startedAt: Option<int>, now: int): string {
    "Target Duration (minutes): " + (if rp.durationMinutes.Some? then Text.IntToString(rp.durationMinutes.value) else "")
    + "\nDescription (snippet): " + Snippet(rp.description, DescriptionLimit)
    + "\nRecommended For (snippet): " + Snippet(rp.recommendedFor, RecommendedLimit)
    + "\nSession Started At (UTC): " + (if startedAt.Some? then TimeText(startedAt.value) else "")
    + "\nElapsed Minutes (approx): " + (var e := ElapsedMinutes(startedAt, now); if e.Some? then Text.IntToString(e.value) else "")
    + "\n"
  }

  /** The context lines, each "Label: value" followed by "\n". */
  function Context(rp: RolePlays.RolePlay, startedAt: Option<int>, count: nat, now: int): string {
    "Name: " + rp.name + ("\nCategory: " + CategoryText(rp.category) + "\n")
    + Details(rp, startedAt, now) + ("Message Count: " + Text.NatToString(count) + "\n")
  }

  /**
   * The context names the scenario first, shows its category by name, and
   * ends with the number of messages it is given.
   */
  lemma ContextShape(rp: RolePlays.RolePlay, startedAt: Option<int>, count: nat, now: int)
    ensures var c := Context(rp, startedAt, count, now);
      Text.StartsWith(c, "Name: " + rp.name)
      && Text.Contains(c, "\nCategory: " + CategoryText(rp.category) + "\n")
      && Text.EndsWith(c, "Message Count: " + Text.NatToString(count) + "\n")
  {
    Text.FourParts("Name: " + rp.name, "\nCategory: " + CategoryText(rp.category) + "\n",
                   Details(rp, startedAt, now), "Message Count: " + Text.NatToString(count) + "\n");
  }

  // ---- The transcript --------------------------------------------------------

  /** Who wrote a message, as the review transcript names them. */
  function Label(role: string): string {
    if role == "user" then "Manager"
    else if role == "assistant" then "Role Play AI"
    else "System"
  }

  /** Each role has its own label, and every other role reads "System". */
  lemma LabelCases(role: string)
    ensures Label(role) == "Manager" <==> role == "user"
    ensures Label(role) == "Role Play AI" <==> role == "assistant"
    ensures Label(role) == "System" <==> role != "user" && role != "assistant"
  {
  }

  function Entry(m: ChatMessages.ChatMessage): string {
    "[" + TimeText(m.createdAt) + "] " + Label(m.role) + ": " + m.content
  }

  /** `chat_messages.ordered.last(12)`. */
  function Recent(ms: seq<ChatMessages.ChatMessage>): (r: seq<ChatMessages.ChatMessage>)
    ensures |r| == Text.Min(RecentWindow, |ms|)
  {
    Text.LastN(ChatMessages.Ordered(ms), RecentWindow)
  }

  /**
   * On a log kept in creation order the window is the log's last twelve
   * messages, in order, ending with the newest one.
   */
  lemma RecentOfChronological(ms: seq<ChatMessages.ChatMessage>)
    requires ChatMessages.Chronological(ms)
    ensures Recent(ms) == ms[|ms| - Text.Min(RecentWindow, |ms|)..]
    ensures |ms| > 0 ==> Recent(ms)[|Recent(ms)| - 1] == ms[|ms| - 1]
  {
    ChatMessages.OrderedChronological(ms);
  }

  function Entries(ms: seq<ChatMessages.ChatMessage>): (r: seq<string>)
    ensures |r| == |ms|
    ensures forall i :: 0 <= i < |ms| ==> r[i] == Entry(ms[i])
  {
    seq(|ms|, i requires 0 <= i < |ms| => Entry(ms[i]))
  }

  /** The window's entries, separated by a blank line. */
  function Transcript(ms: seq<ChatMessages.ChatMessage>): string {
    Text.Join(Entries(Recent(ms)), "\n\n")
  }

  // ---- The messages ----------------------------------------------------------

  /** The body of the user message before stripping: header, context, rules, transcript. */
  function InstructionHead(context: string): string {
    ContextHeader + context + ("\n\n" + ReviewRules)
  }

  function Instruction(context: string, transcript: string): string {
    Text.Strip(InstructionHead(context) + "\n" + transcript + "\n")
  }

  /**
   * The instruction is the header, the context and the rules, followed by
   * the transcript without trailing white space when it has any text.
   */
  lemma InstructionShape(context: string, transcript: string)
    ensures Text.RStrip(transcript) == [] ==> Instruction(context, transcript) == InstructionHead(context)
    ensures Text.RStrip(transcript) != [] ==>
      Instruction(context, transcript) == InstructionHead(context) + "\n" + Text.RStrip(transcript)
  {
    var h := InstructionHead(context);
    assert h[0] == ContextHeader[0];
    assert h[|h| - 1] == ReviewRules[|ReviewRules| - 1];
    Text.StripFramed(h, transcript);
  }

  /** The instruction opens with the header and the context, and ends with any text of the transcript. */
  lemma InstructionEnds(context: string, transcript: string)
    ensures Text.StartsWith(Instruction(context, transcript), ContextHeader + context)
    ensures Text.EndsWith(Instruction(context, transcript), Text.RStrip(transcript))
  {
    var h := InstructionHead(context);
    var r := Text.RStrip(transcript);
    InstructionShape(context, transcript);
    Text.Ends(ContextHeader + context, "\n\n" + ReviewRules);
    if r != [] {
      Text.Ends(h + "\n", r);
      Text.StartsWithTrans(ContextHeader + context, h, h + "\n");
      Text.StartsWithTrans(ContextHeader + context, h + "\n", h + "\n" + r);
    }
  }

  /**
   * `build_messages_for`: the session's scenario, start time and messages,
   * the knowledge table and the current time.
   */
  function BuildMessagesFor(rp: RolePlays.RolePlay, startedAt: Option<int>, ms: seq<ChatMessages.ChatMessage>,
                            ks: seq<Knowledges.Knowledge>, now: int): seq<Llm.PromptMessage> {
    [Llm.PromptMessage("system", Some(SystemPrompt(Knowledges.LegacyCorpus(ks)))),
     Llm.PromptMessage("user", Some(Instruction(Context(rp, startedAt, |ms|, now), Transcript(ms))))]
  }

  /**
   * The review prompt is a system message with the knowledge, then a user
   * message that opens with the context, which counts every message of the
   * session, and ends with the transcript of the window when it has text.
   */
  lemma ReviewMessagesShape(rp: RolePlays.RolePlay, startedAt: Option<int>, ms: seq<ChatMessages.ChatMessage>,
                            ks: seq<Knowledges.Knowledge>, now: int)
    ensures var r := BuildMessagesFor(rp, startedAt, ms, ks, now);
      var context := Context(rp, startedAt, |ms|, now);
      |r| == 2 && r[0] == Llm.PromptMessage("system", Some(SystemPrompt(Knowledges.LegacyCorpus(ks))))
      && r[1].role == "user" && r[1].content.Some?
      && Text.StartsWith(r[1].content.value, ContextHeader + context)
      && Text.EndsWith(r[1].content.value, Text.RStrip(Transcript(ms)))
      && Text.EndsWith(context, "Message Count: " + Text.NatToString(|ms|) + "\n")
  {
    InstructionEnds(Context(rp, startedAt, |ms|, now), Transcript(ms));
    ContextShape(rp, startedAt, |ms|, now);
  }
}
