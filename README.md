# Claryence practice sessions, modelled in Dafny

Claryence lets a manager rehearse a difficult conversation. An admin writes a **role play** (a scenario with a
description, a duration, a category, LLM instructions and an optional system prompt). A manager opens a
**role-play session** on it. The session moves through three phases: `setup` (the AI helps the manager prepare),
`role_play` (the AI plays the other person) and `debrief` (the AI reviews how it went). Every turn goes through the
**chat channel**: the user message is stored with its phase, the LLM reply is streamed to the browser chunk by chunk
and then stored. During the role play an admin additionally gets a live **conversation review**: a background job
that asks the LLM to assess the transcript so far and streams the assessment back. After a session the manager can
talk to a **coach** over a second channel. The browser pages reveal streamed text at a steady pace, reduce the
websocket events into page state, render the assistant's Markdown and split the review into sections.

The Dafny project models that core, one module per source file:

| module | file | models |
|---|---|---|
| `ChatMessages`, `CoachMessages`, `RolePlays`, `SystemPrompts` | `chat_message.dfy`, `coach_message.dfy`, `role_play.dfy`, `system_prompt.dfy` | the record validations, scopes and orderings, and the `SystemPrompt.fetch` fallback chain |
| `Knowledges` | `knowledge.dfy` | the active, non-blank knowledge corpus the prompts include |
| `RolePlaySessions` | `role_play_session.dfy` | the session record: validity, phase predicates and transitions, `complete!`, the callbacks, `current_system_prompt`, the character summary extractor and the debrief prompt |
| `CharacterSummary` | `character_summary.dfy` | the best-effort field extractor behind `extract_character_summary` |
| `RolePlayPolicy` | `role_play_policy.dfy` | who may list, show, create, update and destroy role plays |
| `ChatChannel` | `chat_channel.dfy` | `send_message`, `transition_phase`, `start_conversation`, the prompt lists, streaming, temperature and the wrap-up status line |
| `CoachChannel` | `coach_channel.dfy` | the coach turn and its prompt list |
| `ConversationReviewJob`, `ConversationReviewService` | `review_job.dfy`, `review_service.dfy` | the review stream, its status line and the review prompt with its 12-message window |
| `RolePlaySessionsController`, `CoachingSessionsController` | `role_play_sessions_controller.dfy`, `coaching_sessions_controller.dfy` | session creation, the setup intro, the system-prompt composition and the coach intro |
| `CategoryMigration`, `KnowledgeRichTextMigration`, `SystemPromptRichTextMigration` | `migrate_category.dfy`, `migrate_knowledge.dfy`, `migrate_system_prompt.dfy` | the three data migrations |
| `Pacer`, `RolePlayPage`, `CoachingPage` | `pacer.dfy`, `role_play_page.dfy`, `coaching_page.dfy` | the reveal timer and the `received` reducers of the two pages |
| `Markdown`, `ReviewPanel` | `markdown.dfy`, `review_panel.dfy` | the Markdown block parser and `splitReview` |
| `Wrappers`, `Text`, `Splitting`, `Json`, `Html`, `Ordering`, `Events`, `Llm` | the remaining files | shared helpers: options, Ruby and JavaScript string operations, a flat JSON object stub, HTML escaping, stable sorting, the event log and the LLM replies |

The LLM is a parameter. A streamed reply is `Streamed(chunks)` or `Failed`. A one-shot completion is
`Completed(content)` or `Raised`. `broadcast_to` appends to an event log, and `perform_later` appends a
`ReviewEnqueued` entry to the same log, so the proofs can talk about the order of everything a turn emits. A record's
`created_at` is its position in the creation sequence. The channels are classes whose methods change the stored
transcript and the log. Each method's `ensures` ties the new state to a function of the old state and the reply.
The properties the code promises are lemmas about those functions.

## Model

| member | source | states |
|---|---|---|
| ChatMessages.ValidationCases | app/models/chat_message.rb:2-8 | `create!` refuses a missing or unknown role, a missing or blank content, and a missing phase or one outside setup/role_play/debrief; it accepts every other combination |
| ChatMessages.WithPhaseMembers | app/models/chat_message.rb:13-15 | a phase scope keeps exactly the messages of that phase |
| ChatMessages.RoleScopesMembers | app/models/chat_message.rb:10-11 | `user_messages` and `assistant_messages` keep exactly the messages of that role |
| ChatMessages.Ordered | app/models/chat_message.rb:12 | `ordered` is sorted by creation time and a permutation of the messages |
| ChatMessages.OrderedChronological | app/models/chat_message.rb:12 | on a log kept in creation order, `ordered` returns the log unchanged |
| ChatMessages.FilterChronological | app/models/chat_message.rb:10-15 | every scope of a chronological log is chronological |
| ChatMessages.WithPhaseOrdered | app/models/chat_message.rb:12-15 | a phase scope followed by `ordered` is the scope itself, in creation order |
| ChatMessages.PhaseScopesPartition | app/models/chat_message.rb:2-15 | every valid message lies in exactly one of the three phase scopes |
| CoachMessages.ValidationCases | app/models/coach_message.rb:4-5 | a coaching message needs a known role and non-blank content, and any such pair is accepted |
| CoachMessages.Ordered | app/models/coach_message.rb:7 | `ordered` is sorted by creation time and a permutation |
| CoachMessages.OrderedChronological | app/models/coach_message.rb:7 | on a log kept in creation order, `ordered` is the identity |
| RolePlays.DurationCases | app/models/role_play.rb:17 | the duration must be present, an integer literal before type casting and greater than 0: 0, -5, 10.5 and a missing value fail, 10 passes; the Float 10.0 and the text "10.0" fail, the text "10" passes and "-5" fails |
| RolePlays.DecimalTextAccepted | app/models/role_play.rb:17 | any positive number typed as its decimal text is an integer literal that reads back as that number, so it passes |
| RolePlays.NameRequiredAndUnique | app/models/role_play.rb:14 | a missing name, or one another scenario already has, fails validation |
| RolePlays.DefaultOrder | app/models/role_play.rb:23 | the default scope is sorted oldest first and a permutation of the scenarios |
| RolePlays.Active | app/models/role_play.rb:23-26 | `active` keeps exactly the active scenarios, each as often as it is stored, oldest first under the default scope |
| RolePlays.ByCategory | app/models/role_play.rb:27-37 | `by_category` keeps exactly the scenarios whose category matches: by id for a Category or an Integer, by name for anything else; each match is kept as often as it is stored, and the result stays in the default order |
| SystemPrompts.Find | app/models/system_prompt.rb:13 | `find_by(key:)` returns a prompt with that key from the table, or nothing when no prompt has it |
| SystemPrompts.Fetch | app/models/system_prompt.rb:12-22 | `fetch` returns the body's plain text when present, else the legacy text when present, else the block's value |
| SystemPrompts.FetchPresentOrFallback | app/models/system_prompt.rb:12-22 | what `fetch` returns is present text unless it is the fallback |
| SystemPrompts.ValidPromptFetched | app/models/system_prompt.rb:3-22 | a prompt that passes the content validation, and whose present body renders to present plain text, is always fetched, never the fallback |
| SystemPrompts.MarkupOnlyBodyFallsBack | app/models/system_prompt.rb:3-22 | the validation tests the body's HTML but `fetch` its plain text: a body `<div><br></div>` with no legacy text is valid, yet `fetch` returns the fallback |
| Knowledges.NewestActive | app/channels/coach_channel.rb:79 | `Knowledge.active.order(created_at: :desc)` holds the active entries, newest first, each exactly once |
| Knowledges.PresentTexts | app/channels/coach_channel.rb:79 | `compact.reject(&:blank?)` keeps exactly the present texts of the input, in order and as often as they occur |
| Knowledges.Sources | app/services/conversation_review_service.rb:3 | the entries behind a corpus are every active entry whose text is present, each as often as it is stored, newest first |
| Knowledges.PluckPresent | app/channels/coach_channel.rb:79 | plucking the column and then dropping blank texts gives the texts of the entries whose column is present, in order |
| Knowledges.Entries | app/models/role_play_session.rb:142 | the corpus texts are, position by position, the non-blank texts of its sources, newest first; the review and coaching corpus takes the legacy column, the debrief corpus the plain text |
| Knowledges.EveryActiveEntryIncluded | app/services/conversation_review_service.rb:3 | every active entry with a present text contributes it to the corpus |
| Knowledges.NoActiveNoCorpus | app/models/role_play_session.rb:142 | with no active entry both corpora are empty |
| RolePlaySessions.ExactlyOnePhase | app/models/role_play_session.rb:2-34 | for a phase that passes the inclusion validation, exactly one of `setup?`, `role_play_phase?` and `debrief?` holds |
| RolePlaySessions.WholeSeconds | app/models/role_play_session.rb:49 | `to_i` on a time difference truncates toward zero: the whole seconds never exceed the difference and miss it by less than one second, on either sign |
| RolePlaySessions.OwnerCount | app/models/role_play_session.rb:167-171 | the count of sessions with the same account, account user and scenario is at most the number of sessions |
| RolePlaySessions.OwnerCountSnoc | app/models/role_play_session.rb:167-171 | each further session of an owner raises that owner's count by one and leaves every other owner's count alone |
| RolePlaySessions.Session.constructor | app/models/role_play_session.rb:1-14 | a new, unsaved session holds the given attributes, no completion time, no duration and no messages |
| RolePlaySessions.Session.OpenaiModel | app/models/role_play_session.rb:19-21 | the session's own model, else the scenario's, else "gpt-4o" |
| RolePlaySessions.Session.SetStartedAt | app/models/role_play_session.rb:162-164 | a preset start time is kept; a missing one becomes the current time |
| RolePlaySessions.Session.SetSessionNumber | app/models/role_play_session.rb:166-172 | a preset number is kept; a missing one becomes one more than the number of sessions of the same account, account user and scenario |
| RolePlaySessions.Session.SetModelFromRolePlay | app/models/role_play_session.rb:174-176 | a preset model is kept; afterwards the model is always set and `openai_model` is unchanged |
| RolePlaySessions.Session.Save | app/models/role_play_session.rb:9-14 | the record saves exactly when its phase and status pass validation and it has an account user; only a saved record runs the three `before_create` callbacks |
| RolePlaySessions.Session.CreateChatMessage | app/models/role_play_session.rb:6 | a message with valid attributes is appended with the next creation stamp; an invalid one raises and changes nothing; the log stays chronological |
| RolePlaySessions.Session.CreateCoachMessage | app/models/role_play_session.rb:7 | the same for coach messages |
| RolePlaySessions.Session.TransitionToRolePlay | app/models/role_play_session.rb:37-39 | the phase becomes "role_play" from any phase, and the session stays valid |
| RolePlaySessions.Session.TransitionToDebrief | app/models/role_play_session.rb:41-43 | the phase becomes "debrief" from any phase |
| RolePlaySessions.Session.Complete | app/models/role_play_session.rb:45-51 | with a start time: status "completed", completion time now, and duration the whole seconds since the start; without one the update raises and nothing changes |
| RolePlaySessions.PhasePrompt | app/models/role_play_session.rb:54-63 | setup builds the setup prompt, role play uses the stored prompt, debrief builds the debrief prompt, and any other phase gives nil |
| RolePlaySessions.ScopedFind | app/controllers/role_play_sessions_controller.rb:56-58 | a found session is one of the account's own with that id; when none is found, no session has both |
| RolePlaySessions.LayoutShape | app/models/role_play_session.rb:78-94 | a prompt starts with the soul prompt, ends with its closing line, holds its body, and holds the optional block whenever that block is not blank |
| RolePlaySessions.SetupPromptShape | app/models/role_play_session.rb:66-95 | the setup prompt opens with the soul prompt, states the scenario details, has the character block when the summary is not blank, and ends with the closing instruction |
| RolePlaySessions.DebriefEntryLabel | app/models/role_play_session.rb:138-139 | an entry starts with "Manager: " exactly when the message is the user's; otherwise with "Role Play Character: " |
| RolePlaySessions.DebriefEntries | app/models/role_play_session.rb:137-140 | one entry per message, in the same order |
| RolePlaySessions.DebriefTranscriptInLogOrder | app/models/role_play_session.rb:137-140 | on a chronological log the transcript lists exactly the role-play messages, in log order |
| RolePlaySessions.DebriefPromptShape | app/models/role_play_session.rb:133-158 | the debrief prompt opens with the soul prompt, holds the transcript block, has the knowledge block when the corpus is not blank, and ends with the closing instruction |
| RolePlayPolicy.Permissions | app/policies/role_play_policy.rb:5-24 | every account user may list and view scenarios; creating, updating and destroying is allowed exactly for admins |
| RolePlayPolicy.Resolve | app/policies/role_play_policy.rb:27-30 | the scope holds every scenario, active or not, each as often as in the table |
| CharacterSummary.Label | app/models/role_play_session.rb:104-127 | the text each summary line puts before its value has no newline |
| CharacterSummary.SkipSpace | app/models/role_play_session.rb:105 | `\s*` stops at the end of the text or at the first character that is not white space |
| CharacterSummary.WordAt | app/models/role_play_session.rb:105 | `\s*(\w+)` captures a non-empty run of word characters |
| CharacterSummary.TextAt | app/models/role_play_session.rb:110 | `\s*([^\n•]+)` captures a non-empty run with no newline and no bullet |
| CharacterSummary.MatchPattern | app/models/role_play_session.rb:105-125 | the capture of a pattern is non-empty with no newline or bullet, and one word for the name pattern |
| CharacterSummary.MatchAt | app/models/role_play_session.rb:105-125 | the same for each field's pattern at a given start |
| CharacterSummary.Leftmost | app/models/role_play_session.rb:105 | a position found lies in the range searched and gives the capture returned |
| CharacterSummary.LeftmostFirst | app/models/role_play_session.rb:105 | no earlier position matches, and when nothing is found no position in the range matches |
| CharacterSummary.FirstMatchLeftmost | app/models/role_play_session.rb:105-125 | `=~` finds a real match, the leftmost one, and misses none |
| CharacterSummary.Render | app/models/role_play_session.rb:106-126 | one line per field found |
| CharacterSummary.RenderStep | app/models/role_play_session.rb:105-107 | each `if instructions =~` step appends the field's line exactly when the field is found |
| CharacterSummary.FoundFrom | app/models/role_play_session.rb:110-112 | the value a line shows is the name as captured, or the other captures stripped |
| CharacterSummary.AppendFieldLine | app/models/role_play_session.rb:104-127 | one step keeps the parts equal to the lines of the fields checked so far |
| CharacterSummary.ExtractCharacterSummary | app/models/role_play_session.rb:98-130 | blank instructions give ""; otherwise the lines of the fields found, in the fixed field order, joined by newlines |
| CharacterSummary.BlankSummary | app/models/role_play_session.rb:99 | blank instructions have no summary lines |
| CharacterSummary.FoundWellFormed | app/models/role_play_session.rb:105-127 | a value found has no newline and no bullet, and a name is a single non-empty word |
| CharacterSummary.EntriesOfShape | app/models/role_play_session.rb:102-127 | the entries of fields checked in order are at most one per field, in that order, and well formed |
| CharacterSummary.EntriesOfField | app/models/role_play_session.rb:102-127 | the entries show, for each field checked, exactly the value found for it, and nothing for the others |
| CharacterSummary.EntriesShape | app/models/role_play_session.rb:98-130 | a summary has at most five lines, in name, role, personality, state, worries order, each well formed |
| CharacterSummary.EntryForField | app/models/role_play_session.rb:98-130 | the summary shows for each field exactly the value its pattern finds, and nothing for blank instructions |
| CharacterSummary.SummaryRoundTrip | app/models/role_play_session.rb:129 | splitting the joined summary at newlines gives back its lines |
| ChatChannel.TemperatureForPhase | app/channels/chat_channel.rb:262-269 | 0.95 for role play, 0.7 for debrief, and 0.8 for setup and any other phase |
| ChatChannel.ParseWrappingUpFlag | app/channels/chat_channel.rb:271-287 | a flag is read exactly when the stripped last line starts with `{`, mentions `wrapping_up` and parses as JSON; the text is then the earlier lines right-stripped, otherwise the whole content; the text kept is always a prefix of the content |
| ChatChannel.Cleaned | app/channels/chat_channel.rb:193-199 | the reply is cleaned of its status line only in the role-play phase |
| ChatChannel.History | app/channels/chat_channel.rb:151-153 | one `{role:, content:}` entry per message, in order |
| ChatChannel.PhaseMessagesShape | app/channels/chat_channel.rb:138-172 | a prompt list exists exactly for the three phases; it starts with the phase's system prompt (in role play only when that prompt is present) and is followed by that phase's messages in creation order |
| ChatChannel.HistoryAfter | app/channels/chat_channel.rb:149-155 | the entries after a system entry are the messages' entries, position by position |
| ChatChannel.PushHistory | app/channels/chat_channel.rb:151-153 | the `each` loop appends exactly the messages' entries |
| ChatChannel.Enqueue | app/channels/chat_channel.rb:44 | a review is queued exactly for an admin in the role-play phase |
| ChatChannel.TurnMessage | app/channels/chat_channel.rb:201-206 | a streamed reply whose cleaned text is not blank is stored as an assistant message of the session's phase; a failed stream or a blank text stores nothing |
| ChatChannel.TurnMessageContent | app/channels/chat_channel.rb:195-203 | outside role play the stored text is the whole reply; in role play it is a prefix of it |
| ChatChannel.TurnEventsOutcome | app/channels/chat_channel.rb:174-223 | a turn broadcasts `assistant_start`, one chunk event per chunk, then either the completion with its flag and the queued review, or one error |
| ChatChannel.PrefixParts | app/channels/chat_channel.rb:174-223 | where each event of a concatenated broadcast comes from |
| ChatChannel.IntroMessage | app/channels/chat_channel.rb:94-136 | the debrief opener is the fixed text "How do you think that went?"; other intros store the whole streamed text, uncleaned |
| ChatChannel.Channel.constructor | app/channels/chat_channel.rb:2-15 | a subscription to a session with no events and no requests yet |
| ChatChannel.Channel.BuildMessagesForPhase | app/channels/chat_channel.rb:138-172 | the prompt list built entry by entry equals the phase's list for the session's current prompt and messages |
| ChatChannel.Channel.Relay | app/channels/chat_channel.rb:188-191 | the text gathered is the chunks concatenated, and one chunk event is broadcast per chunk, in order |
| ChatChannel.Channel.StreamAiResponse | app/channels/chat_channel.rb:174-223 | one request with the session's model, the phase's temperature and the fixed penalties; the log grows by the stored reply, if any; the broadcasts are the turn's events |
| ChatChannel.Channel.StreamAiResponseForIntro | app/channels/chat_channel.rb:225-260 | one capped request at the given phase's temperature; the log grows by the uncleaned intro, if any, and no review is queued |
| ChatChannel.Channel.GenerateDebriefMessage | app/channels/chat_channel.rb:123-136 | the fixed opener is stored and broadcast as complete, with no model call |
| ChatChannel.Channel.GeneratePhaseIntro | app/channels/chat_channel.rb:94-121 | setup and role play make one request with 400 and 280 tokens; debrief makes none; the stored messages and broadcasts are the phase's intro |
| ChatChannel.Channel.SendMessage | app/channels/chat_channel.rb:21-51 | a message is stored exactly when the account owns the session and the content passes validation; then it is broadcast, a review is queued for an admin in role play, and the reply follows; otherwise nothing changes |
| ChatChannel.Channel.Turn | app/channels/chat_channel.rb:29-50 | an authorized valid turn stores the user message stamped next, then the reply's outcome |
| ChatChannel.Channel.Reply | app/channels/chat_channel.rb:46-50 | the reply to a just-stored message: its request, its stored message and its broadcasts follow the turn's outcome |
| ChatChannel.Channel.TransitionPhase | app/channels/chat_channel.rb:54-79 | only the owner's request to "role_play" or "debrief" moves the phase, broadcasts `phase_changed` and runs the new phase's intro; anything else changes nothing |
| ChatChannel.Channel.StartConversation | app/channels/chat_channel.rb:82-90 | an intro runs only for the owner and only when the current phase has no message yet; otherwise nothing changes |
| CoachChannel.Entries | app/channels/coach_channel.rb:82-85 | one "Speaker: text" entry per message, in order |
| CoachChannel.FullTranscriptInLogOrder | app/channels/coach_channel.rb:82-85 | on a chronological log the transcript has one entry per message of every phase, in log order |
| CoachChannel.ContextBlockShape | app/channels/coach_channel.rb:107-119 | stripping the context block removes nothing, since it opens with its heading and ends with a full stop |
| CoachChannel.History | app/channels/coach_channel.rb:104 | one `{role:, content:}` entry per coaching message, in order |
| CoachChannel.BuildMessagesShape | app/channels/coach_channel.rb:77-121 | the coach sees the system prompt, then the context with the full transcript and the knowledge, then each coaching message in creation order with its own role |
| CoachChannel.CoachReplyCases | app/channels/coach_channel.rb:54-58 | the reply is stored exactly when the stream ended and its text is not blank, and it holds that whole text |
| CoachChannel.ReplyEventsShape | app/channels/coach_channel.rb:40-72 | the broadcasts start with `assistant_start`, relay each chunk in order, and end with exactly one of the completion and the error |
| CoachChannel.Channel.constructor | app/channels/coach_channel.rb:2-9 | a subscription to a session with no broadcasts and no requests yet |
| CoachChannel.Channel.Relay | app/channels/coach_channel.rb:49-52 | the text gathered is the chunks concatenated, and each chunk is broadcast in order |
| CoachChannel.Channel.SendMessage | app/channels/coach_channel.rb:15-73 | a message is stored exactly when the account owns the session and the content passes validation; then it is broadcast and the reply follows; otherwise nothing changes |
| CoachChannel.Channel.Turn | app/channels/coach_channel.rb:19-72 | an authorized valid turn stores the user message stamped next, then the reply's outcome |
| CoachChannel.Channel.Reply | app/channels/coach_channel.rb:35-72 | one request built from the history as it stands, then the stored reply and the broadcasts of the turn |
| CoachChannel.Channel.StreamReply | app/channels/coach_channel.rb:37-72 | one request is recorded; the log grows by the stored reply, if any; the broadcasts are the reply's events |
| ConversationReviewJob.ParseStatus | app/jobs/conversation_review_job.rb:19-31 | without a status line the review is left whole; the text kept is always a prefix of the streamed text |
| ConversationReviewJob.ParseStatusFlag | app/jobs/conversation_review_job.rb:23-26 | a flag is read exactly when the stripped last line starts with `{`, ends with `}` and parses as JSON |
| ConversationReviewJob.ParseStatusParsed | app/jobs/conversation_review_job.rb:23-28 | a last line between braces that parses gives the truthiness of its `wrapping_up` and the text before that line, right-stripped |
| ConversationReviewJob.PrintedLine | app/services/conversation_review_service.rb:73-74 | a one-line JSON object, as the prompt asks for, has no line break and sits between braces |
| ConversationReviewJob.PrintedLineFramed | app/jobs/conversation_review_job.rb:24 | such a line starts with `{` and ends with `}` |
| ConversationReviewJob.PrintMembersOneLine | app/services/conversation_review_service.rb:73-74 | the members of such an object print without a line break |
| ConversationReviewJob.StatusRoundTrip | app/jobs/conversation_review_job.rb:19-31 | bullets followed by one JSON line give back the truth value of its `wrapping_up` and the bullets without trailing white space |
| ConversationReviewJob.StatusAnswers | app/jobs/conversation_review_job.rb:26-27 | both answers the prompt asks for are read back, and `{}` reads as false |
| ConversationReviewJob.MalformedStatusKept | app/jobs/conversation_review_job.rb:29-31 | a last line between braces that is not valid JSON stays in the review, and no flag is reported |
| ConversationReviewJob.KeptMembers | app/jobs/conversation_review_job.rb:14 | every piece relayed is a non-empty piece of the stream, and every non-empty piece is relayed |
| ConversationReviewJob.KeptSnoc | app/jobs/conversation_review_job.rb:13-17 | one more piece is kept exactly when it is not empty |
| ConversationReviewJob.ReviewEventsOrder | app/jobs/conversation_review_job.rb:10-36 | `review_start`, one `review_chunk` per non-empty piece, then, unless the stream raised, `review_complete` with a prefix of the text and `review_status` only when a flag was read |
| ConversationReviewJob.RelayReview | app/jobs/conversation_review_job.rb:12-17 | the loop gathers exactly the non-empty pieces and broadcasts each in order |
| ConversationReviewJob.Perform | app/jobs/conversation_review_job.rb:4-37 | one request to "gpt-4o-mini" at temperature 0.2 capped at 120 tokens, for the messages the service builds; the broadcasts are the review's events |
| ConversationReviewJob.Broadcast | app/jobs/conversation_review_job.rb:10-36 | the broadcasts on a stream are exactly the review's events: start, the relayed pieces, then the closing events unless the stream raised |
| ConversationReviewJob.Complete | app/jobs/conversation_review_job.rb:19-36 | after the stream, `review_complete` carries the cleaned text, followed by `review_status` only when a flag was read |
| ConversationReviewService.SystemPromptShape | app/services/conversation_review_service.rb:6-20 | the prompt is the fixed text ending "Knowledge:", followed by the corpus only when it has text |
| ConversationReviewService.Snippet | app/services/conversation_review_service.rb:26-29 | a snippet is at most n characters, starts the stripped text, and is all of it when that is short enough |
| ConversationReviewService.ElapsedMinutes | app/services/conversation_review_service.rb:31-35 | nil exactly without a start time; otherwise the minutes rounded half away from zero |
| ConversationReviewService.ElapsedExamples | app/services/conversation_review_service.rb:32 | 90 s rounds to 2 minutes, -90 s to -2, and 89.999 s to 1 |
| ConversationReviewService.CategoryAsWrittenHidesName | app/services/conversation_review_service.rb:39 | as written, the context line shows the record's default `to_s`, never the category's name |
| ConversationReviewService.ContextShape | app/services/conversation_review_service.rb:37-46 | the context starts with the scenario name, shows the category by name, and ends with the message count |
| ConversationReviewService.LabelCases | app/services/conversation_review_service.rb:51-55 | "Manager" exactly for the user, "Role Play AI" exactly for the assistant, "System" for every other role |
| ConversationReviewService.Recent | app/services/conversation_review_service.rb:49 | the window holds the last twelve messages, or all when there are fewer |
| ConversationReviewService.RecentOfChronological | app/services/conversation_review_service.rb:49 | on a chronological log the window is the log's last twelve entries and ends with the latest message |
| ConversationReviewService.Entries | app/services/conversation_review_service.rb:50-57 | one transcript entry per message of the window, in order |
| ConversationReviewService.InstructionShape | app/services/conversation_review_service.rb:60-82 | stripping the instruction leaves its fixed text, followed by the transcript only when it has text |
| ConversationReviewService.InstructionEnds | app/services/conversation_review_service.rb:60-82 | the instruction opens with the header and the context, and ends with the transcript's text |
| ConversationReviewService.ReviewMessagesShape | app/services/conversation_review_service.rb:22-84 | a system message with the knowledge, then a user message that opens with the context, counts every message of the session and ends with the recent transcript |
| CategoryMigration.NameOf | db/migrate/20251203000001_convert_role_play_category_enum_to_model.rb:2-8 | a name exists exactly for the enum values 0 to 4, and it is one of the five |
| CategoryMigration.NamesDistinct | db/migrate/20251203000001_convert_role_play_category_enum_to_model.rb:2-8 | the five category names are distinct |
| CategoryMigration.FindId | db/migrate/20251203000001_convert_role_play_category_enum_to_model.rb:34 | the id found is that of the first row with the name, and none is found exactly when no row has it |
| CategoryMigration.ValueOf | db/migrate/20251203000001_convert_role_play_category_enum_to_model.rb:57 | the value found maps back to the name; none is found for nil or a name outside the five |
| CategoryMigration.ValueOfNameOf | db/migrate/20251203000001_convert_role_play_category_enum_to_model.rb:57 | the mapping is inverted on every enum value |
| CategoryMigration.FindOrCreate | db/migrate/20251203000001_convert_role_play_category_enum_to_model.rb:24 | the name is in the table afterwards, earlier rows are kept, a present name adds nothing, and at most one row is added |
| CategoryMigration.SeedFrom | db/migrate/20251203000001_convert_role_play_category_enum_to_model.rb:24 | seeding keeps the earlier rows, adds every remaining name, and adds nothing else |
| CategoryMigration.Seed | db/migrate/20251203000001_convert_role_play_category_enum_to_model.rb:24 | after seeding all five names are present and earlier rows are kept |
| CategoryMigration.SeedFromPresent | db/migrate/20251203000001_convert_role_play_category_enum_to_model.rb:24 | seeding a table that already holds the names changes nothing |
| CategoryMigration.SeedIdempotent | db/migrate/20251203000001_convert_role_play_category_enum_to_model.rb:24 | seeding twice is seeding once |
| CategoryMigration.BackfillId | db/migrate/20251203000001_convert_role_play_category_enum_to_model.rb:31-36 | an id is written only for one of the five enum values |
| CategoryMigration.SeedTable | db/migrate/20251203000001_convert_role_play_category_enum_to_model.rb:24 | the loop of `find_or_create_by!` calls leaves the seeded table |
| CategoryMigration.Backfill | db/migrate/20251203000001_convert_role_play_category_enum_to_model.rb:26-39 | the step succeeds exactly when every value is one of the five, since an unfilled row fails the non-null change; each role play then gets its category's id |
| CategoryMigration.Up | db/migrate/20251203000001_convert_role_play_category_enum_to_model.rb:10-42 | `up` succeeds exactly when every value is known; the table is then seeded and every role play points at the row of its name |
| CategoryMigration.RestoredValue | db/migrate/20251203000001_convert_role_play_category_enum_to_model.rb:55-58 | the value restored is 0 to 4, with 0 when no name matches |
| CategoryMigration.Down | db/migrate/20251203000001_convert_role_play_category_enum_to_model.rb:44-66 | one restored value per role play, each from its category's name |
| CategoryMigration.DownAfterUp | db/migrate/20251203000001_convert_role_play_category_enum_to_model.rb:10-66 | for every enum value, `down` after `up` gives the value back, whatever the table held before |
| KnowledgeRichTextMigration.ParagraphTexts | db/migrate/20251204120000_backfill_knowledge_content_to_action_text.rb:35-36 | one stripped text per piece of the split, and none holds two whitespace characters in a row |
| KnowledgeRichTextMigration.SliceNoPair | db/migrate/20251204120000_backfill_knowledge_content_to_action_text.rb:35 | a piece of a text without a whitespace run has none either |
| KnowledgeRichTextMigration.StripNoPair | db/migrate/20251204120000_backfill_knowledge_content_to_action_text.rb:36 | stripping keeps a piece free of whitespace runs |
| KnowledgeRichTextMigration.SepNotEntity | db/migrate/20251204120000_backfill_knowledge_content_to_action_text.rb:36 | escaping for HTML never produces a whitespace character |
| KnowledgeRichTextMigration.Render | db/migrate/20251204120000_backfill_knowledge_content_to_action_text.rb:36 | exactly two tags per paragraph |
| KnowledgeRichTextMigration.PlainTextToHtml | db/migrate/20251204120000_backfill_knowledge_content_to_action_text.rb:33-37 | as many `<p>` elements as the text has paragraphs |
| KnowledgeRichTextMigration.EmittedNoAdjacentSpace | db/migrate/20251204120000_backfill_knowledge_content_to_action_text.rb:35-36 | no emitted paragraph, once escaped, holds two whitespace characters in a row |
| KnowledgeRichTextMigration.InstalledStep | db/migrate/20251204120000_backfill_knowledge_content_to_action_text.rb:12-17 | one more row keeps every converted row's HTML body in place |
| KnowledgeRichTextMigration.KeptStep | db/migrate/20251204120000_backfill_knowledge_content_to_action_text.rb:12-17 | one more row keeps every body that is not converted |
| KnowledgeRichTextMigration.NoOtherStep | db/migrate/20251204120000_backfill_knowledge_content_to_action_text.rb:12-17 | one more row adds no body except a converted row's |
| KnowledgeRichTextMigration.UpInvariantStep | db/migrate/20251204120000_backfill_knowledge_content_to_action_text.rb:12-17 | each row of the loop keeps the invariant |
| KnowledgeRichTextMigration.Up | db/migrate/20251204120000_backfill_knowledge_content_to_action_text.rb:2-18 | every row with non-blank content gets its HTML body, every other body is left as it was, and no other body appears |
| SystemPromptRichTextMigration.ParagraphHtml | db/migrate/20251203000003_migrate_system_prompt_to_rich_text.rb:14 | a converted paragraph holds no newline |
| SystemPromptRichTextMigration.Render | db/migrate/20251203000003_migrate_system_prompt_to_rich_text.rb:13-15 | the joined paragraphs hold no newline |
| SystemPromptRichTextMigration.ToHtml | db/migrate/20251203000003_migrate_system_prompt_to_rich_text.rb:13-15 | the HTML body holds no newline: every single newline became `<br>` |
| SystemPromptRichTextMigration.RawSplitJoin | db/migrate/20251203000003_migrate_system_prompt_to_rich_text.rb:13 | paragraphs joined by a run of two or more newlines split back into themselves |
| SystemPromptRichTextMigration.ToHtmlParagraphs | db/migrate/20251203000003_migrate_system_prompt_to_rich_text.rb:13-15 | a body whose paragraphs are separated by one blank line renders as those paragraphs, in order |
| SystemPromptRichTextMigration.InstalledStep | db/migrate/20251203000003_migrate_system_prompt_to_rich_text.rb:7-20 | one more prompt installs its body when it has none yet |
| SystemPromptRichTextMigration.NoOtherStep | db/migrate/20251203000003_migrate_system_prompt_to_rich_text.rb:7-20 | one more prompt adds no record except a converted prompt's |
| SystemPromptRichTextMigration.UpStepKeeps | db/migrate/20251203000003_migrate_system_prompt_to_rich_text.rb:7-20 | each prompt of the loop keeps the invariant |
| SystemPromptRichTextMigration.Up | db/migrate/20251203000003_migrate_system_prompt_to_rich_text.rb:6-21 | existing records are kept unchanged; every prompt with a non-blank body and no record gets its HTML; no other record appears |
| RolePlaySessionsController.BuildSystemPrompt | app/controllers/role_play_sessions_controller.rb:60-111 | the prompt is built piece by piece from the stored role-play prompt, the user's context and the scenario's notes, and equals the reference layout |
| RolePlaySessionsController.RolePlayPromptShape | app/controllers/role_play_sessions_controller.rb:60-111 | no prompt without a base prompt; otherwise it starts with the base, holds the manager block exactly when the context is present and the character notes when the scenario has them, and always ends with the wrap-up instruction |
| RolePlaySessionsController.WrapUpLineParses | app/controllers/role_play_sessions_controller.rb:105 | the quoted wrap-up line is valid JSON for `{"wrapping_up": true}` |
| RolePlaySessionsController.WrapUpLineIsFlagLine | app/controllers/role_play_sessions_controller.rb:101-108 | the chat channel takes the quoted line as its status line |
| RolePlaySessionsController.WrapUpLineRead | app/controllers/role_play_sessions_controller.rb:104-105 | a reply ending with the line exactly as instructed is read back as wrapping up, with the line removed |
| RolePlaySessionsController.DefaultSetupIntroFacts | app/controllers/role_play_sessions_controller.rb:148-151 | the fallback introduction names the scenario and its length, with 5 minutes when none is set, and passes the message validations |
| RolePlaySessionsController.DefaultIntroTextNames | app/controllers/role_play_sessions_controller.rb:187-190 | the fallback greeting names the scenario, or reads "this scenario" without one |
| RolePlaySessionsController.SetupIntroContentValid | app/controllers/role_play_sessions_controller.rb:131 | the introduction is the model's text when present, else the fallback, also when the call raised; either passes validation, so `create!` never raises |
| RolePlaySessionsController.GenerateSetupIntro | app/controllers/role_play_sessions_controller.rb:117-146 | one request at temperature 0.8 capped at 400 tokens with the setup prompt; exactly one setup-phase assistant message is appended |
| RolePlaySessionsController.Create | app/controllers/role_play_sessions_controller.rb:18-34 | building the prompt raises without a stored role-play prompt; a session without an account user is not saved and the form is shown again; otherwise a new active setup session with the built prompt and its introduction is opened |
| RolePlaySessionsController.Open | app/controllers/role_play_sessions_controller.rb:19-33 | after the prompt: save, then the setup introduction on success, with no request on failure |
| RolePlaySessionsController.Show | app/controllers/role_play_sessions_controller.rb:36-48 | the introduction is generated only in the setup phase when no setup message exists; afterwards a setup session always has one; the page gets every message in creation order |
| RolePlaySessionsController.SetupAppended | app/controllers/role_play_sessions_controller.rb:38-40 | appending a setup-phase message makes the setup scope non-empty |
| CoachingSessionsController.WithIntroFacts | app/controllers/coaching_sessions_controller.rb:21-28 | the coaching chat is never empty afterwards, an existing chat is kept, and a second pass adds nothing |
| CoachingSessionsController.OpenerValid | app/controllers/coaching_sessions_controller.rb:23-27 | the opener passes the coaching-message validations, so `create!` never raises |
| CoachingSessionsController.EnsureIntroMessage | app/controllers/coaching_sessions_controller.rb:21-28 | the opener is created only when the session has no coaching message |
| CoachingSessionsController.Show | app/controllers/coaching_sessions_controller.rb:5-13 | the page gets a non-empty coaching chat in creation order |
| Pacer.DueCarry | app/javascript/pages/RolePlaySessions/Show.jsx:500-506 | the carry stays below one character, and the characters due plus the carry account for all elapsed time |
| Pacer.DueSplit | app/javascript/pages/RolePlaySessions/Show.jsx:500-506 | spreading time over several ticks reveals the same number of characters as one long tick |
| Pacer.DivMod | app/javascript/pages/RolePlaySessions/Show.jsx:504-506 | whole characters already due are neither lost nor doubled by the division |
| Pacer.MoveKeepsText | app/javascript/pages/RolePlaySessions/Show.jsx:508-517 | moving the due characters keeps the whole text in order; the visible text grows by at most the number due, and the buffer empties exactly when that number covers it |
| CoachingPage.Page.constructor | app/javascript/pages/CoachingSessions/Show.jsx:45-61 | the page mounts with the server's messages, nothing streaming, no timer and nothing sent |
| CoachingPage.Page.Effect | app/javascript/pages/CoachingSessions/Show.jsx:118-148 | the timer restarts, with no carry, exactly when streaming begins and stops when it ends |
| CoachingPage.Page.Received | app/javascript/pages/CoachingSessions/Show.jsx:78-106 | a user message is appended; `assistant_start` clears the reply and starts the timer, or leaves a running timer alone; a chunk is buffered; `assistant_complete` appends the message at once and stops streaming; an error stops streaming and alerts the text, "Error" when it is empty; other events change nothing; each case states every field it leaves unchanged |
| CoachingPage.Page.Tick | app/javascript/pages/CoachingSessions/Show.jsx:124-143 | the characters due move from the front of the buffer to the visible text, and the text as a whole is kept |
| CoachingPage.Page.Type | app/javascript/pages/CoachingSessions/Show.jsx:212 | typing sets the input |
| CoachingPage.Page.SendMessage | app/javascript/pages/CoachingSessions/Show.jsx:157-164 | a blank input or a streaming reply blocks sending; otherwise the input is sent as typed and cleared |
| RolePlayPage.ValidPreserved | app/javascript/pages/RolePlaySessions/Show.jsx:272-554 | the mounted page is valid, and every event and every tick keeps the timer running exactly while a reply streams visibly |
| RolePlayPage.ChunkBuffers | app/javascript/pages/RolePlaySessions/Show.jsx:373-379 | a chunk is appended to the buffer, leaving the visible text alone, unless the handler sees the skip flag |
| RolePlayPage.CompleteCases | app/javascript/pages/RolePlaySessions/Show.jsx:381-402 | the message is shown at once when the handler sees the skip flag or nothing of the reply is visible or buffered; otherwise the reply is marked done with the message waiting |
| RolePlayPage.StartResets | app/javascript/pages/RolePlaySessions/Show.jsx:358-371 | a new reply starts streaming with nothing visible, buffered or waiting, the review panel reads "Reviewing…", and the timer runs exactly when the handler saw earlier messages |
| RolePlayPage.WrappingUpChanges | app/javascript/pages/RolePlaySessions/Show.jsx:398-433 | the wrap-up state changes only on a completion that carries a flag, on `phase_changed` and on `review_status` |
| RolePlayPage.TickKeepsText | app/javascript/pages/RolePlaySessions/Show.jsx:500-517 | until the reply is finalised a tick keeps its text, and the visible part grows by at most the characters due |
| RolePlayPage.TickFinalises | app/javascript/pages/RolePlaySessions/Show.jsx:519-537 | a tick finalises the reply exactly when it is done and the buffer is drained: the waiting message, or the visible text as a placeholder, is appended and the streaming state cleared |
| RolePlayPage.SendGuard | app/javascript/pages/RolePlaySessions/Show.jsx:589-600 | only a non-blank input is sent, and only while nothing streams; the text sent is the input as typed |
| RolePlayPage.ButtonsExclusive | app/javascript/pages/RolePlaySessions/Show.jsx:712-720 | neither transition button shows while a reply streams, they never show together, and a finalised setup reply brings back "Start Role Play" |
| RolePlayPage.StuckFirstReply | app/javascript/pages/RolePlaySessions/Show.jsx:358-402 | on a page mounted with no messages, the mount-time handler buffers the first reply and defers it to a timer that never runs, so the reply is never shown and sending stays blocked |
| RolePlayPage.StaleKeepsSkipOff | app/javascript/pages/RolePlaySessions/Show.jsx:358-360 | with a mount-time message count above zero, the mount-time handler never turns the skip flag on |
| RolePlayPage.StaleHandlerNeverSkips | app/javascript/pages/RolePlaySessions/Show.jsx:352-402 | from a state with the skip flag off, any sequence of events delivered to the mount-time handler of a page mounted with messages leaves the flag off |
| RolePlayPage.MountedWithMessagesNeverSkips | app/javascript/pages/RolePlaySessions/Show.jsx:352-402 | a page mounted with at least one message never takes the skip branches, whatever the channel delivers |
| RolePlayPage.SkippedFirstReply | app/javascript/pages/RolePlaySessions/Show.jsx:358-402 | a handler that reads the current state shows that first reply at once and leaves the page ready for input |
| RolePlayPage.SkipShowsAtOnce | app/javascript/pages/RolePlaySessions/Show.jsx:373-397 | with the current state read, the skip flag buffers no chunk and shows a complete reply at once |
| RolePlayPage.Page.constructor | app/javascript/pages/RolePlaySessions/Show.jsx:272-305 | the page mounts with the server's messages and phase, "setup" by default |
| RolePlayPage.Page.RunEffect | app/javascript/pages/RolePlaySessions/Show.jsx:540-553 | the timer effect applied in place |
| RolePlayPage.Page.Received | app/javascript/pages/RolePlaySessions/Show.jsx:352-434 | one event applied in place, as the handler sees the page |
| RolePlayPage.Page.OnStart | app/javascript/pages/RolePlaySessions/Show.jsx:358-371 | the `assistant_start` branch applied in place |
| RolePlayPage.Page.OnComplete | app/javascript/pages/RolePlaySessions/Show.jsx:381-402 | the `assistant_complete` branch applied in place |
| RolePlayPage.Page.ShowAtOnce | app/javascript/pages/RolePlaySessions/Show.jsx:385-392 | the message is appended and every streaming field cleared |
| RolePlayPage.Page.OnError | app/javascript/pages/RolePlaySessions/Show.jsx:409-413 | streaming stops, the visible text is cleared and the message is alerted |
| RolePlayPage.Page.Tick | app/javascript/pages/RolePlaySessions/Show.jsx:500-538 | one tick applied in place |
| RolePlayPage.Page.Type | app/javascript/pages/RolePlaySessions/Show.jsx:758 | typing sets the input |
| RolePlayPage.Page.Submit | app/javascript/pages/RolePlaySessions/Show.jsx:589-600 | `sendMessage` applied in place |
| RolePlayPage.Page.StartRolePlay | app/javascript/pages/RolePlaySessions/Show.jsx:615-619 | asks the channel to move to "role_play" |
| RolePlayPage.Page.EndRolePlay | app/javascript/pages/RolePlaySessions/Show.jsx:621-625 | asks the channel to move to "debrief" |
| Markdown.DropCr | app/javascript/pages/RolePlaySessions/Show.jsx:132 | dropping the carriage return of a `\r\n` ending leaves a prefix of the line |
| Markdown.SplitLines | app/javascript/pages/RolePlaySessions/Show.jsx:132 | splitting on `\r?\n` gives at least one line, also for empty text |
| Markdown.SpacePrefixes | app/javascript/pages/RolePlaySessions/Show.jsx:210 | a prefix is all white space exactly when it is no longer than the leading white-space run |
| Markdown.SpacedContentMeaning | app/javascript/pages/RolePlaySessions/Show.jsx:210 | `\s+(.+)$` matches exactly when some non-empty white-space prefix leaves a non-empty rest with no line terminator, and the capture is the rest after the longest such prefix |
| Markdown.HeadingLevel | app/javascript/pages/RolePlaySessions/Show.jsx:210-214 | a heading has 1 to 6 `#` signs followed by white space, and a line opening with seven is no heading |
| Markdown.LeadingAtLeast | app/javascript/pages/RolePlaySessions/Show.jsx:210 | n leading `#` signs give a run of at least n |
| Markdown.Classify | app/javascript/pages/RolePlaySessions/Show.jsx:184-256 | a fence line exactly when the line starts with three backticks; a paragraph line keeps the line trimmed |
| Markdown.Kinds | app/javascript/pages/RolePlaySessions/Show.jsx:184-256 | one kind per line, the line classified by the patterns in the loop's order |
| Markdown.FoldSnoc | app/javascript/pages/RolePlaySessions/Show.jsx:182-257 | the loop over one more line is one more step on that line's kind |
| Markdown.StepSettled | app/javascript/pages/RolePlaySessions/Show.jsx:182-257 | each step keeps the parser settled: nothing pending inside a code block, and a list kind exactly while items are pending |
| Markdown.FoldSettled | app/javascript/pages/RolePlaySessions/Show.jsx:182-257 | the parser is settled after any lines, whatever their kinds |
| Markdown.Trims | app/javascript/pages/RolePlaySessions/Show.jsx:256 | one trimmed text per line |
| Markdown.TextStep | app/javascript/pages/RolePlaySessions/Show.jsx:256 | a paragraph line outside code and lists only appends its trimmed text |
| Markdown.Texts | app/javascript/pages/RolePlaySessions/Show.jsx:256 | one text per line |
| Markdown.TextsTrimmed | app/javascript/pages/RolePlaySessions/Show.jsx:256 | when every line is paragraph text, the texts are the lines trimmed |
| Markdown.TextSnoc | app/javascript/pages/RolePlaySessions/Show.jsx:256 | one more text line appends one more text to the paragraph |
| Markdown.TextLinesGather | app/javascript/pages/RolePlaySessions/Show.jsx:256 | a run of text lines only gathers their texts into the paragraph |
| Markdown.TextOnlyParagraph | app/javascript/pages/RolePlaySessions/Show.jsx:141-151 | text lines followed by the end give one paragraph of their trimmed texts joined by spaces |
| Markdown.GatheredTrimmed | app/javascript/pages/RolePlaySessions/Show.jsx:256 | after a text run the paragraph holds the lines trimmed |
| Markdown.FinishParagraph | app/javascript/pages/RolePlaySessions/Show.jsx:259-260 | finishing with pending text emits one paragraph of it joined by spaces |
| Markdown.OneParagraph | app/javascript/pages/RolePlaySessions/Show.jsx:131-262 | a text whose every line is paragraph text renders as exactly one paragraph of the trimmed lines joined by spaces |
| Markdown.ListKindChange | app/javascript/pages/RolePlaySessions/Show.jsx:233-245 | an item of another kind closes the open list first; an item of the same kind extends it |
| Markdown.CodeStep | app/javascript/pages/RolePlaySessions/Show.jsx:204-207 | inside a code block every line but a fence is kept as it is |
| Markdown.UnclosedFenceDropped | app/javascript/pages/RolePlaySessions/Show.jsx:204-207 | the lines after a fence that never closes are buffered and never emitted |
| Markdown.UnclosedFenceLines | app/javascript/pages/RolePlaySessions/Show.jsx:184-207 | after an open fence, lines none of which starts with three backticks are never emitted |
| Markdown.InOrderSeparate | app/javascript/pages/RolePlaySessions/Show.jsx:249-256 | with text closing an open list, paragraph text and list items are never pending together |
| Markdown.FoldInOrderSeparate | app/javascript/pages/RolePlaySessions/Show.jsx:182-257 | the same over any lines |
| Markdown.SeparateFinish | app/javascript/pages/RolePlaySessions/Show.jsx:259-260 | when they are not pending together, finishing emits the pending block after those already emitted |
| Markdown.ParseInOrderFinish | app/javascript/pages/RolePlaySessions/Show.jsx:131-262 | with text closing an open list, the end emits at most one pending paragraph, after everything else |
| Markdown.SpacedA | app/javascript/pages/RolePlaySessions/Show.jsx:231 | `\s+(.+)$` on " a" captures "a" |
| Markdown.BulletMatchA | app/javascript/pages/RolePlaySessions/Show.jsx:231 | "- a" matches the bullet pattern with the item "a" |
| Markdown.BulletA | app/javascript/pages/RolePlaySessions/Show.jsx:231 | "- a" is a bullet item "a" |
| Markdown.TextB | app/javascript/pages/RolePlaySessions/Show.jsx:256 | "b" is paragraph text "b" |
| Markdown.SplitAB | app/javascript/pages/RolePlaySessions/Show.jsx:132 | "- a\nb" splits into its two lines |
| Markdown.KindsAB | app/javascript/pages/RolePlaySessions/Show.jsx:231-256 | the lines "- a" and "b" are a bullet item and paragraph text |
| Markdown.FoldTwo | app/javascript/pages/RolePlaySessions/Show.jsx:182-257 | a bullet and then a text line leave the item and the text pending together, unless text closes the list |
| Markdown.FoldAB | app/javascript/pages/RolePlaySessions/Show.jsx:182-257 | the same for "- a\nb" |
| Markdown.TextAfterListReordered | app/javascript/pages/RolePlaySessions/Show.jsx:233-260 | as written, "- a\nb" renders the paragraph "b" before the list holding "a" |
| Markdown.TextAfterListInOrder | app/javascript/pages/RolePlaySessions/Show.jsx:233-260 | with paragraph text closing an open list, "- a\nb" renders the list, then the paragraph |
| Markdown.ParseBlocks | app/javascript/pages/RolePlaySessions/Show.jsx:131-262 | the imperative parse equals the reference parse |
| Markdown.ParseLines | app/javascript/pages/RolePlaySessions/Show.jsx:182-257 | the loop over the lines leaves the parser's variables as the reference fold |
| Markdown.FlushParaVars | app/javascript/pages/RolePlaySessions/Show.jsx:141-151 | `flushPara` on the loop's variables is the reference flush |
| Markdown.FlushListVars | app/javascript/pages/RolePlaySessions/Show.jsx:152-180 | `flushList` on the loop's variables is the reference flush |
| Markdown.Line | app/javascript/pages/RolePlaySessions/Show.jsx:183-256 | one iteration of the loop is one reference step on the line's kind |
| ReviewPanel.LowerAll | app/javascript/pages/RolePlaySessions/Show.jsx:845-856 | the `/i` flag folds each character on its own, keeping the length |
| ReviewPanel.LowerAllIdempotent | app/javascript/pages/RolePlaySessions/Show.jsx:845-856 | folding twice is folding once |
| ReviewPanel.Classify | app/javascript/pages/RolePlaySessions/Show.jsx:843-861 | a line taken as a bullet starts with `-` or `*` and white space |
| ReviewPanel.MatchIgnoresCase | app/javascript/pages/RolePlaySessions/Show.jsx:845-856 | the header and control-line tests give the same answer on a line and on its lower-case form |
| ReviewPanel.LowerKeepsMarks | app/javascript/pages/RolePlaySessions/Show.jsx:857 | folding neither makes nor removes a bullet mark or white space |
| ReviewPanel.BulletIgnoresCase | app/javascript/pages/RolePlaySessions/Show.jsx:857 | a line is a bullet exactly when its lower-case form is |
| ReviewPanel.ClassifyIgnoresCase | app/javascript/pages/RolePlaySessions/Show.jsx:844-856 | a line that is no bullet is classified as its lower-case form is |
| ReviewPanel.Show | app/javascript/pages/RolePlaySessions/Show.jsx:794-832 | no panel exactly for an empty review; the review as Markdown exactly when it has no bullet under a section; otherwise two sections, at least one non-empty |
| ReviewPanel.StepGrows | app/javascript/pages/RolePlaySessions/Show.jsx:842-861 | a line only ever appends to a section, and at most one bullet |
| ReviewPanel.FoldGrows | app/javascript/pages/RolePlaySessions/Show.jsx:842-861 | over any lines the sections only grow, by at most one bullet per line |
| ReviewPanel.BeforeHeaderDropped | app/javascript/pages/RolePlaySessions/Show.jsx:857-860 | bullets before any header belong to no section and are dropped |
| ReviewPanel.NoHeaderPlain | app/javascript/pages/RolePlaySessions/Show.jsx:797-800 | a review without any header is shown as Markdown |
| ReviewPanel.ControlIgnored | app/javascript/pages/RolePlaySessions/Show.jsx:845-848 | the control line changes nothing |
| ReviewPanel.WrapUpLineControl | app/javascript/pages/RolePlaySessions/Show.jsx:845 | the line the role play is told to end with is a control line |
| ReviewPanel.WrapUpLineIgnored | app/javascript/pages/RolePlaySessions/Show.jsx:845-848 | that line, at any point of the review, changes nothing |
| ReviewPanel.ShoutedHeader | app/javascript/pages/RolePlaySessions/Show.jsx:849-852 | "WHAT WENT WELL :", upper case with a space before the colon, opens the good section |
| ReviewPanel.BulletJoinsSection | app/javascript/pages/RolePlaySessions/Show.jsx:857-861 | a bullet joins the open section, stripped of its mark, and is dropped when no section is open |
| ReviewPanel.SplitReviewLines | app/javascript/pages/RolePlaySessions/Show.jsx:834-866 | the loop gives the reference split: null when both sections are empty, else the two sections |
| Json.ParsePrint | app/jobs/conversation_review_job.rb:25 | parsing the printed form of a well-formed object gives the object back |
| Html.Escape | db/migrate/20251204120000_backfill_knowledge_content_to_action_text.rb:36 | `html_escape` leaves no markup character, never shortens the text, and produces a newline only from a newline |
| Html.UnescapeEscape | db/migrate/20251203000003_migrate_system_prompt_to_rich_text.rb:14 | escaping loses nothing: unescaping gives the text back |
| Splitting.Split | db/migrate/20251204120000_backfill_knowledge_content_to_action_text.rb:35 | no field of the split holds a run of two separators, and no trailing field is empty |
| Splitting.RawSplitCons | db/migrate/20251203000003_migrate_system_prompt_to_rich_text.rb:13 | a field followed by a run of separators is split off whole |
| Text.LinesConcat | app/channels/chat_channel.rb:272 | `String#lines` keeps every character: the lines concatenated give the text back |
| Text.LastLineAfter | app/channels/chat_channel.rb:272-279 | after a final line with no newline, the last line is that line stripped and what comes before is the rest right-stripped |
| Text.SplitCharJoin | app/models/role_play_session.rb:129 | pieces without the separator, joined by it, split back into the pieces |
| Ordering.SortBy | app/models/chat_message.rb:12 | `order(created_at: :asc)` gives a permutation of the records sorted by the key |

## Left out

- The LLM client (`app/services/openai_service.rb`) is a network wrapper. Its replies are parameters (`Llm.StreamReply`, `Llm.Completion`). Its method signatures take no keyword options, yet every caller passes model, temperature and sampling options; the model records the options the callers pass.
- ActionCable subscriptions, stream plumbing and the job queue are not modelled: a broadcast is an entry in the event log and `perform_later` is a `ReviewEnqueued` entry. Scheduling and interleaving between the review job and a chat turn are not modelled.
- Wall-clock time is an integer of seconds or milliseconds given as a parameter. The `iso8601`/`strftime` timestamps of the prompts are opaque texts; elapsed minutes are integer milliseconds divided into minutes and rounded half away from zero. `performance.now` becomes an integer millisecond delta, so the pacer's fractional carry is the millisecond remainder modulo 20.
- `renderInline` in both pages is not modelled: it relies on JavaScript `split` with capture groups, backreferences and lazy quantifiers.
- React rendering and the DOM are not modelled: scroll locking, textarea auto-resizing, the alert dialog (an alert is an entry in the page state), the effects that copy the server's `messages` and `phase` props into state, and React keys and CSS classes. A ref and the state it mirrors are one field.
- The Stimulus controllers, routes and page mapping carry no core logic and are not modelled.
- `generate_initial_greeting` and `GenerateInitialMessageJob` are not modelled: no entry point calls them.
- The role-play page's `review_update` case is not modelled: no server code sends that event.
- The coaching page sets a `skipStreamingDisplay` flag that nothing reads; the model leaves it out.
- The page's channel reference is taken as always connected: `perform` always reaches the channel.
- The English prompt texts and heredocs are opaque constants; only their order and the conditions under which they appear are modelled.
- Action Text `to_plain_text` and the rich-text body are opaque strings. ERB `html_escape` is a stub that escapes the five HTML characters. `JSON.parse` is a stub for flat objects whose values are strings, integers, booleans or null.
- The `down` methods of the system-prompt and knowledge migrations are not modelled; `down` of the category migration is.
- Markdown's `md || ""` null guard is not modelled: a string in the model is never null.
- The review panel's fixed captions ("No highlights yet.") are rendering and are not modelled.
- `create!` raising is modelled as nothing stored and nothing broadcast from then on; the exception itself is not modelled.
- `RolePlaySessions.Session.TransitionToRolePlay`: phases are not forward-only. The transition sets the phase from any phase, so the model proves no forward-only invariant.
- `SystemPrompts.ValidPromptFetched`: holds only for a prompt whose present body HTML renders to present plain text. The model does not render HTML to text: a body carries both independently, and `SystemPrompts.MarkupOnlyBodyFallsBack` shows a valid prompt that `fetch` skips.
- `ConversationReviewJob.Perform` builds the review request with the corrected context, which names the category. The code as written prints the record as `#<Category:0x…>` (first row of the Findings).
- `ConversationReviewService.ReviewMessagesShape` states the shape of the corrected context, with the category's name. The context as written is covered by `ConversationReviewService.CategoryAsWrittenHidesName`.
- `Knowledges.LegacyEntries` assumes the schema before migration 20251204120000. Line 9 of that migration drops the `knowledges.content` column, yet `pluck(:content)` still reads it (app/services/conversation_review_service.rb:3, app/channels/coach_channel.rb:79). On the migrated schema that query is a database error, and in the coach channel `build_messages` (line 35) runs outside the `rescue` of lines 41-72. The model keeps the legacy column as an optional text and does not model that failure.
- `ChatChannel.ParseWrappingUpFlag`: removing the status line is not idempotent. A reply whose cleaned text again ends with a status line loses that line on a second pass, and the model proves the property as the code has it.

## Findings

| source | as written | input that shows it | evidently intended | confidence | as-written member | corrected member |
|---|---|---|---|---|---|---|
| app/services/conversation_review_service.rb:39 | the review context interpolates the role play's `Category` record, which has no `to_s`, so the prompt reads `#<Category:0x…>` | any role play with a category | the category's name in the context | not executed | ConversationReviewService.CategoryAsWrittenHidesName | ConversationReviewService.ContextShape |
| app/javascript/pages/RolePlaySessions/Show.jsx:358-402 | the channel handler keeps the mount-time `messages` and `skipStreamingDisplay`; on a page mounted with no messages the first reply is buffered while the timer is stopped, so it is never shown and the page stays streaming | a page mounted with no messages, then `assistant_start`, `assistant_chunk` "Hi", `assistant_complete` | the first reply is shown at once and the page accepts input | not executed; latent: `show` and `create` store a setup message before the page mounts (RolePlaySessionsController.Show), and a page mounted with messages never takes the skip branches (RolePlayPage.MountedWithMessagesNeverSkips) | RolePlayPage.StuckFirstReply | RolePlayPage.SkippedFirstReply |
| app/javascript/pages/RolePlaySessions/Show.jsx:233-260 | a text line after a list item joins a paragraph while the list stays open, and the final flushes emit the paragraph before the list | "- a\nb" | the list "a", then the paragraph "b" | not executed | Markdown.TextAfterListReordered | Markdown.TextAfterListInOrder |
