# WhatsApp group bot: command routing, permissions and moderation

This project models the core of a WhatsApp group bot. The bot watches group chats. It deletes
links and spam in groups where moderation is on. It answers slash commands addressed to it:
`/tagall`, `/reminder`, `/meme`, `/abuse`, `/help` and `/groupid`. It also keeps the
per-group conversation state behind its AI chat.

The repository ships the bot twice:
- the modular build under `src/`: `commands.js` routes, `commandHandlers.js` answers,
  `commandPermissions.js` decides who may run what, and `config.js` holds the tables;
- the single-file build `server.js`, which repeats the same logic with its own tables and texts.

The model keeps both. `CommandPermissions.Variant` is `Modular` or `Monolithic`.
`CommandPermissions.PolicyOf` gives the configuration table of each build. The router and the
help text take the variant as a parameter, so each proof covers both builds.

Modules, one per concern:
- `Text`: the JavaScript string operations the bot relies on (`includes`, `startsWith`,
  `trim`, `split`, ASCII `toLowerCase`, `parseInt`), with their lemmas. `TrimFacts` holds
  further lemmas about `trim`.
- `Transport`: what the bot sends through the socket. `Outbox` is the append-only log of
  outbound messages: text with mentions, image, voice note or delete.
- `CommandPermissions`: the group command configuration and the four permission helpers.
- `Utils`: the admin lookups, tag-all and the reminder scheduler (`Scheduler`, the
  `scheduledMessages` map together with the armed timers).
- `Moderation`: the unauthorized-content test and the moderation switch.
- `Personalities`: the two personalities and the per-group choice between them.
- `Groq`: the conversation store, the model load balancer, the web-search hint and `chatWithAI`.
  The completion itself is an input.
- `Handlers`: the command handlers and the help text of both builds.
- `Router`: `handleCommand`, as a pure outcome (`Route`) and as the method that performs it
  (`HandleCommand`).
- `Server`: the `messages.upsert` loop of `server.js`: the group filter, auto-moderation, then
  the command router, for one message (`OnMessage`) and for a batch (`OnUpsert`).

Inputs that come from outside are explicit parameters of `Router.Env`:
- the group metadata snapshot;
- the fetched meme;
- the audio folder listing;
- the `Math.random()` draw, a real in [0, 1).

The current time `Date.now()` is a parameter too.

## Model

| member | source | states |
|---|---|---|
| Text.LowerAscii | src/commands.js:93 | same length, each character lower-cased on its own |
| Text.Trim | src/commands.js:57 | no longer than the input, and no white space left at either end |
| TrimFacts.TrimIsSlice | src/commands.js:57 | `trim` removes exactly the white space around the text: a stretch with only white space before and after it and non-space characters at its ends is the result |
| Text.Split | src/commands.js:58 | at least one piece, none holding the separator |
| Text.JoinSplit | src/commands.js:58 | joining the pieces of `split` with the separator gives the text back |
| Text.SplitJoin | src/commands.js:58 | splitting a join of separator-free pieces gives the pieces back |
| Text.UserPart | src/utils.js:44 | `split("@")[0]`: a prefix of the jid without `@`, the whole jid when it has no `@`, otherwise followed in the jid by its first `@` |
| Text.Dedup | src/commandPermissions.js:51 | `[...new Set(s)]`: duplicate-free, the same members, and a duplicate-free list unchanged |
| Text.ParseInt | src/commandHandlers.js:119 | no number from blank text; a negative number only after a leading `-`, and a leading `-` never gives a positive number |
| Text.ParseIntOfDigits | src/commandHandlers.js:119 | a run of decimal digits parses to its value |
| Text.ParseIntOfNat | src/commandHandlers.js:119 | reading back the decimal rendering of a natural number gives the number |
| CommandPermissions.IsCommandAllowed | src/commandPermissions.js:9-15 | a command is allowed iff it is a general command or in the group's own allowed list; a group without a configuration allows exactly the general commands |
| CommandPermissions.IsAdminRequired | src/commandPermissions.js:18-26 | admin is required iff the command is in the global admin-only list or in the group's own admin-only list |
| CommandPermissions.AllowedCommands | src/commandPermissions.js:29-33 | the listed commands are exactly the allowed ones, without duplicates for a well-formed table |
| CommandPermissions.AdminOnlyCommands | src/commandPermissions.js:36-52 | duplicate-free; holds exactly the group's own admin-only commands plus the global admin-only commands allowed in the group; every listed command requires admin |
| CommandPermissions.GetAdminOnlyCommands | src/commandPermissions.js:36-52 | the forEach over the global admin list with its includes checks yields exactly `AdminOnlyCommands` |
| CommandPermissions.PublicCommands | src/commandHandlers.js:142-146 | the public commands are exactly the allowed commands that are not admin-only, without duplicates |
| CommandPermissions.OnlyIn | src/commandPermissions.js:44-49 | keeps exactly the entries also in the pool, in order, keeping a duplicate-free list duplicate-free |
| CommandPermissions.ConfiguredListsNoDup | src/config.js:14-30 | neither configured group repeats a command in its allowed or admin-only list |
| CommandPermissions.ShippedPoliciesWellFormed | src/config.js:14-30 | both builds' tables are well formed: the general list, the global admin-only list and every configured group's two lists are duplicate-free |
| CommandPermissions.ConfiguredGroupsDiffer | server.js:291-301 | illustration on the shipped table: the two configured group ids are different keys |
| CommandPermissions.TagAllAdminDiffers | server.js:274-279 | `/tagall` is admin-only in every group of the single-file build but open to everyone in the first configured group of the modular build |
| CommandPermissions.AdminOnlyNotAllowed | src/commandPermissions.js:36-42 | a group's admin-only command that the group does not allow is still listed as admin-only, yet not allowed |
| CommandPermissions.AdminListNotWithinAllowed | src/config.js:26-29 | in the second configured group `/reminder` is listed admin-only although the group does not allow it |
| Utils.FindParticipant | src/utils.js:8 | `find` returns the first participant with the id, or none exactly when no participant has it |
| Utils.IsUserAdmin | src/utils.js:5-16 | true only for a present participant whose role is `admin` or `superadmin`; with unique ids it is exactly that; missing metadata gives false |
| Utils.IsBotAdmin | src/utils.js:19-21 | true only when the bot's own id is an admin participant |
| Utils.TagTargets | src/utils.js:37-39 | the mentioned ids are exactly the participant ids other than the bot's |
| Utils.TagTargetsInOrder | src/utils.js:37-39 | the filter keeps order and repeats: it distributes over concatenation, and one participant yields its id exactly when it is neither the bot's id nor holds the bot's number |
| Utils.TagHeader | src/utils.js:41 | the custom message, or the default attention line when it is empty |
| Utils.MentionLine | src/utils.js:42-46 | empty iff there are no targets; at least two characters per target; ends in a space when there is a target |
| Utils.TagAllText | src/utils.js:41-49 | the sent text is trimmed (no white space at either end) and no longer than header, blank line and mentions together |
| Utils.MentionLineMentions | src/utils.js:42-46 | every target's `@number` appears in the mention line |
| Utils.TagAllMentionsEveryone | src/utils.js:41-51 | after trimming, the sent text still contains `@number` for every target |
| Utils.TagAllKeepsHeader | src/utils.js:41-49 | the sent text starts with the custom message, or with the default line when none is given |
| Utils.MentionText | src/utils.js:42-46 | the forEach builds the header, a blank line and one `@number ` per target |
| Utils.TagAll | src/utils.js:34-55 | sends one text with the tag-all body mentioning every target; sends nothing when the metadata fetch fails |
| Utils.DelayMs | src/utils.js:61 | the delay is the whole minutes times 60000, at least one minute for a positive count |
| Utils.Scheduler.Schedule | src/utils.js:60-71 | the id is the current time; the timer is armed and stored under that id, overwriting an older entry with the same id |
| Utils.Scheduler.Fire | src/utils.js:64-67 | the earliest due timer runs tag-all for its group and message and its id leaves the map |
| Moderation.IsUnauthorized | src/moderation.js:5-35 | empty text is never flagged |
| Moderation.HasUnauthorizedContent | src/moderation.js:5-35 | the loop's verdict equals `IsUnauthorized`: a URL form, or one of the eight spam phrases in the lower-cased text |
| Moderation.IsModerationEnabled | src/moderation.js:38-41 | enabled iff the group is listed; never with the shipped empty list |
| Moderation.IgnoresLetterCase | src/moderation.js:8-10 | the verdict does not change when the text is lower-cased first |
| Moderation.LinkFlagged | src/moderation.js:9-25 | any `http://`, `https://` or `www.` in any letter case, followed by a non-space, is flagged |
| Moderation.SpamPhraseFlagged | src/moderation.js:11-31 | any spam phrase in any letter case, anywhere in the text, is flagged |
| Moderation.PlainTextPasses | src/moderation.js:22-34 | text without `.` or `:` and without a spam phrase is never flagged |
| Personalities.SampleCounts | src/personalities.js:39-79 | Chhapri Bhaiya has four sample exchanges and Tobias Rieper two, and they are different personalities |
| Personalities.PersonalityKey | src/personalities.js:85-87 | the group's key unless missing or empty, else the `default` key |
| Personalities.GetPersonalityForGroup | src/personalities.js:83-95 | Tobias Rieper exactly for the key `tobias_rieper`, Chhapri Bhaiya otherwise |
| Personalities.OwnEntryWins | src/personalities.js:85-94 | a group's own non-empty entry decides, whatever the default says |
| Personalities.NoEntryIsChhapri | src/personalities.js:85-94 | with no entry and no default the personality is Chhapri Bhaiya |
| Groq.Seed | src/groqIntegration.js:19-26 | a new history is the system prompt followed by one user and one assistant turn per sample exchange |
| Groq.SeedHistory | src/groqIntegration.js:20-26 | the forEach over the samples builds exactly `Seed` |
| Groq.SeedSizes | src/groqIntegration.js:19-26 | the seeded history holds 9 turns for Chhapri Bhaiya and 5 for Tobias Rieper |
| Groq.SeedOfFits | src/groqIntegration.js:17-40 | every group's seed is well shaped and no longer than the 11 entries the trim keeps at the head |
| Groq.SampleTurnsAt | src/groqIntegration.js:23-26 | sample exchange i sits at positions 2i and 2i+1 |
| Groq.KeepHead | src/groqIntegration.js:38-40 | a history of at most 11 entries is kept whole; a longer one keeps its first 11 entries, and after them exactly the later system entries |
| Groq.Trimmed | src/groqIntegration.js:33-46 | up to 21 entries the history is unchanged; beyond, the result starts with the first 11 entries and ends with the last 10 |
| Groq.AppendTrimmed | src/groqIntegration.js:33-46 | a push onto a history of at most 21 entries keeps it well shaped; past 21 entries it keeps the first 11 and the last 10; the seed survives |
| Groq.ConversationStore.GetConversationHistory | src/groqIntegration.js:17-31 | creates the seeded history on first use, else returns the stored one unchanged |
| Groq.ConversationStore.AddToHistory | src/groqIntegration.js:33-46 | the stored history becomes the trimmed history with the new turn |
| Groq.Recent | src/groqIntegration.js:55 | keeps exactly the timestamps later than one minute ago, each as often as it occurs in the input |
| Groq.RecentInOrder | src/groqIntegration.js:55 | the filter keeps the input order: it distributes over concatenation |
| Groq.PrunedWindows | src/groqIntegration.js:54-61 | a model stays in the usage map iff it has a request in the last minute, and keeps exactly those |
| Groq.Lowest | src/groqIntegration.js:64-73 | the first model with the least usage below the threshold, or none when every model is at the threshold |
| Groq.LowestStep | src/groqIntegration.js:67-73 | one forEach step replaces the best model only on a strictly lower usage below the threshold |
| Groq.RecordedAddsOne | src/groqIntegration.js:76-79 | recording adds exactly the current time to the chosen model's list and leaves every other model alone |
| Groq.LoadBalancer.Prune | src/groqIntegration.js:50-61 | the usage map becomes the pruned map |
| Groq.LoadBalancer.SelectModel | src/groqIntegration.js:64-73 | the loop picks the `Selected` model: the lowest usage below the threshold, else the fallback index's model |
| Groq.LoadBalancer.GetAvailableModel | src/groqIntegration.js:49-83 | prunes, selects and records one request at the current time |
| Groq.LoadBalancer.RotateModel | src/groqIntegration.js:175 | the fallback index moves on by one, cyclically |
| Groq.AddWebSearchContext | src/groqIntegration.js:86-98 | the message, with the note appended or not |
| Groq.WebNoteIffNeeded | src/groqIntegration.js:86-98 | the note is appended iff one of the nine keywords occurs in the message |
| Groq.WebKeywordInsideWord | src/groqIntegration.js:89 | illustration: a keyword inside a longer word ("know") triggers the note too |
| Groq.ExtractMentionedUsers | src/groqIntegration.js:101-108 | one entry per jid, in order, each with the part before the first `@` as its number (the number is followed by `@` in the jid), or the whole jid when it has no `@` |
| Groq.MentionHandles | src/groqIntegration.js:125-127 | one `@number` handle per mention |
| Groq.UserTurnText | src/groqIntegration.js:121-135 | the stored user turn starts with the hinted message and is exactly it without mentions; with mentions it holds the `[User mentioned: ` note and every mention's `@number` |
| Groq.FinalResponse | src/groqIntegration.js:152-162 | never empty; contains the target's `@number` when one is given; ends with the answer or the fallback line |
| Groq.ChatReply | src/groqIntegration.js:152-180 | a failed call gives the slow-down line for rate-limit or quota errors and the technical-problem line otherwise |
| Groq.NextModelIndex | src/groqIntegration.js:171-178 | the fallback index stays in range and is unchanged after an answer |
| Groq.StoreUserTurn | src/groqIntegration.js:118-135 | the user turn, with hint and mentions, is appended to the group's trimmed history |
| Groq.Conclude | src/groqIntegration.js:152-181 | after an answer the reply is appended as the assistant turn; after an error the history is unchanged and the index rotates on rate limits |
| Groq.ChatWithAI | src/groqIntegration.js:111-182 | without an API key nothing changes and the system-down line is returned; otherwise the user turn is stored, one request is recorded on the selected model, and the reply and state follow the completion |
| Handlers.MemeReply | src/commandHandlers.js:28-44 | an image with the `😂 title` caption when a meme was fetched, the fallback text otherwise |
| Handlers.AudioFiles | src/commandHandlers.js:61-69 | exactly the folder entries ending in `.m4a` in any letter case, joined to the folder |
| Handlers.PickIndex | src/commandHandlers.js:82 | `Math.floor(Math.random() * total)` is a valid index |
| Handlers.AbuseReplies | src/commandHandlers.js:47-109 | one or two messages to the group, all mentioning the target: the greeting when there are no options, a text line, or a voice note followed by the note emoji |
| Handlers.ParseReminder | src/commandHandlers.js:118-127 | refused iff the first argument is missing, not a number or not positive; otherwise its parsed minutes and the rest joined by spaces |
| Handlers.ReminderOfMinutes | src/commandHandlers.js:119-120 | a positive count followed by words parses to that count and those words |
| Handlers.ReminderAckNamesMinutes | src/commandHandlers.js:130-132 | the acknowledgement names the minute count |
| Handlers.ReminderIgnoresUnit | src/commandHandlers.js:119 | illustration of `ParseReminder`: `parseInt` reads `5min` as 5 |
| Handlers.ReminderRefusesZero | src/commandHandlers.js:122-126 | illustration of `ParseReminder`: no argument and a zero count are refused |
| Handlers.ReminderRefusesNegative | src/commandHandlers.js:122-126 | illustration of `ParseReminder`: a negative count is refused |
| Handlers.ReminderRefusesWord | src/commandHandlers.js:122-126 | illustration of `ParseReminder`: a non-numeric count is refused |
| Handlers.Lookup | src/commands.js:93-131 | a switch label is found iff it names a handled command, and names it |
| Handlers.LookupName | src/commands.js:93-131 | every handled command's label leads back to it |
| Handlers.Section | src/commandHandlers.js:150-175 | a help section is empty iff its command list is empty, and otherwise opens with its title |
| Handlers.HelpText | src/commandHandlers.js:147-182 | the text opens with the header and closes with the footer naming the sender's status and the moderation status; a non-empty admin or public list puts its section title in the text |
| Handlers.HelpFor | src/commandHandlers.js:136-182 | the help of a group ends with the status of the given sender and of the group's moderation switch, and shows the admin section title whenever the group has an admin-only command |
| Handlers.AdminLineShown | src/commandHandlers.js:150-159 | every admin-only command with a line in the admin section has that line in the help text |
| Handlers.PublicLineShown | src/commandHandlers.js:161-175 | every public command has its line in the help text |
| Handlers.AllowedLinesShown | src/commandHandlers.js:142-175 | every allowed command appears in the help text when the admin section covers the admin-only list |
| Handlers.ModularHelp | src/commandHandlers.js:7-11 | with `isModerationEnabled` missing from the imported module nothing is sent; with it, the help text is sent |
| Handlers.HelpAsWrittenSendsNothing | src/commandHandlers.js:136-140 | importing from the permissions module, modular `/help` sends nothing |
| Handlers.HelpCorrectedSendsHelp | src/commandHandlers.js:136-184 | importing from the moderation module, `/help` sends one text listing every allowed command |
| Handlers.MonolithicHelpOmitsGroupId | server.js:536-574 | in the first configured group `/groupid` is allowed and admin-only, yet the single-file help lists it in neither section |
| Handlers.GroupIdText | src/commandHandlers.js:187-191 | the reply starts with the group id in a code span |
| Router.MessageText | src/commands.js:20-29 | the first non-empty of conversation, extended text, image caption and video caption, tried in that order (each field wins exactly when the ones before it are empty); empty iff all are |
| Router.SenderId | src/commands.js:80 | the participant when present, the chat id otherwise |
| Router.BotMentioned | src/commands.js:39-42 | the bot is addressed iff a mentioned jid contains the bot number or the text contains `@number`; the id tests are covered by the number test |
| Router.BotMentionedByNumber | server.js:410-414 | the single-file build's extra `botNumber` test changes nothing: both builds decide alike |
| Router.StripMentions | src/commands.js:57 | never longer than the text |
| Router.StripMentionsConcat | src/commands.js:57 | stripping works piece by piece: the text outside a mention is kept, for any cut that does not split a run of digits |
| Router.StripMentionKeepsSurroundings | src/commands.js:57 | illustration: `a@1b` becomes `ab` |
| Router.StripMentionsNoAt | src/commands.js:57 | a text without `@` is left unchanged |
| Router.StripMentionsLeavesNone | src/commands.js:57 | after `replace(/@\d+/g, "")` no `@` is followed by a digit |
| Router.StripMentionsIdempotent | src/commands.js:57 | stripping mentions twice is stripping once |
| Router.StripLeadingMention | src/commands.js:57 | a leading `@digits` is removed whole |
| Router.Words | src/commands.js:57-58 | at least one piece, no piece holds a space, and the pieces joined by single spaces give back the cleaned text |
| Router.FirstCommand | src/commands.js:59 | the index of the first word starting with `/`, or none exactly when there is no such word |
| Router.ParseCommand | src/commands.js:57-64 | no invocation iff no word of the cleaned text starts with `/`; otherwise the first such word and every word after it |
| Router.MentionThenCommand | src/commands.js:57-64 | `@digits /cmd` parses to `/cmd` with no arguments |
| Router.Invoked | src/commands.js:31-64 | an invocation only for non-empty text containing `/`, addressed to the bot whenever it holds `@`; conversely such a text is parsed, and the result is `ParseCommand` of it |
| Router.Refusal | src/commands.js:69-90 | no refusal iff the command is allowed and, when admin is required, the sender is an admin; otherwise "not available" or "access denied" |
| Router.TargetUsers | src/commands.js:107-111 | exactly the mentioned jids that are not the bot, the first in mention order first |
| Router.Shipped | server.js:252-307 | a shipped build uses its own table and the empty moderation list |
| Router.HelpReplies | src/commands.js:123-126 | `/help` sends the help text of the build to the group, with the moderation module's switch |
| Router.Dispatch | src/commands.js:93-131 | replies go to the group and never delete; a reminder is set iff the command is `/reminder` with a valid count, then acknowledged; `/help` gives the help replies; an unknown command does nothing |
| Router.DispatchTagAll | src/commands.js:94-96 | `/tagall` in any letter case tags everyone with the arguments joined by single spaces as the message (src/commandHandlers.js:112-115) |
| Router.DispatchReminderUsage | src/commands.js:98-100 | a `/reminder` whose count does not parse gets exactly the usage line and schedules nothing |
| Router.DispatchMeme | src/commands.js:102-104 | `/meme` sends exactly the meme reply |
| Router.DispatchHelp | src/commands.js:123-126 | `/help` sends exactly the help replies for the sender and schedules nothing |
| Router.DispatchGroupId | src/commands.js:128-130 | `/groupid` sends exactly the group id text |
| Router.Route | src/commands.js:15-132 | replies go to the chat and never delete; silence without an invocation; a refused command gets exactly its refusal; reminders are for positive minutes |
| Router.SilentUnlessAddressed | src/commands.js:31-54 | no text, no `/`, or an `@` that is not the bot: nothing happens |
| Router.ReminderOnlyWhenPermitted | src/commands.js:69-100 | a reminder is set only for an allowed `/reminder` whose admin requirement the sender meets |
| Router.RefusedGetsOneReply | src/commands.js:70-76 | a command that is not allowed gets one "not available" reply and nothing else |
| Router.AbuseTargetsFirstTagged | src/commands.js:106-121 | `/abuse` sends only text or voice notes and they mention the first tagged non-bot user |
| Router.HandleReminder | src/commandHandlers.js:118-133 | sends the usage line, or arms a timer and acknowledges |
| Router.HandleAbuse | src/commandHandlers.js:47-109 | sends exactly `AbuseReplies` for the listed audio files |
| Router.DispatchCommand | src/commands.js:93-131 | performs `Dispatch`: its replies, and its reminder on the scheduler |
| Router.HandleCommand | src/commands.js:15-132 | performs `Route`: the outbox grows by its replies and the scheduler arms its reminder |
| Server.ShouldDelete | server.js:680-689 | never with an empty moderation list; a deletion needs non-empty text, a group on the moderation list, metadata and a sender who is not an admin |
| Server.Reaction | server.js:661-704 | a message outside a group chat gets no reaction at all; everything sent for a message goes to that message's chat |
| Server.ModerationWarning | server.js:697-701 | the warning mentions the sender and starts with `⚠️ @number` |
| Server.ModerationSends | server.js:681-701 | nothing unless the message must be deleted; then the delete of that message, then the warning |
| Server.ModerationInChat | server.js:681-701 | every message moderation sends goes to the chat the offending message came from |
| Server.GroupReaction | server.js:661-704 | in a group the reaction is moderation followed by the command router |
| Server.DeletesExactlyFlagged | server.js:681-694 | a delete is sent iff the chat is a group and the message is flagged, moderation is on, the bot is admin and the sender is not; it comes first |
| Server.AdminsNeverDeleted | server.js:688-692 | an admin's message, or any message while the bot is not admin, is never deleted |
| Server.ShippedNeverDeletes | server.js:267-271 | with the shipped empty moderation list nothing is ever deleted |
| Server.CommandsStillHandled | server.js:702-703 | a deleted message's command still runs, after the moderation messages |
| Server.ShippedBatchNeverDeletes | server.js:658-706 | a whole batch under the shipped settings sends no delete |
| Server.PrivateChatsIgnored | server.js:663 | a batch of non-group messages sends nothing |
| Server.Moderate | server.js:681-701 | performs `ModerationSends` on the outbox |
| Server.DeleteAndWarn | server.js:694-701 | sends the delete, then the warning |
| Server.OnMessage | server.js:661-704 | performs `Reaction` for one message: the outbox and scheduler change as it says |
| Server.OnUpsert | server.js:658-706 | a batch of another type changes nothing; a `notify` batch is handled message by message, in order |

## Left out

- The WhatsApp socket, the HTTP meme request and the Groq SDK are left out. `Outbox` records what
  would be sent. The meme and the completion are inputs.
- Failures of `sendMessage` inside the handlers' `try`/`catch` are not modelled. Every send succeeds.
- The group metadata is one snapshot per message. The source fetches it again for each admin check.
- Real timers are left out. `setTimeout` is modelled as a timer armed in `Utils.Scheduler`, and
  `Utils.Scheduler.Fire` runs it. Node's clamp of delays beyond 2^31-1 ms is not modelled.
- `Date.now()`, `Math.random()` and the audio folder listing are parameters.
- `path.join` is written as `folder + "/" + name`, without normalisation.
- The abusive lines of `handleAbuse`/`sayToUser` are a parameter rather than copied.
- The personality prompts and sample answers are abbreviated to their opening words.
- `Text.LowerAscii`: lower-casing covers ASCII letters only. Non-ASCII case mappings, the
  Kelvin sign for example, and the `/i` regex flag beyond ASCII are not modelled.
- `Moderation.IsUnauthorized` models the URL regex by prefix checks at each position. Its three
  alternatives are `https?://` or `www.` followed by a non-space, and an alphanumeric run followed
  by `.` and one of the nine TLDs.
- `Handlers.ParseReminder` parses integers only. `parseInt` of a fraction or an exponent such as
  `1e3` stops at the `.` or the `e`, which the model follows. Counts beyond 2^53 are not rounded.
- `Groq.ChatWithAI` does not model one detail: the source sends the history array it fetched
  before trimming, which still holds the just-added turn even when `addToHistory` replaced the
  stored array. The model tracks only the stored histories.
- `GROQ_MODELS`, `RATE_LIMIT_THRESHOLD` and `GROUP_PERSONALITIES` are not defined in
  `src/config.js`. The model takes them as parameters of `Groq.LoadBalancer` and of
  `Groq.ConversationStore`. As shipped, indexing the missing personality table would throw
  before any history exists. The model assumes that a table is supplied.
- Interleaving between `await`s of concurrently handled messages is left out. Each message is
  handled to completion in order.
- The random joke scheduler, the admin panel and web server, `index.js`, the legacy
  `[old]server.js` and `Legacy Code/`, and `app.py` are not part of this model.
- Router.HelpReplies: for the modular build it models the corrected import (see "## Findings"),
  so it sends the help text. The code as written throws before sending and sends nothing, which
  `Handlers.HelpAsWrittenSendsNothing` states.
- Router.Dispatch: the modular `/help` sends the help text, following `Router.HelpReplies`.
- Router.DispatchHelp: the modular `/help` sends the help text, following `Router.HelpReplies`.
- Router.DispatchCommand: the modular `/help` sends the help text, following `Router.HelpReplies`.
- Router.Route: the modular `/help` sends the help text, following `Router.HelpReplies`.
- Router.HandleCommand: the modular `/help` sends the help text, following `Router.HelpReplies`.
- No file of this model calls `chatWithAI`, so `Router.Route` gives no AI reply to a mention
  without a command. The entry point that would wire the chat in is not part of this model.
  `Groq.ChatWithAI` models the chat call on its own.

## Findings

| source | as written | input that shows it | evidently intended | confidence | as-written member | corrected member |
|---|---|---|---|---|---|---|
| src/commandHandlers.js:7-11 | `isModerationEnabled` is imported from `./commandPermissions`, whose exports (src/commandPermissions.js:54-59) do not include it, so `handleHelp` calls `undefined` and throws before sending | `/help` from any member in any group of the modular build | import it from `./moderation`, which exports it, so that `/help` sends the help text | high (not executed) | Handlers.HelpAsWrittenSendsNothing | Handlers.HelpCorrectedSendsHelp |
