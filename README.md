# Jeffrey, modelled in Dafny

Jeffrey is a Discord bot for study communities. This project models its core in Dafny and proves properties of the model:

- **Study tips.** Each guild has a settings table: an enabled flag, a daily time in UTC, a frequency, a target channel and an AI switch. The `/study_tips` command and the panel buttons edit that table. A periodic tick sends the tips that are due and schedules the next one.
- **Class sessions.** Staff record a voice channel's audio per speaker (as PCM written into WAV files), have it transcribed and summarised, and store the session and its summary. The summary can then be broadcast to the participants or to chosen members by DM.
- **The voice assistant.** It listens in a voice channel, transcribes each utterance, answers with the help of the stored knowledge snippets, and queues spoken replies.
- **Polls.** There are two kinds. Button polls keep one vote per user and rebuild their results embed. Reaction polls are opened from a modal and closed by reading their reactions.
- **Localisation.** This covers the i18n dictionaries and their dotted-key lookup, `{placeholder}` formatting, the locale chain (user, then guild, then Discord locale, then `en-US`), channel names in every locale, and the command descriptions.
- **Premium.** Entitlements come from Discord's endpoint and are cached for 60 seconds. A guild can be whitelisted.
- **Other pieces.** The answers to general questions in threads, and the OpenAI chat helper with the single conversation log that every caller shares.

Discord, OpenAI, Postgres, the clock and the file system are not modelled as code. Each call into them is a parameter, for example a clock reading or an outcome datatype such as "the request failed" or "the reply was this list". The tables the bot keeps in Postgres and the maps it keeps in memory are modelled as classes whose fields the methods update.

The modules follow the source files:

| module | source |
|---|---|
| `Wav` | the RIFF/WAVE header written by `pcmToWav` in both voice services |
| `VoiceSessions` | `services/voiceSessions.js` |
| `VoiceAssistant` | `services/voiceAssistant.js` |
| `ClassSummaries` | `services/classSummaries.js` |
| `Knowledge` | `services/knowledge.js` |
| `ClassSession` | `features/classSession.js` |
| `StudyTips` | `features/studyTips.js` |
| `OpenAIService` | `features/openaiService.js` |
| `GeneralQuestion` | `features/generalQuestion.js` |
| `FeaturePolls` | `features/pollManager.js` |
| `Polls` | `pollManager.js` |
| `Bot` | `bot.js` |
| `I18n` | `i18n.js` |
| `Channels` | `channels.js` |
| `Localization` | `localization.js` |
| `Premium` | `premium.js` |

`Wrappers`, `Strings`, `Sorting`, `Objects` and `Chat` are helper modules. `Objects` models a JavaScript object as a list of entries in insertion order, and `Chat` holds the chat message types the services share.

## Model

| member | source | states |
|---|---|---|
| Localization.MakeLoc | localization.js:8-15 | the loop builds exactly `LocEntries(codes, text)`, the entries of every visited code other than `en-US` |
| Localization.LocStep | localization.js:10-13 | one more visited code adds that code with `text`, unless it is `en-US`, which is skipped |
| Localization.LocEntriesShape | localization.js:8-15 | for any code list, the keys are the non-default codes, each once in order of first appearance, and every value is `text` |
| Localization.AllLocalesDistinct | localization.js:4-6 | the 32 locale codes are pairwise distinct |
| Localization.MakeLocOfAllLocales | localization.js:4-15 | `makeLoc(text)` has 31 entries, keyed by every listed locale after `en-US` in list order, with no `en-US` entry, each holding `text` |
| Premium.ParseSkuList | premium.js:13-19 | a missing or empty setting gives no SKUs; otherwise the comma-separated items, trimmed, with the empty ones dropped |
| Premium.ConfigOf | premium.js:3-23 | the credentials count as set only when both the token and the client id are; the three lists are the parsed settings |
| Premium.WhitelistedIffListed | premium.js:74-76 | with the whitelist setting holding comma-separated ids, a guild is whitelisted exactly when its id is one of them |
| Premium.FetchEntitlements | premium.js:30-47 | without credentials, for a reply that is not a list, and for a failed request, no entitlements; otherwise exactly the listed entitlements that are not deleted |
| Premium.Entitled | premium.js:56 | an entitlement can only be found with credentials set and a list as reply |
| Premium.EntitledIffLive | premium.js:30-47 | a check finds an entitlement if and only if credentials are set, the reply is a list and it holds a non-deleted entitlement, so missing credentials deny |
| Premium.Check | premium.js:49-59 | no SKUs give yes and keep the cache; a fresh entry gives its answer and keeps the cache; otherwise the answer is whether an entitlement was found, recorded for the id with the time of the check; every other id's entry is kept |
| Premium.CheckAnswer | premium.js:49-72 | no SKUs allow without touching the cache; a fresh entry (younger than 60 s) is answered from the cache; otherwise the answer is whether a live entitlement came back and only the checked id's entry is overwritten, with the time of the check |
| Premium.CheckIsCached | premium.js:53-57 | a check repeated less than 60 s after one that asked the endpoint gives the same answer and leaves the cache unchanged, whatever the endpoint would now say |
| Premium.PremiumCache.constructor | premium.js:21-28 | the configuration is kept and both caches start empty |
| Premium.PremiumCache.HasUserEntitlement | premium.js:49-59 | the answer and the new user cache are those of the shared check over the user SKUs; the guild cache is untouched |
| Premium.PremiumCache.HasGuildEntitlement | premium.js:61-72 | a whitelisted guild is entitled before SKUs or cache are consulted and nothing changes; otherwise the shared check over the guild SKUs; the user cache is untouched |
| Premium.PremiumCache.HasPremiumAccess | premium.js:78-91 | whitelist, then guild entitlement, then user entitlement, in that order; the user check runs only when the guild does not grant access; with no ids the answer is no and nothing changes; the answer equals `Access` on the old caches |
| Premium.Access | premium.js:78-91 | the answer of `hasPremiumAccess` as a function of the caches; no user and no guild id means no access |
| GeneralQuestion.ContextLines | features/generalQuestion.js:19-26 | the lines pushed by the loop are never more than the messages |
| GeneralQuestion.Lines | features/generalQuestion.js:22-25 | one `name: text` line per message, in order |
| GeneralQuestion.ContextLinesOfSpeakers | features/generalQuestion.js:20-26 | the loop's lines are exactly the lines of the messages by humans with non-blank text, in order |
| GeneralQuestion.Bounded | features/generalQuestion.js:28 | the context is at most 1600 characters, is a suffix of the full text, and is the full text when that already fits |
| GeneralQuestion.BuildThreadContext | features/generalQuestion.js:15-30 | a failed fetch gives `''`; otherwise the bounded join of the lines of the messages sorted by creation time |
| GeneralQuestion.ContextShape | features/generalQuestion.js:15-30 | the context is at most 1600 characters, ends like the full context, its lines come only from speaking messages, and the messages it reads are a sorted permutation of those fetched |
| GeneralQuestion.ThreadName | features/generalQuestion.js:39-42 | at most 90 characters, a prefix of `prefix – username`, and the whole of it when it fits |
| GeneralQuestion.ThreadNameKeepsPrefix | features/generalQuestion.js:59 | the `Question` and `Jeffrey prompt` thread names always start with their prefix and the dash, whatever the user name |
| GeneralQuestion.Cleaned | features/generalQuestion.js:186-188 | the text without the bot's mentions is trimmed: it is empty or starts and ends with non-space |
| GeneralQuestion.CleanedWithoutMention | features/generalQuestion.js:186-188 | a message without the mention token is only trimmed |
| GeneralQuestion.Prompt | features/generalQuestion.js:200-202 | with no context the prompt is the bare message; otherwise it starts with the instructions and the context and ends with `Latest message: ` and the message |
| GeneralQuestion.OnMessage | features/generalQuestion.js:182-213 | nothing happens outside a guild; in a thread only a mention with remaining text is acted on: answered, on that cleaned text, exactly when the author is entitled, and met with the premium notice exactly when not; outside threads a trailing `?` and nothing else starts the private-help offer |
| GeneralQuestion.OnChoice | features/generalQuestion.js:224-263 | a press by anyone but the author is refused |
| GeneralQuestion.OnlyAuthorChooses | features/generalQuestion.js:224-234 | the prompt stops exactly when the entitled author presses; a private answer needs the author and the `yes_private_help` button |
| I18n.Step | i18n.js:18 | one step of the intended walk never throws; it yields a value exactly when the current value is an object holding the segment, and that value is the field; after a falsy value, a missing field or a value that cannot be looked into it is `undefined` |
| I18n.Walk | i18n.js:17-19 | the intended walk along a non-empty path never ends in a thrown error |
| I18n.Get | i18n.js:17-19 | `get(obj, key)` as intended never throws |
| I18n.MissingStaysMissing | i18n.js:18 | once a segment is missing, the rest of the walk stays `undefined` |
| I18n.WalkFindsNested | i18n.js:17-19 | a key whose segments lead through nested objects to a value finds that value |
| I18n.WalkValueReaches | i18n.js:17-19 | the intended walk ends at a value exactly when that value sits under the path in nested objects |
| I18n.GetFinds | i18n.js:17-19 | `get(obj, key)` finds a value exactly when it sits under the key's dot-separated segments |
| I18n.FalsyPartwayIsMissing | i18n.js:18 | a falsy value met before the last segment ends the walk in `undefined`, as written and as intended |
| I18n.UndefinedStaysAsWritten | i18n.js:18 | once the walk as written is `undefined`, it stays `undefined` |
| I18n.EmptyTextPartwayIsMissing | i18n.js:18 | `get({a: ''}, 'a.b')` is `undefined` both as written and as intended |
| I18n.StepAsWritten | i18n.js:18 | one step as written throws exactly after a truthy value that is not an object (or once thrown), and yields a value exactly when an object holds the segment, that value being the field |
| I18n.WalkAsWritten | i18n.js:18 | the walk as written ends at a value only when it started at one |
| I18n.GetAsWritten | i18n.js:17-19 | `get(obj, key)` as written either throws or gives the same as the intended lookup |
| I18n.WalksAgreeOrThrow | i18n.js:17-19 | the walk as written either throws or agrees with the intended walk |
| I18n.ThrownStays | i18n.js:18 | once the walk as written has thrown, it stays thrown |
| I18n.SampleKeySegments | i18n.js:18 | `channels.general.name` splits into its three segments |
| I18n.SampleWalkAsWritten | i18n.js:18 | as written, looking up `name` on the text `general` throws |
| I18n.SampleWalk | i18n.js:17-19 | as intended, the same walk ends in `undefined` |
| I18n.KeyPastTextThrows | i18n.js:17-19 | a key that goes past a text value throws as written and is missing as intended |
| I18n.WordRun | i18n.js:22 | the length of the leading run of `\w` characters: all of it are word characters and the next one is not |
| I18n.PlaceholderAt | i18n.js:22 | a placeholder found at the start is at least `{x}` long, opens with `{` and closes with `}` |
| I18n.Format | i18n.js:21-23 | a text without `{` is left unchanged |
| I18n.FormatWithoutVars | i18n.js:21-23 | with no variables every placeholder stays, so the text is unchanged |
| I18n.FormatFills | i18n.js:22 | a lone `{k}` whose variable exists becomes that variable's value |
| I18n.WordRunOf | i18n.js:22 | a word followed by a non-word character is read as one run of exactly its length |
| I18n.Dictionary | i18n.js:6-26 | an unknown locale reads the `en-US` dictionary; every known locale other than `en-US` and `es-ES` has an empty one |
| I18n.Render | i18n.js:28 | a string is formatted with the variables; any other value is returned as it is |
| I18n.T | i18n.js:25-29 | never `null`; the locale's value when it is neither missing nor `null`, else the `en-US` value under the same rule, else the key itself, a string value being formatted with the variables |
| I18n.NullFallsThrough | i18n.js:27 | a key stored as `null` in `es-ES` falls through to the `en-US` value |
| I18n.RenderWithoutVars | i18n.js:28 | rendering without variables leaves every value unchanged |
| I18n.EmptyLocaleFallsBack | i18n.js:9-29 | a known locale without its own dictionary translates exactly as `en-US` |
| I18n.ChannelName | i18n.js:31-33 | `t(locale, 'channels.' + key)` without variables: never `null`; the locale's value, else the `en-US` value (missing and `null` both falling through), else the dotted key, each returned unformatted |
| I18n.MissingChannelNameIsKey | i18n.js:27-33 | a channel name missing or `null` in both dictionaries is the dotted key itself |
| I18n.StoredLocale | i18n.js:35-49 | the stored locale when non-empty, else the fallback when non-empty, else `en-US`; never empty |
| I18n.PreferredLocaleAsWritten | i18n.js:51-57 | the locale chain as written is never empty |
| I18n.PreferredLocaleShadows | i18n.js:43-57 | as written, with a user id the answer is the user's stored locale or `en-US` and the guild and Discord locales are never consulted; with only a guild id the Discord locale is never consulted |
| I18n.PreferredLocale | i18n.js:51-57 | the intended locale chain is never empty |
| I18n.PreferredLocaleChain | i18n.js:51-57 | the intended chain takes the first of user, guild and Discord locale that is set, and `en-US` only when none is; it agrees with the code as written whenever the stores the code reads have a locale |
| I18n.UserWithoutLocaleIgnoresGuild | i18n.js:43-57 | a user with no stored locale in a guild that stores `es-ES`: `en-US` as written, `es-ES` as intended |
| Channels.Translations | channels.js:4-11 | at most one name per locale |
| Channels.TranslationsMembers | channels.js:4-11 | a name is among the translations exactly when some locale gives it as a non-empty string |
| Channels.NamesForKey | channels.js:4-11 | the loop gathers the usable translations of `key`, each once, in locale order |
| Channels.NamesStep | channels.js:6-9 | one more locale adds its name when it is usable and new, and nothing otherwise |
| Channels.NamesForKeyAreTranslations | channels.js:4-11 | the gathered names are exactly the usable translations over all known locales, with no repeats |
| Channels.LowerAll | channels.js:14 | every name lower-cased, in order |
| Channels.FindChannel | channels.js:15 | the first channel in cache order that has the kind and a candidate name; `null` exactly when none matches |
| Channels.GetChannelByKey | channels.js:13-16 | the first channel of the requested kind whose name is some locale's name for the key, ignoring case; `null` exactly when no channel of that kind is so named |
| Channels.CandidatesAreNamed | channels.js:14-15 | a lower-cased name is a candidate exactly when it names the key in some locale |
| Channels.CandidateIsNamed | channels.js:14-15 | every candidate names the key in some locale |
| Channels.NamedIsCandidate | channels.js:14-15 | every locale's name for the key is a candidate |
| Channels.EnsureChannelName | channels.js:18-24 | a rename is asked for exactly when the channel exists and its name differs from the name in the guild's locale, and it is to that name |
| Channels.GuildLocale | i18n.js:35-41 | the locale read for a guild is never empty |
| Channels.RenameSettles | channels.js:13-24 | once renamed, a second call asks for nothing, and the new name is found again by `getChannelByKey` |
| Knowledge.When | services/knowledge.js:9 | Discord's `<t:…:f>` time markup |
| Knowledge.Title | services/knowledge.js:11 | the entry's title, or `Untitled` when it has none; never empty |
| Knowledge.Body | services/knowledge.js:10 | the summary when there is one, else a prefix of the content of at most 280 characters |
| Knowledge.Entry | services/knowledge.js:8-12 | a rendered entry is never empty |
| Knowledge.Entries | services/knowledge.js:8-12 | one entry per row, numbered from 1 in the order found |
| Knowledge.Listing | services/knowledge.js:7-12 | a listing is empty exactly when there is nothing to list, and otherwise starts with the first entry |
| Knowledge.EntriesAppend | services/knowledge.js:8-11 | one more row adds its entry, numbered after the others, to the entries |
| Knowledge.ListingAppend | services/knowledge.js:8-12 | listing one more row appends a blank line and that row's entry, numbered after the others |
| Knowledge.FetchContext | services/knowledge.js:3-17 | a missing guild, a missing query or one under 3 characters gives `''`; otherwise `''` exactly when the search throws or finds nothing, and the listing of the rows found otherwise |
| Knowledge.SkippedSearchUnused | services/knowledge.js:4 | a skipped search is never consulted: any two searches give the same empty context |
| Knowledge.AugmentPrompt | services/knowledge.js:19-23 | the prompt comes back unchanged exactly when no knowledge is found; otherwise the preamble and the knowledge come first; the result always ends with the prompt |
| Knowledge.TemplateShape | services/knowledge.js:22 | the knowledge template starts with the preamble and then the listing, ends with the prompt, and differs from the prompt |
| OpenAIService.Recent | features/openaiService.js:8-10 | the last 20 entries, or all of them when there are fewer |
| OpenAIService.PushShiftKeepsRecent | features/openaiService.js:8-18 | a push followed by a shift when over 20 keeps the log equal to the 20 most recent entries ever logged |
| OpenAIService.FullLogDropsOldest | features/openaiService.js:8-10 | a full log loses exactly its oldest entry when one more is logged, so the system prompt is the first to go |
| OpenAIService.InitialKeptWhileShort | features/openaiService.js:5-10 | the system prompt stays first exactly while at most 20 entries have been logged |
| OpenAIService.ChatLog.constructor | features/openaiService.js:5 | the log starts with the system prompt alone |
| OpenAIService.ChatLog.GetOpenAIResponse | features/openaiService.js:7-20 | the user message is logged before the request and the request sees the 20 most recent entries; the reply's content, `null` included, is logged with the system role and returned as it came; a failed request leaves the user message logged; the log never exceeds 20 |
| Bot.Chunks | bot.js:310-328 | a text that fits is one chunk; otherwise every chunk is non-empty and within 1900 characters unless it is a single paragraph; when no paragraph is empty, joining the chunks with blank lines gives the text back, each chunk is a run of consecutive paragraphs, and a run ends only where adding the next paragraph would pass 1900 characters |
| Bot.PackedNewChunk | bot.js:319-321 | starting a new chunk with a paragraph that does not fit keeps the packing greedy and the chunks still join back to the paragraphs so far |
| Bot.PackedExtend | bot.js:322-323 | gluing a paragraph that fits onto the last chunk keeps the packing greedy and the chunks still join back to the paragraphs so far |
| Bot.PackStep | bot.js:318-324 | one pass of the loop, either branch, leaves a non-empty current chunk, and the chunks so far join back to the paragraphs so far and pack them greedily |
| Bot.JoinExtendLast | bot.js:321 | gluing a paragraph onto the last chunk adds a blank line and that paragraph to the joined text |
| Bot.Normalize | bot.js:913-914 | each character lower-cased, and the listed punctuation and the digits replaced by a space; the length is unchanged |
| Bot.Words | bot.js:915 | the words are non-empty and hold no white space |
| Bot.WordsFrom | bot.js:915 | the same for the words left when one word is still open |
| Bot.CountedWords | bot.js:912-917 | a word is counted exactly when it is a word of the normalised message, has at least 3 characters and is not a stop word |
| Bot.Tally | bot.js:911-919 | the keys of the counts are the distinct words in order of first appearance, and every key has a count |
| Bot.TallyKeys | bot.js:916 | a word has a count exactly when it occurs |
| Bot.TallyCounts | bot.js:916 | every word is counted exactly as often as it occurs |
| Bot.OccurrencesAbsent | bot.js:916 | a word that does not occur has no occurrences |
| Bot.CountStep | bot.js:914-916 | one more word of a message bumps its count when it is counted and changes nothing otherwise |
| Bot.TallyAppend | bot.js:916 | counting one more word is one bump |
| Bot.CountKeywords | bot.js:911-919 | the outer counting loop gives the tally of all counted words, message after message |
| Bot.CountWords | bot.js:912-918 | the inner loop adds the counted words of one message to the tally |
| Bot.Entries | bot.js:920 | `Object.entries(counts)`: the keys in insertion order, each with its count |
| Bot.Ranked | bot.js:920-921 | the entries sorted by descending count: a permutation of the entries, in descending order, stable for equal counts |
| Bot.Topics | bot.js:920-923 | the words of the first five ranked entries, or of all of them when there are fewer |
| Bot.TopicsAreMostFrequent | bot.js:911-923 | the topics are counted words in descending count, and no word left out occurs more often than any topic |
| Bot.RankedTopics | bot.js:920-923 | each topic is a counted word whose ranked entry carries its number of occurrences |
| Bot.LeftOutWord | bot.js:920-923 | a counted word that is not a topic occurs no more often than any topic |
| Bot.HumanList | bot.js:926-931 | nothing, the word, or `a and b` for up to two words |
| Bot.HumanListSerialComma | bot.js:930 | from three words on, the comma-separated join with `and ` before the last word, a serial comma |
| Bot.HumanListOfThree | bot.js:925-930 | three words read `a, b, and c`, not `a, b and c` as the comment above the helper says |
| Bot.ButtonClockIsStored | bot.js:1149 | the buttons schedule with the same time as the slash command: noon when unset or unparseable |
| Bot.ButtonPatch | bot.js:1151-1180 | a patch never writes a column twice |
| Bot.PressStudyButton | bot.js:1141-1189 | no Manage Server means a refusal and no change; the set-time button opens the modal and writes nothing; any other button upserts its patch on the stored row, and nothing when the patch is empty |
| Bot.EnableButtonEffect | bot.js:1153-1157 | enable switches tips on and schedules the next send after now and within a day, changing nothing else |
| Bot.DisableButtonEffect | bot.js:1158-1161 | disable writes `enabled = false` and nothing else, the stored next send included |
| Bot.MoreOftenButtonEffect | bot.js:1162-1167 | more often steps the frequency (7 when unset) towards daily and reschedules after now, within a day, changing nothing else |
| Bot.LessOftenButtonEffect | bot.js:1168-1173 | less often steps the frequency (7 when unset) towards fortnightly and reschedules after now, within a day, changing nothing else |
| Bot.OtherButtonsWriteNothing | bot.js:1152-1181 | the patch is empty exactly for ids other than the four setting buttons |
| Bot.TipChannel | bot.js:436-438 | the target channel when it resolves; otherwise the student-docs channel, then the system channel; none only when both of those are missing |
| Bot.TipContent | bot.js:439-457 | at most 1800 characters and starts with `⏰ Study time! `; anything but the fixed tip needs AI tips on, a key, an entitled guild and a generated tip |
| Bot.Tick | bot.js:428-466 | sends to each due guild that is cached and has a channel, in query order; exactly those rows get `last_sent_at = now` and the next send, and every other row is unchanged; the next send is the corrected `NextAfterSend` (`IntendedNext`, recorded under Findings), not the `plusDays: frequency_days - 1` computation of line 463 as written |
| Bot.TickStep | bot.js:433-464 | one due row: it is still as selected, and serving it extends the deliveries and the served rows by it |
| Bot.NextAfterSend | bot.js:461-463 | for a frequency of at least one day, the next send stored after a tip is more than `frequency_days - 1` and at most `frequency_days` days after now |
| Bot.AsWrittenNext | bot.js:463 | as written, the next send is after now and at most `frequency_days` days later |
| Bot.AfterTick | bot.js:433-464 | a row that was due and delivered gets `last_sent_at = now` and the next send, and no other column changes; any other row is unchanged |
| Bot.ShiftDays | features/studyTips.js:67-83 | moving by whole days keeps the time of day |
| Bot.IntendedNext | bot.js:461-463 | the corrected next send is after `frequency_days - 1` and at most `frequency_days` days after now, at the stored local time |
| Bot.ServedNotDue | bot.js:462-464 | a served row is not due again at the same tick and is rescheduled at its local time |
| Bot.AsWrittenShortensInterval | bot.js:463 | serving a slot on its own local day, the code as written sets the next send `frequency_days - 1` days after that slot, and the corrected computation `frequency_days` days after (both keeping now's milliseconds) |
| Bot.WholeSecondsSameDay | features/studyTips.js:50-63 | reading the local clock to whole seconds keeps the local day, and a whole-second time of day that has passed still reads as passed |
| Bot.WeeklyTipComesAfterSixDays | bot.js:463 | a weekly tip due at 12:00 UTC and sent 30 seconds later is next due six days on as written, seven as intended |
| StudyTips.Digit | features/studyTips.js:44 | the digit character for a number below 10 reads back as that number |
| StudyTips.TwoDigits | features/studyTips.js:44 | two digits that read back as the number |
| StudyTips.ParseClock | features/studyTips.js:44-46 | a parsed time is a valid clock: hour at most 23, minute at most 59 |
| StudyTips.ParseHHMM | features/studyTips.js:43-47 | the same after trimming |
| StudyTips.ParsedClockShape | features/studyTips.js:44 | what parses is `HH:MM`, or `H:MM` for an hour below 10 |
| StudyTips.ParseClockAccepts | features/studyTips.js:43-47 | every valid time written `HH:MM` parses back to itself |
| StudyTips.ParseClockAcceptsShortHour | features/studyTips.js:44 | an hour below 10 may be written with one digit |
| StudyTips.ParseClockRejects | features/studyTips.js:44-45 | `24:00`, `12:60`, `7:5` and `007:00` are refused |
| StudyTips.IndexOf | features/studyTips.js:116 | the index of a frequency on the ladder, `-1` exactly when it is not on it |
| StudyTips.NextFrequency | features/studyTips.js:114-118 | one step towards daily on the ladder; daily and unknown values are kept |
| StudyTips.PrevFrequency | features/studyTips.js:119-123 | one step towards every 14 days; 14 and unknown values are kept |
| StudyTips.FrequencyStepsInverse | features/studyTips.js:114-123 | the two steps undo each other wherever a step was taken |
| StudyTips.NextUTC | features/studyTips.js:67-82 | for a valid clock, strictly after `from` and at most `plusDays + 1` days later, at that local time of day plus the milliseconds of `from`, which the whole-second offset of `tzOffsetMinutes` carries over |
| StudyTips.TimeOfDayOf | features/studyTips.js:72 | whole days plus a time of day leave that time of day |
| StudyTips.NextUTCPassed | features/studyTips.js:74-78 | when the moved time has already passed by the local clock read to whole seconds, the result is one day later |
| StudyTips.NextUTCIsNext | features/studyTips.js:67-82 | with no extra days the result is the very next instant at that local time of day (with `from`'s milliseconds): no instant in between has it |
| StudyTips.SameTimeOfDay | features/studyTips.js:76-77 | two instants with the same time of day are whole days apart |
| StudyTips.ColumnsFollowTags | features/studyTips.js:84-86 | two assignments name the same column exactly when they are of the same kind |
| StudyTips.UpsertStatement | features/studyTips.js:84-103 | an empty patch inserts a default row and does nothing on conflict; otherwise each key becomes a column bound to `$2, $3, …` in order and set to the same placeholder on conflict; the guild id is always `$1` |
| StudyTips.ApplyOne | features/studyTips.js:96-101 | a one-key patch sets that column |
| StudyTips.ApplyTwo | features/studyTips.js:96-101 | a two-key patch sets both columns |
| StudyTips.ApplyThree | features/studyTips.js:96-101 | a three-key patch sets all three columns |
| StudyTips.ApplyEnableAndNext | features/studyTips.js:240 | enabling with a next send writes those two columns and no other |
| StudyTips.ApplyFrequencyAndNext | features/studyTips.js:274 | a frequency with a next send writes those two columns and no other |
| StudyTips.Every | features/studyTips.js:338 | `day` exactly for 1, `N days` otherwise |
| StudyTips.NextText | features/studyTips.js:333 | `TBA` exactly when no next send is stored |
| StudyTips.PanelText | features/studyTips.js:329-340 | the panel opens with its title and the status, and ends with the time zone, `UTC` when none is stored |
| StudyTips.StatusText | features/studyTips.js:249-255 | the reply opens with the status and ends with the next send, `TBA` when none is stored |
| StudyTips.NextAtIsNext | features/studyTips.js:67-82 | the next send for a clock lies after now, within a day, at that local time (plus now's milliseconds) |
| StudyTips.StoredClockValid | features/studyTips.js:238 | the stored time is always a valid clock, noon when it does not parse |
| StudyTips.EnableStep | features/studyTips.js:237-242 | the patch never writes a column twice |
| StudyTips.SetTimeStep | features/studyTips.js:258-266 | the patch never writes a column twice |
| StudyTips.SetFrequencyStep | features/studyTips.js:267-276 | the patch never writes a column twice |
| StudyTips.SetAiStep | features/studyTips.js:282-293 | the patch never writes a column twice |
| StudyTips.Decide | features/studyTips.js:236-311 | every subcommand's patch has distinct columns |
| StudyTips.EnableEffect | features/studyTips.js:237-242 | `enable` switches tips on and schedules the next send after now, within a day, at the stored local time, changing nothing else |
| StudyTips.SingleColumnEffects | features/studyTips.js:243-310 | `disable`, `set_target` and `open_panel` each write exactly their one column |
| StudyTips.StatusEffect | features/studyTips.js:247-257 | `status` writes nothing and reports the row as read |
| StudyTips.SetTimeEffect | features/studyTips.js:258-266 | `set_time` writes exactly when the time parses, and then stores the time and the chosen zone and schedules the next send after now, within a day, at that time in that zone; otherwise it refuses |
| StudyTips.SetFrequencyEffect | features/studyTips.js:267-276 | `set_frequency` writes exactly when the days are on the ladder, storing them and rescheduling at the stored time; otherwise it refuses |
| StudyTips.AiNeedsPremium | features/studyTips.js:282-293 | AI tips are switched on only for an entitled guild, and switching off always succeeds |
| StudyTips.Table.constructor | features/studyTips.js:25-41 | the table starts empty |
| StudyTips.Table.Upsert | features/studyTips.js:84-103 | issues the statement above; the guild's row, or a fresh default row, gets every key of the patch, and no other row changes |
| StudyTips.Table.Read | features/studyTips.js:105-112 | the guild's row, the defaults being inserted first when it has none |
| StudyTips.Table.Execute | features/studyTips.js:227-312 | the reply and the new row are those `Decide` gives on the row read, and no other guild's row changes |
| StudyTips.Table.ReadFor | features/studyTips.js:247-310 | the second read of `status` and `open_panel` changes nothing |
| StudyTips.Table.Write | features/studyTips.js:240-293 | the patch is applied to the row just read; an empty patch writes nothing |
| ClassSummaries.Defined | services/classSummaries.js:17-18 | the payload entries whose value is not `undefined`, never more than the payload has |
| ClassSummaries.DefinedAppend | services/classSummaries.js:17-18 | one more entry adds itself when defined and nothing otherwise |
| ClassSummaries.Clauses | services/classSummaries.js:19-25 | one SET clause per defined entry |
| ClassSummaries.Params | services/classSummaries.js:19-25 | one value per defined entry |
| ClassSummaries.PlaceholdersBind | services/classSummaries.js:16-33 | clause `i` names placeholder `$(i+1)` and value `i` is bound to it; the id's placeholder is the one after them, bound to the last value |
| ClassSummaries.ClausesAppend | services/classSummaries.js:19-26 | an entry appended gets the next placeholder and the next value |
| ClassSummaries.AssemblyStep | services/classSummaries.js:17-27 | one more payload entry adds one clause and one value when defined, nothing when `undefined` |
| ClassSummaries.BuildUpdate | services/classSummaries.js:13-35 | no statement exactly when no entry is defined; otherwise the SET clauses of the defined entries in order, and the session id bound last |
| ClassSummaries.Assemble | services/classSummaries.js:14-27 | the loop leaves the clauses and values of the defined entries and the next placeholder number |
| ClassSummaries.ApplyKeepsIdentity | services/classSummaries.js:30-35 | an UPDATE never changes a row's id, guild, channel or start time |
| ClassSummaries.ClosePayload | services/classSummaries.js:40-45 | four entries: summary, transcript, meta only when given, end time |
| ClassSummaries.CloseResult | services/classSummaries.js:39-46 | closing always writes something; it sets summary, transcript and end time, replaces meta only when one is given, and keeps every other column |
| ClassSummaries.ApplyCons | services/classSummaries.js:32 | SET clauses apply left to right |
| ClassSummaries.ApplyOne | services/classSummaries.js:32 | a single clause is that one assignment |
| ClassSummaries.ClosePlaceholders | services/classSummaries.js:39-46 | closing builds three SET clauses, or four with a meta |
| ClassSummaries.DefinedOfFour | services/classSummaries.js:17-18 | the defined entries of a four-entry payload, the third only when present |
| ClassSummaries.AfterJoin | services/classSummaries.js:48-55 | the row exists afterwards with a join time no later than the new one or the old one, its leave time kept; no other row changes |
| ClassSummaries.JoinOrderIrrelevant | services/classSummaries.js:52-53 | two joins give the same row in either order |
| ClassSummaries.JoinIdempotent | services/classSummaries.js:52-53 | repeating a join changes nothing |
| ClassSummaries.AfterLeave | services/classSummaries.js:57-63 | an existing row gets the leave time; a missing row is not created; no other row changes |
| ClassSummaries.RejoinKeepsLeftAt | services/classSummaries.js:48-63 | joining again after leaving does not clear the leave time |
| ClassSummaries.AfterDeliver | services/classSummaries.js:95-102 | the delivery row holds the new time and deliverer, an empty deliverer as null; no other row changes |
| ClassSummaries.DeliverTwice | services/classSummaries.js:99-100 | a repeated delivery adds no row, and the later one wins |
| ClassSummaries.FindSnippet | services/classSummaries.js:115 | finds the snippet with a given `(source, source_id)`, or reports that none has it |
| ClassSummaries.AfterStoreSnippet | services/classSummaries.js:111-120 | the upsert adds one row for a new key and none for a known one |
| ClassSummaries.StoreSnippetResult | services/classSummaries.js:111-120 | keys stay unique; exactly one snippet holds the session's key, with the new title, summary and content; on a conflict its id, guild and creation time are kept; other snippets do not change |
| ClassSummaries.FindUnique | services/classSummaries.js:115 | with unique keys, a snippet's own key finds that snippet |
| ClassSummaries.StoreSnippetIdempotent | services/classSummaries.js:111-120 | storing the same snippet twice gives the same table as storing it once |
| ClassSummaries.ListSessions | services/classSummaries.js:65-74 | at most `limit` sessions, all of this guild, in non-increasing start time, none listed more often than the guild has it; as many as the guild has past `offset`, up to `limit` |
| ClassSummaries.ListSessionsPages | services/classSummaries.js:65-74 | the page of `a` sessions from `offset` followed by the page of `b` from `offset + a` is the page of `a + b` from `offset` |
| ClassSummaries.GuildSessions | services/classSummaries.js:69 | exactly the sessions of the guild |
| ClassSummaries.ListSessionsNewest | services/classSummaries.js:65-74 | from offset 0 the page holds the guild's newest sessions: one left out started no later than every one listed |
| ClassSummaries.ListSessionsComplete | services/classSummaries.js:65-74 | from offset 0, with room for all of them, every session of the guild is listed |
| ClassSummaries.ListSessionsHead | services/classSummaries.js:65-74 | the first page is empty only for a guild with no session, and starts with the guild's newest |
| ClassSummaries.LatestForChannel | services/classSummaries.js:83-93 | a session exactly when the guild and channel have one; it is theirs and none of theirs started later |
| ClassSummaries.MatchingSnippets | services/classSummaries.js:126-127 | exactly the guild's snippets that the text search matches |
| ClassSummaries.SearchKnowledge | services/classSummaries.js:122-132 | snippets of this guild matching the query, newest first, none returned more often than it is stored; as many as match, up to `limit`; a matching snippet left out was created no later than every one returned |
| Sorting.WindowsAdjacent | services/classSummaries.js:70-72 | two adjacent `LIMIT`/`OFFSET` windows make up the window spanning both |
| Sorting.LeadingWindowLeast | services/classSummaries.js:128-129 | the first `limit` rows of a sorted result hold its least keys: a row left out has a key no smaller than any row kept |
| ClassSummaries.Store.GetSession | services/classSummaries.js:76-81 | a row exactly for an existing id, and the row has that id |
| ClassSummaries.Store.CreateSession | services/classSummaries.js:4-11 | appends a row with the next id, an empty topic as null, nothing ended yet; the other tables do not change |
| ClassSummaries.Store.UpdateSession | services/classSummaries.js:13-37 | no defined entry or an unknown id gives null and no change; otherwise exactly that row gets the SET clauses, and is returned |
| ClassSummaries.Store.CloseSession | services/classSummaries.js:39-46 | an existing session gets its summary, transcript, end time and, when given, its meta, and is returned; an unknown id gives null |
| ClassSummaries.Store.RecordParticipantJoin | services/classSummaries.js:48-55 | participants become `AfterJoin` of the old table; nothing else changes |
| ClassSummaries.Store.RecordParticipantLeave | services/classSummaries.js:57-63 | participants become `AfterLeave` of the old table; nothing else changes |
| ClassSummaries.Store.RecordDelivery | services/classSummaries.js:95-102 | deliveries become `AfterDeliver` of the old table; nothing else changes |
| ClassSummaries.Store.DeliveredTo | services/classSummaries.js:104-109 | exactly the users with a delivery row for the session |
| ClassSummaries.Store.StoreKnowledgeSnippet | services/classSummaries.js:111-120 | snippets become `AfterStoreSnippet` of the old table, and the id sequence advances by one even on a conflict |
| Strings.OrElse | features/classSession.js:51 | `s \|\| fallback`, as used for optional columns and for `searchText \|\| basePrompt` in `augmentPrompt`: the text when it is non-empty, the fallback otherwise |
| ClassSession.SelectOptions | features/classSession.js:21-28 | one option for each of the first 25 members, in order, labelled with the display name or else the username, pre-selected exactly when the id is in `preselect` |
| ClassSession.ChooseSession | features/classSession.js:32-43 | a non-zero `session_id` picks that session, or none when it does not exist; otherwise the newest session of this channel, or failing that the guild's newest, and none only when the guild has no session |
| ClassSession.Preview | features/classSession.js:51 | the summary; else the first 300 characters of the transcript and an ellipsis; else empty |
| ClassSession.MenuContent | features/classSession.js:83 | starts with `Summary ready to send for **` and the topic, else `Session #<id>`, and ends with the preview |
| ClassSession.DmContent | features/classSession.js:202 | starts with the bold topic, else `Class Summary`, and ends with the summary, else the transcript, else the no-content notice |
| ClassSession.Candidates | features/classSession.js:54-55 | exactly the non-bot members holding the student role, compared in lower case |
| ClassSession.Ids | features/classSession.js:60-61 | the members' ids, in order |
| ClassSession.PrepareBroadcast | features/classSession.js:44-83 | errors for no session, for a session with neither summary nor transcript, and for no candidate; otherwise a menu of at most 25 options, all pre-selected, with at least 1 and at most 25 choices allowed |
| ClassSession.MenuPreselectsAll | features/classSession.js:61-67 | every option of a fresh menu starts out selected |
| ClassSession.Recipients | features/classSession.js:194 | the selection, or every candidate when nothing is selected |
| ClassSession.Failures | features/classSession.js:196-209 | exactly the recipients whose DM failed, never more than the recipients |
| ClassSession.DeliveredRows | features/classSession.js:197-209 | a delivery row is added for exactly the recipients reached, stamped with the sender and the time; other rows do not change |
| ClassSession.SendSummaries | features/classSession.js:196-209 | the loop's failures and delivery table are those above; sessions, participants and snippets do not change |
| ClassSession.SendStep | features/classSession.js:196-209 | one more recipient: a failed DM is added to the failures, a reached recipient gets its delivery row, and nothing else changes |
| ClassSession.Parts | features/classSession.js:162 | `split(':')` always gives at least one part |
| ClassSession.CustomIdRoundTrip | features/classSession.js:162 | the ids the menu is built with read back as their prefix, owner and session |
| ClassSession.SplitNoSeparator | features/classSession.js:162 | a text without `:` splits into itself |
| ClassSession.SplitThrough | features/classSession.js:162 | splitting on `:` peels off the part before the first `:` |
| ClassSession.Broadcasts.constructor | features/classSession.js:13 | no menu is open at first |
| ClassSession.Broadcasts.Broadcast | features/classSession.js:30-96 | the reply is `PrepareBroadcast` of the chosen session; on success the menu is recorded under the reply's id, owned by the caller, with the full pre-selection |
| ClassSession.Broadcasts.Expire | features/classSession.js:97-102 | after ten minutes the menu is dropped only if it still has the same session and owner |
| ClassSession.Broadcasts.HandleComponent | features/classSession.js:161-220 | anyone but the owner named in the id, or an expired menu, changes nothing; select replaces the recipients; cancel closes the menu; send to a missing session changes nothing, otherwise it DMs the recipients, records the deliveries, stamps `last_broadcast` and closes the menu, leaving participants, snippets and the snippet id sequence unchanged |
| ClassSession.StampBroadcast | features/classSession.js:211 | only that session changes, and only its `last_broadcast` |
| ClassSession.ListSummary | features/classSession.js:114 | the summary shown is a single line |
| ClassSession.JoinAvoids | features/classSession.js:114 | joining parts without a character, by a separator without it, gives a text without it |
| ClassSession.Clip | features/classSession.js:115 | at most 140 characters, with an ellipsis exactly when something was cut |
| ClassSession.Listed | features/classSession.js:107 | at most five sessions of this guild, newest first, and no session of the guild left out started later than one listed |
| ClassSession.ListReply | features/classSession.js:108-120 | the notice if and only if the guild has no session; otherwise the listed sessions' entries, one per session in listing order, joined by line breaks |
| ClassSession.ListLine | features/classSession.js:115 | an entry starts with the bold session id and the topic (`Untitled` without one) and ends with the clipped summary on its own indented line |
| ClassSession.ListLines | features/classSession.js:112-116 | one entry per session, in order |
| VoiceSessions.OnSpeaking | services/voiceSessions.js:67-96 | the bot's own voice changes nothing; otherwise the user gets a recording on first use and the decoded audio is appended to their file |
| VoiceSessions.OnSpeakingKeepsDistinct | services/voiceSessions.js:67-76 | one recording per user, and never one for the bot |
| VoiceSessions.OnSpeakingAppends | services/voiceSessions.js:88-90 | the file grows by exactly the new audio; the user list grows only for a new user |
| VoiceSessions.Username | services/voiceSessions.js:130 | the member's display name, or `User <id>` when it is unknown or empty; never empty |
| VoiceSessions.FragmentOf | services/voiceSessions.js:124-142 | at most one fragment; one exactly when the file exists and is not empty and transcription gives a text; it holds the user's name and the trimmed text |
| VoiceSessions.Fragments | services/voiceSessions.js:119-144 | no more fragments than recordings |
| VoiceSessions.Ids | services/voiceSessions.js:139 | one id per fragment |
| VoiceSessions.FragmentsAreKeptRecordings | services/voiceSessions.js:117-145 | the fragments are exactly the kept recordings, in recording order, each with its user's name and trimmed transcription |
| VoiceSessions.LastFragment | services/voiceSessions.js:124-142 | one recording's fragment is well formed and belongs to a kept recording |
| VoiceSessions.IdsAppend | services/voiceSessions.js:139 | the ids of two runs of fragments are the ids of each |
| VoiceSessions.AllWellFormedAppend | services/voiceSessions.js:139 | well-formed fragments stay well formed when appended |
| VoiceSessions.FragmentsSnoc | services/voiceSessions.js:119 | one more recording adds its own fragment after the others |
| VoiceSessions.KeptIdsDistinct | services/voiceSessions.js:119-143 | distinct recordings give distinct fragments, each from a kept recording |
| VoiceSessions.TranscribeOne | services/voiceSessions.js:120-142 | one pass of the loop gives that recording's fragment |
| VoiceSessions.TranscribeRecordings | services/voiceSessions.js:117-145 | the loop gives the fragments of every recording, in recording order |
| VoiceSessions.Lines | services/voiceSessions.js:149-151 | one line per fragment |
| VoiceSessions.GenerateSummary | services/voiceSessions.js:147-171 | no fragments give no summary and an empty transcript; otherwise the transcript is the fragments' lines, a failed request is an error, and an empty reply counts as no summary |
| VoiceSessions.NoFragmentsNoEngine | services/voiceSessions.js:148 | with no fragments the model is never asked |
| VoiceSessions.StopSummary | services/voiceSessions.js:216-222 | the transcript survives a failed summary |
| VoiceSessions.CombinedNonEmpty | services/voiceSessions.js:149-151 | fragments always give a non-empty transcript |
| VoiceSessions.StopSummaryTranscript | services/voiceSessions.js:216-222 | the transcript is kept whatever the model does, and a failed request gives no summary |
| VoiceSessions.ClosingMeta | services/voiceSessions.js:227-231 | the session's meta plus `reason` and `ended_by`, null when absent, and nothing else changed |
| VoiceSessions.SnippetTitle | services/voiceSessions.js:238 | the topic, else `Session <id>`; never empty |
| VoiceSessions.SnippetContent | services/voiceSessions.js:240 | the transcript when there is one; never empty when a snippet is stored |
| VoiceSessions.Movement | services/voiceSessions.js:264-265 | a join exactly when the member enters the tracked channel, a leave exactly when they move out of it; never both |
| VoiceSessions.Archive | services/voiceSessions.js:224-242 | the session row is closed with the summary, transcript, end time and closing meta; a snippet is stored only when there is a summary or a transcript, and the snippet id sequence advances exactly then; participants and deliveries do not change |
| VoiceSessions.Registry.constructor | services/voiceSessions.js:20 | no guild is recording at first |
| VoiceSessions.Registry.GetActiveSession | services/voiceSessions.js:249-251 | the guild's entry exactly when it has one |
| VoiceSessions.Registry.OnSpeakingStart | services/voiceSessions.js:78-97 | only the guild's recorder changes, by the speaking event above; the bot's voice and a guild not recording change nothing |
| VoiceSessions.Registry.StartSession | services/voiceSessions.js:173-202 | a non-voice channel or a guild already recording is refused with no change; otherwise a new session row is created with the next id, the guild is registered, and every non-bot member is a participant and recorded as joined; deliveries, snippets and the snippet id sequence do not change |
| VoiceSessions.Registry.AddHumans | services/voiceSessions.js:196-200 | the loop adds exactly the non-bot members and records each join |
| VoiceSessions.Registry.StopSession | services/voiceSessions.js:204-247 | a guild not recording gives null and no change; otherwise the guild is unregistered first, the recordings are transcribed and summarised, and the session is archived as above |
| VoiceSessions.Registry.TrackMove | services/voiceSessions.js:262-275 | a member entering the tracked channel joins the session's participants and gets a join row; one moving out of it is removed and gets `left_at`; sessions, deliveries and snippets do not change |
| VoiceSessions.Registry.AutoStart | services/voiceSessions.js:286-295 | starting in a non-voice channel changes nothing; otherwise the new session row is added, the guild records the channel's humans plus the member who entered, and the join rows of all of them are written, the entering member's last; deliveries, snippets and the snippet id sequence do not change |
| VoiceSessions.Registry.HandleVoiceUpdate | services/voiceSessions.js:253-300 | no guild changes nothing; with an active session, the participant rows get the join or leave of the moving member; when no human is left the guild is unregistered and the session archived with reason `channel-empty`, otherwise the session is kept with the updated participants and the other tables and the snippet id sequence do not change; without one, a non-bot member entering the auto-record channel starts a session with the row, participants and join rows above, and anything else changes nothing |
| VoiceAssistant.PcmToWav | services/voiceAssistant.js:38-62 | the 44-byte header, then the audio unchanged; the header reads back as 48000 Hz, 2 channels, 16 bits, 192000 bytes per second, 4 bytes per frame, and the two size fields |
| VoiceAssistant.Messages | services/voiceAssistant.js:81-85 | the persona first and the question last; the snippet message exactly when there is a context |
| VoiceAssistant.Answer | services/voiceAssistant.js:74-96 | never empty and at most 900 characters; the apology when the request throws; the fallback sentence for a missing or empty reply; otherwise the start of the reply, cut to 900 characters |
| VoiceAssistant.SnippetsOfferedIffFound | services/voiceAssistant.js:75-85 | the snippets are offered exactly when the search found some; a search that throws offers none |
| VoiceAssistant.FirstSpoken | services/voiceAssistant.js:123-150 | the first queued text that can be spoken, every text before it having failed; none when there is no player or nothing can be spoken |
| VoiceAssistant.PlayNextShrinks | services/voiceAssistant.js:128 | `playNext` shortens a non-empty queue and keeps a tail of it |
| VoiceAssistant.PlayNextPlaysOne | services/voiceAssistant.js:141-147 | afterwards it plays exactly when one more text went to the player, and that text came from the queue and could be spoken |
| VoiceAssistant.EnqueueWhilePlaying | services/voiceAssistant.js:152-159 | while something plays, a new text waits at the end of the queue and nothing else changes |
| VoiceAssistant.EnqueueWhenIdle | services/voiceAssistant.js:152-159 | an idle guild with an empty queue speaks a new text at once |
| VoiceAssistant.GuildState.constructor | services/voiceAssistant.js:98-103 | a new state has no connection, no player, no queue, and is not playing |
| VoiceAssistant.GuildState.PlayNext | services/voiceAssistant.js:123-150 | the queue, playing flag and played texts become `AfterPlayNext` of the old ones; the connection fields do not change |
| VoiceAssistant.GuildState.Enqueue | services/voiceAssistant.js:152-159 | the speech state becomes `AfterEnqueue` of the old one |
| VoiceAssistant.GuildState.OnIdle | services/voiceAssistant.js:111-117 | the idle handler does what `playNext` does |
| VoiceAssistant.TargetName | services/voiceAssistant.js:34-36 | the configured name in lower case, or `ask jeffrey` when none is set |
| VoiceAssistant.PipelineOutcome | services/voiceAssistant.js:170-201 | a stream error ends it; a recording under 8000 bytes is too short; a recording that fits the WAV size fields is transcribed, a failed transcription ends it, a trimmed transcript under five characters is too short, and otherwise the answer is `Answer` of the found snippets and the trimmed transcript; an answer is never empty and at most 900 characters |
| VoiceAssistant.Assistant.constructor | services/voiceAssistant.js:29-30 | no guild state and no user being processed |
| VoiceAssistant.Assistant.EnsureState | services/voiceAssistant.js:98-103 | the guild's existing state, or a new empty one registered for it |
| VoiceAssistant.Assistant.EnsureConnection | services/voiceAssistant.js:213-251 | a connection to the same channel is reused with no action; otherwise the old connection is destroyed, the channel joined, and the state records it with a player; no other guild's state changes |
| VoiceAssistant.Assistant.OnSpeakingStart | services/voiceAssistant.js:237-244 | a pipeline starts exactly when the user's key is free and the member is known and not a bot; the key is then taken |
| VoiceAssistant.Assistant.FinishPipeline | services/voiceAssistant.js:170-210 | the user's key is always released; only an answer is queued as speech on the guild's state; no other guild's state changes |
| VoiceAssistant.Assistant.Speak | services/voiceAssistant.js:202-203 | the answer is queued on the guild's state, created when missing; no other guild's state changes |
| VoiceAssistant.Assistant.Process | services/voiceAssistant.js:175-201 | the steps end as `PipelineOutcome` says, so every rule stated there holds of the method's result |
| VoiceAssistant.Assistant.Disconnect | services/voiceAssistant.js:253-261 | the guild's state is dropped after its connection is destroyed and its player stopped; an unknown guild changes nothing |
| VoiceAssistant.Assistant.HandleVoiceUpdate | services/voiceAssistant.js:284-304 | a non-bot member entering the assistant channel connects the bot there, destroying an old connection and joining unless already there; leaving it for another channel with no non-bot member left destroys the connection, stops the player and drops the guild's state; anything else changes nothing; no other guild's state changes |
| VoiceAssistant.Assistant.UpdateGuild | services/voiceAssistant.js:291-303 | once the event is decided: the actions are the connect actions for the joined channel (none if already there) followed by the disconnect actions; a leave drops the guild's state, a join alone leaves it connected to that channel with its player and its speech kept, and with neither nothing changes; no other guild's state changes |
| Wav.U16RoundTrip | services/voiceSessions.js:37 | a 16-bit little-endian write reads back as the value |
| Wav.U32RoundTrip | services/voiceSessions.js:33 | a 32-bit little-endian write reads back as the value |
| Wav.Put | services/voiceSessions.js:32-46 | the bytes land after those already written |
| Wav.WriteRiffDescriptor | services/voiceSessions.js:32-34 | the first 12 bytes are the RIFF descriptor |
| Wav.WriteFmtChunk | services/voiceSessions.js:35-44 | bytes 12 to 35 are the `fmt ` chunk and the first 12 are kept |
| Wav.WriteDataChunkHeader | services/voiceSessions.js:45-46 | the last 8 bytes are the `data` header and the first 36 are kept |
| Wav.WriteHeader | services/voiceSessions.js:28-46 | a new 44-byte buffer holding the header |
| Wav.PcmToWav | services/voiceSessions.js:28-53 | the header, then the audio |
| Wav.HeaderReadBack | services/voiceSessions.js:31-46 | reading the file back gives every tag and field written: total size + 36, chunk size 16, format 1, channels, rate, byte rate, block align, bit depth, data size, then the audio |
| Wav.ReadRiff | services/voiceSessions.js:32-34 | the descriptor reads back as `RIFF`, the size + 36 and `WAVE` |
| Wav.ReadFmt | services/voiceSessions.js:35-44 | the `fmt ` chunk reads back field by field |
| Wav.ReadData | services/voiceSessions.js:45-46 | the `data` header reads back as its tag and size |
| Wav.CaptureFormatFields | services/voiceSessions.js:16-42 | 48 kHz stereo 16-bit fits the header, with 192000 bytes per second and 4 bytes per frame |
| FeaturePolls.NumberEmoji | features/pollManager.js:14 | a non-empty emoji with no space or line break |
| FeaturePolls.NumberEmojisDistinct | features/pollManager.js:14 | the ten number emojis are pairwise different |
| FeaturePolls.CreatePollButton | features/pollManager.js:20-70 | the modal exactly when the interaction is at most 2.5 seconds old; the retry notice exactly when it is older and not yet answered |
| FeaturePolls.PollLines | features/pollManager.js:93 | one line per option: its number emoji, a space, the option |
| FeaturePolls.Kept | features/pollManager.js:91 | the first ten options, or all of them when there are at most ten |
| FeaturePolls.SubmitPoll | features/pollManager.js:75-94 | a poll is posted only with a non-empty trimmed question and then carries that question and between two and ten options |
| FeaturePolls.SubmitPollRefuses | features/pollManager.js:75-88 | refused for an empty trimmed question, and otherwise exactly when fewer than two options remain after splitting at commas, trimming and dropping empty items |
| FeaturePolls.SubmitPollPosts | features/pollManager.js:75-94 | otherwise posted with the trimmed question, the first ten of the options (so 2 to 10 of them), and the content listing them under the question |
| FeaturePolls.PostedOptionsTrimmed | features/pollManager.js:76-80 | every posted option is non-empty with no white space at either end |
| FeaturePolls.ResultLines | features/pollManager.js:178 | one `option: **count**` line per option, in order |
| FeaturePolls.Parsed | features/pollManager.js:175 | each stored choice read as an integer, in order |
| FeaturePolls.ReadBackBound | features/pollManager.js:193 | at most ten lines are read back |
| FeaturePolls.UntrackedAsWritten | features/pollManager.js:191-200 | the untracked branch as written, skipping only the question line, reads back at most ten results |
| FeaturePolls.UntrackedResults | features/pollManager.js:190-200 | the corrected untracked branch, skipping the question and the blank line, reads back at most ten results |
| FeaturePolls.ReactionCounts | features/pollManager.js:197 | each option's count is its reaction count less the bot's own, never below zero |
| FeaturePolls.ContentSplits | features/pollManager.js:94 | the posted content splits into the bold question, a blank line, and the option lines |
| FeaturePolls.ReadBackOfLines | features/pollManager.js:193-200 | reading back the option lines gives each option with its reaction count |
| FeaturePolls.UntrackedReadsOptions | features/pollManager.js:190-201 | skipping the question and the blank line, a poll's own content reads back as its options with their counts |
| FeaturePolls.SubmittedPollReadsBack | features/pollManager.js:190-201 | a posted poll, closed after a restart, reads back as its options and their counts |
| FeaturePolls.SampleLines | features/pollManager.js:191 | `slice(1)` of the sample poll starts with the blank line |
| FeaturePolls.SmallNumbers | features/pollManager.js:199 | the counts of the sample print as `0` and `2` |
| FeaturePolls.SampleCounts | features/pollManager.js:195-197 | the sample's reactions give counts 2 and 0, with no third number reaction |
| FeaturePolls.SampleSecondLine | features/pollManager.js:198 | removing `2️⃣ ` from the line of option 1 leaves it as it was |
| FeaturePolls.ReadBackCons | features/pollManager.js:193-200 | one loop step reads one line and goes on with the next |
| FeaturePolls.SampleLabels | features/pollManager.js:198-199 | the blank line gives an unnamed result, and the line of option 1 keeps its emoji |
| FeaturePolls.SampleAsWritten | features/pollManager.js:190-201 | as written, the sample closes as `: **2**` and `1️⃣ a: **0**` |
| FeaturePolls.SampleCorrected | features/pollManager.js:190-201 | corrected, the sample closes as `a: **2**` and `b: **0**` |
| FeaturePolls.AsWrittenShiftsOptions | features/pollManager.js:191 | the as-written results of the sample differ from the options and their counts |
| FeaturePolls.IdAfterColonOfButton | features/pollManager.js:105-165 | the custom id of the close button or the select menu reads back as the poll message's id |
| FeaturePolls.PollStore.constructor | features/pollManager.js:12 | no poll is tracked at first |
| FeaturePolls.PollStore.CreatePollSubmit | features/pollManager.js:73-150 | the outcome is `SubmitPoll` of the two fields; only a posted poll is tracked, with its options, no votes, and the general channel and message ids |
| FeaturePolls.PollStore.VoteSelectMenu | features/pollManager.js:152-162 | recorded exactly when the poll is tracked, the choice then replacing the voter's earlier one; otherwise nothing changes |
| FeaturePolls.PollStore.ClosePollButton | features/pollManager.js:164-217 | a failed fetch changes nothing; a tracked poll is tallied from its votes and forgotten, and its results also go to the general channel when a non-empty general channel id is stored and it is another channel; an untracked poll is read back from the message with the corrected `slice(2)` (`UntrackedResults`, recorded under Findings), not the `slice(1)` of line 191; the announcement lists the results |
| FeaturePolls.ReadReactions | features/pollManager.js:192-200 | the loop gives the read-back of the lines |
| FeaturePolls.TrackedCountsBounded | features/pollManager.js:173-177 | each voter counts once at most: the counts add up to no more than the voters |
| Polls.CountOf | pollManager.js:7-9 | never more than the votes |
| Polls.Counted | pollManager.js:7-9 | never more than the votes |
| Polls.CountsOf | pollManager.js:6-9 | one counter per option, each the number of votes for it |
| Polls.SumIncrement | pollManager.js:9 | one more vote adds one to the total |
| Polls.SumZeros | pollManager.js:6 | fresh counters add up to zero |
| Polls.CountsAddUp | pollManager.js:5-12 | the counters add up to the votes that name an option, so never more than the votes |
| Polls.Tally | pollManager.js:6-9 | the loop gives one counter per option with the number of votes for it |
| Polls.ResultLine | pollManager.js:10 | the line ends in ` 1 vote` for one vote and in ` votes` otherwise |
| Polls.ResultLines | pollManager.js:10 | one line per option, in order, with that option's count |
| Polls.BuildResults | pollManager.js:5-12 | the question as the title and one line per option with its current votes |
| Polls.GatherOptions | pollManager.js:63-66 | the non-empty option fields, in order |
| Polls.VoteIndexOfButton | pollManager.js:73-82 | the id of button `k` reads back as `k` |
| Polls.VoteIndex | pollManager.js:82 | an id without a dash has no second part and reads as `NaN` |
| Polls.PollBoard.constructor | pollManager.js:3 | no poll is open at first |
| Polls.PollBoard.CreatePollModal | pollManager.js:60-79 | created exactly when at least two options are non-empty; the poll is then stored under its message id with no votes, and otherwise nothing changes |
| Polls.PollBoard.VoteButton | pollManager.js:81-91 | recorded exactly when the message holds a poll; the voter's vote becomes the button's index and the embed is rebuilt from the new votes; otherwise nothing changes |
| Polls.OneVotePerUser | pollManager.js:86 | after a vote each user still holds one entry, the voter's is the new index, and the counts add up to at most the number of voters |

## Left out

- Discord, OpenAI, Postgres, the clock and the file system are left out: each call's outcome is a parameter of the member that makes the call.
- Temporary-directory cleanup, waiting on streams, Opus decoding, timers and concurrency between handlers are left out. The model runs each handler as one atomic step.
- JavaScript objects that inherit `Object.prototype` keys (such as a keyword counted under the word `constructor`) and the prototype chain seen by `in` are not modelled. A JSON value is a text, an object or some other value; arrays are not distinguished from the other values.
- Lower-casing is ASCII-only and `trim` uses a fixed set of white-space characters. Lengths and slices count characters, whereas JavaScript counts UTF-16 code units, so the two agree only on the Basic Multilingual Plane.
- In the study-tips tick, a send that throws stops the rest of the tick. The model serves every due row. Also not modelled: the log line the tick writes through `getOpenAIResponse`.
- Channels.NamesForKey and Localization.MakeLoc take the list of locale codes as a parameter. Lemmas state what they give on the source's own list.
- The query string of the entitlements request (`exclude_expired`, `user_id`, `guild_id`) is not modelled; each request's reply is a parameter.
- The comment in `fetchEntitlements` promises a "dev mode" that treats missing credentials as entitled. The code denies instead, and the model follows the code (`Premium.EntitledIffLive`).
- Building buttons, modals, embeds and select menus is not modelled beyond the texts and custom ids the handlers compare. Also not modelled: `setupPollChannel`, the creation of the settings panel channel in `ensureSettingsPanel`, and the table definitions in `ensureTable`.
- For general questions, the private-help thread, the DM fallback and the messages sent after a choice are not modelled; only the choice itself is. `buildThreadContext` takes the fetched messages as a parameter, so its fetch limit of 12 is not modelled.
- The lookup of the general channel and of the poll message is not modelled: their ids are parameters. When a poll closes, its results go to the stored general channel id whenever that is non-empty and differs from the poll channel; whether the channel still resolves is not modelled.
- Editing poll messages and posting reactions are not modelled, including the edit of the general channel's message when a poll closes.
- `tzOffsetMinutes` depends on the platform's time-zone database. It is a parameter giving the offset in minutes.
- StudyTips.NextUTC: takes the zone's true offset to be a whole number of minutes, and treats the floating-point division by 60000 and multiplication back as exact. The whole-second reading of the local clock, and the milliseconds of `from` it carries into the result, are modelled.
- `ensureAssistantChannel` and the staff-queue channels of `bot.js` are not modelled.
- `listSessions` and `searchKnowledge` order by a column in SQL, which leaves ties unordered. The model breaks ties by a fixed stable sort.
- The permission checks `ensureStaff` (class sessions) and `ensureMemberCanManage` (voice sessions) are not modelled.
- The `start` and `stop` subcommands of `/class_session` only hand over to `startSession` and `stopSession`, which are modelled in `VoiceSessions`. The dispatch, and the catch that turns an error into a reply, are not modelled.
- VoiceSessions.Registry.OnSpeakingStart: audio that would make a recording too large for the 32-bit WAV size fields is not appended. The source appends it and later throws in `pcmToWav`.
- Wav.PcmToWav: requires sizes that fit the 16-bit and 32-bit header fields. The source throws a `RangeError` for larger values.

## Findings

| source | as written | input that shows it | evidently intended | confidence | as-written member | corrected member |
|---|---|---|---|---|---|---|
| bot.js:463 | after sending a tip, the tick calls `computeNextUTC` with `plusDays: frequency_days - 1`. That function adds `plusDays` to today's slot before it checks whether the slot has passed (features/studyTips.js:74-78). With `plusDays` at least 1 the moved slot is always in the future, so the one-day advance for a slot that has passed never happens, and the next send is only `frequency_days - 1` days after the slot just served | a weekly tip (`frequency_days` 7) due at 12:00 UTC and served at 43230000 ms (12:00:30 UTC on day 0) is scheduled for day 6 at 12:00 instead of day 7 | consecutive sends are `frequency_days` days apart | not executed | Bot.AsWrittenNext, with Bot.AsWrittenShortensInterval and Bot.WeeklyTipComesAfterSixDays | Bot.IntendedNext / Bot.NextAfterSend, with Bot.ServedNotDue |
| i18n.js:18 | `get` tests `k in o` for any truthy `o`, which throws a `TypeError` when `o` is a string | dictionary `{channels: {general: "general"}}` and key `channels.general.name` | a key that goes past a text value is missing, so `t` falls back to `en-US` or to the key | not executed | I18n.GetAsWritten, with I18n.KeyPastTextThrows | I18n.Get, with I18n.WalksAgreeOrThrow |
| features/pollManager.js:191 | when a poll is closed without a record, the results are read from the message lines after `slice(1)`. That keeps the blank line after the question, so every count is paired with the previous option's label and the last option is dropped | poll `Q` with options `a`, `b` and reactions 1️⃣ ×3, 2️⃣ ×1 gives `": **2**"` and `"1️⃣ a: **0**"` | `slice(2)`, which gives `"a: **2**"` and `"b: **0**"` | not executed | FeaturePolls.UntrackedAsWritten, with FeaturePolls.AsWrittenShiftsOptions | FeaturePolls.UntrackedResults, with FeaturePolls.UntrackedReadsOptions and FeaturePolls.SubmittedPollReadsBack |
| i18n.js:43-57 | `preferredLocale` with a user id returns that user's stored locale, or else `en-US`. The guild's stored locale and Discord's locale are never consulted | user `u` without a stored locale, in guild `g` that stores `es-ES`: the answer is `en-US` | the chain user, then guild, then Discord locale, then `en-US`, which gives `es-ES` | not executed | I18n.PreferredLocaleAsWritten, with I18n.PreferredLocaleShadows and I18n.UserWithoutLocaleIgnoresGuild | I18n.PreferredLocale, with I18n.PreferredLocaleChain |
