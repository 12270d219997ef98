# A verified model of the chat-bot and HTTP glue around an agent SDK

The repository wraps a third-party coding-assistant SDK in three front ends:
a REST API, a Slack bot and a Telegram bot. This project models in Dafny the
parts of it that hold logic of their own and proves what they promise:

- **The unified executor** (`server/sdk_executor.py`): the `ResponseProcessor`
  folds the SDK's message stream into text parts, tool names, thinking
  fragments and the session id, following the thinking mode. Its
  `get_final_response` joins and strips the text and adds the tool-indicator
  line. `ClaudeExecutor.execute` reports every step to the observability hub.
  `_build_options` keeps only truthy settings.
- **Observability** (`server/observability.py` and the hub in
  `server/sdk_executor.py`): the hub keeps only enabled backends and calls
  each of them for every event, in order, catching whatever one raises. The
  JSONL file backend appends one record per content block, cutting content to
  1000 characters, and one record per system or result message.
- **Shared bot code** (`bot/bot_common.py`): the per-user session files
  (save, load, cwd, thinking preference, clear) and the preparation of the SDK
  call for a chat message. Also `split_long_message`, which splits on lines
  under a budget, and `format_tool_indicators`.
- **The older shared bot code** (`server/bot_common.py`): its
  `clear_user_session`, its `process_claude_message`, which runs its own SDK
  loop, and its `split_long_message`, which drops lines (see Findings).
- **The HTTP API** (`server/api.py`): the `active_sessions` registry across
  start, query, interrupt, info, list, close and shutdown, plus
  `build_options`, the health check and the one-off query.
- **The Slack and Telegram bots**: the event filter and reply thread, mention
  stripping, the `\/` escape, the `/setcwd` and `/showthinking` argument
  rules, tool indicators and the numbered continuation messages.

State that the source changes in place is modelled as classes:
`ResponseProcessor`, `Hub`, `Backend`, `FileLog`, `SessionStore` (the session
directories, a map from platform and user to the parsed file) and `Registry`
(the `active_sessions` dictionary with its key order). Every method is proved
against a specification function of its inputs or old state. The SDK, the
clock, the environment and the file system are parameters. Each message
stream is a finite sequence of messages. Each SDK call's failure is an
optional exception.

## Model

| member | source | states |
|---|---|---|
| Observability.KeepEnabled | server/sdk_executor.py:355 | the hub's filter keeps exactly the enabled backends (a backend without an `enabled` attribute counts as enabled), never more than given |
| Observability.KeepEnabledAppend | server/sdk_executor.py:355 | filtering a concatenation filters each part: the order of backends is kept |
| Observability.KeepEnabledAll | server/sdk_executor.py:355 | when every backend is enabled the list is kept as given |
| Observability.KeepEnabledIdempotent | server/observability.py:257 | filtering an already filtered list changes nothing |
| Observability.Hub.constructor | server/sdk_executor.py:343-355 | the hub holds the enabled candidates in order and has broadcast nothing |
| Observability.Hub.Broadcast | server/sdk_executor.py:357-383 | the event is logged once; each backend is called once per position it holds, in list order, whether or not an earlier one raised |
| Observability.Hub.LogRequestStart | server/sdk_executor.py:357-362 | broadcasts the request start to every enabled backend |
| Observability.Hub.LogMessageReceived | server/sdk_executor.py:364-369 | broadcasts each received message to every enabled backend |
| Observability.Hub.LogMessageReceivedCounted | server/observability.py:266-276 | the message count is accepted and not passed on; the broadcast is the same as without it |
| Observability.Hub.LogCompletion | server/sdk_executor.py:371-376 | broadcasts the final response to every enabled backend |
| Observability.Hub.LogError | server/sdk_executor.py:378-383 | broadcasts the exception to every enabled backend |
| Observability.Backend.Handle | server/sdk_executor.py:108-125 | a backend sees each event handed to it, appended to what it saw before |
| Observability.LogFileName | server/observability.py:79 | the log file is `<platform>_requests.jsonl`, or `sdk_requests.jsonl` for a falsy platform |
| Observability.LogFileNameInjective | server/observability.py:79 | different truthy platforms never share a log file |
| Observability.FalsyPlatformSharesSdkFile | server/observability.py:79 | a falsy platform (missing or empty) logs to the same file as the platform `"sdk"` |
| Observability.BlockRecords | server/observability.py:97-141 | a block list yields at most one record per block |
| Observability.BlockRecordsAppend | server/observability.py:98 | the records of consecutive blocks concatenate, in block order |
| Observability.BlockRecordsOfOne | server/observability.py:99-141 | text, thinking and tool-result blocks yield their own record with content cut to 1000 characters, a tool-use block its name, id and input, other blocks none |
| Observability.BlockRecordsBounded | server/observability.py:105-139 | every logged content is within 1000 characters, and each text record is a prefix of some text block's text |
| Observability.MessageRecordsCount | server/observability.py:97-180 | a system or result message yields exactly one record, another non-content message none, an assistant or user message at most one per block |
| Observability.AppendTo | server/observability.py:81 | appending adds the records at the end of that file only, and creates the file only when something is written |
| Observability.AppendToAppend | server/observability.py:101 | two appends to a file are one append of both |
| Observability.FileLog.constructor | server/observability.py:71-75 | the backend starts enabled, with no files and no start time |
| Observability.FileLog.Append | server/observability.py:81 | the records are appended to the named file; the start time is kept |
| Observability.FileLog.LogRequestStart | server/observability.py:77-91 | records the start time and appends the request-start record with the full prompt length and a 200-character preview |
| Observability.FileLog.LogMessageReceived | server/observability.py:93-180 | appends exactly the records of the message, block by block, to the platform's file |
| Observability.FileLog.LogCompletion | server/observability.py:183-198 | appends the completion record: response length, tool uses, thinking count, session id, metrics |
| Observability.FileLog.LogError | server/observability.py:200-212 | appends the error record with the exception type and message |
| SdkExecutor.LastSessionId | server/sdk_executor.py:423-424 | the session id is `None` exactly when no result message arrived, and otherwise is that of the last result message |
| SdkExecutor.Indicators | server/sdk_executor.py:465 | one item per tool, in order |
| SdkExecutor.ToolIndicatorLineEmpty | server/sdk_executor.py:446-447 | an empty tool list gives the empty string |
| SdkExecutor.ToolIndicatorLineDedup | server/sdk_executor.py:449-454 | the line depends only on the distinct tools in first-occurrence order |
| SdkExecutor.ToolIndicatorLineRepeat | server/sdk_executor.py:451-454 | a tool used again later does not change the line |
| SdkExecutor.ToolIndicatorLineEnds | server/sdk_executor.py:444-466 | for tools whose names end in a visible character the line starts with `T` and ends in a visible character |
| SdkExecutor.IndicatedFinalText | server/sdk_executor.py:427-433 | asked for indicators, the final text of a non-empty list of plain tools is the joined text with leading blanks stripped, two newlines and the indicator line, and is not blank |
| SdkExecutor.IndicatedText | server/sdk_executor.py:427-433 | the same for the response to a message stream: its text ends in the `Tools used:` line of the stream's tools |
| SdkExecutor.ResponseProcessor.constructor | server/sdk_executor.py:393-401 | a new processor has empty accumulators and has seen no message |
| SdkExecutor.ResponseProcessor.ProcessMessage | server/sdk_executor.py:403-424 | the message is recorded and broadcast; afterwards every accumulator equals its specification function of all messages seen |
| SdkExecutor.ResponseProcessor.FoldMessage | server/sdk_executor.py:408-424 | after the accumulator updates for one more message, every accumulator equals its specification function of all messages seen |
| SdkExecutor.ResponseProcessor.ProcessBlocks | server/sdk_executor.py:409-421 | the block loop extends text parts, thinking fragments and tool names by exactly the blocks' contributions, in order |
| SdkExecutor.ResponseProcessor.ProcessBlock | server/sdk_executor.py:410-421 | a text block adds its text, a thinking block its fragment (and its marker in `INCLUDE` mode), a tool-use block its name; nothing else changes |
| SdkExecutor.ResponseProcessor.GetFinalResponse | server/sdk_executor.py:426-442 | the final response equals the specified response of the messages seen: joined and stripped text, indicators when asked for and tools were used, raw messages only under BUFFER_ALL |
| SdkExecutor.BlockStep | server/sdk_executor.py:409-421 | one more block extends each block accumulator by its own contribution |
| SdkExecutor.MessageStep | server/sdk_executor.py:405-424 | one more message extends each accumulator by its own contribution |
| SdkExecutor.FormatToolIndicators | server/sdk_executor.py:444-466 | the `seen`-set loop and the item loop compute exactly the specified indicator line |
| SdkExecutor.IndicatorItems | server/sdk_executor.py:456-465 | one `"{icon} {tool}"` item per tool, in order, with the wrench for unknown tools |
| SdkExecutor.BlocksTextPartsAppend | server/sdk_executor.py:409-418 | the text parts of consecutive block stretches concatenate |
| SdkExecutor.BlocksThinkingAppend | server/sdk_executor.py:413-414 | the thinking fragments of consecutive block stretches concatenate |
| SdkExecutor.BlockInside | server/sdk_executor.py:409-418 | one block inside a stretch contributes its own text parts and fragment between those of the blocks before and after it |
| SdkExecutor.TextPartsAppend | server/sdk_executor.py:403-418 | the text is built in arrival order across messages |
| SdkExecutor.ToolUsesAppend | server/sdk_executor.py:420-421 | tool names accumulate in arrival order, duplicates kept |
| SdkExecutor.ThinkingBlocksAppend | server/sdk_executor.py:413-414 | thinking fragments accumulate in arrival order |
| SdkExecutor.PassiveMessage | server/sdk_executor.py:408-424 | user, system and other messages leave text, tools and thinking unchanged |
| SdkExecutor.PassiveBlock | server/sdk_executor.py:409-421 | a tool-result or other block contributes nothing |
| SdkExecutor.BlocksExcludeIsLogOnly | server/sdk_executor.py:417 | EXCLUDE and LOG_ONLY give the same text parts for any blocks |
| SdkExecutor.ExcludeIsLogOnly | server/sdk_executor.py:417 | EXCLUDE and LOG_ONLY give the same response for any stream |
| SdkExecutor.ExcludeTextParts | server/sdk_executor.py:410-418 | without thinking, the text parts are the texts of the text blocks |
| SdkExecutor.BlocksExcludeText | server/sdk_executor.py:428 | joining the EXCLUDE parts of a block list gives its text-block texts |
| SdkExecutor.ExcludeText | server/sdk_executor.py:428 | joining the EXCLUDE parts of a stream gives the assistant text |
| SdkExecutor.ThinkingBlockEffect | server/sdk_executor.py:413-418 | a thinking block, at any position among a message's blocks, adds its `[Thinking: …]` marker to the text at that position only under INCLUDE, and its fragment at that position in every mode; the blocks around it contribute as they would alone |
| SdkExecutor.NoIndicator | server/sdk_executor.py:431-436 | without indicators or without tools the text is the stripped join of the parts |
| SdkExecutor.ResponseTextStripped | server/sdk_executor.py:436 | the response text has no surrounding whitespace |
| SdkExecutor.BuildOptions | server/sdk_executor.py:545-563 | cwd, resume, system prompt and allowed tools are passed exactly when truthy; setting sources are always project, user, local |
| SdkExecutor.MessageEvents | server/sdk_executor.py:496-497 | one message-received event per message, in order |
| SdkExecutor.ProcessAll | server/sdk_executor.py:491-497 | a fresh processor is fed every received message in order and each is broadcast |
| SdkExecutor.Execute | server/sdk_executor.py:479-510 | on success the result is the processor's response with its duration; on failure the exception propagates; the hub sees the start, each message, then exactly one of completion or error |
| BotCommon.LoadNone | bot/bot_common.py:91-116 | loading gives `None` exactly for a missing file, an unparseable file or a falsy session id |
| BotCommon.SessionStore.constructor | bot/bot_common.py:38-50 | the store starts from the given session directories |
| BotCommon.SessionStore.SaveUserSession | bot/bot_common.py:53-89 | writes the saved record over the user's file, or raises the decode error of a corrupt file and writes nothing |
| BotCommon.SessionStore.SetUserCwd | bot/bot_common.py:119-147 | writes the cwd over the stored record, or raises on a corrupt file and writes nothing |
| BotCommon.SessionStore.SetShowThinking | bot/bot_common.py:209-237 | writes the preference over the stored record, or raises on a corrupt file and writes nothing |
| BotCommon.SessionStore.ClearUserSession | bot/bot_common.py:177-206 | a parsed file keeps only cwd, show_thinking (default false), created_at and last_updated; a missing or corrupt file is left alone |
| BotCommon.SessionStore.ProcessClaudeMessage | bot/bot_common.py:267-343 | builds the specified configuration; a failure propagates with nothing written; a reply with a truthy session id is saved with the resolved cwd, and the reply text is the placeholder when blank |
| BotCommon.SaveThenLoad | bot/bot_common.py:53-116 | after saving a non-empty session id and cwd, loading gives them back |
| BotCommon.SaveKeepsCwd | bot/bot_common.py:71-72 | saving without a cwd keeps the stored one for load and `get_user_cwd` |
| BotCommon.SaveFields | bot/bot_common.py:74-84 | the saved object holds exactly the session id, the cwd, created_at (kept when present) and last_updated |
| BotCommon.SaveResetsShowThinking | bot/bot_common.py:74-84 | saving a session drops a stored thinking preference, so it reads false afterwards |
| BotCommon.SetCwdEffect | bot/bot_common.py:119-174 | after `set_user_cwd`, `get_user_cwd` reads the new cwd, and load and the thinking preference are unchanged |
| BotCommon.SetShowThinkingEffect | bot/bot_common.py:209-264 | after `set_show_thinking`, `get_show_thinking` reads the new value and the other readers are unchanged |
| BotCommon.SettersKeepOtherFields | bot/bot_common.py:133-140 | both setters keep every key except their own and last_updated, and a present created_at |
| BotCommon.ClearEffect | bot/bot_common.py:177-206 | after clearing, load gives `None` while the cwd and the thinking preference read as before |
| BotCommon.WritersAreLocal | bot/bot_common.py:64 | writing one user's file never changes what the readers see for another user |
| BotCommon.ReplyText | bot/bot_common.py:336 | a blank response becomes the placeholder, any other is kept |
| BotCommon.MessageCwd | bot/bot_common.py:299-310 | the cwd the call uses is what `get_user_cwd` reads |
| BotCommon.MessageConfigFacts | bot/bot_common.py:319-329 | the configuration resumes a session exactly when one loads, and then the loaded id; it uses the given tools, or the default tools for a falsy override; the default prompt exactly for a falsy override or the default itself; BUFFER_TEXT, indicators on, INCLUDE exactly when the preference is on, and the cwd `get_user_cwd` reports |
| BotCommon.SafetyBuffer | bot/bot_common.py:368 | the buffer lies in 50..200: it is 50 below a maximum of 500, a tenth of the maximum (truncated) from 500 to 1999, and 200 from 2000 up |
| BotCommon.EffectiveLimitBounds | bot/bot_common.py:368-369 | for a non-negative maximum the budget lies between half of it and all of it, and is the maximum less the buffer from 500 up |
| BotCommon.SplitLongMessage | bot/bot_common.py:348-393 | the line loop computes exactly the specified chunks |
| BotCommon.SplitStepLines | bot/bot_common.py:376-387 | one loop step keeps the sequence of non-empty lines, finished plus open |
| BotCommon.SplitFoldLines | bot/bot_common.py:374-387 | the whole loop keeps the non-empty lines, in order |
| BotCommon.SplitFoldShape | bot/bot_common.py:374-387 | every finished chunk is non-empty, and any chunk holding a line break fits the budget |
| BotCommon.SplitChunks | bot/bot_common.py:361-393 | a text within the maximum is the single chunk; otherwise every chunk is non-empty and a chunk holding a line break fits the budget |
| BotCommon.FinishLines | bot/bot_common.py:390-391 | flushing the open chunk keeps the non-empty lines |
| BotCommon.SplitKeepsLines | bot/bot_common.py:374-391 | the non-empty lines of the chunks, in order, are exactly the non-empty lines of the input |
| BotCommon.SplitNotEmpty | bot/bot_common.py:348-393 | a text with a non-empty line gives at least one chunk |
| BotCommon.SplitWithinMaximum | bot/bot_common.py:361-393 | a chunk holding a line break is within the maximum |
| BotCommon.FormatToolIndicatorsShape | bot/bot_common.py:406-411 | the suffix is empty exactly for no tools, and otherwise starts with a blank line |
| BotCommon.FormatToolIndicatorsDedup | bot/bot_common.py:409 | the suffix depends only on the distinct tools in first-occurrence order |
| BotCommon.FormatToolIndicatorsRepeat | bot/bot_common.py:409 | a tool used again does not change the suffix |
| LegacyBotCommon.ClearUserSession | server/bot_common.py:175-205 | a parsed file is replaced by the cleared object; a missing or corrupt file is left alone |
| LegacyBotCommon.LegacyClearEffect | server/bot_common.py:192-196 | clearing here loses a stored thinking preference, unlike the newer copy |
| LegacyBotCommon.LegacySplitLongMessage | server/bot_common.py:303-341 | the loop computes exactly the specified chunks |
| LegacyBotCommon.LegacyFoldShape | server/bot_common.py:325-335 | every finished chunk of the loop is non-empty, and any chunk holding a line break is within the maximum less 100 |
| LegacyBotCommon.LegacySplitChunks | server/bot_common.py:316-341 | a text within the maximum is the single chunk; otherwise every chunk is non-empty and a chunk holding a line break is within the maximum less 100 |
| LegacyBotCommon.LegacyFoldNothingFits | server/bot_common.py:327-330 | for a maximum of 100 or less the loop never opens a chunk, whatever the lines |
| LegacyBotCommon.LegacySplitLosesEverything | server/bot_common.py:327-330 | for a maximum of 100 or less any text longer than it gives no chunk at all |
| LegacyBotCommon.LongLine | server/bot_common.py:327-330 | a single 151-character line |
| LegacyBotCommon.LegacySplitDropsLongLine | server/bot_common.py:327-330 | the 151-character line is lost at maximum 150, where the newer split keeps it |
| LegacyBotCommon.LegacyOptions | server/bot_common.py:231-256 | resume is set exactly when a session loads, to the loaded id; cwd is the loaded or stored cwd; prompt and tools are the given ones, or the defaults for falsy overrides; no other option is passed |
| LegacyBotCommon.CollectBlocks | server/bot_common.py:266-277 | collects the texts of text blocks and the names of tool-use blocks, in order |
| LegacyBotCommon.CollectResponse | server/bot_common.py:261-287 | the response is the assistant text, the tools are all tool uses in order, the session id is the last result's |
| LegacyBotCommon.ProcessClaudeMessage | server/bot_common.py:208-298 | failure propagates with nothing written; a truthy new session id is saved with the resolved cwd; a blank response becomes the placeholder |
| Api.BuildOptions | server/api.py:128-146 | model, allowed tools, permission mode and max turns are each passed, with their value, exactly when truthy, and nothing else is; with none the options are the default |
| Api.QueryConfig | server/api.py:191-206 | INCLUDE exactly when thinking is asked for (else EXCLUDE), STREAM exactly when streaming (else BUFFER_ALL), indicators off, cwd the request's or the default, user `api_user`, platform `api`, metadata of model, permission mode and max turns |
| Api.CreateQuery | server/api.py:182-257 | a streamed request answers with a stream; otherwise the executor runs on that configuration and the answer is its text and duration, or a 500 with the exception text |
| Api.ReceiveText | server/api.py:328-333 | the `response_text +=` loop gives exactly the in-order concatenation of text-block texts of assistant messages |
| Api.Registry.constructor | server/api.py:37 | the registry starts empty |
| Api.Registry.List | server/api.py:372-378 | the listed ids are exactly the registry keys, each once, and the count is their number |
| Api.Registry.HealthCheck | server/api.py:168-179 | status healthy, the given authentication flag, and the registry size as active sessions |
| Api.Registry.Info | server/api.py:359-369 | a registered id is reported active; an unknown one is a 404 |
| Api.Registry.StartSession | server/api.py:260-311 | the options follow `build_options` without max turns; the id is registered only after connect succeeds, appended to the key order when new; a failing initial prompt disconnects and unregisters, unless that disconnect raises, which leaves the id registered in its place; every failure is a 500 |
| Api.Registry.SendInitialPrompt | server/api.py:289-301 | the prompt is queried and the assistant text of the received stream collected; if the query raises, the client is disconnected and the id unregistered, and a raising disconnect replaces the error and leaves the registry as it was |
| Api.Registry.Register | server/api.py:284 | the id maps to the new client and keeps its key position, or is appended when new |
| Api.Registry.Unregister | server/api.py:300 | the id leaves both the map and the key order |
| Api.Registry.Query | server/api.py:314-341 | unknown id is a 404; otherwise the client is queried and the answer is the assistant text, or a 500; the registry is unchanged |
| Api.Registry.Interrupt | server/api.py:344-356 | unknown id is a 404; otherwise the client is interrupted, and a raised error is a 500 |
| Api.Registry.Close | server/api.py:381-403 | unknown id is a 404 with the registry unchanged; otherwise the client is disconnected and the id is always removed |
| Api.Registry.Shutdown | server/api.py:62-69 | every registered client is asked to disconnect once, and the registry ends empty |
| ChatBots.WithIndicators | server/slack_bot.py:356-357 | guarding the suffix by a non-empty tool list equals always appending it; no tools leave the reply unchanged |
| ChatBots.ToolsListedTwice | bot/bot_common.py:319-330 | the chat configuration asks the executor for its `Tools used:` line, so a reply that used plain-named tools carries that line and then the bot's wrench suffix for the same tools |
| ChatBots.BotReply | server/slack_bot.py:348-369 | the answer to a message is the SDK's exception, or the decode error when a new session id meets a corrupt session file, or else the reply text (the placeholder for blank text) followed by the tool-indicator suffix |
| ChatBots.NextMessageResumes | bot/bot_common.py:319-340 | after an answered message that reported a session id, the next message of that user resumes that session, in the same directory, with thinking hidden because the save dropped the preference |
| ChatBots.DecideToggle | server/slack_bot.py:234-241 | "on" turns thinking on, "off" turns it off, anything else is refused |
| ChatBots.ApplyThinkingRequest | server/slack_bot.py:222-241 | a status request reads the preference; an invalid argument writes nothing; a turn writes the preference |
| ChatBots.NumberBeforeSlash | server/slack_bot.py:390 | the number before the slash in a marker is determined by the marker |
| SlackBot.ReplyThread | server/slack_bot.py:336 | the reply goes to the thread timestamp when the key is present, else to the event timestamp |
| ChatBots.ContinuedInjective | server/slack_bot.py:385-388 | different chunk positions get different markers, for the Slack `_(continued i/n)_` and the Telegram `(continued i/n)` decoration (server/telegram_bot.py:370-371) alike |
| SlackBot.SendLongMessage | server/slack_bot.py:374-395 | one post per chunk of the split reply, in order, the first unmarked and post i>0 marked `_(continued i+1/n)_` |
| ChatBots.ContinuedMessages | server/slack_bot.py:383-395 | the chunks of a long reply carry every non-empty line of it, in order, and the markers of the messages after the first are pairwise distinct; Telegram sends its chunks the same way (server/telegram_bot.py:365-372) |
| SlackBot.Respond | server/slack_bot.py:348-369 | after a successful SDK call the reply with its indicators is posted in numbered chunks, unless saving the new session id hits a corrupt session file; an SDK failure or that decode error is posted as the error message; the store changes exactly by the session save of a successful call with a session id over a readable record |
| SlackBot.HandleMessage | server/slack_bot.py:319-371 | an event with a truthy subtype or bot id posts nothing and writes nothing; otherwise "Processing..." and then exactly the answer of `Respond`: the reply in numbered chunks or the error, in the reply thread, with the store changed exactly by the session save |
| SlackBot.IdRun | server/slack_bot.py:415 | the longest prefix of id characters |
| SlackBot.MentionAt | server/slack_bot.py:415 | the length of the one mention token a text starts with, or 0 when it starts with none |
| SlackBot.RemoveMentions | server/slack_bot.py:415 | removing tokens never lengthens the text |
| SlackBot.RemoveMentionsAround | server/slack_bot.py:415 | a token anywhere in the text is removed and the text on either side is treated as on its own: no token straddles another |
| SlackBot.MentionBetweenWords | server/slack_bot.py:415 | a token between plain words is cut out, leaving the words on both sides |
| SlackBot.RemoveMentionsPlain | server/slack_bot.py:415 | a text without `<` is unchanged |
| SlackBot.RemoveMentionsLeading | server/slack_bot.py:415 | a leading mention token is removed and the rest scanned on |
| SlackBot.MentionPrompt | server/slack_bot.py:415 | the prompt has no surrounding whitespace |
| SlackBot.MentionThenQuestion | server/slack_bot.py:415 | a mention followed by a question gives the stripped question |
| SlackBot.HandleMention | server/slack_bot.py:400-450 | an empty prompt after removing mentions gets the greeting and no SDK call; otherwise the answer is that of a message: the reply in numbered chunks or the error, in the event's thread, with the store changed exactly by the session save |
| SlackBot.SetCwdPath | server/slack_bot.py:141-152 | the path is the stripped text, and there is none exactly for blank text |
| SlackBot.SetCwdPathPadded | server/slack_bot.py:141-152 | blanks around a path are dropped and the path itself, inner spaces included, is kept |
| SlackBot.ChunkBudget | server/slack_bot.py:59 | Slack replies are cut into chunks of at most 2800 characters, the buffer being 200 |
| TelegramBot.ChunkBudget | server/telegram_bot.py:62 | Telegram replies are cut into chunks of at most 3896 characters, the buffer being 200 |
| SlackBot.SetCwd | server/slack_bot.py:135-179 | nothing is saved without a path or for a non-directory; otherwise the absolute path is saved as the cwd and reported, or the decode error of a corrupt file is raised, nothing is written and nothing reported |
| SlackBot.ThinkingToggle | server/slack_bot.py:218-241 | blank text asks for the status; the stripped, lower-cased "on" and "off" switch; anything else is invalid |
| SlackBot.ThinkingToggleNormalised | server/slack_bot.py:218 | surrounding whitespace does not change the request |
| SlackBot.ShowThinking | server/slack_bot.py:212-253 | blank text reports the preference and raises nothing; an invalid argument writes nothing; on or off writes the preference, or raises the decode error of a corrupt file and writes nothing |
| TelegramBot.Unescape | server/telegram_bot.py:319-320 | a leading `\/` becomes `/` and any other text is unchanged |
| TelegramBot.UnescapeCommand | server/telegram_bot.py:319-320 | escaping a slash command and unescaping gives the command |
| TelegramBot.UnescapeOnce | server/telegram_bot.py:319-320 | at most one character is removed, and only by turning the leading `\/` into `/`: the rest of the text is kept |
| TelegramBot.SendLongMessage | server/telegram_bot.py:355-372 | one message per chunk of the split reply, in order, the first unmarked and message i>0 marked `(continued i+1/n)` |
| TelegramBot.HandleMessage | server/telegram_bot.py:304-352 | the prompt is the unescaped text; after a successful SDK call the reply with its indicators is sent in numbered chunks, unless saving the new session id hits a corrupt session file; an SDK failure or that decode error is answered with the error message; the store changes exactly by the session save of a successful call with a session id over a readable record |
| TelegramBot.SetCwdPath | server/telegram_bot.py:133-143 | no arguments give no path; otherwise the arguments joined with single spaces |
| TelegramBot.SetCwdPathRejoins | server/telegram_bot.py:143 | a path split into words is put back together with single spaces |
| TelegramBot.SetCwd | server/telegram_bot.py:128-170 | nothing is saved without arguments or for a non-directory; otherwise the absolute path is saved as the cwd and reported, or the decode error of a corrupt file is raised, nothing is written and nothing reported |
| TelegramBot.ThinkingToggle | server/telegram_bot.py:202-222 | no arguments ask for the status; only the first argument, lower-cased, is read; "on" and "off" switch |
| TelegramBot.ThinkingToggleFirstOnly | server/telegram_bot.py:218 | arguments after the first never change the request |
| TelegramBot.ShowThinking | server/telegram_bot.py:197-240 | no arguments report the preference and raise nothing; an invalid argument writes nothing; on or off writes the preference, or raises the decode error of a corrupt file and writes nothing |

## Left out

- The agent SDK itself (`ClaudeSDKClient`, `query`, `receive_response`, `connect`, `disconnect`, `interrupt`) and all `async`/`await`. A response stream is a finite sequence of messages; a client is a handle that records the calls made on it. Whether a call fails is a parameter.
- The Sentry and PostHog backends (server/sdk_executor.py:129-261). They are foreign telemetry calls whose enablement comes from the environment. `ConsoleBackend` only prints. Every backend is one `Backend` whose handler may raise or not.
- `ClaudeExecutor.execute_stream` and the Server-Sent-Events body of `create_query` (server/api.py:210-242). The payloads are Python `repr()` text. `Api.CreateQuery` answers a streamed request with `EventStream` and nothing more.
- Real I/O: `json.dump` formatting, `print`, `logging`, `mkdir`, `get_sessions_dir`. Session directories and log files are maps of parsed records. A session file holding JSON that is not an object, or a known key of another type, is not modelled.
- Clocks: `time.time()`, `datetime.now()` and `datetime.utcnow()`. Timestamps and durations are parameters. Every write in one call gets the same `now`. The file backend's `start_time` is a parameter.
- Environment lookups (`CLAUDE_CODE_OAUTH_TOKEN`, `FILE_LOGGING`, `WORKING_DIRECTORY`, `PORT`) are parameters: the authentication flag, the backend list, the default cwd.
- `search_directories` and the `/searchcwd` commands. They walk the file system.
- Path validation in `/setcwd` (`os.path.exists`, `isdir`, `abspath`). The result is the `isDirectory` flag and the `absolutePath` parameter.
- FastAPI, Slack Bolt and python-telegram-bot plumbing: decorators, `ack`, `say`, `reply_text`, CORS, uvicorn, and the fixed help and status texts. Posts are returned as values.
- The uuid generator in `start_session`. The new id is a parameter; if it is already a key, its client is replaced.
- Concurrency between requests. Each endpoint runs to completion on its own.
- Text.Lower and Text.Upper map ASCII letters only, not Python's full Unicode case mapping. Text.IsSpace follows `str.isspace` for the common whitespace characters.
- Both server bots import `set_show_thinking` and `get_show_thinking`, which only bot/bot_common.py defines (server/slack_bot.py:40-41, server/telegram_bot.py:42-43). The bots are modelled on that file (`BotCommon`). server/bot_common.py is modelled as written, on its own (`LegacyBotCommon`).
- BotCommon.SafetyBuffer: `int(max_length * 0.1)` multiplies by the floating-point 0.1 (bot/bot_common.py:368); the model takes a tenth in exact integer arithmetic, truncated toward zero, so it does not capture a float product that rounds across an integer.
- `ThinkingMode.EXCLUDE` is documented as stripping thinking from the response (server/sdk_executor.py:68). The fragments are still recorded in every mode (server/sdk_executor.py:413-414), and the model follows the code (`SdkExecutor.ThinkingBlockEffect`).

## Findings

| source | as written | input that shows it | evidently intended | confidence | as-written member | corrected member |
|---|---|---|---|---|---|---|
| server/bot_common.py:327-330 | a line that does not fit while no chunk is open is dropped: `current_chunk` stays empty and the line is never appended | a single 151-character line with `max_length` 150 gives `[]`; so does any text longer than `max_length` when `max_length` is 100 or less | start a new chunk with that line, as bot/bot_common.py:380-382 does, so no line is lost | not executed | LegacyBotCommon.LegacySplitDropsLongLine | BotCommon.SplitKeepsLines |
