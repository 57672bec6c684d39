# Goggins chatbot: a Dafny model of its conversation store, chat rules, speech routing, sign-in, cleanup filters and synthesis scripts

The Goggins chatbot is a web app. An Express server stores each browser session's
conversations in MongoDB and answers chat turns with an OpenAI completion in the voice of
David Goggins. The browser client keeps its own rolling OpenAI history. Replies can be
spoken through OpenAI's speech endpoint or through a cloned "Goggins" voice that Tortoise-TTS
generates in a Python child process. Separate Express routes handle sign-in. A maintenance
script filters source lines.

This project models the decision logic of those pieces with the collaborators removed.
MongoDB, `fetch`, child processes, `localStorage`, md5, the clock and the neural synthesis
become parameters or scripted inputs.

| module | file | models |
|---|---|---|
| `Wrappers` | wrappers.dfy | `Option` and `Result` |
| `Text` | text.dfy | JavaScript `trim`, ASCII `toLowerCase`, `split`, substring search, decimal printing and `{:03d}` padding |
| `UserModel` | user_model.dfy | models/User.js: the schema defaults, its enums and required fields, `save` with the pre-save hook, `getConversationStats` |
| `DatabaseService` | database_service.dfy | services/DatabaseService.js: every operation as a function on the user document, and the class `UserStore` (the `users` collection, keyed by session id, with an ObjectId counter) whose methods run `findOne`/mutate/`save` |
| `ChatServer` | chat_server.dfy | server.js: `createSystemPrompt`, the never-throwing `getOpenAIResponse`, the session-id middleware, `/api/chat`, `/api/search` and `/api/tts` |
| `TortoiseRoute` | tortoise_route.dfy | server.js `/api/tortoise-tts`: the output-name cache, the spawn arguments, the exit classification, and the class `TortoiseRequest` (the respond-once guard with its close, error, timeout and kill events) |
| `TortoiseTtsRoute` | tortoise_route.dfy | the server half of tortoise-tts.js, which runs `tts.py` |
| `ChatClient` | chat_client.dfy | app.js: `adjustColor`, mood validation, and the class `ChatbotState` with its history window, `sendMessage`, `clearChatHistory` and the settings handlers |
| `VoiceChat` | voice_chat.dfy | voice-chat.js together with the client half of tortoise-tts.js: speech routing, both audio caches, the fallback to "onyx", the patched `textToSpeech`, settings loading |
| `Auth` | auth.dfy | routes/auth.js (class `AuthServer`), middleware/auth.js (the two gates) and auth.js (class `AuthManager`) |
| `Cleanup` | cleanup.dfy | cleanup-script.js: the debug, CSS and comment line filters, the unused-name checks, `runCleanup` |
| `Synthesis` | synthesis.dfy | the parts the Python scripts share: the try/except cascade of attempts, the tensor reshape rule, `os.path.join`, voice-sample loading |
| `GenerateSpeech` | generate_speech.dfy | generate_speech.py |
| `TtsScript` | tts_script.dfy | tts.py |
| `CloneVoice` | clone_voice.dfy | clone_voice.py |
| `PresetCompatibility` | preset_compat.dfy | where a preset chosen in the client ends up |

Classes hold the state the source updates in place: the user collection, a Tortoise
request's flags, the client's `chatbotState`, the `voiceChat` object, the auth server's
registry and session, and `authManager`. Each method is specified by a function on its
old state. The lemmas beside those functions state the invariants and the source's
promises.

Every stored document keeps `UserOk`:
- the current id is null or names one of the user's conversations;
- conversation ids are distinct;
- every message has a valid type and non-empty content;
- the intensity is in its enum.

Every `UserStore` method preserves this. The speech call of voice-chat.js, once the
Tortoise extension is installed, can loop: the extension's fallback re-enters itself
through `originalTextToSpeech`, sending one more request to a failing server each time.
That recursion is modelled with fuel, and the model proves that the loop does not end
rather than assuming it ends. A second setup makes the extension call itself with no
request in between; JavaScript ends that with a stack overflow, which the model, having
no stack, shows as a call that never finishes.

A cross-file consequence is stated in `PresetCompatibility`. The settings panel offers
the presets "ultra_fast", "fast", "standard" and "high_quality". server.js hands the
chosen preset to generate_speech.py as `--quality`, which accepts only "high", "medium"
and "fast". server.js never mounts the router of tortoise-tts.js (whose `tts.py` would
accept all four). So every offered preset except "fast" makes the script exit 2, and the
request is answered 500.

Where the code and its written description differ, the model follows the code:
- The settings intensity and the message type are Mongoose `enum`s. A value outside
  them fails validation on `save`, and the operation reports the error. Nothing
  substitutes a default.
- `deleteConversation` repoints a deleted current conversation to the last remaining
  conversation by array position, not to the most recently updated one.
- models/User.js:101 declares the unique index on `sessionId`, while line 49-50 removes
  the index from the field itself. The collection is modelled as a map keyed by session
  id, which gives one document per session.

## Model

| member | source | states |
|---|---|---|
| UserModel.DefaultSettingsValid | models/User.js:52-90 | the default settings pass validation: intensity "challenging", voice "onyx", dark mode and voice on, timestamps and speech input off |
| UserModel.NewConversation | models/User.js:26-44 | a new conversation has no messages, is active, carries the given title or "New Conversation", and both timestamps are the creation time |
| UserModel.Save | models/User.js:105-108 | a save succeeds exactly when the document passes schema validation; the saved document differs from the input only in `updatedAt`, which is the save time |
| UserModel.SavedIntensityInEnum | models/User.js:57-61 | a saved document's intensity is one of "challenging", "reflective", "drill" |
| UserModel.FindConversation | models/User.js:26-44 | the index returned holds the id and no earlier conversation does; none is returned exactly when no conversation has the id |
| UserModel.CountActive | models/User.js:115 | the active count is at most the conversation count, and equal to it exactly when every conversation is active |
| UserModel.GetConversationStats | models/User.js:111-117 | `totalConversations` is the list length and `activeConversations` never exceeds it |
| UserModel.TotalMessagesUpdate | models/User.js:114 | replacing one conversation changes the message total by the difference of the two message counts |
| UserModel.TotalMessagesAppend | models/User.js:114 | appending a conversation adds its message count to the total |
| UserModel.TotalMessagesRemove | models/User.js:114 | removing a conversation removes exactly its messages from the total |
| DatabaseService.NewUser | services/DatabaseService.js:8-31 | a first-seen session gets default settings and exactly one conversation "Welcome to Goggins Bot" holding one `ai` welcome message; the current id names it; the document satisfies the store invariant |
| DatabaseService.CurrentIndex | services/DatabaseService.js:47-52 | the position found holds the current id; none is found exactly when the current id is null or dangling |
| DatabaseService.AppendMessage | services/DatabaseService.js:47-74 | with a resolving current id, exactly that conversation gains the message at its end and a new `updatedAt`, and every other conversation is unchanged; otherwise "Conversation N+1" holding the message is appended and becomes current |
| DatabaseService.AppendMessageKeepsInvariant | services/DatabaseService.js:47-74 | after an append the current id resolves and ids stay distinct; the document validates exactly when the message does; the message total grows by one |
| DatabaseService.AppendToCurrentKeepsInvariant | services/DatabaseService.js:62-74 | the same, for an append to the conversation the current id resolves to |
| DatabaseService.AppendToNewKeepsInvariant | services/DatabaseService.js:50-61 | the same, for an append that first creates a new conversation |
| DatabaseService.AppendFreshKeepsInvariant | services/DatabaseService.js:138-146 | appending a conversation with a fresh id and making it current keeps ids distinct and the current id resolving; the new conversation is found at the end |
| DatabaseService.ReplaceConversationKeepsInvariant | services/DatabaseService.js:62-74 | replacing a conversation by a valid one with the same id keeps the store invariant |
| DatabaseService.ReplaceMessageKeepsValid | services/DatabaseService.js:273-288 | replacing a message by a valid one keeps its conversation valid |
| DatabaseService.AppendConversation | services/DatabaseService.js:138-151 | exactly one conversation is appended and made current; the existing conversations, the settings and the session id are unchanged |
| DatabaseService.CreateConversationKeepsInvariant | services/DatabaseService.js:138-151 | creating a conversation keeps the store invariant, points at the new last conversation, and keeps the message total |
| DatabaseService.PointTo | services/DatabaseService.js:191-199 | an id not in the list gives "Conversation not found" and changes nothing; otherwise only the current id changes, to that id |
| DatabaseService.SwitchKeepsInvariant | services/DatabaseService.js:191-199 | a switch keeps the store invariant and leaves the current id resolving to the chosen conversation |
| DatabaseService.RenameConversation | services/DatabaseService.js:244-253 | an unknown id gives "Conversation not found"; otherwise exactly the matching conversation gets the new title and `updatedAt`, and the others are unchanged |
| DatabaseService.RenameKeepsInvariant | services/DatabaseService.js:244-253 | a rename keeps the store invariant and every conversation's messages |
| DatabaseService.RemoveConversation | services/DatabaseService.js:212-231 | an unknown id gives "Conversation not found"; otherwise exactly the matching conversation is spliced out with the rest in order; a deleted current conversation repoints to the last remaining one, or to null; any other current id is kept |
| DatabaseService.SpliceKeeps | services/DatabaseService.js:222 | splicing out a position shifts later conversations down by one, keeps distinct ids, and leaves no conversation with the removed id |
| DatabaseService.DeleteKeepsInvariant | services/DatabaseService.js:212-231 | a delete keeps the store invariant, no remaining conversation has the deleted id, and the message total drops by the deleted conversation's count |
| DatabaseService.DeleteKeepsCurrent | services/DatabaseService.js:224-228 | after a delete the current id still resolves or is null |
| DatabaseService.MergeSettingsProperties | services/DatabaseService.js:113 | an empty patch keeps the settings, a full patch replaces them, merging twice equals merging once, supplied keys override and unsupplied keys are kept |
| DatabaseService.UpdateSettingsSaves | services/DatabaseService.js:108-122 | a settings update saves exactly when the merged intensity is in the enum, and a saved document keeps the store invariant |
| DatabaseService.Summarize | services/DatabaseService.js:163-176 | a summary carries the conversation's id, title, both times and `isActive`; `messageCount` is its message count; `isCurrent` holds exactly for the current id; `lastMessage` exists exactly when there are messages, and then has the last message's type and timestamp and the first min(100, length) characters of its content |
| DatabaseService.InsertByRecency | services/DatabaseService.js:179 | insertion adds exactly the one summary to the multiset |
| DatabaseService.InsertKeepsNewestFirst | services/DatabaseService.js:179 | inserting into a newest-first list keeps it newest first |
| DatabaseService.SortByRecency | services/DatabaseService.js:179 | the sort is a permutation ordered by `updatedAt` descending |
| DatabaseService.Summaries | services/DatabaseService.js:163-177 | one summary per conversation, in list order |
| DatabaseService.GetConversationsSpec | services/DatabaseService.js:159-186 | the listing holds one summary per conversation, every conversation's summary and nothing else, newest first |
| DatabaseService.MatchingMessages | services/DatabaseService.js:387-390 | exactly the messages whose lowercased content contains the lowercased term are kept, and no more than there were |
| DatabaseService.MatchingMessagesAppend | services/DatabaseService.js:387-390 | filtering a concatenation is filtering each part and joining the results in the same order |
| DatabaseService.MatchingMessagesKeepsOrder | services/DatabaseService.js:387-390 | two matching messages appear among the hits in the order they had in the conversation |
| DatabaseService.SearchAll | services/DatabaseService.js:385-404 | one group per conversation with a match and no other; every group is non-empty |
| DatabaseService.SearchAllSnoc | services/DatabaseService.js:392-402 | one more conversation adds its group at the end exactly when it has a hit |
| DatabaseService.SearchAllAppend | services/DatabaseService.js:385-404 | searching a concatenation of conversation lists gives the groups of the first list, then those of the second |
| DatabaseService.SearchAllAround | services/DatabaseService.js:385-404 | a conversation with a hit has its group right after the groups of the conversations before it and before those after it |
| DatabaseService.SearchAllHasGroup | services/DatabaseService.js:392-402 | a conversation with a hit has its group at some position of the result |
| DatabaseService.SearchAllKeepsListOrder | services/DatabaseService.js:385-406 | groups come in list order: an earlier conversation's group precedes a later one's, so `slice(0, limit)` keeps the earliest |
| DatabaseService.SliceTo | services/DatabaseService.js:406 | `slice(0, limit)`: a prefix whose length is the limit capped by the length, with a negative limit counting from the end and NaN giving [] |
| DatabaseService.CollectMatches | services/DatabaseService.js:385-404 | the search loop computes exactly `SearchAll` |
| DatabaseService.FindMessage | services/DatabaseService.js:273-280 | the index returned holds the id and no earlier message does; none exactly when no message has the id |
| DatabaseService.LocateMessage | services/DatabaseService.js:271-283 | the first conversation holding the id and the message's position in it; none exactly when no conversation holds it |
| DatabaseService.ScanForMessage | services/DatabaseService.js:271-283 | the nested loops with `break` find exactly what `LocateMessage` specifies |
| DatabaseService.FirstMatchIsLocated | services/DatabaseService.js:271-283 | the first match of a scan is the position `LocateMessage` names |
| DatabaseService.AttachAudio | services/DatabaseService.js:264-297 | an unknown message id gives "Message not found"; otherwise only the first message with the id gets the audio descriptor, its conversation gets a new `updatedAt`, and everything else is unchanged: that conversation's id, title, times and activity, every other conversation, and the document's own fields |
| DatabaseService.AttachAudioKeepsInvariant | services/DatabaseService.js:264-297 | attaching audio keeps the store invariant and the message total |
| DatabaseService.AddMessageOutcomeKeepsInvariant | services/DatabaseService.js:42-82 | `addMessage` succeeds exactly when the new message has a valid type and content, returns that message, and whatever is stored keeps the invariant |
| DatabaseService.AddMessageAppendsToHistory | services/DatabaseService.js:47-74 | a stored message appears at the end of the current conversation's history |
| DatabaseService.AppendExtendsHistory | services/DatabaseService.js:47-74 | after an append, the current history is the earlier one plus the message |
| DatabaseService.SaveKeepsHistory | services/DatabaseService.js:85-105 | a save does not change the history that `getConversationHistory` returns |
| DatabaseService.SaveKeepsInvariant | models/User.js:105-108 | a save changes only `updatedAt`, so the saved document keeps the invariant and the session id |
| DatabaseService.StoreHoldsOneUserPerSession | models/User.js:101 | two stored documents with the same session id are the same entry |
| DatabaseService.UserStore.constructor | services/DatabaseService.js:6-39 | an empty collection that satisfies the store invariant |
| DatabaseService.UserStore.GetOrCreateUser | services/DatabaseService.js:6-39 | an existing document is returned unchanged; a first-seen session gets `NewUser`, which is stored |
| DatabaseService.UserStore.AddMessage | services/DatabaseService.js:42-82 | the result and the stored document are those of `AddMessageOutcome` on the resolved document; the invariant is kept |
| DatabaseService.UserStore.GetConversationHistory | services/DatabaseService.js:85-105 | the messages of the named conversation, else of the current one, else []; the store changes only by resolving the session |
| DatabaseService.UserStore.UpdateSettings | services/DatabaseService.js:108-122 | the merged settings are saved and returned, or the validation error is returned and the merged settings are not stored |
| DatabaseService.UserStore.GetSettings | services/DatabaseService.js:125-133 | the resolved document's settings |
| DatabaseService.UserStore.CreateConversation | services/DatabaseService.js:136-156 | the new conversation, titled with the given title or "Conversation N+1", is returned, appended and made current, and the document is saved |
| DatabaseService.UserStore.GetConversations | services/DatabaseService.js:159-186 | the sorted summaries of the resolved document |
| DatabaseService.UserStore.SwitchConversation | services/DatabaseService.js:189-207 | the chosen conversation is returned and made current, or "Conversation not found" with nothing saved |
| DatabaseService.UserStore.DeleteConversation | services/DatabaseService.js:210-239 | the document after `RemoveConversation` is saved and true returned, or "Conversation not found" with nothing saved |
| DatabaseService.UserStore.UpdateConversationTitle | services/DatabaseService.js:242-261 | the renamed conversation is returned and saved, or "Conversation not found" with nothing saved |
| DatabaseService.UserStore.AddAudioCacheToMessage | services/DatabaseService.js:264-297 | the updated message is returned and the document saved, or "Message not found" with nothing saved |
| DatabaseService.UserStore.SearchConversations | services/DatabaseService.js:381-411 | the first `limit` groups of `SearchAll` over the resolved document |
| ChatServer.SystemPromptShape | server.js:576-593 | every system prompt begins with the base prompt, and any value but the three intensities gets the generic suffix |
| ChatServer.SystemPromptsDistinct | server.js:576-593 | the three intensities get three different prompts, none of them the generic one |
| ChatServer.GetOpenAIResponse | server.js:540-574 | without a key or on any failure the fixed fallback reply; otherwise the trimmed completion |
| ChatServer.GeneratedSessionId | server.js:50 | a generated session id is non-empty and starts with "user_" |
| ChatServer.Session.EnsureUserId | server.js:48-53 | an existing session id is never replaced; a missing one is generated; afterwards the id is set |
| ChatServer.UserMessageStored | server.js:87-88 | a message that is not blank is stored as sent, at the end of the current history |
| ChatServer.ChatTurnStoresPair | server.js:87-100 | a chat turn stores the user message as sent; the `ai` message is stored exactly when the reply is not empty, and then the history ends with the user message followed by the reply; the store invariant holds throughout |
| ChatServer.AnswerTurn | server.js:90-100 | the settings are read, the reply is asked for with the stored intensity, and the `ai` message is stored |
| ChatServer.StoreUserMessage | server.js:87-88 | the first half of a turn: the resolved document plus the user message is stored |
| ChatServer.RunChatTurn | server.js:86-104 | persist the user message, read the settings, request the reply with that intensity, persist the `ai` message, in that order |
| ChatServer.PostChat | server.js:78-112 | a missing or blank message is answered 400 with nothing stored and no step run; otherwise the four steps run in order |
| ChatServer.SearchLimit | server.js:238-244 | an absent limit is 10, a number is itself, and text `parseInt` cannot read is NaN |
| ChatServer.GetSearch | server.js:235-252 | a missing or blank term is answered 400 before the store is touched; otherwise the sliced search results |
| ChatServer.SearchLimitBounds | server.js:238-244 | the default limit keeps at most ten groups, and an unreadable limit keeps none |
| ChatServer.DecideTts | server.js:267-320 | the checks run in order: a missing server key is 400, missing text is 400, a voice outside the six names is 400; otherwise the synthesis uses the given text and voice, and speed 1.0 when the speed is absent or 0 |
| TortoiseRoute.OrDefault | server.js:336-337 | `v \|\| d` on an optional string: absent or empty give the default |
| TortoiseRoute.OutputFilenameShape | server.js:335-339 | the name starts with the hash and "_", ends in ".wav", and is `<hash>_goggins_fast.wav` when voice and preset are absent or empty |
| TortoiseRoute.FilenameDeterminesChoices | server.js:335-339 | for underscore-free voice and preset, equal names mean equal voice and preset |
| TortoiseRoute.FilenameCollision | server.js:339 | with underscores allowed, two different voice/preset choices share one cache file |
| TortoiseRoute.Prepare | server.js:322-390 | missing text is 400; a cached file is sent; a missing script or samples directory is 500; otherwise the script is spawned with `--text`, `--voice_dir`, `--output <name>` and `--quality <preset>` |
| TortoiseRoute.CachedFileSkipsSpawn | server.js:346-349 | an existing output file is sent without spawning a process |
| TortoiseRoute.ErrorLines | server.js:445-447 | exactly the lines that mention "Error" and not "FutureWarning" are kept |
| TortoiseRoute.FirstErrorLineIsEarliest | server.js:445-449 | the first kept line is the earliest error line of the input |
| TortoiseRoute.ClassifyPrecedence | server.js:436-451 | ModuleNotFoundError wins over CUDA, which wins over voice_dir, which wins over an error line; without "Error" anywhere the details are "Python process failed" |
| TortoiseRoute.ClassifyReportsEarliestErrorLine | server.js:444-451 | when no stderr keyword decides: if stdout or stderr mentions "Error" and some line of stdout+stderr passes the filter, the details are the earliest such line, trimmed; otherwise "Python process failed" |
| TortoiseRoute.CloseReply | server.js:420-458 | the file is sent exactly after exit 0 with the file present; every other reply is a 500, and a nonzero exit carries its exit code |
| TortoiseRoute.ErrorReply | server.js:461-467 | a spawn error is answered 500 with the error's message |
| TortoiseRoute.TortoiseRequest.SendResponse | server.js:371-383 | the first call sends; every later call is ignored |
| TortoiseRoute.TortoiseRequest.OnClose | server.js:420-458 | the close reply is sent unless a reply went out already; the timer is cleared |
| TortoiseRoute.TortoiseRequest.OnError | server.js:461-467 | the error reply is sent unless a reply went out already |
| TortoiseRoute.TortoiseRequest.OnTimeout | server.js:469-491 | a fired timer with no reply yet sends SIGTERM, arms the forced kill and answers 408; otherwise nothing happens |
| TortoiseRoute.TortoiseRequest.Kill | server.js:472 | the signal is recorded, and `killed` becomes true once a signal is delivered |
| TortoiseRoute.TortoiseRequest.OnForceKill | server.js:474-479 | five seconds on, SIGKILL is sent only when `killed` is still false |
| TortoiseRoute.TimeoutThenClose | server.js:469-491 | a timeout answers 408, and a close afterwards sends nothing more |
| TortoiseRoute.CloseThenTimeout | server.js:420-458 | a close that comes first is the only reply, and no signal is sent |
| TortoiseRoute.DeliveredTermNeverEscalates | server.js:472-479 | once SIGTERM is delivered the forced kill never sends SIGKILL |
| TortoiseRoute.TortoiseRequest.OnForceKillIfRunning | server.js:474-479 | corrected rule: SIGKILL while the process has not exited |
| TortoiseRoute.RunningProcessIsForceKilled | server.js:469-491 | with the corrected rule, a process still running after the grace period gets SIGKILL |
| TortoiseTtsRoute.RoutePrepare | tortoise-tts.js:18-54 | missing text is 400; the name `<md5>_<voice or goggins>_<preset or fast>.wav` under audio_cache is sent when it exists; otherwise `tts.py` under the installation directory (`TORTOISE_PATH`, or `/path/to/tortoise-tts` when unset or empty) is spawned with `--text`, `--voice`, `--preset` and `--output_path` |
| TortoiseTtsRoute.RouteCloseReply | tortoise-tts.js:67-85 | a nonzero exit is 500 with stderr as the details; exit 0 sends the file when it exists and is 500 otherwise |
| ChatClient.AdjustChannel | app.js:427-429 | `max(0, min(255, c + percent))`, exactly, for each case; NaN stays NaN |
| ChatClient.Hex2 | app.js:432-434 | two characters for a byte |
| ChatClient.Hex2RoundTrip | app.js:422-434 | the two written digits of a byte parse back to the byte |
| ChatClient.AdjustColor | app.js:417-437 | the result starts with "#" and has at least seven characters |
| ChatClient.AdjustColorOnHex | app.js:417-437 | on "#" and six hex digits, each channel is read from its digit pair, clamped, and written as two lowercase digits, giving seven characters |
| ChatClient.AdjustColorByZero | app.js:417-437 | moving by 0 only lower-cases the digits |
| ChatClient.AdjustColorTwice | app.js:417-437 | adjusting an adjusted colour reads back exactly the clamped channels the first call wrote |
| ChatClient.ParsePair | app.js:422-424 | `parseInt` of two hex digits is their value |
| ChatClient.ParseTwoDigits | app.js:422-424 | `parseInt(s, 16)` of a string of exactly two hex digits is their value: no whitespace to skip, no sign, no `0x` prefix, both digits read |
| ChatClient.ThreeBytesRoundTrip | app.js:432-436 | three written bytes form six hex digits whose pairs read back the bytes |
| ChatClient.RemoveFirstHash | app.js:419 | only a leading or first '#' is removed; a string without one is unchanged |
| ChatClient.ValidMood | app.js:454-457 | a mood outside the three names becomes "challenging"; a valid mood is kept |
| ChatClient.RequestMessages | app.js:97-118 | the request sends the system prompt for the intensity, then the history, then the new message |
| ChatClient.DefaultClientSettings | app.js:23-30 | default intensity "challenging", dark mode on, timestamps off, the key from the environment |
| ChatClient.ClientReplyMatchesServer | app.js:89-147 | the client's reply is the trimmed completion on success and the fixed fallback on a missing key, a non-OK status or a thrown error, exactly the text the server's `getOpenAIResponse` gives for the same outcome |
| ChatClient.Window | app.js:137-140 | the last entries of the history: exactly 20 once it is longer than 20, all of it otherwise |
| ChatClient.WindowKeepsAlternation | app.js:133-140 | pushing a user/assistant pair and cutting to 20 keeps the history at most 20 long, user-first and alternating, ending with the new pair |
| ChatClient.ChatbotState.constructor | app.js:33-39 | mood "challenging", empty messages and history, default settings |
| ChatClient.ChatbotState.GetOpenAIResponse | app.js:89-147 | no request without a key; the reply is `ClientReply`; the history gains the pair and is windowed only on success, and is unchanged on failure |
| ChatClient.ChatbotState.PushExchange | app.js:133-140 | the history becomes the window of the old history plus the pair |
| ChatClient.ChatbotState.AddMessage | app.js:299-310 | the message is appended with the current mood |
| ChatClient.ChatbotState.UpdateMoodDisplay | app.js:450-460 | the stored mood is the validated mood |
| ChatClient.ChatbotState.ClearChatHistory | app.js:350-363 | only the welcome message is left, the history is empty, and the mood is "challenging" |
| ChatClient.ChatbotState.SendMessage | app.js:492-536 | blank input is ignored; "/clear" in any case clears the history; other input is shown, answered and shown again |
| ChatClient.ChatbotState.SendCommand | app.js:498-527 | after the blank check: "/clear" in any letter case leaves only the welcome message and an empty history; any other text is shown with the mood, answered, and the answer shown |
| ChatClient.ChatbotState.SendText | app.js:505-527 | the trimmed text is shown as the user's, the reply is fetched and shown as the bot's |
| ChatClient.ChatbotState.SaveSettingsChanges | app.js:557-578 | name, toggles and intensity are stored; the colour is overwritten only when a colour is active |
| ChatClient.ChatbotState.ResetSettingsToDefault | app.js:580-584 | the default settings come back |
| ChatClient.TwoExchanges | app.js:133-140 | two successful sends leave both pairs, in order, at the end of a history that started empty |
| VoiceChat.Overlay | voice-chat.js:66-79 | saved keys override and missing keys keep the current value, key by key |
| VoiceChat.OverlayConfig | tortoise-tts.js:120-131 | saved keys override the Tortoise configuration key by key; missing keys keep it |
| VoiceChat.OverlayIdempotent | voice-chat.js:66-79 | overlaying the same saved object twice equals overlaying it once |
| VoiceChat.KeysNeverCollide | voice-chat.js:220-287 | a Tortoise cache key never equals an OpenAI cache key |
| VoiceChat.DefaultKeysShared | tortoise-tts.js:172 | with the default voice name both Tortoise implementations use the same cache key |
| VoiceChat.OpenAIAudio | voice-chat.js:275-327 | a voice outside the six gives null with no request; a cached key returns its URL with no request; otherwise one request, whose URL is cached only on success |
| VoiceChat.GogginsAudio | voice-chat.js:216-273 | a cached URL, else one request for "goggins"/"fast", cached on success; any failure falls back to OpenAI with "onyx" |
| VoiceChat.Route | voice-chat.js:329-349 | null when voice is off; `tortoise_goggins` goes to the extension's `generateTortoiseAudio` once it is installed and to the built-in one before; a voice among the six goes to OpenAI with that voice, any other to OpenAI with "onyx" |
| VoiceChat.TortoiseAudio | tortoise-tts.js:168-218 | a cached URL with no request; otherwise one request with the configured voice name and preset, whose URL is returned and cached on success; a failure calls `originalTextToSpeech` when `fallbackToDefault` is set and gives null when it is not |
| VoiceChat.Speak | tortoise-tts.js:237 | the installed `textToSpeech` runs whichever implementation is current; any call only grows the cache and the request log and changes no setting |
| VoiceChat.Call | tortoise-tts.js:221-229 | `textToSpeechWithTortoise` uses the extension only for `tortoise_goggins` with Tortoise enabled and hands everything else to `originalTextToSpeech`; the routing is voice-chat.js's `textToSpeech` |
| VoiceChat.CallOriginal | tortoise-tts.js:213 | `originalTextToSpeech` rejects while it is undefined and otherwise runs the implementation saved at setup |
| VoiceChat.InstalledDelegatesToRouting | tortoise-tts.js:221-229 | after one setup, a voice the extension does not handle gets exactly what voice-chat.js's routing gives: null with voice off, OpenAI otherwise |
| VoiceChat.FallbackNeverFinishes | tortoise-tts.js:207-217 | with the server failing and fallback on, the fallback re-enters the extension: however many calls are allowed, the call does not finish, and it sends one request more than that |
| VoiceChat.FallbackNeverFinishesInstalled | tortoise-tts.js:221-229 | the installed `textToSpeechWithTortoise` enters the same loop |
| VoiceChat.SecondSetupLoops | tortoise-tts.js:232-237 | after a second setup, `originalTextToSpeech` is the patched method itself, so a non-Tortoise voice recurses with no request and no change of state (in JavaScript a stack overflow that rejects the promise) |
| VoiceChat.ExtensionIgnoresVoiceOff | tortoise-tts.js:221-229 | the patched `textToSpeech` sends a Tortoise request even with voice turned off |
| VoiceChat.SetupTwiceSelfReferences | tortoise-tts.js:232-237 | one setup keeps the routing as the original; a second makes the original the patched method |
| VoiceChat.VoiceChatState.GenerateOpenAIAudio | voice-chat.js:275-327 | the object's state and result follow `OpenAIAudio` |
| VoiceChat.VoiceChatState.GenerateGogginsAudio | voice-chat.js:216-273 | the object's state and result follow `GogginsAudio` |
| VoiceChat.VoiceChatState.TextToSpeech | voice-chat.js:329-349 | the object's state and result follow whichever `textToSpeech` is installed |
| VoiceChat.VoiceChatState.RouteSpeech | voice-chat.js:329-349 | the object's state and result follow `Route` |
| VoiceChat.VoiceChatState.CallDispatch | tortoise-tts.js:221-229 | the object's state and result follow `Call` |
| VoiceChat.VoiceChatState.CallOriginalTextToSpeech | tortoise-tts.js:213 | the object's state and result follow `CallOriginal` |
| VoiceChat.VoiceChatState.GenerateTortoiseAudio | tortoise-tts.js:168-218 | the object's state and result follow `TortoiseAudio` |
| VoiceChat.VoiceChatState.LoadSettings | voice-chat.js:66-79 | the overlay when saved settings parse; the current settings otherwise |
| VoiceChat.VoiceChatState.ChangeVoice | voice-chat.js:488-496 | the new voice is stored and the whole audio cache is cleared |
| VoiceChat.VoiceChatState.InitTortoiseTTS | tortoise-tts.js:120-131 | saved keys override the configuration; a parse error keeps it |
| VoiceChat.VoiceChatState.SetupTortoiseTTS | tortoise-tts.js:232-241 | the installed `textToSpeech` becomes the original and the Tortoise method is installed |
| VoiceChat.VoiceChatState.Init | tortoise-tts.js:310-319 | voice settings are loaded, then the extension is set up over them |
| Auth.FindCredential | routes/auth.js:20-23 | the first account matching the email or the username; none exactly when no account matches |
| Auth.AddAccountKeepsDistinct | routes/auth.js:20-31 | registering an account whose credentials are free keeps usernames and emails distinct |
| Auth.LoginMayMatchTwoAccounts | routes/auth.js:64-67 | a login text can be one account's email and another's username; the first stored account is taken |
| Auth.DuplicateMessage | routes/auth.js:24-28 | "Email already exists" exactly when the existing account's email equals the given one, else "Username already exists" |
| Auth.RequireAuth | middleware/auth.js:2-8 | `next` exactly when a session with a user exists; otherwise 401 "Authentication required" |
| Auth.RequireAuthPage | middleware/auth.js:10-16 | `next` under the same condition; otherwise a redirect to /login |
| Auth.GatesAgree | middleware/auth.js:2-16 | the two gates let the same requests through and differ on every other request |
| Auth.StatusReply | routes/auth.js:114-122 | authenticated exactly when the session holds a user, which is reported |
| Auth.AuthServer.Register | routes/auth.js:6-53 | a missing field is 400 "All fields are required"; a password under 6 is 400; a taken credential is 400 with `DuplicateMessage`; otherwise the account is added and the session holds its id, username and email |
| Auth.AuthServer.Login | routes/auth.js:55-101 | a missing field is 400; an unknown login and a wrong password both give 401 "Invalid credentials"; a success sets `lastLogin` and the session user |
| Auth.AuthServer.Logout | routes/auth.js:103-112 | the session is destroyed, or "Logout failed" with nothing changed |
| Auth.AuthServer.Status | routes/auth.js:114-122 | the status reply for the current session |
| Auth.SignedInAfterSuccess | middleware/auth.js:2-8 | a session holding a user passes the gate and reports authenticated; one without does not |
| Auth.ErrorMessageFor | auth.js:178-186 | "chat" wins over "voice", which wins over "settings"; otherwise the generic text |
| Auth.ContextPrecedence | auth.js:178-186 | a context naming several features gets the message of the first in the order chat, voice, settings, whatever follows: "voice chat…" gives the chat message, "settings voice…" without "chat" the voice message, "settings…" without either the settings message |
| Auth.AuthManager.SetUser | auth.js:35-39 | the user is stored and `isAuthenticated` is set |
| Auth.AuthManager.CheckAuthStatus | auth.js:15-32 | an authenticated report signs the page in; anything else sends it to /login |
| Auth.AuthManager.Logout | auth.js:58-107 | nothing changes without confirmation; a successful logout clears the user and the flag and goes to /login |
| Auth.AuthManager.WrappedFetch | auth.js:124-150 | a 401 clears the user and the flag, goes to /login and yields undefined; any other response is returned as is; a thrown error is rethrown |
| Auth.AuthManager.ShowErrorNotification | auth.js:192-213 | the existing notification is removed before the new one is added, so exactly one is on the page |
| Auth.AuthManager.HandleAPIError | auth.js:168-189 | an error mentioning 401 shows no notification and runs `logout`: a confirmed, successful logout clears the user and goes to /login, anything else changes nothing; any other error shows `ErrorMessageFor(context)` and leaves the sign-in state alone |
| Cleanup.Collapse | cleanup-script.js:56-72 | `lastDebugLine` is the last kept line when that is a debug line, and "" otherwise |
| Cleanup.CollapseNoRepeats | cleanup-script.js:59-71 | no two neighbouring kept lines are the same debug line |
| Cleanup.CollapseIsSubseq | cleanup-script.js:56-72 | the debug filter's output is a subsequence of its input |
| Cleanup.CollapseKeepsOtherLines | cleanup-script.js:59-71 | every line that is not a debug line survives, in order |
| Cleanup.CollapseFixesNoRepeats | cleanup-script.js:59-71 | input without repeated debug lines passes through unchanged |
| Cleanup.CollapseKeepsUnrepeated | cleanup-script.js:62-70 | a last line that does not repeat the debug line before it is pushed after the lines kept from the rest |
| Cleanup.LastIsNew | cleanup-script.js:57-67 | over input kept whole, an unrepeated debug line never equals `lastDebugLine` once trimmed |
| Cleanup.DebugFilterIdempotent | cleanup-script.js:55-72 | applying the debug filter twice equals applying it once |
| Cleanup.CollapseDebugLines | cleanup-script.js:56-72 | the loop computes the filter: a subsequence that keeps every non-debug line and repeats no debug line |
| Cleanup.DedupSeen | cleanup-script.js:90-105 | `seen` ends as the property texts of the input, which are those of the output |
| Cleanup.DedupDistinct | cleanup-script.js:90-105 | each property text is kept once |
| Cleanup.DedupKeepsOtherLines | cleanup-script.js:93-104 | every line that is not a property line is kept, in order |
| Cleanup.DedupIsSubseq | cleanup-script.js:90-105 | the CSS pass keeps a subsequence of its input |
| Cleanup.DedupFixesDistinct | cleanup-script.js:90-105 | input whose property lines are distinct passes through unchanged |
| Cleanup.DedupKeepsNewProperty | cleanup-script.js:97-101 | a last line whose property text was not seen is pushed after the lines kept from the rest |
| Cleanup.CSSPassIdempotent | cleanup-script.js:89-105 | applying the CSS pass twice equals applying it once |
| Cleanup.DedupCSSLines | cleanup-script.js:90-105 | the loop computes the pass: a subsequence with distinct property lines, the same property texts and every other line |
| Cleanup.RemoveCommentedCode | cleanup-script.js:168-184 | exactly the lines whose trim starts with "//" and mentions TODO, FIXME, DEBUG, console.log or logger.debug are dropped: every other line keeps all its occurrences, in order (a subsequence with the input's count of each unmarked line and none of each marked one) |
| Cleanup.CommentPassStep | cleanup-script.js:168-184 | one more line keeps the pass's properties: the line is kept at the end exactly when it is not marked |
| Cleanup.CommentPassIdempotent | cleanup-script.js:168-184 | filtering again removes nothing more |
| Cleanup.UnusedConstants | cleanup-script.js:126-144 | a constant is reported exactly when it is not a substring of the concatenated sources, in the order the constants are checked |
| Cleanup.UsedConstantNotReported | cleanup-script.js:126-144 | a constant used in any one source is never reported |
| Cleanup.BoundaryMatchCountsAsUse | cleanup-script.js:127-131 | a name split across two joined sources counts as used |
| Cleanup.TwoUsesNotReported | cleanup-script.js:237-241 | two whole-word occurrences keep a required name from being reported |
| Cleanup.OneUseReported | cleanup-script.js:237-241 | a name with at most one whole-word occurrence is reported, the converse of `TwoUsesNotReported` |
| Cleanup.LongerIdentifierIsNoUse | cleanup-script.js:238 | a name inside a longer identifier is not a whole-word use |
| Cleanup.WordCountMonotone | cleanup-script.js:238-240 | counting occurrences over a longer prefix never counts fewer |
| Cleanup.Errors | cleanup-script.js:277-283 | at most one logged message per task |
| Cleanup.RunCleanup | cleanup-script.js:252-303 | a failed backup runs no task; otherwise every task runs and the messages of those that threw are logged in order |
| Synthesis.RunCascade | generate_speech.py:64-107 | the attempts made are a prefix of the plan; every attempt but the last raised; a result is the last attempt's audio; no result means every attempt raised |
| Synthesis.CascadeFailsIffAllFail | generate_speech.py:64-107 | the cascade fails exactly when every planned attempt raises |
| Synthesis.SqueezeAll | generate_speech.py:112 | `squeeze()` leaves no dimension of size 1 and keeps only dimensions of the input |
| Synthesis.SqueezeAllKeepsElements | generate_speech.py:112 | squeezing keeps the number of elements |
| Synthesis.SqueezeAllNoOnes | generate_speech.py:112 | a shape without size-1 dimensions is unchanged |
| Synthesis.SqueezeFirst | generate_speech.py:114 | `squeeze(0)` drops only a first dimension of size 1 |
| Synthesis.Reshape | generate_speech.py:111-116 | rank 3 is fully squeezed, rank 2 is squeezed on dimension 0, other ranks are unchanged |
| Synthesis.ReshapeFlattens | generate_speech.py:111-116 | `[1, 1, n]`, `[1, n]` and `[n]` all become `[n]` |
| Synthesis.ReshapeKeepsElements | generate_speech.py:111-116 | reshaping keeps the number of samples |
| Synthesis.ReshapeIdempotent | generate_speech.py:111-116 | reshaping twice equals reshaping once |
| Synthesis.JoinPath | generate_speech.py:120 | POSIX `os.path.join`: an absolute part replaces the base; otherwise it is appended directly to an empty base or one ending in "/", and with one "/" between to any other base |
| Synthesis.WavFiles | generate_speech.py:48-53 | only listed `.wav` names are kept |
| Synthesis.WavFilesComplete | generate_speech.py:48-53 | every listed `.wav` name is kept |
| Synthesis.LoadedFrom | generate_speech.py:50-52 | each kept name is loaded from its joined path |
| Synthesis.LoadVoiceSamples | generate_speech.py:48-53 | the loop loads exactly the `.wav` files of the listing, in listing order, from their joined paths |
| GenerateSpeech.PresetFor | generate_speech.py:61 | "high" gives "high_quality", "medium" gives "standard", anything else "fast" |
| GenerateSpeech.FallbackAttempt | generate_speech.py:76-87 | the manual (k, diffusion iterations, samples) are (6,200,256), (4,100,128) and (2,50,64) by quality |
| GenerateSpeech.FallbackMonotone | generate_speech.py:76-87 | a lower quality never asks for more in any of the three parameters |
| GenerateSpeech.Plan | generate_speech.py:64-107 | three attempts: the preset, then the manual configuration of the quality, then the library defaults |
| GenerateSpeech.RunScript | generate_speech.py:18-125 | a rejected command line exits 2; a missing voice directory exits 1; exit 1 exactly when all three attempts fail; otherwise the reshaped audio is written under the output directory with the given or default name |
| GenerateSpeech.OutputStaysInOutputDir | generate_speech.py:120 | a relative name lands in the output directory; an absolute name escapes it |
| TtsScript.SettingsFor | tts.py:59-74 | (samples, iterations, conditioning-free) is (1,30,off), (2,50,on), (3,100,on), (6,200,on) by preset |
| TtsScript.SettingsMonotone | tts.py:59-74 | a better preset never asks for less work |
| TtsScript.CvvpAmount | tts.py:78-80 | 0.8 exactly for "Confident" and "Angry", 0.0 otherwise |
| TtsScript.Preview | tts.py:29 | text of at most 50 characters is shown as is; longer text is cut to 50 and marked with "..." |
| TtsScript.Main | tts.py:10-107 | a rejected command line exits 2; a missing voice exits 1 before synthesis; a failing step returns 1; otherwise 0 with the audio saved at the output path; the recorded call, the one `main` sets out to make, carries the preset as given |
| CloneVoice.Slice | clone_voice.py:42-43 | a slice starts at its offset, is at most 20000 ms, is full when the recording allows, and stays inside the recording |
| CloneVoice.SplitIntoChunks | clone_voice.py:37-46 | the loop keeps exactly the chunks `KeptChunks` names |
| CloneVoice.KeptChunksShape | clone_voice.py:42-46 | the kept chunks are the full segments, then the remainder when it is at least 5000 ms |
| CloneVoice.ChunkCount | clone_voice.py:42-46 | floor(L/20000) chunks, plus one when L mod 20000 is at least 5000 |
| CloneVoice.ChunkLayout | clone_voice.py:42-46 | chunk j starts at 20000·j, lies inside the recording, lasts 5000 to 20000 ms, and only the last can be shorter than 20000 ms |
| CloneVoice.SegmentFile | clone_voice.py:54 | a segment name is a `.wav` name starting "segment_" |
| CloneVoice.SegmentFilesDistinct | clone_voice.py:54 | different segments get different names |
| CloneVoice.ExportSegments | clone_voice.py:50-56 | chunk i is exported to the i-th segment path |
| CloneVoice.ExportedSegmentLoaded | clone_voice.py:50-83 | each exported segment is among the samples loaded back from the directory |
| CloneVoice.Clone | clone_voice.py:26-154 | an unreadable recording exits 1 with nothing exported; otherwise the segments are exported, the directory loaded, the four attempts run; exit 1 exactly when all four fail, else the reshaped audio is written to high_quality_voice.wav |
| PresetCompatibility.ServerRouteRejectsOfferedPresets | generate_speech.py:27-32 | through server.js, every offered preset except "fast" makes generate_speech.py exit 2 before synthesis, and the request is answered 500 |
| PresetCompatibility.TtsRouteAcceptsOfferedPresets | tortoise-tts.js:268-271 | the tts.py route would accept every offered preset and synthesise with it |
| PresetCompatibility.DefaultPresetIsAccepted | voice-chat.js:241 | the client sends "fast" by default, and "fast" is the one offered preset generate_speech.py accepts |
| Text.TrimEmptyIff | server.js:83 | a trimmed string is empty exactly when every character is whitespace |
| Text.Pad3 | clone_voice.py:54 | only digits, reading back as the number; exactly three below 1000 and the plain rendering from 100 on |
| Text.NatToStringThreeDigits | clone_voice.py:54 | numbers below 1000 have at most three digits and numbers from 100 at least three |

## Left out

- I/O, the DOM and the UI are left out: element creation, event listeners, the settings panel, notifications markup, speech recognition and playback. A redirect is the `location` field of `AuthManager`.
- MongoDB is an in-memory map. `findOne` is a lookup and `save` is validation plus the pre-save hook. Concurrent read-modify-save races between requests are not modelled.
- UserModel.GetConversationStats: its contract does not state `totalMessages` as a sum; the `TotalMessages` lemmas state how each operation changes that total.
- DatabaseService.UserStore.GetOrCreateUser: requires a non-empty session id. The middleware always sets one, and an empty id would fail Mongoose's `required` check.
- DatabaseService.SortByRecency: the sort is proved to be a newest-first permutation. Stability for equal times, which JavaScript's sort has, is not proved.
- `getUserStats`, `cleanupOldConversations` and `getAllUsers` of services/DatabaseService.js are not part of this model. The other routes of server.js only forward to the store.
- md5, the clock, `Math.random`, the OpenAI calls, the Tortoise server and the Python processes are parameters: a hash function, a `now` value, a scripted reply list, an exit status, or a `synth` function from attempt to output shape.
- Case folding is ASCII only. JavaScript's `trim` is modelled on the common whitespace characters.
- ChatClient.ChatbotState.SendMessage: its `catch` branch is unreachable in the model, because `ClientReply` never throws. The random typing delay is left out.
- TortoiseTtsRoute.RoutePrepare: the script path is the installation directory, "/" and `tts.py`. The normalisation `path.join` applies to that directory (a trailing "/", `.` and `..` segments) is not modelled.
- DatabaseService.Summarize: `isCurrent` is `null` in the source when there is no current conversation (`null && …`); the model has `false`; both are falsy in JavaScript.
- VoiceChat.SecondSetupLoops: the stack overflow of the synchronous self-call and the rejected promise that follows are not modelled; the model has no stack, so the call is `Unfinished` for any fuel.
- ChatServer.RunChatTurn: the trace records the intensity that picks the system prompt rather than the prompt text. `ChatServer.SystemPromptShape` and `ChatServer.SystemPromptsDistinct` relate the two.
- VoiceChat.Speak: the recursion through `originalTextToSpeech` takes a fuel bound. Running out is the result `Unfinished`, which stands for a call that has not finished.
- VoiceChat.VoiceChatState.Init: a voice setting's `speed` is held as the text JavaScript prints for the number, because it is only used inside the cache key and the request body.
- `localStorage` and `JSON.parse` are external. A saved settings object is absent, unparsable or a set of present keys.
- Cleanup: the regex rewrites (the logger removal, the error-handling consolidation, empty-function detection) and file reads, writes and backups are left out. The `require` names are an input to `UnusedRequire`.
- Synthesis: audio arrays, sample rates, normalisation and the floating-point sampling arguments are not modelled. An attempt's result is the shape of the tensor it returns.
- GenerateSpeech.RunScript: an unwritable output directory is not modelled. The server passes only a file name, so the script writes under its own working directory, which the model takes as a parameter.
- TtsScript.Main: the `--seed` value is carried through. An integer that argparse cannot read is not modelled. The settings table and the CVVP amount are computed and, as in the script, never reach the synthesis call. Which step raised (building `TextToSpeech` at tts.py:41, `load_voice` at tts.py:56, synthesis or saving) is one flag, so `call` is the call `main` sets out to make and is recorded even when an earlier step raised.
- CloneVoice.Clone: the text of the generated helper script that clone_voice.py writes (lines 160-279) is not modelled.
- Text.Split: splitting and joining are proved inverse in one direction only (joining the pieces gives the input).

## Findings

| source | as written | input that shows it | evidently intended | confidence | as-written member | corrected member |
|---|---|---|---|---|---|---|
| server.js:474-479 | the forced kill checks `pythonProcess.killed`, which Node sets as soon as the SIGTERM of line 472 is delivered | a Python process that ignores SIGTERM after the 10-minute timeout: SIGTERM is delivered, `killed` is true, and SIGKILL is never sent | send SIGKILL when the process is still running five seconds after the timeout | not executed | TortoiseRoute.DeliveredTermNeverEscalates | TortoiseRoute.RunningProcessIsForceKilled |
