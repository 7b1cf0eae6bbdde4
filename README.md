# LocalLLM_RAG: a verified model of the chat and retrieval core

LocalLLM_RAG is a local question-answering application. A Python backend
indexes uploaded documents in a vector store, retrieves the passages that
match a question and asks a local Ollama model for an answer. A browser
front end (a Svelte application, plus an older plain-JavaScript page)
streams that answer, renders it, and keeps the conversation history and the
user's settings in local storage.

This project models the parts of that system that have behaviour worth
stating precisely, and proves properties of the model:

- `ChatStates` / `ChatStore`: the Svelte conversation store. The state
  `{chats, currentChatId}` is a value, each store operation is a function on
  it, and class `ChatStore.Store` holds the state, replaces it in each
  method and records the last state written to storage in a ghost field.
- `ChatApi`: the request-body defaults and `processStream`, the client's
  reader of the server-sent stream. The loop over reads and lines is a
  method proved equal to a left fold (`StreamEvents`). The bookkeeping of
  `charCount` and `firstChunkTime` and the shape of the callbacks are proved
  about that fold. The fold is also proved to undo the server's
  `data: <chunk>\n\n` framing.
- `LegacyScript`: the history logic of the older page (`script.js`). It is a
  class whose methods change `chatHistory` and `currentChatId` in place.
- `SettingsValues` / `SettingsStore`: the settings record, the key-by-key
  merge that every settings operation is built from, the presets, the
  defaults and loading, and a store class.
- `Markdown`: `renderMarkdown`, each regular-expression rewrite as a
  left-to-right scanner, with the escape as a character-level function.
- `Character`: the assistant's display name.
- `RagRanking` / `RagService`: the backend pipeline. This covers extension
  dispatch, tagging of chunks, query expansion, the dedup loop, the sort,
  the score threshold and top-k, the context and prompt, source labels,
  and the sorted document list. The vector store and the language model
  are function parameters.
- `PromptTemplates`: the prompt templates as sequences of literal text and
  placeholders, with `str.format` and the three builders.
- `Text`, `Wrappers`: shared string helpers (JavaScript `trim`, Python
  `strip`, `split`, `join`, decimal digits) and `Option`/`Result`.

Times (`Date.now()`) are integer parameters. JSON parsing is a parameter
that may fail, and storage is a ghost "last saved" field.

## Model

| member | source | states |
|---|---|---|
| ChatStates.ChatId | frontend-svelte/src/lib/stores/chatStore.ts:61 | a chat id is `chat_` followed by the digits of the time |
| ChatStates.ChatIdInjective | frontend-svelte/src/lib/stores/chatStore.ts:61 | chats created at different times get different ids |
| ChatStates.DerivedTitle | frontend-svelte/src/lib/stores/chatStore.ts:99-108 | the title is the content when it has at most 30 characters, otherwise its first 30 characters followed by `...` |
| ChatStates.LoadInitialState | frontend-svelte/src/lib/stores/chatStore.ts:22-37 | nothing stored, an empty string or a parse failure gives the empty state; otherwise the parsed state |
| ChatStates.CreateNewChat | frontend-svelte/src/lib/stores/chatStore.ts:58-76 | the new chat (placeholder title, no messages, timestamps `now`) comes first and becomes current; the old chats follow in order |
| ChatStates.SelectChat | frontend-svelte/src/lib/stores/chatStore.ts:79-85 | only the current id changes |
| ChatStates.MapChat | frontend-svelte/src/lib/stores/chatStore.ts:90 | the chat with the id is transformed and every other chat is kept, position by position |
| ChatStates.MapUnknown | frontend-svelte/src/lib/stores/chatStore.ts:90 | an id that names no chat leaves the list unchanged |
| ChatStates.WithMessage | frontend-svelte/src/lib/stores/chatStore.ts:91-113 | the message is appended at the end; the title is derived only when it is still the placeholder, the role is user and the chat had no message |
| ChatStates.AddMessage | frontend-svelte/src/lib/stores/chatStore.ts:88-119 | the chat with the id gets the message appended, every other chat is unchanged, an unknown id changes nothing |
| ChatStates.TitleIsDerivedOnce | frontend-svelte/src/lib/stores/chatStore.ts:99-108 | a chat that already has messages keeps its title |
| ChatStates.UpdateLast | frontend-svelte/src/lib/stores/chatStore.ts:127-134 | only the last message is rewritten; the length is kept and an empty list stays empty |
| ChatStates.WithLastMessage | frontend-svelte/src/lib/stores/chatStore.ts:125-137 | a chat keeps its id, title and creation time, gets the new update time, and only its last message is rewritten |
| ChatStates.SetContent | frontend-svelte/src/lib/stores/chatStore.ts:128-131 | the message gets the new content and nothing else changes |
| ChatStates.SetSources | frontend-svelte/src/lib/stores/chatStore.ts:159-163 | the message gets the sources and the quality score and nothing else changes |
| ChatStates.SetSpeed | frontend-svelte/src/lib/stores/chatStore.ts:192-197 | the message gets the three timings and nothing else changes |
| ChatStates.UpdateLastMessage | frontend-svelte/src/lib/stores/chatStore.ts:122-146 | only the chat with the id has its last message's content replaced; an unknown id changes nothing |
| ChatStates.UpdateLastMessageSources | frontend-svelte/src/lib/stores/chatStore.ts:149-178 | only the chat with the id has its last message's sources and quality score set |
| ChatStates.UpdateLastMessageSpeed | frontend-svelte/src/lib/stores/chatStore.ts:181-212 | only the chat with the id has its last message's three timings set |
| ChatStates.UpdateLastMessageKeepsOthers | frontend-svelte/src/lib/stores/chatStore.ts:122-146 | the count and the earlier messages are kept, the last message differs only in its content, an empty list stays empty |
| ChatStates.UpdateSourcesKeepsOthers | frontend-svelte/src/lib/stores/chatStore.ts:149-178 | the last message differs only in `sources` and `qualityScore` |
| ChatStates.UpdateSpeedKeepsOthers | frontend-svelte/src/lib/stores/chatStore.ts:181-212 | the last message differs only in `responseTime`, `generationTime` and `speed` |
| ChatStates.RenameChat | frontend-svelte/src/lib/stores/chatStore.ts:215-232 | only the chat with the id gets the new title and time |
| ChatStates.RemoveChat | frontend-svelte/src/lib/stores/chatStore.ts:237 | no chat with the id remains, and an unknown id changes nothing |
| ChatStates.RemoveChatMembers | frontend-svelte/src/lib/stores/chatStore.ts:237 | a chat survives exactly when it was there and has a different id |
| ChatStates.DeleteChat | frontend-svelte/src/lib/stores/chatStore.ts:235-249 | the chats are filtered; if the deleted id was current, the first remaining chat (or none) becomes current, otherwise the current id is kept |
| ChatStates.ClearAll | frontend-svelte/src/lib/stores/chatStore.ts:252-259 | no chats and no current id |
| ChatStates.FindChat | frontend-svelte/src/lib/stores/chatStore.ts:268 | `find`: none exactly when no chat has the id, otherwise the first chat with it |
| ChatStates.CurrentChat | frontend-svelte/src/lib/stores/chatStore.ts:266-269 | no current chat when the id is null or empty, otherwise the first chat with that id |
| ChatStates.CreatedChatIsCurrent | frontend-svelte/src/lib/stores/chatStore.ts:58-76 | after creating, the current chat is the new empty chat |
| ChatStates.SelectedChatIsCurrent | frontend-svelte/src/lib/stores/chatStore.ts:79-85 | after selecting, the current chat is the first chat with that id |
| ChatStates.DeleteCurrentSelectsFirst | frontend-svelte/src/lib/stores/chatStore.ts:240-244 | deleting the current chat leaves no current chat or the first remaining chat |
| ChatStates.DeletedChatIsGone | frontend-svelte/src/lib/stores/chatStore.ts:237 | after deleting, no chat with the id can be found |
| ChatStates.AddMessageToCurrent | frontend-svelte/src/lib/stores/chatStore.ts:88-119 | adding to the current chat makes its messages the old ones plus the new one |
| ChatStates.FindAt | frontend-svelte/src/lib/stores/chatStore.ts:268 | the first chat with the id is the one found |
| ChatStore.Store.constructor | frontend-svelte/src/lib/stores/chatStore.ts:40-42 | the store starts from the loaded state and nothing is saved yet |
| ChatStore.Store.Current | frontend-svelte/src/lib/stores/chatStore.ts:266-269 | a current chat is a member of the list and carries the current id; none means no id, an empty id or an unknown id |
| ChatStore.Store.CreateNewChat | frontend-svelte/src/lib/stores/chatStore.ts:58-76 | the new state is `CreateNewChat` of the old one and is what was saved |
| ChatStore.Store.SelectChat | frontend-svelte/src/lib/stores/chatStore.ts:79-85 | the new state is `SelectChat` of the old one and is what was saved |
| ChatStore.Store.AddMessage | frontend-svelte/src/lib/stores/chatStore.ts:88-119 | the new state is `AddMessage` of the old one and is what was saved |
| ChatStore.Store.UpdateLastMessage | frontend-svelte/src/lib/stores/chatStore.ts:122-146 | the new state is `UpdateLastMessage` of the old one and is what was saved |
| ChatStore.Store.UpdateLastMessageSources | frontend-svelte/src/lib/stores/chatStore.ts:149-178 | the new state is `UpdateLastMessageSources` of the old one and is what was saved |
| ChatStore.Store.UpdateLastMessageSpeed | frontend-svelte/src/lib/stores/chatStore.ts:181-212 | the new state is `UpdateLastMessageSpeed` of the old one and is what was saved |
| ChatStore.Store.RenameChat | frontend-svelte/src/lib/stores/chatStore.ts:215-232 | the new state is `RenameChat` of the old one and is what was saved |
| ChatStore.Store.DeleteChat | frontend-svelte/src/lib/stores/chatStore.ts:235-249 | the new state is `DeleteChat` of the old one and is what was saved |
| ChatStore.Store.ClearAll | frontend-svelte/src/lib/stores/chatStore.ts:252-259 | the state becomes empty and the empty state is saved |
| ChatApi.Spread | frontend-svelte/src/lib/api/chat.ts:47-53 | every key of `{...base, ...over}` is the overriding value when present, else the base value; no options leave the base unchanged |
| ChatApi.Override | frontend-svelte/src/lib/api/chat.ts:47-53 | one key of a spread is present when either object has it, and the overriding value wins |
| ChatApi.StreamRequestBody | frontend-svelte/src/lib/api/chat.ts:47-53 | the body is the options with `question`, `stream`, `use_rag` and `use_hybrid_search` filled in (the argument, true, true, true) where the options lack them; every other key is exactly the options' |
| ChatApi.PlainRequestBody | frontend-svelte/src/lib/api/chat.ts:179-184 | the body is the options with `question`, `stream` and `use_rag` filled in (the argument, false, true) where the options lack them; every other key is exactly the options' |
| ChatApi.SpreadIdempotent | frontend-svelte/src/lib/api/chat.ts:47-53 | spreading the same options twice is spreading them once |
| ChatApi.UntilLineEnd | frontend-svelte/src/lib/api/chat.ts:125 | what `(.*)` captures: the longest prefix with no line terminator, so it stops only at a terminator or the end |
| ChatApi.SourcesJson | frontend-svelte/src/lib/api/chat.ts:125-127 | the match succeeds exactly when the payload contains `__SOURCES__:` |
| ChatApi.ControlEvents | frontend-svelte/src/lib/api/chat.ts:121-138 | a control payload produces at most one callback, and only `onSources` |
| ChatApi.StepPayload | frontend-svelte/src/lib/api/chat.ts:118-158 | one payload: a blank one does nothing; the count never falls, a set `firstChunkTime` is kept, and nothing completes |
| ChatApi.StepLine | frontend-svelte/src/lib/api/chat.ts:117-160 | a line not starting with `data: ` does nothing; otherwise the same as its payload |
| ChatApi.StepLines | frontend-svelte/src/lib/api/chat.ts:116-162 | over the lines of one read the count never falls, a set `firstChunkTime` is kept, and nothing completes |
| ChatApi.StepReads | frontend-svelte/src/lib/api/chat.ts:98-163 | over all reads the count never falls, a set `firstChunkTime` is kept, and nothing completes |
| ChatApi.FinalEvents | frontend-svelte/src/lib/api/chat.ts:101-111 | a read error adds nothing; the end of the stream adds an optional speed report and then `onComplete`, last |
| ChatApi.StreamEvents | frontend-svelte/src/lib/api/chat.ts:83-170 | a normal end makes `onComplete` the last call; a read error never calls it |
| ChatApi.StepLinesSnoc | frontend-svelte/src/lib/api/chat.ts:116-162 | processing one more line extends the events and threads the counters |
| ChatApi.StepReadsSnoc | frontend-svelte/src/lib/api/chat.ts:98-163 | processing one more read extends the events and threads the counters |
| ChatApi.ProcessLine | frontend-svelte/src/lib/api/chat.ts:117-160 | the line step of the loop computes the counters and callbacks of the specification `StepLine` |
| ChatApi.ProcessRead | frontend-svelte/src/lib/api/chat.ts:113-162 | one read is split on `\n` alone, each line is processed in order, and the result is `StepLines` of the split |
| ChatApi.ProcessStream | frontend-svelte/src/lib/api/chat.ts:83-170 | the callbacks are exactly `StreamEvents`; the outcome is completion at end of stream and failure on a read error |
| ChatApi.TextsAppend | frontend-svelte/src/lib/api/chat.ts:150 | the texts passed to `onChunk`, and their total length, add up across concatenated event lists |
| ChatApi.TextsWithoutChunks | frontend-svelte/src/lib/api/chat.ts:150 | events without `onChunk` carry no text |
| ChatApi.ChunkThenOthers | frontend-svelte/src/lib/api/chat.ts:150-158 | one chunk followed by a speed report carries exactly that chunk |
| ChatApi.GuardsAppend | frontend-svelte/src/lib/api/chat.ts:119-158 | clean texts and guarded speed reports stay so when concatenated |
| ChatApi.StepLineInvariant | frontend-svelte/src/lib/api/chat.ts:117-160 | one line keeps the stream invariant: the count grows by the text forwarded, no forwarded text is blank or holds `__SOURCES__`, speed needs a set first-chunk time and a positive count, nothing completes |
| ChatApi.StepInvariantCompose | frontend-svelte/src/lib/api/chat.ts:116-162 | the stream invariant composes across consecutive steps |
| ChatApi.StepLinesInvariant | frontend-svelte/src/lib/api/chat.ts:116-162 | any sequence of lines keeps the stream invariant |
| ChatApi.StepReadsInvariant | frontend-svelte/src/lib/api/chat.ts:98-163 | any sequence of reads keeps the stream invariant |
| ChatApi.FinalEventsShape | frontend-svelte/src/lib/api/chat.ts:101-111 | at the end a speed report only with a set first-chunk time and a positive count, then `onComplete` exactly once and last; nothing after a read error |
| ChatApi.StreamCharCount | frontend-svelte/src/lib/api/chat.ts:146-150 | `charCount` equals the total length of the payloads passed to `onChunk` |
| ChatApi.StreamProperties | frontend-svelte/src/lib/api/chat.ts:83-170 | for a whole stream: forwarded text is never blank nor a control payload, speed reports are guarded, `onComplete` comes exactly once and last on a normal end and never on an error |
| ChatApi.FirstChunkTimeStable | frontend-svelte/src/lib/api/chat.ts:141-143 | `firstChunkTime`, once set, never changes; it stays unset exactly while no text has been forwarded |
| ChatApi.StepLinesAppend | frontend-svelte/src/lib/api/chat.ts:116-162 | processing two runs of lines is processing the first, then the second from where it left off |
| ChatApi.StepLinesWithoutData | frontend-svelte/src/lib/api/chat.ts:117 | lines not starting with `data: ` change nothing |
| ChatApi.FramedLines | main.py:116 | a framed chunk splits into its `data:` line and an empty line |
| ChatApi.Frame | main.py:116 | a frame is `data: `, the chunk verbatim, then a blank line |
| ChatApi.Encode | main.py:112-117 | the frames of the chunks back to back; empty exactly when there are no chunks |
| ChatApi.TextLine | frontend-svelte/src/lib/api/chat.ts:117-150 | a `data:` line with non-blank, marker-free text forwards exactly that text |
| ChatApi.TextFrameLines | frontend-svelte/src/lib/api/chat.ts:113-150 | the two lines of one frame forward exactly its chunk |
| ChatApi.EncodeRoundTrip | main.py:116 | the lines of any sequence of framed text chunks forward exactly those chunks, in order |
| ChatApi.OneRead | frontend-svelte/src/lib/api/chat.ts:113-114 | a single read is processed as its own split |
| ChatApi.StreamTexts | frontend-svelte/src/lib/api/chat.ts:101-111 | the end of the stream adds no text |
| ChatApi.StreamRoundTrip | frontend-svelte/src/lib/api/chat.ts:113-150 | framed chunks delivered in one read and followed by the end produce exactly one `onChunk` per chunk, in order |
| ChatApi.OneLine | frontend-svelte/src/lib/api/chat.ts:116 | processing a one-line list is processing that line |
| ChatApi.HeadOfSplitFrame | frontend-svelte/src/lib/api/chat.ts:113-114 | a frame cut before its line end still forwards its chunk from the first read |
| ChatApi.TailOfSplitFrame | frontend-svelte/src/lib/api/chat.ts:113-117 | the rest of a cut frame, read on its own, is ignored |
| ChatApi.SplitFrameIsTruncated | frontend-svelte/src/lib/api/chat.ts:113-114 | a frame split across two reads forwards only the part in the first read, because no partial line is carried over |
| ChatApi.ControlFrame | frontend-svelte/src/lib/api/chat.ts:121-134 | a parsed control payload calls `onSources` with `source_scores` or `[]` and `quality_score` or 0, and counts nothing |
| ChatApi.UntilLineEndAll | frontend-svelte/src/lib/api/chat.ts:125 | on a single line `(.*)` captures everything |
| LegacyScript.NewChat | frontend/js/script.js:41-49 | a new chat has id `chat_` plus the time, the placeholder title and no messages |
| LegacyScript.WithNewChat | frontend/js/script.js:41-51 | the new chat is appended at the end and becomes current |
| LegacyScript.FindIndex | frontend/js/script.js:119-120 | `find`: none exactly when no chat has the id, otherwise the first index with it |
| LegacyScript.WithLoadedChat | frontend/js/script.js:76-80 | an unknown id changes nothing; a known id becomes current |
| LegacyScript.UserCount | frontend/js/script.js:125 | the count of user messages is zero exactly when there is none |
| LegacyScript.LegacyTitle | frontend/js/script.js:126 | the first 30 characters, with `...` only when the text is longer |
| LegacyScript.TitlesAgree | frontend/js/script.js:126 | the old page's title rule cuts text exactly as the Svelte store's does |
| LegacyScript.SavedTo | frontend/js/script.js:122-129 | the record is appended, the date refreshed, and the title set when this is the first user message, whatever the current title |
| LegacyScript.SaveMessage | frontend/js/script.js:114-132 | without a current chat one is created first; then exactly the current chat gets the record and the others are unchanged |
| LegacyScript.SaveWithoutCurrent | frontend/js/script.js:115-127 | saving with no current chat appends a new chat holding just the record and titled by it when it is a user message |
| LegacyScript.TitleRulesDiffer | frontend/js/script.js:125-127 | a renamed chat with only non-user messages is retitled by the old page, while a store chat with that title keeps it whatever its messages |
| LegacyScript.LegacyHistory.constructor | frontend/js/script.js:11-17 | the history is the parsed stored list, empty when nothing is stored; stored text that does not parse sets `loadFailed` (the uncaught throw) and leaves the history empty; no chat is current |
| LegacyScript.LegacyHistory.CreateNewChat | frontend/js/script.js:41-51 | the history becomes `WithNewChat` of the old one and is saved |
| LegacyScript.LegacyHistory.LoadChat | frontend/js/script.js:76-80 | the history becomes `WithLoadedChat` of the old one; nothing is saved |
| LegacyScript.LegacyHistory.SaveMessageToHistory | frontend/js/script.js:114-132 | the history becomes `SaveMessage` of the old one; it is saved whenever the current chat is found, and storage is untouched when a current id names no chat |
| LegacyScript.LegacyHistory.SendQuestion | frontend/js/script.js:396-419 | blank input after `trim()` does nothing; otherwise the trimmed question is saved as a user message and the request carries `model` only when one is selected |
| SettingsValues.Merge | frontend-svelte/src/lib/stores/settingsStore.ts:139 | an empty patch leaves the settings unchanged |
| SettingsValues.Combine | frontend-svelte/src/lib/stores/settingsStore.ts:139 | an empty object on either side of `{...p, ...q}` gives the other |
| SettingsValues.AsPatch | frontend-svelte/src/lib/stores/settingsStore.ts:106-109 | a whole settings object spread over the defaults gives that object back |
| SettingsValues.TuningPatch | frontend-svelte/src/lib/stores/settingsStore.ts:148-153 | spreading a preset's values sets exactly the six tuning values and leaves `preset`, the character, the prompt and the model alone |
| SettingsValues.CharacterPrompt | frontend-svelte/src/lib/stores/settingsStore.ts:75-82 | the prompt is empty exactly for `none` |
| SettingsValues.Defaults | frontend-svelte/src/lib/stores/settingsStore.ts:85-97 | the defaults carry `balanced` and its values, no character and its empty prompt, and none of the optional model options |
| SettingsValues.MergeOverrides | frontend-svelte/src/lib/stores/settingsStore.ts:139 | each of the 22 keys takes the patch's value when the patch has it and keeps its old value otherwise |
| SettingsValues.MergeWhole | frontend-svelte/src/lib/stores/settingsStore.ts:109 | a patch holding every key of a record gives that record back |
| SettingsValues.MergeIdempotent | frontend-svelte/src/lib/stores/settingsStore.ts:139 | applying the same update twice is applying it once |
| SettingsValues.MergeCombine | frontend-svelte/src/lib/stores/settingsStore.ts:139 | two updates in a row are one update with the later keys winning |
| SettingsValues.PresetValues | frontend-svelte/src/lib/stores/settingsStore.ts:47-72 | every preset has temperature and top-p in (0, 1), a repeat penalty above 1, and as many documents as its search multiplier |
| SettingsValues.DefaultsAreBalanced | frontend-svelte/src/lib/stores/settingsStore.ts:85-97 | the defaults carry the balanced preset and exactly its values, no character, an empty prompt and model, RAG and hybrid search on, expansion off |
| SettingsValues.LoadSettings | frontend-svelte/src/lib/stores/settingsStore.ts:102-116 | nothing stored, an empty string or a parse failure gives the defaults |
| SettingsValues.LoadedKeysOverrideDefaults | frontend-svelte/src/lib/stores/settingsStore.ts:106-109 | stored keys override the defaults and missing keys fall back to them |
| SettingsValues.SaveLoadRoundTrip | frontend-svelte/src/lib/stores/settingsStore.ts:102-131 | loading what was saved gives the saved settings back |
| SettingsValues.ApplyPreset | frontend-svelte/src/lib/stores/settingsStore.ts:146-157 | `preset` and the six tuning values are the preset's; nothing else changes |
| SettingsValues.ApplyCharacterPreset | frontend-svelte/src/lib/stores/settingsStore.ts:160-172 | `character_preset` and the system prompt are the character's; nothing else changes |
| SettingsValues.MergeCharacter | frontend-svelte/src/lib/stores/settingsStore.ts:164-168 | spreading a character and its prompt changes exactly those two keys |
| SettingsValues.ApplyPresetIdempotent | frontend-svelte/src/lib/stores/settingsStore.ts:146-157 | applying a preset twice is applying it once |
| SettingsValues.ApplyCharacterIdempotent | frontend-svelte/src/lib/stores/settingsStore.ts:160-172 | applying a character twice is applying it once |
| SettingsValues.PresetsCommute | frontend-svelte/src/lib/stores/settingsStore.ts:146-172 | a tuning preset and a character preset can be applied in either order |
| SettingsValues.DefaultsAreFixedPoint | frontend-svelte/src/lib/stores/settingsStore.ts:85-97 | applying `balanced` or `none` to the defaults changes nothing |
| SettingsStore.Store.constructor | frontend-svelte/src/lib/stores/settingsStore.ts:120 | the store starts from the loaded settings and nothing is saved yet |
| SettingsStore.Store.Update | frontend-svelte/src/lib/stores/settingsStore.ts:137-143 | the settings become the merge and exactly that is saved |
| SettingsStore.Store.ApplyPreset | frontend-svelte/src/lib/stores/settingsStore.ts:146-157 | the settings become `ApplyPreset` of the old ones and exactly that is saved |
| SettingsStore.Store.ApplyCharacterPreset | frontend-svelte/src/lib/stores/settingsStore.ts:160-172 | the settings become `ApplyCharacterPreset` of the old ones and exactly that is saved |
| SettingsStore.Store.Reset | frontend-svelte/src/lib/stores/settingsStore.ts:175-178 | the settings and the saved value become the defaults |
| Markdown.EscapeChar | frontend-svelte/src/lib/utils/markdown.ts:32-36 | an escaped character contains no `<` or `>`; an ordinary character is kept |
| Markdown.Escape | frontend-svelte/src/lib/utils/markdown.ts:46 | the escaped text contains no `<` or `>`, and text without special characters is unchanged |
| Markdown.UnescapeChar | frontend-svelte/src/lib/utils/markdown.ts:32-36 | decoding undoes the escape of one character |
| Markdown.EscapeRoundTrip | frontend-svelte/src/lib/utils/markdown.ts:32-36 | decoding the escaped text gives the text back |
| Markdown.Newlines | frontend-svelte/src/lib/utils/markdown.ts:49 | no line feed remains and only markup is added |
| Markdown.StarFreeRun | frontend-svelte/src/lib/utils/markdown.ts:52 | the longest run without `*`, as `[^*]+` matches |
| Markdown.BoldMatch | frontend-svelte/src/lib/utils/markdown.ts:52 | a match is `**`, a non-empty run without `*`, then `**` |
| Markdown.Strong | frontend-svelte/src/lib/utils/markdown.ts:52 | the replacement adds only markup |
| Markdown.Bold | frontend-svelte/src/lib/utils/markdown.ts:52 | the bold pass adds only markup and leaves text without `*` unchanged |
| Markdown.BoldSkipsPlainText | frontend-svelte/src/lib/utils/markdown.ts:52 | text before the first `*` passes through the bold rewrite unchanged |
| Markdown.BoldSpan | frontend-svelte/src/lib/utils/markdown.ts:52 | `**X**` with X non-empty and free of `*` becomes `<br><strong>X</strong><br>` |
| Markdown.StarFreeRunOf | frontend-svelte/src/lib/utils/markdown.ts:52 | the run stops at the first `*` |
| Markdown.Bullets | frontend-svelte/src/lib/utils/markdown.ts:55 | each `*` becomes `●` and every other character stays in its place |
| Markdown.SpaceRun | frontend-svelte/src/lib/utils/markdown.ts:60 | what `\s*` consumes |
| Markdown.SpaceRunOf | frontend-svelte/src/lib/utils/markdown.ts:60 | the greedy `\s*` takes exactly a whitespace run up to the first other character |
| Markdown.BulletJoin | frontend-svelte/src/lib/utils/markdown.ts:60 | only markup is added; text without `●` is unchanged |
| Markdown.BulletJoinEnd | frontend-svelte/src/lib/utils/markdown.ts:60 | a match at the front ends at least five characters in, within the text |
| Markdown.BulletJoinSpan | frontend-svelte/src/lib/utils/markdown.ts:60 | `●`, a whitespace run, `<br>` and a whitespace run become `● `, and the rest is joined from the first character the run does not take |
| Markdown.BulletJoinEndOf | frontend-svelte/src/lib/utils/markdown.ts:60 | a match over `●`, two whitespace runs and `<br>` ends right after the second run |
| Markdown.BulletJoinMatch | frontend-svelte/src/lib/utils/markdown.ts:60 | where a match starts, the result is `● ` and the join of the text after the match |
| Markdown.BulletJoinCopies | frontend-svelte/src/lib/utils/markdown.ts:60 | a character other than `●` is copied |
| Markdown.BulletBreak | frontend-svelte/src/lib/utils/markdown.ts:63 | only markup is added; text without `●` is unchanged |
| Markdown.BulletBreakSpan | frontend-svelte/src/lib/utils/markdown.ts:63 | `x● ` with `x` other than `>` becomes `x<br><br>● ` |
| Markdown.BulletBreakBrSpan | frontend-svelte/src/lib/utils/markdown.ts:63 | `x<br>● ` with `x` other than `>` becomes `x<br><br>● ` |
| Markdown.BulletBreakAfterTag | frontend-svelte/src/lib/utils/markdown.ts:63 | a bullet right after `>` gets no blank line |
| Markdown.BrRun | frontend-svelte/src/lib/utils/markdown.ts:66 | the number of consecutive `<br>` at the front |
| Markdown.Collapse | frontend-svelte/src/lib/utils/markdown.ts:66 | the collapse keeps the empty text empty and the first character in place |
| Markdown.CollapseKeepsChars | frontend-svelte/src/lib/utils/markdown.ts:66 | the collapse only drops characters |
| Markdown.CollapseWithoutLt | frontend-svelte/src/lib/utils/markdown.ts:66 | text without `<` is unchanged |
| Markdown.BrRunCons | frontend-svelte/src/lib/utils/markdown.ts:66 | a leading `<br>` adds one to the run |
| Markdown.BrRunNotLt | frontend-svelte/src/lib/utils/markdown.ts:66 | text not starting with `<` has no run |
| Markdown.CollapseCopies | frontend-svelte/src/lib/utils/markdown.ts:66 | a character outside a run of three is copied |
| Markdown.CollapseCopiesBr | frontend-svelte/src/lib/utils/markdown.ts:66 | a run of one or two `<br>` is copied |
| Markdown.CollapseBrCons | frontend-svelte/src/lib/utils/markdown.ts:66 | a `<br>` that opens no run of three is copied |
| Markdown.CollapseCons | frontend-svelte/src/lib/utils/markdown.ts:66 | a character other than `<` is copied |
| Markdown.CollapseLongRun | frontend-svelte/src/lib/utils/markdown.ts:66 | a run of three or more becomes exactly two `<br>` |
| Markdown.CollapseLeadingRun | frontend-svelte/src/lib/utils/markdown.ts:66 | the collapsed text starts with at most two `<br>` |
| Markdown.CollapseNoRun | frontend-svelte/src/lib/utils/markdown.ts:66 | text not starting with `<br>` does not start with it after the collapse |
| Markdown.CollapseNoRunLong | frontend-svelte/src/lib/utils/markdown.ts:66 | the same for text starting with a `<` that opens no `<br>` |
| Markdown.CollapseShort | frontend-svelte/src/lib/utils/markdown.ts:66 | text shorter than a `<br>` is unchanged |
| Markdown.LongRunSuffixes | frontend-svelte/src/lib/utils/markdown.ts:66 | a collapsed long run leaves no triple `<br>` |
| Markdown.TwoBrSuffixes | frontend-svelte/src/lib/utils/markdown.ts:66 | two `<br>` before text without a run leave no triple `<br>` |
| Markdown.PrefixSuffixes | frontend-svelte/src/lib/utils/markdown.ts:66 | no suffix inside the two `<br>` starts a triple |
| Markdown.ShiftedSuffixes | frontend-svelte/src/lib/utils/markdown.ts:66 | the suffixes after the two `<br>` are those of the text, so none starts a triple |
| Markdown.CollapseLeavesNoTriple | frontend-svelte/src/lib/utils/markdown.ts:66 | right after the collapse no run of three or more `<br>` remains |
| Markdown.PeriodBreaksAsWritten | frontend-svelte/src/lib/utils/markdown.ts:69 | the period rule as written adds only markup, keeps the first character and leaves text without `。` unchanged |
| Markdown.PeriodBreaksAsWrittenBreaks | frontend-svelte/src/lib/utils/markdown.ts:69 | as written, a `。` still followed by an ordinary character directly follows `。<br>`: it is the character a match consumed |
| Markdown.PeriodBreaksAsWrittenCases | frontend-svelte/src/lib/utils/markdown.ts:69 | as written: a `。` before whitespace, a digit, `）`, `」`, `』`, `●` or `<` is left alone; before any other character it gets `<br>` and that character is consumed; other characters are copied |
| Markdown.PeriodAfterPeriodIsMissed | frontend-svelte/src/lib/utils/markdown.ts:69 | as written, `。。a` leaves the second `。` followed by `a` |
| Markdown.PeriodBreaks | frontend-svelte/src/lib/utils/markdown.ts:69 | after every `。` comes whitespace, a digit, a closing bracket, `●` or `<`; only markup is added |
| Markdown.PeriodBreaksCases | frontend-svelte/src/lib/utils/markdown.ts:69 | corrected: a `。` before an excluded character is left alone; before any other it gets `<br>` and the next character is tested in turn; other characters are copied |
| Markdown.PeriodAfterPeriodIsBroken | frontend-svelte/src/lib/utils/markdown.ts:69 | corrected, `。。a` gets a break after each `。` |
| Markdown.Marked | frontend-svelte/src/lib/utils/markdown.ts:46-63 | after the bullet passes no line feed or `*` remains |
| Markdown.BeforePeriods | frontend-svelte/src/lib/utils/markdown.ts:46-66 | after the collapse no line feed, no `*` and no triple `<br>` remains |
| Markdown.RenderMarkdown | frontend-svelte/src/lib/utils/markdown.ts:42-72 | the renderer as written: empty input gives `''`; the output has no line feed and no `*`, holds only characters of the text, entities and markup, and a `。` followed by an ordinary character directly follows `。<br>` |
| Markdown.RenderMarkdownCorrected | frontend-svelte/src/lib/utils/markdown.ts:42-72 | the renderer with the corrected period rule: the same, and every `。` is followed by whitespace, a digit, a closing bracket, `●` or `<` |
| Markdown.PeriodRulesAgree | frontend-svelte/src/lib/utils/markdown.ts:69 | the rule as written and the corrected rule give the same result on text where no `。` directly follows a `。` |
| Markdown.RenderedPeriodAfterPeriod | frontend-svelte/src/lib/utils/markdown.ts:42-72 | the renderer as written turns `。。a` into `。<br>。a`; the corrected one gives `。<br>。<br>a` |
| Markdown.AngleBracketsAreMarkup | frontend-svelte/src/lib/utils/markdown.ts:46-69 | every output character comes from the escaped text or the markup, and the escaped text has no `<` or `>` |
| Markdown.BeforePeriodsIsEscape | frontend-svelte/src/lib/utils/markdown.ts:46-66 | without line feeds, `*` or `●`, every rewrite before the period rule leaves the escaped text alone |
| Markdown.PlainTextIsEscaped | frontend-svelte/src/lib/utils/markdown.ts:42-72 | text without line feeds, `*`, `●` or `。` is only escaped |
| Markdown.EscapeAddsNoMarker | frontend-svelte/src/lib/utils/markdown.ts:32-36 | escaping brings in no line feed, `*`, `●` or `<`, and no `。` the text lacks |
| Character.CharacterLabel | frontend-svelte/src/lib/utils/character.ts:3-10 | `none` maps to the empty name, and only `none` does |
| Character.LabelOf | frontend-svelte/src/lib/utils/character.ts:3-10 | the label is empty exactly for `none` |
| Character.Decorated | frontend-svelte/src/lib/utils/character.ts:19 | `アシスタント（name）`: the plain name, the opening bracket, the name, the closing bracket |
| Character.AssistantDisplayName | frontend-svelte/src/lib/utils/character.ts:15-21 | the name always starts with `アシスタント`; absent, empty, `none` or a key outside the table give it alone; a key of the table adds its name in brackets (inherited object keys are left out) |
| Character.SettingsCharactersAreNamed | frontend-svelte/src/lib/utils/character.ts:3-10 | every character of the settings has a table entry and its display name |
| Character.DecoratedLabel | frontend-svelte/src/lib/utils/character.ts:20 | the bracketed name can be read back from the display name |
| Character.DisplayNamesDiffer | frontend-svelte/src/lib/utils/character.ts:3-21 | different characters get different display names |
| RagRanking.KeysOf | rag_service.py:197-199 | every hit's key is in the seen set |
| RagRanking.Key | rag_service.py:197 | the key is the content's first 200 characters, or all of it when shorter |
| RagRanking.KeysOfAppend | rag_service.py:199 | seeing one more hit adds its key |
| RagRanking.KeyWitness | rag_service.py:197-199 | every seen key is the key of some hit |
| RagRanking.NotInKeys | rag_service.py:198 | a key no hit has is not seen |
| RagRanking.Dedup | rag_service.py:188-200 | dedup never lengthens the list |
| RagRanking.DedupUnique | rag_service.py:188-200 | the kept hits have pairwise different keys and are drawn from the input |
| RagRanking.DedupKeys | rag_service.py:188-200 | every key of the input is kept |
| RagRanking.DedupFirstWins | rag_service.py:198-200 | the first hit with a key is kept |
| RagRanking.DedupLaterDropped | rag_service.py:198-200 | a later hit with a seen key is dropped |
| RagRanking.Retrieved | rag_service.py:190-203 | no queries retrieve nothing |
| RagRanking.DedupStep | rag_service.py:198-200 | one hit is appended exactly when its key is new |
| RagRanking.RetrievedStep | rag_service.py:190-203 | one more query appends its results, a failed search appends none |
| RagRanking.AppendUnseen | rag_service.py:195-200 | the inner loop keeps the candidates equal to the dedup of all hits so far and the seen set equal to their keys |
| RagRanking.CollectCandidates | rag_service.py:186-203 | the loop over queries yields the dedup of all results fetched with `3 * k` |
| RagRanking.Insert | rag_service.py:210 | inserting keeps the list sorted by score and adds one element |
| RagRanking.InsertTail | rag_service.py:210 | inserting past the head keeps the list sorted |
| RagRanking.InsertPermutes | rag_service.py:210 | inserting adds exactly the element |
| RagRanking.SortByScore | rag_service.py:210 | the result is sorted by non-decreasing score |
| RagRanking.SortPermutes | rag_service.py:210 | the result is a permutation of the input |
| RagRanking.WithinThreshold | rag_service.py:217 | exactly the hits with score at most the threshold are kept |
| RagRanking.ThresholdKeepsPrefix | rag_service.py:214-217 | on a sorted list the kept hits are a prefix and stay sorted |
| RagRanking.NoneWithin | rag_service.py:217 | when every score exceeds the threshold nothing is kept |
| RagRanking.ThresholdSorted | rag_service.py:217 | filtering a sorted list keeps it sorted |
| RagRanking.Threshold | rag_service.py:216 | twice the best score is at least the best score when it is non-negative |
| RagRanking.BestSurvives | rag_service.py:214-217 | the best hit survives exactly when its score is non-negative, and then comes first |
| RagRanking.Take | rag_service.py:223 | Python's `[:k]`: a prefix of length `k` clipped to the list, counted from the end for negative `k` |
| RagRanking.Filtered | rag_service.py:209-220 | the sorted hits within twice the best score: no more than the candidates and drawn from them |
| RagRanking.Select | rag_service.py:209-223 | the selected hits are a prefix of the filtered list, at most `k` of them |
| RagRanking.RankedFirstIsBest | rag_service.py:210-215 | the first hit after sorting has the lowest score |
| RagRanking.RankedMembers | rag_service.py:210 | sorting keeps exactly the same hits |
| RagRanking.FilteredProperties | rag_service.py:210-220 | the filtered list is sorted, drawn from the candidates within twice the best score, and starts with the best when its score is non-negative |
| RagRanking.SelectProperties | rag_service.py:210-223 | at most `k` hits, a prefix of the filtered list, sorted, within the threshold, and led by the best when it survives |
| RagRanking.PrefixSorted | rag_service.py:223 | a prefix of a sorted list is sorted |
| RagService.LastIndexOf | rag_service.py:94 | the last position of the character, or -1 |
| RagService.Extension | rag_service.py:94 | `splitext`: a suffix of the path that is empty or a dot followed by no dot and no `/` |
| RagService.ExtensionOfName | rag_service.py:94 | `dir/stem.ext` has extension `.ext` |
| RagService.DotNameHasNoExtension | rag_service.py:94 | a name with a single leading dot has no extension |
| RagService.Basename | rag_service.py:115 | the part of the path after the last `/` |
| RagService.LowerChar | rag_service.py:94 | ASCII upper case is lowered, anything else kept |
| RagService.Lower | rag_service.py:94 | the text lowered character by character |
| RagService.LoaderFor | rag_service.py:94-105 | a loader exactly for the four supported lower-cased extensions, the one serving that extension; otherwise the error naming it |
| RagService.LoaderForServed | rag_service.py:96-103 | each loader is chosen for a file with its extension |
| RagService.LoaderForName | rag_service.py:96-103 | the same, for an extension built from its letters |
| RagService.LoaderForExtension | rag_service.py:94-103 | the loader is chosen by the lower-cased extension alone |
| RagService.LowerServes | rag_service.py:96-103 | the served extensions are already lower case |
| RagService.UpperCaseExtension | rag_service.py:94-97 | `.PDF` files get the PDF loader |
| RagService.DotFileRefused | rag_service.py:94-105 | a file named `.pdf` has no extension and is refused |
| RagService.Tagged | rag_service.py:114-115 | tagging sets `source_file` to the name and keeps the content and every other key |
| RagService.TagSources | rag_service.py:114-115 | the loop tags every chunk of the array in place |
| RagService.AddDocuments | rag_service.py:85-119 | an unsupported extension is an error before loading; otherwise every chunk is tagged with the file's base name |
| RagService.TagAll | rag_service.py:114-115 | every chunk is tagged with the name, in order |
| RagService.Keywords | rag_service.py:155 | every kept line is non-empty and does not start with `#` |
| RagService.KeywordsComplete | rag_service.py:155 | every stripped line that is a keyword is kept |
| RagService.KeywordSource | rag_service.py:155 | every kept keyword is a stripped line of the output |
| RagService.ExpandQuery | rag_service.py:135-162 | the question first, then the first keywords, 1 to 4 queries; a failed call gives the question alone |
| RagService.Strip | rag_service.py:155 | `strip()`: no longer than the line, with no whitespace at either end |
| RagService.ServiceLlm | rag_service.py:50-54 | the service model is the configured name at `http://localhost:11434` with temperature 0.7 |
| RagService.Queries | rag_service.py:182 | one to four queries, the question first; the question alone when expansion is off |
| RagService.ExpandedQueriesAreKeywords | rag_service.py:155-159 | every query after the first is a stripped, non-empty line of the output not starting with `#` |
| RagService.ChooseLlm | rag_service.py:240-247 | a non-empty model name selects that model, otherwise the service's own; same URL and temperature either way |
| RagService.ServicePrompt | rag_service.py:64-78 | the service's template with the context and question put in |
| RagService.ServicePromptQuotes | rag_service.py:237 | the prompt contains the context and `質問: ` followed by the question |
| RagService.BulletLinesAppend | rag_service.py:71-76 | bullet lines of two lists are joined by a line feed |
| RagService.BulletLinesCons | rag_service.py:71-76 | the first bullet is followed by a line feed and the rest |
| RagService.ServicePromptIsNotBaseTemplate | rag_service.py:64-78 | the service's prompt is shorter than `BASE_RAG_TEMPLATE`, which has two more bullets |
| RagService.Contents | rag_service.py:233 | the contents of the top hits, in order |
| RagService.Context | rag_service.py:233 | no hits give an empty context and one hit gives its content; the hits' contents are joined by blank lines |
| RagService.ContextHoldsEveryChunk | rag_service.py:233-237 | every top chunk appears in the context and in the prompt |
| RagService.PromptAroundContext | rag_service.py:237 | whatever the context contains, the prompt contains |
| RagService.SourceLabelOfTagged | rag_service.py:255-259 | a tagged chunk's label is its file name and its page, or `Unknown` |
| RagService.Render | rag_service.py:259 | a string value is itself, an integer is its decimal digits, with `-` exactly when negative |
| RagService.MetaOrUnknown | rag_service.py:257-258 | `Unknown` for a missing key, else the rendered value |
| RagService.SourceLabel | rag_service.py:257-259 | the label starts with the file name or `Unknown` and ` (Page `, and ends with `)` |
| RagService.SourceLabels | rag_service.py:255-259 | one label per top hit, in order |
| RagService.Query | rag_service.py:164-261 | no candidates give the fixed answer and no sources; otherwise the model's answer to the prompt over the selected hits, with exactly their labels as sources; a failed call gives no answer |
| RagService.Generate | rag_service.py:233-261 | the answer is the chosen model's output on the prompt over the top hits, with exactly their labels as sources |
| RagService.SourceFiles | rag_service.py:314-317 | no metadata gives no names |
| RagService.SourceFilesMembers | rag_service.py:314-317 | a name is listed exactly when some entry has it as its `source_file` string |
| RagService.StoredFileIsListed | rag_service.py:85-119 | the chunks of one upload list exactly its file name |
| RagService.LessIrreflexive | rag_service.py:320 | no string sorts before itself |
| RagService.LessTransitive | rag_service.py:320 | string order is transitive |
| RagService.LessTotal | rag_service.py:320 | two different strings are ordered one way or the other |
| RagService.InsertName | rag_service.py:320 | inserting a new name keeps the list strictly sorted and adds exactly it |
| RagService.SortNames | rag_service.py:320 | the result is strictly sorted and holds exactly the set's names |
| RagService.SortedIsUnique | rag_service.py:320 | two strictly sorted lists with the same members are equal |
| RagService.ListDocuments | rag_service.py:299-323 | no collection or no metadata gives `[]`; otherwise exactly the `source_file` names, strictly sorted |
| PromptTemplates.Format | backend/config.py:127-130 | formatting an empty template gives nothing |
| PromptTemplates.FormatAppend | backend/config.py:127-130 | formatting distributes over concatenated templates |
| PromptTemplates.FormatCons | backend/config.py:127-130 | formatting a piece then the rest |
| PromptTemplates.FormatThree | backend/config.py:139-142 | formatting a three-piece template |
| PromptTemplates.FormatFive | backend/config.py:127-130 | formatting a five-piece template |
| PromptTemplates.BulletLines | backend/config.py:63-69 | the instruction lines start with `- ` |
| PromptTemplates.Tail | backend/config.py:59-70 | the text after the question starts with `指示:` and holds the instruction lines |
| PromptTemplates.RetrievalPart | backend/config.py:54-93 | the retrieval part has five pieces, the context and question placeholders second and fourth, and no history placeholder |
| PromptTemplates.Filled | backend/config.py:54-93 | a filled retrieval part starts with its head followed by the context verbatim |
| PromptTemplates.RetrievalShape | backend/config.py:54-70 | the retrieval part formats to its head, the context, the question label, the question and the instructions |
| PromptTemplates.FilledStarts | backend/config.py:54-70 | a filled template starts with its head |
| PromptTemplates.FilledQuotes | backend/config.py:54-70 | a filled template contains the context and `質問: ` followed by the question |
| PromptTemplates.FilledHolds | backend/config.py:54-70 | whatever the context contains, the filled template contains |
| PromptTemplates.BuildPrompt | backend/config.py:110-130 | a truthy history selects `CHAT_HISTORY_TEMPLATE` with it put in; otherwise `BASE_RAG_TEMPLATE`; context and question go in verbatim |
| PromptTemplates.IntrosDiffer | backend/config.py:54-93 | the two templates differ right after their shared first sentence |
| PromptTemplates.BuildPromptSelects | backend/config.py:121-130 | the history template is used exactly when the history is truthy |
| PromptTemplates.HistoryPromptOpens | backend/config.py:121-126 | with history the prompt opens with the history introduction |
| PromptTemplates.BasePromptOpens | backend/config.py:127-130 | without history the prompt opens with the retrieval introduction |
| PromptTemplates.HeadOpens | backend/config.py:54-93 | a prompt that opens with a head opens with each of its parts |
| PromptTemplates.BuildPromptQuotes | backend/config.py:110-130 | either way the prompt contains the context and `質問: ` followed by the question |
| PromptTemplates.BuildSimplePrompt | backend/config.py:133-142 | the fixed text around the question |
| PromptTemplates.SimplePromptRecoversQuestion | backend/config.py:96-100 | the question can be read back at a fixed position, after `質問: ` |
| PromptTemplates.SimplePromptInjective | backend/config.py:133-142 | different questions give different prompts |
| PromptTemplates.BuildQueryExpansionPrompt | backend/config.py:145-154 | the question in quotes after `質問: `, then the fixed request |
| PromptTemplates.QueryExpansionQuotes | backend/config.py:103-107 | the prompt starts with `質問: "`, the question and `"` |
| PromptTemplates.QueryExpansionPromptInjective | backend/config.py:145-154 | different questions give different prompts |
| Text.LeadingCount | frontend-svelte/src/lib/api/chat.ts:119 | the number of leading whitespace characters |
| Text.TrailingCount | frontend-svelte/src/lib/api/chat.ts:119 | the number of trailing whitespace characters |
| Text.Trim | frontend-svelte/src/lib/api/chat.ts:119 | the trimmed text is empty exactly when the text is all whitespace, and otherwise neither starts nor ends with whitespace |
| Text.TrimSlice | frontend-svelte/src/lib/api/chat.ts:119 | trimming removes only whitespace, from both ends |
| Text.Split | frontend-svelte/src/lib/api/chat.ts:114 | `split` gives at least one part, none containing the separator |
| Text.SplitJoin | frontend-svelte/src/lib/api/chat.ts:114 | joining the parts with the separator gives the text back |
| Text.Join | rag_service.py:233 | `sep.join(parts)`: one part is itself, and the result starts with the first part |
| Text.SplitLine | frontend-svelte/src/lib/api/chat.ts:114 | text up to the first separator is the first part |
| Text.SplitNoSep | frontend-svelte/src/lib/api/chat.ts:114 | text without the separator is a single part |
| Text.JoinContains | rag_service.py:233 | each part appears in the joined text |
| Text.DecimalString | frontend-svelte/src/lib/stores/chatStore.ts:61 | a time prints as at least one decimal digit |
| Text.DecimalRoundTrip | frontend-svelte/src/lib/stores/chatStore.ts:61 | reading the digits back gives the number |
| Text.DecimalInjective | frontend-svelte/src/lib/stores/chatStore.ts:61 | different numbers print differently |

## Left out

- Network and storage I/O: `fetch`, the FastAPI endpoints, `localStorage` and JSON. Parsing is a function parameter that may fail, and storage is a ghost "last saved" value. `main.py` is used only for its framing line.
- The DOM: rendering, notifications, drag-and-drop, tabs, health polling, and `renderMarkdownInline` with the markdown-it setup.
- LangChain, Chroma and Ollama. Search results and model outputs are parameters. Loading and splitting a file become one `split` parameter. Persisting the store, counting documents and the debug output are left out.
- `query_stream`, `clear_documents`, `check_ollama_connection` and `get_available_models`: these are calls into the vector store or HTTP with no logic of their own.
- Floating point: the seconds and speed in `processStream` are not computed. A speed event records the integer times and the count they come from. Scores are `real`, so NaN and rounding are not modelled.
- `TextDecoder` and `AbortSignal`. A read is already text, and cancellation does not occur.
- Strings are sequences of characters. JavaScript's UTF-16 code units are not distinguished from code points, and lowering in `add_documents` covers ASCII only.
- RagRanking.Key: Python's `hash` of the 200-character prefix is replaced by the prefix itself, so hash collisions are not modelled.
- RagRanking.SortByScore: the result is proved sorted and a permutation, but the stability of Python's sort among equal scores is not stated.
- RagService.Query: an exception from a search is modelled as a search that returns nothing. An exception from the final generation, which the source does not catch, is modelled as no answer. The sources are returned as a set, because the source's `list(set(...))` order is unspecified.
- RagService.ExpandQuery: it takes the model's output as a parameter (none when the call raised), so only the post-processing is modelled.
- RagService.SourceFiles: an entry whose `source_file` is not a string is skipped, while the source would add any hashable value.
- RagService.ListDocuments: the exception path returning `[]` is the case of no collection; `vectorstore.get` itself is a parameter.
- ChatStates.CreateNewChat: the source reads `Date.now()` three times, once each for the id, `createdAt` and `updatedAt`; the model uses one time for all three.
- A `Partial` settings key explicitly present with the value `undefined` is not modelled; a patch key is either present with a value or absent.
- `getDefaults` in the settings store returns the defaults constant and is not modelled separately.
- LegacyScript.LegacyHistory.SaveMessageToHistory: the date is the time as an integer rather than an ISO string.
- LegacyScript.LegacyHistory.constructor: the uncaught `JSON.parse` exception is a `loadFailed` flag. Once it is set, the rest of `init` (`createNewChat`, the health check, the document and model lists) is not run on the page; that sequence is not modelled.
- Character.AssistantDisplayName: the label table is a plain JavaScript object, so `characterNames[key]` also finds inherited properties such as `constructor`, `toString` or `__proto__`. For those keys the source shows `アシスタント（…）` around a function's source text or `[object Object]`; the model treats them like any other key outside the table and shows `アシスタント` alone.
- ChatApi.ProcessStream: `reader.releaseLock()` in the `finally` block is not modelled, since the reader is not part of the state.
- ChatApi.StepReads: `processStream` calls `Date.now()` separately for each line, when it sets `firstChunkTime` and each time it reports speed. The model takes one clock reading per read (`Read.at`), shared by all its lines, and one reading (`EndOfStream.at`) for the final report.
- ChatApi.StreamRequestBody: an option present with the value `undefined` overrides the default in the object spread and is then dropped by `JSON.stringify`, so the server sees the key as missing. `Option` cannot express a present-but-undefined key, so this case is not modelled. `ChatApi.PlainRequestBody` is affected in the same way.
- The service's own prompt template in `rag_service.py` (lines 64-78) lists only the first five of the seven instruction bullets of `BASE_RAG_TEMPLATE` in `backend/config.py`; the model keeps both as written.

## Findings

| source | as written | input that shows it | evidently intended | confidence | as-written member | corrected member |
|---|---|---|---|---|---|---|
| frontend-svelte/src/lib/utils/markdown.ts:69 | `/([。])([^\s）」』\d●<])/g` consumes the character after a `。`, so a `。` right after another `。` is never the start of a match | `。。a` renders as `。<br>。a`, leaving `。` directly before `a` | a break after every `。` not followed by whitespace, a digit, `）`, `」`, `』`, `●` or `<` | not executed | Markdown.PeriodAfterPeriodIsMissed | Markdown.RenderMarkdownCorrected |
