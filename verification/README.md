# aidashboard client logic in Dafny

This project models the decision logic of the `aidashboard` Android client. The app uploads a KPI spreadsheet or an image to an assistant service. It waits for the analysis, lets the user chat about the result, keeps a local history of chats, and predicts KPIs per department.

Every remote call, every JSON body, the preference store and the clock are inputs to the model. What the Kotlin code decides from those inputs is modelled as pure functions over immutable datatypes. Poll loops are recursion over a finite sequence of observed run statuses.

Modules, one per source file plus three shared ones:

- `Wrappers`: `Option`.
- `Text`: Kotlin's `trim`/`isBlank` whitespace set, `lowercase`, and case-insensitive `endsWith`.
- `Wire`: the already-parsed shapes of the service's responses and requests, shared by the repository and the KPI analyzer.
- `ChatSessions` (`ChatSession.kt`): the record and its copy.
- `ChatStore` (`ChatStore.kt`): the session list. Each mutating operation is a function from the loaded list to the saved list.
- `OpenAiRepository` (`OpenAiRepository.kt`): upload name, payloads, both poll loops, both reply-selection rules, and the three callback pipelines.
- `KpiAnalyzer` (`KPIAnalyzer.kt`): the synchronous KPI pipeline.
- `KpiAnalysisScreen` (`KPIAnalysisScreen.kt`): the department table and the file-picked handler.
- `ChatScreen` (`ChatScreen.kt`): the load-or-shell effect, `persist`, and the send turn.
- `HistoryScreen` (`HistoryScreen.kt`): display order and row counts.
- `MainActivity` (`MainActivity.kt`): the chat state kept by the navigation host.

Where the written design and the code disagree, the model follows the code:

- Plain `upsert` does not rewrite `id` to `threadId`; only `upsertByThreadId` does. `ChatStore.UpsertDoesNotRekey` shows that a mismatched session is stored as given.
- A transcript need not start with a user message. The navigation host seeds an assistant summary first, so the proved invariant is "each turn adds a [user, assistant] pair" (`ChatScreen.ConverseAddsPairs`). Strict alternation from the user holds only from an empty transcript (`ChatScreen.TranscriptFromEmpty`).
- The analysis pipelines and the KPI analyzer read element 0 of the message listing whatever its role. Only the chat loop looks for the first assistant message (`OpenAiRepository.SelectionRulesDiffer`).
- The non-image analysis message carries the fixed prompt and no file attachment.
- The chat screen always passes its file id to `runChatAssistant`, so a chat run is always scoped to that file, even an empty one (`ChatScreen.OracleOf`).

## Model

| member | source | states |
|---|---|---|
| ChatSessions.WithId | app/src/main/java/com/example/aidashboard/ChatSession.kt:3-11 | `copy(id = x)` sets the id to x and keeps the other six fields |
| ChatSessions.WithIdIdentity | app/src/main/java/com/example/aidashboard/ChatSession.kt:3-11 | a copy equals its original exactly when the id is unchanged; copying back restores the original |
| ChatStore.LoadAll | app/src/main/java/com/example/aidashboard/ChatStore.kt:19-23 | a missing key or a null decoding loads as the empty list |
| ChatStore.SaveAll | app/src/main/java/com/example/aidashboard/ChatStore.kt:25-29 | saving always leaves a stored blob |
| ChatStore.GetAll | app/src/main/java/com/example/aidashboard/ChatStore.kt:31-32 | the decoded list when there is one, otherwise empty |
| ChatStore.IndexOfFirst | app/src/main/java/com/example/aidashboard/ChatStore.kt:39 | the first matching index, or -1 exactly when nothing matches |
| ChatStore.FirstWith | app/src/main/java/com/example/aidashboard/ChatStore.kt:35 | nothing exactly when no element matches; otherwise the element at the first matching index |
| ChatStore.GetById | app/src/main/java/com/example/aidashboard/ChatStore.kt:34-35 | nothing exactly when no session has the id; otherwise a stored session with that id, preceded by none with it |
| ChatStore.GetByThreadId | app/src/main/java/com/example/aidashboard/ChatStore.kt:54-55 | the same as `GetById`, keyed by thread |
| ChatStore.Upsert | app/src/main/java/com/example/aidashboard/ChatStore.kt:37-42 | an existing id is replaced at its first index, with the length and every other entry unchanged; a new id is appended after an unchanged prefix |
| ChatStore.Delete | app/src/main/java/com/example/aidashboard/ChatStore.kt:44-47 | the result holds exactly the stored sessions whose id differs, and is no longer |
| ChatStore.Clear | app/src/main/java/com/example/aidashboard/ChatStore.kt:49-51 | no lookup by id or by thread finds anything afterwards |
| ChatStore.UpsertByThreadId | app/src/main/java/com/example/aidashboard/ChatStore.kt:57-64 | returns the session with its id rewritten to its thread, and the list holds it upserted |
| ChatStore.UpsertPersists | app/src/main/java/com/example/aidashboard/ChatStore.kt:19-42 | `upsert` loads, changes and saves: the next `getAll` returns the changed list, `getById` finds the session as given, and the ids are the earlier ids plus the new one |
| ChatStore.UpsertThenGet | app/src/main/java/com/example/aidashboard/ChatStore.kt:37-42 | after an upsert, looking the id up returns the session exactly as given |
| ChatStore.UpsertIds | app/src/main/java/com/example/aidashboard/ChatStore.kt:37-42 | the ids after an upsert are the ids before plus the upserted one |
| ChatStore.UpsertKeepsIdsDistinct | app/src/main/java/com/example/aidashboard/ChatStore.kt:37-42 | pairwise distinct ids stay distinct |
| ChatStore.UpsertTwiceSameId | app/src/main/java/com/example/aidashboard/ChatStore.kt:37-42 | two upserts of one id leave exactly one record, the second, and grow the list by at most one |
| ChatStore.UpsertDoesNotRekey | app/src/main/java/com/example/aidashboard/ChatStore.kt:37-42 | plain upsert stores a session whose id differs from its thread as given |
| ChatStore.UpsertByThreadIdFindable | app/src/main/java/com/example/aidashboard/ChatStore.kt:57-64 | the returned session is keyed by its thread and found under it |
| ChatStore.UpsertByThreadIdKeepsKeying | app/src/main/java/com/example/aidashboard/ChatStore.kt:57-64 | if every stored session is keyed by its thread, that stays so |
| ChatStore.ThreadLookupIsIdLookup | app/src/main/java/com/example/aidashboard/ChatStore.kt:54-55 | when every session is keyed by its thread, lookup by thread equals lookup by id |
| ChatStore.DeleteDistributes | app/src/main/java/com/example/aidashboard/ChatStore.kt:44-47 | deleting from a concatenation deletes from each part, so the survivors keep their order |
| ChatStore.DeleteAbsent | app/src/main/java/com/example/aidashboard/ChatStore.kt:44-47 | deleting an id nobody has leaves the list unchanged |
| ChatStore.DeleteKeepsOthers | app/src/main/java/com/example/aidashboard/ChatStore.kt:44-47 | lookups of every other id are unaffected |
| ChatStore.DeleteExample | app/src/main/java/com/example/aidashboard/ChatStore.kt:44-47 | example: [t1, t2] minus "t1" is [t2] |
| Text.TrimStart | app/src/main/java/com/example/aidashboard/ChatScreen.kt:226 | a suffix of the input; everything cut is whitespace and the result does not start with whitespace |
| Text.TrimEnd | app/src/main/java/com/example/aidashboard/ChatScreen.kt:226 | a prefix of the input; everything cut is whitespace and the result does not end with whitespace |
| Text.Trim | app/src/main/java/com/example/aidashboard/ChatScreen.kt:226 | a contiguous slice of the input with only whitespace cut on both sides, neither starting nor ending with whitespace |
| Text.TrimEmptyIffBlank | app/src/main/java/com/example/aidashboard/ChatScreen.kt:226-227 | the trimmed input is empty exactly when the input is blank, so the send guard and the button's `isNotBlank` agree |
| Text.Lower | app/src/main/java/com/example/aidashboard/KPIAnalysisScreen.kt:70 | same length, each character lower-cased |
| Text.LowerIsLowerCase | app/src/main/java/com/example/aidashboard/KPIAnalysisScreen.kt:70 | the result has no upper-case letter, and lower-case text is unchanged |
| Text.EndsWithAppended | app/src/main/java/com/example/aidashboard/OpenAiRepository.kt:35 | a name with a suffix appended ends with it, ignoring case |
| Wire.LenientId | app/src/main/java/com/example/aidashboard/OpenAiRepository.kt:69-77 | the body's id whatever the HTTP status; nothing on a transport failure |
| Wire.StrictId | app/src/main/java/com/example/aidashboard/OpenAiRepository.kt:446-453 | an id exactly for a successful response that carries one |
| Wire.StrictIdRefinesLenientId | app/src/main/java/com/example/aidashboard/KPIAnalyzer.kt:153-164 | the strict reading agrees with the lenient one whenever it gives an id, and gives none for a failed status |
| Wire.FirstWhere | app/src/main/java/com/example/aidashboard/OpenAiRepository.kt:483-491 | the first position satisfying the predicate, with none before it, or the length when none does |
| Wire.Observed | app/src/main/java/com/example/aidashboard/KPIAnalyzer.kt:181-194 | exactly n checks: the observed ones, then a run still in progress |
| OpenAiRepository.UploadFileName | app/src/main/java/com/example/aidashboard/OpenAiRepository.kt:31-37 | always an image extension; the default for a missing segment; the segment kept exactly when it has one, else ".jpg" appended |
| OpenAiRepository.UploadFileNameIdempotent | app/src/main/java/com/example/aidashboard/OpenAiRepository.kt:31-37 | normalising a normalised name changes nothing |
| OpenAiRepository.AnalysisMessage | app/src/main/java/com/example/aidashboard/OpenAiRepository.kt:111-130 | an image message has exactly one image part with the file id; any other has only the fixed prompt; neither has attachments |
| OpenAiRepository.RunPayload | app/src/main/java/com/example/aidashboard/OpenAiRepository.kt:161-176 | the code interpreter is scoped to exactly [fileId] when a file is given, and absent otherwise |
| OpenAiRepository.RunFileFor | app/src/main/java/com/example/aidashboard/OpenAiRepository.kt:288 | the run gets the file exactly when the upload is not an image |
| OpenAiRepository.ChatTextMessage | app/src/main/java/com/example/aidashboard/OpenAiRepository.kt:397-405 | the chat message is the user's text as its only part |
| OpenAiRepository.FetchMessages | app/src/main/java/com/example/aidashboard/OpenAiRepository.kt:244-273 | fetch failure and parse failure texts, otherwise the first text of element 0 |
| OpenAiRepository.FetchMessagesIgnoresRole | app/src/main/java/com/example/aidashboard/OpenAiRepository.kt:264-268 | the role of element 0 makes no difference |
| OpenAiRepository.FetchMessagesMissingValueIsEmpty | app/src/main/java/com/example/aidashboard/OpenAiRepository.kt:267-269 | a text object without a value reads as "" rather than the parse failure |
| OpenAiRepository.FirstAssistantText | app/src/main/java/com/example/aidashboard/OpenAiRepository.kt:483-492 | the text of the first assistant message with non-empty text, and nothing exactly when there is none |
| OpenAiRepository.ChatReply | app/src/main/java/com/example/aidashboard/OpenAiRepository.kt:480-492 | a reply only from a listing that arrived, whatever its HTTP status, by the first-assistant rule |
| OpenAiRepository.SelectionRulesDiffer | app/src/main/java/com/example/aidashboard/OpenAiRepository.kt:483-489 | with a user message first, `fetchMessages` returns the user's text while the chat rule returns the assistant's |
| OpenAiRepository.PollRunAndFetch | app/src/main/java/com/example/aidashboard/OpenAiRepository.kt:205-241 | stops at the first transport failure (null), "completed" (the fetched text, the only case that fetches) or "failed" (run failed); still pending when no observed check ends it |
| OpenAiRepository.PollCompletesOnThirdCheck | app/src/main/java/com/example/aidashboard/OpenAiRepository.kt:226-234 | example: queued, in progress, completed: three checks, then one fetch |
| OpenAiRepository.ChatPollOver | app/src/main/java/com/example/aidashboard/OpenAiRepository.kt:461-495 | corrected loop, with transport failures caught (see Findings): over a window, null when nothing ends it, null on a lost status check, the chat reply on the first completion |
| OpenAiRepository.PollAndFetchChatMessage | app/src/main/java/com/example/aidashboard/OpenAiRepository.kt:458-496 | corrected loop, with transport failures caught (see Findings): at most 15 checks; a reply only after fetching; 15 non-completed checks give null; the first completion fetches and returns the chat reply |
| OpenAiRepository.ChatPollIgnoresFailed | app/src/main/java/com/example/aidashboard/OpenAiRepository.kt:470-471 | a "failed" status just costs one more check |
| OpenAiRepository.ChatPollPrefix | app/src/main/java/com/example/aidashboard/OpenAiRepository.kt:461 | a window one check shorter changes the loop only when it ran out |
| OpenAiRepository.ChatPollOverAsWritten | app/src/main/java/com/example/aidashboard/OpenAiRepository.kt:469-480 | a transport failure on the ending check, or on the fetch after completion, throws |
| OpenAiRepository.ChatPollAsWrittenThrows | app/src/main/java/com/example/aidashboard/OpenAiRepository.kt:469 | a first status request that fails in transport throws out of the loop |
| OpenAiRepository.ChatPollAgreesWithoutTransportFailure | app/src/main/java/com/example/aidashboard/OpenAiRepository.kt:461-495 | without transport failures the loop as written and the guarded loop agree |
| OpenAiRepository.ChatPollAsWrittenRefines | app/src/main/java/com/example/aidashboard/OpenAiRepository.kt:461-495 | the written loop throws exactly when its ending check is lost, or is a completion whose listing is lost; whenever it returns, it returns what the guarded loop returns |
| OpenAiRepository.PollAndFetchAsWrittenRefines | app/src/main/java/com/example/aidashboard/OpenAiRepository.kt:458-496 | over the 15-check window, a returning written loop gives the guarded loop's result |
| OpenAiRepository.ChatPollAsWrittenLosesListing | app/src/main/java/com/example/aidashboard/OpenAiRepository.kt:471-480 | a completion whose listing is lost in transport throws as written, where the guarded loop reports a fetch that found nothing |
| OpenAiRepository.SendChatMessage | app/src/main/java/com/example/aidashboard/OpenAiRepository.kt:397-418 | true exactly for a successful response; transport failures give false |
| OpenAiRepository.RunChatAssistant | app/src/main/java/com/example/aidashboard/OpenAiRepository.kt:422-454 | the payload for the file; a run id exactly from a successful response that has one |
| OpenAiRepository.FirstFailedStep | app/src/main/java/com/example/aidashboard/OpenAiRepository.kt:282-290 | 0 exactly when the upload gives no id; 1 when it does and the thread gives none; 2 when both do and the post is not a success; 3 when the post succeeded and the run gives no id; 4 exactly when all four steps succeeded |
| OpenAiRepository.RequestsBeforePolling | app/src/main/java/com/example/aidashboard/OpenAiRepository.kt:282-288 | four requests, one per step, in step order |
| OpenAiRepository.AfterRunStarted | app/src/main/java/com/example/aidashboard/OpenAiRepository.kt:290-292 | the earlier requests, then the status checks, then a fetch only after completion; null reads as the unknown error |
| OpenAiRepository.Analyze | app/src/main/java/com/example/aidashboard/OpenAiRepository.kt:282-296 | the first failing step's message, no request after that step, and empty ids; once polling starts, the real ids and the poll verdict |
| OpenAiRepository.AnalyzeMessageRequest | app/src/main/java/com/example/aidashboard/OpenAiRepository.kt:286 | the message request goes to the created thread with the uploaded file |
| OpenAiRepository.AnalyzeFile | app/src/main/java/com/example/aidashboard/OpenAiRepository.kt:276-297 | the shared pipeline with the built-in assistant id |
| OpenAiRepository.AnalyzeWithAssistant | app/src/main/java/com/example/aidashboard/OpenAiRepository.kt:302-325 | the shared pipeline with the caller's assistant id |
| OpenAiRepository.AnalyzeWithAssistantAndReturnIds | app/src/main/java/com/example/aidashboard/OpenAiRepository.kt:372-394 | ("", "") with any failure before the run, the real ids once polling starts, and no callback exactly when polling never ends |
| OpenAiRepository.AnalyzeCallsFollowSteps | app/src/main/java/com/example/aidashboard/OpenAiRepository.kt:282-296 | calls come in step order, and none belongs to a step after the first failure |
| OpenAiRepository.UploadFailureShortCircuits | app/src/main/java/com/example/aidashboard/OpenAiRepository.kt:283 | a failed upload makes no further request |
| OpenAiRepository.RunScopedOnlyForNonImages | app/src/main/java/com/example/aidashboard/OpenAiRepository.kt:288 | the run reads the uploaded file exactly when it is not an image |
| OpenAiRepository.SuccessfulAnalysis | app/src/main/java/com/example/aidashboard/OpenAiRepository.kt:379-390 | example: file-abc, thread-1, run-1, completed at once: the reply with thread-1 and file-abc |
| KpiAnalyzer.Prompt | app/src/main/java/com/example/aidashboard/KPIAnalyzer.kt:24-43 | the fixed text with the department name spliced in verbatim |
| KpiAnalyzer.PromptIsInjective | app/src/main/java/com/example/aidashboard/KPIAnalyzer.kt:24-26 | different departments give different prompts |
| KpiAnalyzer.RunFileIds | app/src/main/java/com/example/aidashboard/KPIAnalyzer.kt:132-133 | [fileId], or [fileId, historicalFileId] when there is one |
| KpiAnalyzer.Attachments | app/src/main/java/com/example/aidashboard/KPIAnalyzer.kt:104-109 | the attached ids are the run's file ids in the same order, each for the code interpreter |
| KpiAnalyzer.KpiMessage | app/src/main/java/com/example/aidashboard/KPIAnalyzer.kt:111-115 | a user message with a single text part holding the prompt, and those attachments |
| KpiAnalyzer.KpiRunRequest | app/src/main/java/com/example/aidashboard/KPIAnalyzer.kt:135-140 | the caller's assistant, scoped to the attached files |
| KpiAnalyzer.KpiPollOver | app/src/main/java/com/example/aidashboard/KPIAnalyzer.kt:181-194 | over a window: true exactly when the first ending check is "completed"; false when none ends it |
| KpiAnalyzer.PollRunStatus | app/src/main/java/com/example/aidashboard/KPIAnalyzer.kt:173-195 | at most 20 checks; true only on a first completion; 20 pending checks give false; the first ending check decides |
| KpiAnalyzer.PollRunStatusThirdCheck | app/src/main/java/com/example/aidashboard/KPIAnalyzer.kt:186-187 | example: queued, in progress, completed: true after three checks |
| KpiAnalyzer.FetchReply | app/src/main/java/com/example/aidashboard/KPIAnalyzer.kt:198-218 | a value exactly when data[0].content[0].text.value exists, whatever the role |
| KpiAnalyzer.FetchRulesAgree | app/src/main/java/com/example/aidashboard/KPIAnalyzer.kt:209-214 | agrees with `fetchMessages` whenever it finds a value; where only the value is missing, it gives null and `fetchMessages` gives "" |
| KpiAnalyzer.ExceptionText | app/src/main/java/com/example/aidashboard/KPIAnalyzer.kt:54 | "❌ Run failed." and a line break, then the exception message |
| KpiAnalyzer.FirstFailedStep | app/src/main/java/com/example/aidashboard/KPIAnalyzer.kt:21-46 | 0 exactly when the upload gives no id, 1 when the thread then gives none, 2 when the post then throws, 3 when the run then gives no successful id, 4 exactly when polling is reached |
| KpiAnalyzer.KpiRequests | app/src/main/java/com/example/aidashboard/KPIAnalyzer.kt:21-46 | four requests, one per step, in step order |
| KpiAnalyzer.AfterKpiRunStarted | app/src/main/java/com/example/aidashboard/KPIAnalyzer.kt:47-50 | status checks, then a fetch only on success; poll and fetch failure texts |
| KpiAnalyzer.AnalyzeKpi | app/src/main/java/com/example/aidashboard/KPIAnalyzer.kt:15-56 | a lost upload or thread id ends with that step's text after its own request; an exception from the post gives the run-failed text with its message after the message request; a run without an id gives "❌ Run failed." after the four requests; once the run started, the status checks follow, a fetch only after completion, and the verdict is the fetched text, the fetch-failed text or the poll-failed text |
| KpiAnalyzer.AnalyzeKpiCallsFollowSteps | app/src/main/java/com/example/aidashboard/KPIAnalyzer.kt:21-50 | calls come in step order, and none belongs to a step after the first failing one |
| KpiAnalyzer.KpiReportsFetchedText | app/src/main/java/com/example/aidashboard/KPIAnalyzer.kt:50 | a completed run with a readable first message reports its text |
| KpiAnalyzer.MessageStatusIgnored | app/src/main/java/com/example/aidashboard/KPIAnalyzer.kt:45-46 | the message post's HTTP status makes no difference |
| KpiAnalyzer.RunReadsAttachedFiles | app/src/main/java/com/example/aidashboard/KPIAnalyzer.kt:103-140 | the run reads exactly the files the message attached, the upload first |
| KpiAnalysisScreen.GetHistoricalFileId | app/src/main/java/com/example/aidashboard/KPIAnalysisScreen.kt:299-309 | a file id exactly for a key in the table; null for any other key |
| KpiAnalysisScreen.DepartmentKey | app/src/main/java/com/example/aidashboard/KPIAnalysisScreen.kt:57-59 | lower-casing each offered department gives its key |
| KpiAnalysisScreen.TableKeys | app/src/main/java/com/example/aidashboard/KPIAnalysisScreen.kt:300-308 | the table's keys are exactly the seven listed department keys |
| KpiAnalysisScreen.TableKeysAreLoweredDepartments | app/src/main/java/com/example/aidashboard/KPIAnalysisScreen.kt:299-309 | the keys are exactly the seven departments lower-cased, all lower-case |
| KpiAnalysisScreen.EveryDepartmentHasHistory | app/src/main/java/com/example/aidashboard/KPIAnalysisScreen.kt:70-71 | every offered department, lower-cased, has a reference file |
| KpiAnalysisScreen.HistoricalIdsDistinct | app/src/main/java/com/example/aidashboard/KPIAnalysisScreen.kt:300-307 | the seven reference files are pairwise distinct |
| KpiAnalysisScreen.DisplayNameIsNotAKey | app/src/main/java/com/example/aidashboard/KPIAnalysisScreen.kt:70-71 | the display name finds nothing; its lower-cased form finds the file |
| KpiAnalysisScreen.OnFilePicked | app/src/main/java/com/example/aidashboard/KPIAnalysisScreen.kt:61-78 | nothing happens without a copied file; otherwise the analyzer's text, run with the displayed name and the lower-cased key |
| KpiAnalysisScreen.RunFilesForDepartment | app/src/main/java/com/example/aidashboard/KPIAnalysisScreen.kt:70-72 | a department in the table runs on two files; any other on the upload alone |
| ChatScreen.Shell | app/src/main/java/com/example/aidashboard/ChatScreen.kt:60-70 | id and thread are the thread id, no messages, created and updated now |
| ChatScreen.OpenThread | app/src/main/java/com/example/aidashboard/ChatScreen.kt:47-75 | afterwards the store holds the thread with the adopted creation time; a stored session lends its time and, for an empty caller list, its messages; otherwise the shell is appended |
| ChatScreen.Persist | app/src/main/java/com/example/aidashboard/ChatScreen.kt:78-90 | keyed by the thread, the fixed title, the first creation time (now if none), updated now |
| ChatScreen.AfterPersist | app/src/main/java/com/example/aidashboard/ChatScreen.kt:80-81 | the screen remembers the creation time it wrote and nothing else changes |
| ChatScreen.PersistTwiceKeepsCreation | app/src/main/java/com/example/aidashboard/ChatScreen.kt:78-93 | the second persist keeps the first's creation time, and one record remains, the second |
| ChatScreen.AssistantReply | app/src/main/java/com/example/aidashboard/ChatScreen.kt:238-263 | the send-failed, run-failed or no-response placeholder, or the reply |
| ChatScreen.AssistantReplyIsOneOf | app/src/main/java/com/example/aidashboard/ChatScreen.kt:238-263 | the reply only when all three calls worked, otherwise exactly one of three placeholders |
| ChatScreen.RemoteEvents | app/src/main/java/com/example/aidashboard/ChatScreen.kt:238-242 | the post always; a run exactly when the post worked; a poll exactly when a run id came back |
| ChatScreen.Send | app/src/main/java/com/example/aidashboard/ChatScreen.kt:226-264 | nothing without non-blank input or while loading; otherwise two more messages (the trimmed user text, then the assistant message), one persist before any remote call and one after, loading off, input cleared |
| ChatScreen.SendStoresTranscript | app/src/main/java/com/example/aidashboard/ChatScreen.kt:229-263 | after a turn the store holds one record for the thread, with the whole transcript |
| ChatScreen.GrowsByPairsTransitive | app/src/main/java/com/example/aidashboard/ChatScreen.kt:229-244 | growing by pairs twice is growing by pairs |
| ChatScreen.SendAddsPair | app/src/main/java/com/example/aidashboard/ChatScreen.kt:229-244 | one press adds a [user, assistant] pair or nothing |
| ChatScreen.ConverseAddsPairs | app/src/main/java/com/example/aidashboard/ChatScreen.kt:226-264 | any sequence of turns appends only [user, assistant] pairs to whatever the transcript started with |
| ChatScreen.TranscriptFromEmpty | app/src/main/java/com/example/aidashboard/ChatScreen.kt:226-264 | from an empty transcript, senders alternate from the user and the length is even |
| ChatScreen.TranscriptAfterSummary | app/src/main/java/com/example/aidashboard/MainActivity.kt:51-53 | after a seeded summary: the summary, then pairs |
| ChatScreen.OracleOf | app/src/main/java/com/example/aidashboard/ChatScreen.kt:238-242 | the corrected turn's outcomes come from the three repository calls, with the polling loop's transport failures caught; the run is scoped to the screen's file |
| ChatScreen.SendTurn | app/src/main/java/com/example/aidashboard/ChatScreen.kt:237-264 | with failures caught, a turn always adds two messages and stops loading; a first poll lost in transport gives the no-response placeholder |
| ChatScreen.SendTurnAsWritten | app/src/main/java/com/example/aidashboard/ChatScreen.kt:237-264 | as written, an accepted send always adds the user message and persists it first; the screen stays loading exactly when no assistant message follows |
| ChatScreen.SendTurnAsWrittenAgrees | app/src/main/java/com/example/aidashboard/ChatScreen.kt:237-264 | on an accepted send, the written turn equals the corrected one exactly when the unguarded poll does not throw; a refused send is the same in both |
| ChatScreen.ThrowingPollLeavesTurnOpen | app/src/main/java/com/example/aidashboard/ChatScreen.kt:242-248 | a thrown poll leaves one message instead of two and the screen loading, so every later send is refused |
| HistoryScreen.WithUpdatedAt | app/src/main/java/com/example/aidashboard/HistoryScreen.kt:69 | the sessions with one `updatedAt`, in order |
| HistoryScreen.NewestFirstAllPairs | app/src/main/java/com/example/aidashboard/HistoryScreen.kt:69 | in a newest-first list every earlier session is at least as new as every later one |
| HistoryScreen.InsertIsPermutation | app/src/main/java/com/example/aidashboard/HistoryScreen.kt:69 | inserting adds exactly the one session, as a multiset, and loses none |
| HistoryScreen.InsertKeepsNewestFirst | app/src/main/java/com/example/aidashboard/HistoryScreen.kt:69 | inserting into a newest-first list keeps it newest first |
| HistoryScreen.SortNewestFirst | app/src/main/java/com/example/aidashboard/HistoryScreen.kt:69 | a permutation of the sessions with `updatedAt` non-increasing |
| HistoryScreen.InsertKeepsTies | app/src/main/java/com/example/aidashboard/HistoryScreen.kt:69 | an inserted session goes in front of its ties and no other tie group changes |
| HistoryScreen.SortIsStable | app/src/main/java/com/example/aidashboard/HistoryScreen.kt:69 | sessions with equal `updatedAt` keep their stored relative order |
| HistoryScreen.SortKeepsStrictlyOrdered | app/src/main/java/com/example/aidashboard/HistoryScreen.kt:69 | a strictly newest-first list is left as is |
| HistoryScreen.RowSessions | app/src/main/java/com/example/aidashboard/HistoryScreen.kt:69-74 | the sessions behind the rows, in row order |
| HistoryScreen.Rows | app/src/main/java/com/example/aidashboard/HistoryScreen.kt:53-77 | nothing while loading; otherwise a permutation of the sessions, newest first, each row counting its messages |
| HistoryScreen.RowsAreStable | app/src/main/java/com/example/aidashboard/HistoryScreen.kt:69 | rows with equal `updatedAt` appear in stored order |
| MainActivity.OnStartAnalyze | app/src/main/java/com/example/aidashboard/MainActivity.kt:30-38 | messages, thread, file and summary are cleared |
| MainActivity.OnChat | app/src/main/java/com/example/aidashboard/MainActivity.kt:47-55 | the ids and summary are remembered; messages become [assistant(summary)] only when empty |
| MainActivity.EnterChatRoute | app/src/main/java/com/example/aidashboard/MainActivity.kt:66-84 | missing arguments read as ""; an empty transcript is seeded exactly when the summary is not blank; a non-empty one is kept |
| MainActivity.OnOpenSession | app/src/main/java/com/example/aidashboard/MainActivity.kt:100-105 | thread, file and messages are copied; the summary is the first message's content or "" |
| MainActivity.LoadHistory | app/src/main/java/com/example/aidashboard/MainActivity.kt:91-95 | every stored session, then loading ends |
| MainActivity.OnDeleteSession | app/src/main/java/com/example/aidashboard/MainActivity.kt:107-111 | the reloaded list lacks the deleted id and keeps every other stored session |
| MainActivity.AnalysisThenChat | app/src/main/java/com/example/aidashboard/MainActivity.kt:30-84 | a new analysis followed by chat hands the chat screen exactly the summary |
| MainActivity.OpenedSessionIsNotReseeded | app/src/main/java/com/example/aidashboard/MainActivity.kt:100-105 | a reopened session reaches the chat screen as stored, even when empty |
| MainActivity.FreshAnalysisHasNoSummary | app/src/main/java/com/example/aidashboard/MainActivity.kt:30-36 | entering chat right after a new analysis shows no message |

## Left out

- Network, HTTP and multipart request building, headers and streaming: each call is an outcome input (transport failure, success flag, parsed fields).
- JSON parsing and escaping, and bodies that are not JSON objects: responses are already-parsed values with optional fields.
- The Gson blob in the preference store: the store is the decoded list, or an absent or null decoding.
- The read-modify-write race between concurrent `upsert` and `delete` calls, coroutines, dispatchers and main-thread posting: these are concurrency concerns. Each persist is modelled as an immediate upsert, in the order the turn issues them.
- `delay` and `Thread.sleep`: only attempt counts are modelled. `System.currentTimeMillis` is a parameter.
- The upload's input-stream check in `uploadFile`: a missing stream is folded into the upload outcome.
- Compose rendering, file picking (`copyUriToTempFile`), report saving and export, and the scroll-to-bottom effect: these are UI and I/O.
- HomeScreen.kt and ResultScreen.kt are presentation, and app/build.gradle.kts is build configuration; none of them is part of this model.
- Navigation itself: route strings and back-stack handling are reduced to a `Route` value.
- `Text.Lower`: lower-cases ASCII letters only, because Kotlin's locale-independent Unicode mapping is library code. Every department name is ASCII.
- `Text.EndsWithAppended`: case-insensitive comparison folds ASCII letters only, for the same reason.
- `KpiAnalyzer.Prompt`: assumes a department name without a line break, because `trimIndent` runs after interpolation and would re-indent such a name. Every offered department is one line.
- `KpiAnalyzer.AnalyzeKpi`: only the message post is modelled as able to throw, because every other network call catches its own exceptions. An interrupted `Thread.sleep` in `pollRunStatus` (KPIAnalyzer.kt:182), which sits outside that loop's `try` and would reach the run-failed catch, is not modelled, since thread interruption is a concurrency concern.
- `Long` timestamps are unbounded integers: wrap-around never matters for the comparisons the history sort makes.
- `OpenAiRepository.ChatPollOver`: models the chat loop with its transport failures caught, as the corrected half of the Findings row for OpenAiRepository.kt:469; the loop as written is `OpenAiRepository.ChatPollOverAsWritten`.
- `OpenAiRepository.PollAndFetchChatMessage`: the same corrected loop over the 15-check window; where the listing at OpenAiRepository.kt:480 is lost, the code as written throws rather than returning null (`OpenAiRepository.ChatPollAsWrittenLosesListing`).
- `OpenAiRepository.PollRunAndFetch`: the loop has no bound in the code, so it runs over a finite sequence of observed statuses and is pending when none of them ends it.

## Findings

| source | as written | input that shows it | evidently intended | confidence | as-written member | corrected member |
|---|---|---|---|---|---|---|
| app/src/main/java/com/example/aidashboard/OpenAiRepository.kt:469 | `pollAndFetchChatMessage` calls `execute()` for the status check (and for the listing at line 480) outside any try block. A transport failure escapes, uncaught, from the coroutine the chat screen launched (on Android an uncaught coroutine exception normally ends the process). The turn never appends its assistant message, never persists again and never resets `isLoading`. | a send that is accepted, a run that starts, and a first status request that fails in transport | as in `sendChatMessage` and `runChatAssistant`, a failure yields null, so the screen appends "❌ No response from assistant.", persists and stops loading | not executed | ChatScreen.ThrowingPollLeavesTurnOpen | ChatScreen.SendTurn |
| app/src/main/java/com/example/aidashboard/OpenAiRepository.kt:480 | after a completed status, `pollAndFetchChatMessage` fetches the message listing with `execute()` outside any try block, so a listing lost in transport throws out of the loop in the same way. | a first status of "completed" followed by a listing request that fails in transport | the listing failure yields null, as a listing without an assistant text does | not executed | OpenAiRepository.ChatPollAsWrittenLosesListing | OpenAiRepository.PollAndFetchChatMessage |
