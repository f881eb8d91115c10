# Miru-Log core in Dafny

Miru-Log is a personal activity log. It has several parts:

- An **observer** takes a screenshot every capture interval while the user is active. It skips locked or idle sessions and logs each skip reason at most once a minute.
- An **observation repository** (SQLite) stores each capture as a pending row.
- An **analyzer** sends the pending captures, oldest first, to a vision model. The model is either Gemini or a local OpenAI-compatible server. The analyzer saves each answer, archives or deletes the screenshot, and stops early when the service reports a rate limit.
- A **summarizer** folds one day's analysed captures into segments (consecutive captures with the same primary task), blockers and follow-ups.
- A **notifier** reads the saved summary back and renders a Japanese Markdown report.
- A **visualizer** can ask an image service for an infographic of the day.
- A **tray** controller starts and stops these programs. It records their start and end times in a JSON state file and remembers which analyzer backend to use.

This project models each of those source files as one Dafny module. The settings loader, the data classes and the small utilities are also modules. Pure code is modelled as functions and lemmas:

- parsing the model's reply;
- the environment settings;
- the summary fold;
- reading the JSON summary back;
- the report text.

Code that changes state is modelled as classes with `modifies` clauses:

- the input-activity monitor;
- the capture manager and its files on disk;
- the repository tables;
- the observer loop;
- the tray controller.

Every loop is proved against a specification function (a recursive definition or a sequence comprehension), and the properties the source promises are proved about that function.

The outside world is passed in as parameters. This covers:

- the clock;
- environment variables;
- the session-lock probes;
- the screenshot and the active window;
- file existence;
- `json.loads`, `str()`, `float()`, `datetime.fromisoformat` and `isoformat`;
- base64;
- the HTTP and SDK calls;
- the running processes.

The modules are:

- `wrappers`: Option and Result.
- `text`: ASCII string helpers.
- `json`: decoded JSON values, with objects as association lists in document order.
- `times`: timestamps and `%H:%M` / `%Y-%m-%d` labels.
- `sorting`: a stable sort by key, used for `ORDER BY` and `sorted(..., reverse=True)`.
- One module per source file: `models`, `config`, `utils`, `capture`, `activity`, `storage`, `llm_response` (the reply handling both clients share), `gemini_client`, `local_llm_client`, `visualizer`, `analyzer`, `observer`, `summarizer`, `summarizer_main`, `notifier` and `tray`.

## Model

| member | source | states |
|---|---|---|
| Models.CaptureRecordDefaults | mirulog/models.py:9-17 | A new capture record is "active", has no digest and no id, and keeps the time, path, window and application it was given |
| Models.AnalysisResultDefaults | mirulog/models.py:20-27 | An analysis result built without tags or raw response has no tags and no raw response |
| Models.DailySummaryDefaults | mirulog/models.py:38-46 | A daily summary starts with no Markdown path and no development context |
| Config.GetEnv | mirulog/config.py:67 | An unset variable reads as its default, and a set one reads as its value |
| Config.AsBool | mirulog/config.py:122-127 | With no value, the result is the default, or False when there is none. With a value, the result is true exactly when the stripped, lower-cased text is one of the true words |
| Config.AsBoolIgnoresDefault | mirulog/config.py:122-127 | A set value decides the result whatever the default is |
| Config.AsBoolCaseInsensitive | mirulog/config.py:127 | "TRUE", "Yes" and the like read the same as their lower-case forms |
| Config.TrueReadsTrue | mirulog/config.py:122-127 | "true" reads as true |
| Config.FalseReadsFalse | mirulog/config.py:122-127 | "false" reads as false |
| Config.Require | mirulog/config.py:115-119 | A required variable that is unset or empty raises RuntimeError naming the variable; otherwise its non-empty value is returned |
| Config.EnvInt | mirulog/config.py:71-72 | An integer setting is the parse of the variable or its default. A value that is not an integer raises ValueError |
| Config.EnvFloat | mirulog/config.py:82 | A float setting is the parse of the variable or its default. Anything else raises ValueError |
| Config.TimeZone | mirulog/config.py:67-68 | The zone is TIMEZONE, defaulting to Asia/Tokyo. An unknown zone raises KeyError |
| Config.CaptureFromEnv | mirulog/config.py:70-76 | The capture settings are read from their variables with defaults 60 s, 5 min, data/captures, data/archive and delete=true. They fail exactly when an integer does not parse |
| Config.GeminiFromEnv | mirulog/config.py:78-86 | A missing API key fails with the required-variable error. Otherwise the model, token limit, temperature and retries come from their variables and defaults |
| Config.VisualizationFromEnv | mirulog/config.py:88-93 | The key is taken as set. The flag defaults to false, and the endpoint has its documented default |
| Config.GetSettings | mirulog/config.py:62-112 | An unknown time zone fails with KeyError. A successful load is exactly the capture, Gemini and visualization sections read from the environment, with the log level upper-cased |
| Config.MissingApiKey | mirulog/config.py:79 | Without GEMINI_API_KEY, loading the settings fails with the required-variable error |
| Config.DefaultIntervalParses | mirulog/config.py:71 | The default interval "60" parses to 60 |
| Config.DefaultIdleParses | mirulog/config.py:72 | The default idle threshold "5" parses to 5 |
| Config.TwoDigitsParse | mirulog/config.py:71-72 | Any two-digit value parses to its decimal value |
| Config.CaptureDefaults | mirulog/config.py:70-76 | With nothing set: a 60-second interval, a 5-minute idle threshold, and deletion after analysis |
| Config.VisualizationDefaults | mirulog/config.py:88-93 | With nothing set, visualization is off and has no key |
| Config.UnsetDefaults | mirulog/config.py:62-112 | With only a Gemini key set, every section gets its default: Asia/Tokyo, 60 s, 5 min, delete, gemini-pro-vision, visualization off |
| Utils.QueriedSession | mirulog/utils.py:128-139 | The console session is queried unless it is 0xFFFFFFFF (no console). In that case the process's own session is queried |
| Utils.FlagsLocked | mirulog/utils.py:155-164 | For level 1, flags 0 means locked and flags 1 means unlocked. Every other answer is unknown |
| Utils.WtsIsSessionLocked | mirulog/utils.py:87-168 | The WTS probe says locked (unlocked) exactly when the session it queries answers level 1 with flags 0 (1). With no session it is unknown |
| Utils.LockCheckDisabledAsBool | mirulog/utils.py:61-62 | MIRULOG_DISABLE_LOCK_CHECK is read with the same true words as every boolean setting |
| Utils.IsSessionLocked | mirulog/utils.py:55-84 | Off Windows, or with the check disabled, the session is never locked. A WTS "unlocked" is final. A WTS "locked" or unknown falls back to whether the input desktop fails to open |
| Utils.LockedExactly | mirulog/utils.py:55-84 | The session is locked iff: on Windows, the check is enabled, WTS did not say unlocked, and the input desktop cannot be opened |
| Utils.TimestampSlug | mirulog/utils.py:171-172 | The slug is fifteen characters: the zero-padded year, month and day, a dash, then the zero-padded hour, minute and second |
| Utils.SlugFields | mirulog/utils.py:171-172 | The digits of the slug read back as the year, month, day, hour, minute and second |
| Utils.SlugDeterminesSecond | mirulog/utils.py:171-172 | Two times with the same slug fall in the same second |
| Capture.CapturePath | mirulog/capture.py:30-33 | A screenshot goes under the capture root, in the folder of its day, named capture-<slug>.png |
| Capture.ArchivePath | mirulog/capture.py:64-66 | An archived file goes under the archive root, in the folder of its capture day, with its file name kept |
| Capture.ArchiveKeepsDayAndName | mirulog/capture.py:30-33 | Archiving a capture keeps its day folder and file name. Only the root changes |
| Capture.CapturePathsDistinct | mirulog/capture.py:30-33 | Two captures can share a file only if they are taken in the same second |
| Capture.CaptureManager.constructor | mirulog/capture.py:26-48 | A manager starts with the given roots and the files on disk |
| Capture.CaptureManager.Capture | mirulog/capture.py:26-48 | A locked session raises CaptureSkipped and writes nothing. Otherwise exactly one file is added, at the capture path, and the returned record describes it: time, window, application, "active", its digest, no id |
| Capture.CaptureManager.Archive | mirulog/capture.py:50-68 | With delete set, the source is removed (a failed delete changes nothing) and nothing is returned. Otherwise a missing source changes nothing, and an existing one is moved to its archive path, which is returned |
| Capture.MoveLeavesTargetOnly | mirulog/capture.py:64-68 | After a move the target exists, the source is gone unless it is the target, and no file was gained |
| Activity.InputActivityMonitor.constructor | mirulog/activity.py:13-19 | A new monitor counts its creation as the last activity and has no listeners |
| Activity.InputActivityMonitor.Start | mirulog/activity.py:21-29 | Starting is a no-op while either listener exists. Otherwise both listeners are created |
| Activity.InputActivityMonitor.Stop | mirulog/activity.py:31-37 | After stopping, neither listener exists, and the last activity is kept |
| Activity.InputActivityMonitor.UpdateActivity | mirulog/activity.py:45-47 | The last activity becomes now, and nothing else changes |
| Activity.InputActivityMonitor.OnMouse | mirulog/activity.py:39-40 | A mouse event records activity now |
| Activity.InputActivityMonitor.OnKeyboard | mirulog/activity.py:42-43 | A key press records activity now |
| Activity.InputActivityMonitor.IsIdle | mirulog/activity.py:49-55 | The monitor is idle iff strictly more than the threshold has passed since the last activity, or the session is locked |
| Activity.InputActivityMonitor.LastActivity | mirulog/activity.py:57-59 | The last activity is returned unchanged |
| Activity.IdleStaysIdle | mirulog/activity.py:49-55 | Once idle, the monitor stays idle as time passes without activity |
| Activity.ActivityResetsIdle | mirulog/activity.py:49-55 | Right after activity, and still exactly at the threshold, the monitor is idle only when locked. One microsecond later it is idle |
| Storage.ToRecord | mirulog/storage.py:80-94 | A pending row becomes a record with its id, time, path and digest. A NULL window or application becomes "". A NULL or empty state becomes "active" |
| Storage.StoredRecordReadsBack | mirulog/storage.py:48-94 | A record added and read back is the same record with its new id (and "active" for an empty state) |
| Storage.Unanalysed | mirulog/storage.py:69-78 | The pending captures are exactly the stored captures that have no analysis row |
| Storage.Limited | mirulog/storage.py:69-78 | LIMIT n keeps the first n rows. A negative limit keeps them all |
| Storage.PendingFacts | mirulog/storage.py:67-94 | pending_captures returns at most `limit` unanalysed captures, oldest first. No unanalysed capture left out is older than one returned |
| Storage.PendingRecords | mirulog/storage.py:67-94 | The pending records are the limited, time-ordered unanalysed rows, each turned into a record |
| Storage.UnanalysedOther | mirulog/storage.py:107-123 | Saving an analysis for an id that names no capture leaves the pending list unchanged |
| Storage.SaveShrinksPending | mirulog/storage.py:107-123 | Saving an analysis shrinks the pending count by one exactly when it is the first analysis of an existing capture |
| Storage.Joined | mirulog/storage.py:125-134 | The day's joined rows are exactly the analysed captures of that date, each with its own analysis row |
| Storage.DayRowsFacts | mirulog/storage.py:125-134 | daily_analysis returns exactly the analysed captures of the day, in ascending time |
| Storage.ObservationRepository.constructor | mirulog/storage.py:18-46 | A new store is empty and has issued no id |
| Storage.ObservationRepository.AddCapture | mirulog/storage.py:48-65 | The capture is appended under the next AUTOINCREMENT id, which is larger than every existing id. Analyses are untouched |
| Storage.ObservationRepository.PendingCaptures | mirulog/storage.py:67-94 | The result is the pending records, at most `limit` of them, each with an id that has no analysis |
| Storage.ObservationRepository.PendingCount | mirulog/storage.py:96-105 | The count is the number of unanalysed captures, between 0 and the number of captures |
| Storage.ObservationRepository.SaveAnalysis | mirulog/storage.py:107-123 | INSERT OR REPLACE sets the analysis row of the capture id, with tags comma-joined. Captures are unchanged, and the pending count drops by one iff this is the capture's first analysis |
| Storage.ObservationRepository.DailyAnalysis | mirulog/storage.py:125-134 | Every returned row is of the requested date and has an analysis |
| Storage.SaveTwiceKeepsLast | mirulog/storage.py:107-123 | Saving twice for one capture keeps only the second analysis |
| LlmResponse.StripFence | mirulog/gemini_client.py:61-66 | Unfenced text is just stripped. A fenced reply without a newline raises IndexError. Otherwise the text after the first line is kept, up to any closing fence |
| LlmResponse.FencedPart | mirulog/local_llm_client.py:204-209 | After an opening fence, a missing newline is an IndexError. Otherwise the body runs from the next line to the first closing fence |
| LlmResponse.UnfencedKept | mirulog/gemini_client.py:61-66 | A reply with no surrounding space and no fence passes through unchanged |
| LlmResponse.CaptureIdOf | mirulog/gemini_client.py:53 | `record.id or -1`: a missing or zero id becomes -1 |
| LlmResponse.TextField | mirulog/gemini_client.py:47-48 | A missing or falsy field falls back to its default. A non-empty string is kept. Any other truthy value is kept as its str() text |
| LlmResponse.TagTexts | mirulog/gemini_client.py:49-57 | Falsy tags give []. A list gives str() of each item, a string gives its characters, and an object gives its keys. A non-zero number or true raises |
| LlmResponse.Normalize | mirulog/local_llm_client.py:78-92 | A non-object payload raises. Otherwise the result exists exactly when float() accepts the confidence (0.6 when absent) and the tags are iterable; a bad confidence is the error reported first. A result carries the capture id, the raw text, the description (default: the stripped text), the task (default: Unclassified), float() of the confidence and the str() of each tag |
| LlmResponse.NormalizeKeepsConfidence | mirulog/local_llm_client.py:83 | A numeric confidence from the model is kept; 0.6 is used only when the key is absent |
| LlmResponse.NormalizeStringifiesTags | mirulog/gemini_client.py:49-57 | A list of tags is stored as the str() text of each item, in order |
| LlmResponse.ReplyText | mirulog/gemini_client.py:44 | An empty reply is replaced by "{}". Any other reply is kept |
| LlmResponse.NormalizeEmptyPayload | mirulog/gemini_client.py:47-59 | An empty object yields the stripped text as description, Unclassified, 0.6 and no tags |
| LlmResponse.NormalizeDescriptionOnly | mirulog/local_llm_client.py:80-92 | A payload with only a description keeps it and defaults the rest |
| LlmResponse.NormalizeBadConfidence | mirulog/gemini_client.py:50 | A confidence string that is not a number raises ValueError |
| LlmResponse.NormalizeKeepsFields | mirulog/gemini_client.py:47-48 | A non-empty description and task from the model are kept as they are |
| GeminiClient.RecordPrompt | mirulog/gemini_client.py:35 | The prompt starts with the fixed instruction text |
| GeminiClient.GenerationFor | mirulog/gemini_client.py:35-43 | The request uses the configured model, the record's image, the configured token limit and temperature, and the prompt |
| GeminiClient.ParsePayload | mirulog/gemini_client.py:61-71 | A broken fence raises. JSON is decoded. Anything that does not decode becomes {} |
| GeminiClient.ParsersAgreeOnJson | mirulog/local_llm_client.py:204-223 | Whenever the reply decodes (or the fence is broken), both clients parse it the same way |
| GeminiClient.AnalyzeReply | mirulog/gemini_client.py:44-59 | A result carries the record's id (or -1) and the reply text as raw response |
| GeminiClient.Analyze | mirulog/gemini_client.py:31-59 | A missing image raises FileNotFoundError before any request. A failed generation is passed on. Otherwise the result is the normalised reply, with a non-empty raw response |
| GeminiClient.UnfencedEmptyDefaults | mirulog/gemini_client.py:44-59 | Plain text that is not JSON becomes the description, with Unclassified, 0.6 and no tags |
| GeminiClient.EmptyReplyDefaults | mirulog/gemini_client.py:44 | An empty reply is stored as "{}" with all defaults |
| GeminiClient.ProseBecomesDescription | mirulog/gemini_client.py:61-71 | Prose around a JSON object is not salvaged by Gemini: the whole text becomes the description |
| LocalLlmClient.RdpHint | mirulog/local_llm_client.py:36-51 | The hint is given exactly for an RDP window title or an RDP client process (case-insensitively), and is otherwise empty |
| LocalLlmClient.RdpByProcess | mirulog/local_llm_client.py:46-47 | mstsc.exe and msrdc.exe, in any case, give the hint |
| LocalLlmClient.RdpByTitle | mirulog/local_llm_client.py:40-45 | A title containing "RDP" gives the hint |
| LocalLlmClient.BuildPrompt | mirulog/local_llm_client.py:225-233 | The system prompt is always the base text. It is extended exactly when the window looks like a remote desktop |
| LocalLlmClient.FallbackModel | mirulog/local_llm_client.py:160-173 | The fallback model name is never empty |
| LocalLlmClient.ResolveModel | mirulog/local_llm_client.py:148-173 | A configured, non-auto model is used as is. Otherwise a discovered model is used whenever discovery finds one, and a failed, rejected or empty discovery gives the fallback |
| LocalLlmClient.ListedModelSelected | mirulog/local_llm_client.py:161-168 | With a placeholder configured, a listing whose first entry has a string id selects that id |
| LocalLlmClient.DiscoveredModel | mirulog/local_llm_client.py:155-171 | A model is found exactly when the status is below 400, the body is a JSON object, its "data" is a non-empty list, and the first entry is an object with a truthy "id". The model is the str() of that id |
| LocalLlmClient.PlaceholderKeptOnFailure | mirulog/local_llm_client.py:155-173 | With an "auto"-style placeholder configured and discovery unreachable, the placeholder itself is kept |
| LocalLlmClient.NewAnalyzer | mirulog/local_llm_client.py:148-152 | A configured model is used without asking the server |
| LocalLlmClient.ChatHeaders | mirulog/local_llm_client.py:97-101 | JSON content type always. A bearer token exactly when a non-empty API key is set |
| LocalLlmClient.ChatPayload | mirulog/local_llm_client.py:105-120 | The plain payload is an object without response_format |
| LocalLlmClient.WithFormat | mirulog/local_llm_client.py:124-125 | Adding the format sets response_format to json_object and changes no other key |
| LocalLlmClient.PostWithFallback | mirulog/local_llm_client.py:175-196 | One request, and a second one without the format exactly when the first got 400 or 422. A transport failure of the last request becomes a RuntimeError |
| LocalLlmClient.FirstChoice | mirulog/local_llm_client.py:132-133 | Falsy choices give {}. Otherwise the first choice is taken |
| LocalLlmClient.MessageContent | mirulog/local_llm_client.py:132-133 | The content is read from the first choice's message. A response without choices, or a falsy message, has no content. A reply, choice or message that is not an object raises AttributeError, and an error indexing the choices is passed on |
| LocalLlmClient.NonEmpty | mirulog/local_llm_client.py:135-141 | Exactly the non-empty text parts are kept |
| LocalLlmClient.JoinTextParts | mirulog/local_llm_client.py:135-141 | The loop joins the non-empty text parts of a list content with newlines |
| LocalLlmClient.JoinedTextLines | mirulog/local_llm_client.py:135-141 | When no part holds a newline, the joined text splits back into the parts |
| LocalLlmClient.ContentText | mirulog/local_llm_client.py:132-144 | String content is returned. List content gives its non-empty text parts joined by newlines. Anything else gives "{}" |
| LocalLlmClient.ReplyOf | mirulog/local_llm_client.py:127-144 | A transport failure or a status of 400 or above raises RuntimeError. Any other answer is read as that response's reply |
| LocalLlmClient.ResponseReply | mirulog/local_llm_client.py:129-144 | A status of 400 or above raises RuntimeError. A body that is not JSON raises ValueError. Otherwise a content lookup error is passed on, and the reply is the text of the looked-up content |
| LocalLlmClient.ReadReply | mirulog/local_llm_client.py:129-144 | The method reads the reply exactly as the specification function does |
| LocalLlmClient.ChatWithImage | mirulog/local_llm_client.py:94-146 | Every request goes to base_url/chat/completions with the chat headers. The first carries the JSON format and the retry does not. The reply is read from the last response |
| LocalLlmClient.Salvage | mirulog/local_llm_client.py:213-220 | The salvaged text runs from the first "{" to the last "}". There is none when no "{" precedes a "}" |
| LocalLlmClient.ParsePayload | mirulog/local_llm_client.py:204-223 | A broken fence raises and nothing else does. JSON is decoded. Text that is not JSON has its braced part (first "{" to last "}") decoded instead. With no braced part, or one that does not decode, the payload is {} |
| LocalLlmClient.AnalyzeReply | mirulog/local_llm_client.py:77-92 | A result carries the record's id (or -1) and the reply text as raw response |
| LocalLlmClient.ProseNotFenced | mirulog/local_llm_client.py:204-209 | Prose is not mistaken for a fenced reply |
| LocalLlmClient.SalvageProse | mirulog/local_llm_client.py:213-220 | The object inside the prose is found |
| LocalLlmClient.ProseFirstOpen | mirulog/local_llm_client.py:214 | The salvage starts at the first "{" |
| LocalLlmClient.ProseLastClose | mirulog/local_llm_client.py:215 | The salvage ends at the last "}" |
| LocalLlmClient.ProseObjectInside | mirulog/local_llm_client.py:213-220 | The braced part is the embedded object |
| LocalLlmClient.ParseProse | mirulog/local_llm_client.py:213-220 | Prose with an embedded object parses as that object |
| LocalLlmClient.ProseAroundFence | mirulog/local_llm_client.py:78-92 | A salvaged object's description is used, unlike the Gemini client |
| LocalLlmClient.FenceLineStrips | mirulog/local_llm_client.py:205-207 | A bare "```json" line with a trailing newline strips to a fence with no newline |
| LocalLlmClient.UnbrokenFenceRaises | mirulog/local_llm_client.py:205-207 | Such a reply raises IndexError rather than returning defaults |
| LocalLlmClient.UserText | mirulog/local_llm_client.py:70-74 | The user text starts with the capture's timestamp line |
| LocalLlmClient.Analyze | mirulog/local_llm_client.py:66-92 | A missing image raises FileNotFoundError without any request. The first request carries the system prompt, user text and image. A failed reply is passed on. Otherwise the result is the normalised reply |
| LocalLlmClient.AnalyzeOutcome | mirulog/local_llm_client.py:76-92 | A failed chat is passed on. A reply is normalised, with the record's id and a non-empty raw response |
| Visualizer.SegmentLines | mirulog/visualizer.py:50-52 | One prompt line per segment, in order |
| Visualizer.OptionalLine | mirulog/visualizer.py:53-56 | The Blockers/Follow-ups line is present exactly when its list is non-empty |
| Visualizer.PromptShape | mirulog/visualizer.py:44-57 | The prompt has the date, total and heading, then one line per segment, the optional lists, and the fixed instruction last |
| Visualizer.BuildPrompt | mirulog/visualizer.py:44-57 | The loop builds exactly those lines, joined by newlines |
| Visualizer.PromptReadsBack | mirulog/visualizer.py:57 | Lines without newlines split back out of the prompt |
| Visualizer.RequestFor | mirulog/visualizer.py:22-29 | The request uses the configured endpoint and model, the prompt, and a bearer header with the key |
| Visualizer.ImageBytes | mirulog/visualizer.py:33-41 | An image content type is written raw. A JSON object with a non-empty image_base64 string gives its base64 decoding. JSON without image_base64 raises. A non-JSON body raises ValueError |
| Visualizer.RenderSummary | mirulog/visualizer.py:18-42 | Without an API key it raises before posting. With a key, a post answered below 400 whose image bytes can be read writes exactly those bytes to the output path. Every success is of that form |
| Visualizer.ImageReplyWrittenRaw | mirulog/visualizer.py:34-35 | A PNG reply is written exactly as received |
| Visualizer.Base64ReplyWritten | mirulog/visualizer.py:36-41 | A JSON reply carrying image_base64 is written as the decoded bytes |
| Analyzer.Attempt | analyzer.py:30-33 | A capture is analysed, then saved and archived. An analysis failure is recorded with nothing saved |
| Analyzer.RunFacts | analyzer.py:29-47 | The loop visits a prefix of the pending captures in order. Only the last visited capture can stop the run, and a run that ends early stopped on a rate limit |
| Analyzer.Saved | analyzer.py:31-32 | Only successful analyses are saved |
| Analyzer.SavedMembers | analyzer.py:31-32 | Every saved result comes from a successful outcome |
| Analyzer.SavedOnlyAnalysed | analyzer.py:29-47 | Every saved result is the analysis of some pending capture |
| Analyzer.RunBatch | analyzer.py:23-47 | The batch processes pending_captures(limit) in order, stopping at the first rate limit. The store gains exactly the successful analyses, captures and the id counter are unchanged, and exactly the analysed captures are archived |
| Analyzer.ProcessAll | analyzer.py:29-47 | The loop's outcomes are the run. The table gains exactly the saved results, the captures and the id counter are unchanged, and the archived captures match them one for one |
| Analyzer.ProcessNext | analyzer.py:29-47 | One step keeps the loop's invariant, leaves the captures and the id counter alone, and stops the run exactly on a rate limit |
| Analyzer.Process | analyzer.py:30-37 | One capture: a failure leaves the table unchanged. A success stores its analysis under its id. The captures and the id counter never change |
| Analyzer.RunStep | analyzer.py:29-47 | A run is the first attempt followed by the rest, unless the first attempt stopped it |
| Analyzer.RunAdvance | analyzer.py:38-47 | After one more attempt the run is either finished or continues with the rest |
| Analyzer.TableAdvance | analyzer.py:32 | Saving one more result extends the table as saving all of them does |
| Analyzer.ArchivedAdvance | analyzer.py:33 | Archiving after a success keeps the archived captures matched to the saved results |
| Analyzer.SaveAllSnoc | analyzer.py:32 | Saving results one by one is saving them in order |
| Analyzer.SavedSnoc | analyzer.py:31-32 | One more outcome adds its result exactly when it succeeded |
| Analyzer.NothingPending | analyzer.py:24-26 | With nothing pending, nothing is analysed or saved |
| Analyzer.RateLimitStopsRun | analyzer.py:36-46 | A rate-limited first capture ends the run after it |
| Analyzer.OtherErrorContinues | analyzer.py:47 | Any other error is logged and the run continues with the next capture |
| Analyzer.RateLimitMessages | analyzer.py:37 | Messages containing "429", "Quota exceeded", or "rate limit" in any letter case count as rate limits |
| Analyzer.PlainErrorNotRateLimited | analyzer.py:37 | A message without a "4", a "Q" or an "r"/"R" is never a rate limit, so the run goes on past it |
| Analyzer.Run | analyzer.py:29-47 | The run never visits more records than are pending. The first pending record is always attempted, and a run that stops after one of several records stopped on it |
| Analyzer.DefaultBatchBounded | analyzer.py:14 | With the default `--limit` of 20, a run attempts at most twenty records |
| Observer.Decide | observer.py:65-96 | A locked session is skipped first. Then an idle one is skipped. Then the capture is persisted, skipped (CaptureSkipped) or failed |
| Observer.SkipReason | observer.py:69-94 | Exactly the skips carry a reason |
| Observer.SkipLog | observer.py:69-94 | A skip is logged iff its reason differs from the last logged one, or at least 60 seconds have passed since then |
| Observer.NextSkip | observer.py:61-94 | Logging a skip remembers its reason and time. Otherwise the skip state is kept |
| Observer.Replay | observer.py:65-101 | A replay logs and stores at most one entry per pass |
| Observer.ReplayLogSpacing | observer.py:61-94 | The skip state is the last log entry, and a repeated reason is logged at least 60 seconds apart |
| Observer.FirstSkipLogged | observer.py:61-94 | The first skip is always logged |
| Observer.LockedThrottled | observer.py:69-75 | Two locked passes log twice only if 60 seconds apart |
| Observer.ReplayFirst | observer.py:69-75 | A first locked pass logs the locked reason and stores nothing |
| Observer.ReasonChangeLogged | observer.py:69-83 | A change from locked to idle is logged at once |
| Observer.ReplayStored | observer.py:85-88 | Only captures taken while unlocked and active are stored |
| Observer.FirstSignal | observer.py:50-56 | The loop stops at the first pass after the signal |
| Observer.Numbered | mirulog/storage.py:48-65 | Stored captures get consecutive ids |
| Observer.CaptureLoop.constructor | observer.py:61-63 | The loop starts running with no skip state, no log and nothing stored |
| Observer.CaptureLoop.Tick | observer.py:65-96 | One pass decides, logs as throttled, persists a taken capture under the next id, and touches nothing else |
| Observer.CaptureLoop.Run | observer.py:65-101 | The loop runs until the first signal, stops the monitor, and leaves exactly the replay's log and stored captures |
| Observer.CaptureLoop.Passes | observer.py:65-98 | The loop's passes are the replay of the ticks up to the signal |
| Observer.PassKeepsMirror | observer.py:65-98 | One pass keeps the object's state equal to the replay |
| Observer.ReplayStep | observer.py:65-98 | A replay is the previous replay plus one pass |
| Observer.NumberedSnoc | mirulog/storage.py:48-65 | Storing one more capture gives it the next id |
| Summarizer.Take | summarizer.py:81-82 | `s[:n]` keeps the first min(n, len) items |
| Summarizer.TaskOf | summarizer.py:50 | A missing or empty task reads as Unclassified |
| Summarizer.StrippedNonEmpty | summarizer.py:51 | Only non-empty stripped tags are kept |
| Summarizer.Highlights | summarizer.py:52 | Each highlight is the capture's HH:MM and its description |
| Summarizer.SampleMinutesProduct | summarizer.py:77 | n samples are n intervals in minutes |
| Summarizer.SampleMinutesAdd | summarizer.py:77-92 | Sample minutes add up over runs |
| Summarizer.FinalizeSegment | summarizer.py:87-93 | A segment keeps at most three highlights |
| Summarizer.Extend | summarizer.py:59-72 | Folding a row keeps every run non-empty |
| Summarizer.Runs | summarizer.py:48-75 | The runs are all non-empty |
| Summarizer.RunsPartition | summarizer.py:48-75 | Every row lands in exactly one run, in order. Each run has one task, and neighbouring runs differ |
| Summarizer.RunsPartitionStep | summarizer.py:59-72 | One row either joins the open run or opens a new one, and the partition is kept |
| Summarizer.RunsPartitionJoin | summarizer.py:59-62 | A row of the current task joins the open run |
| Summarizer.RunsPartitionOpen | summarizer.py:63-72 | A row of another task opens a new run |
| Summarizer.OpenedRunShape | summarizer.py:63-72 | Opening a run keeps runs uniform and neighbours distinct |
| Summarizer.RunsUnique | summarizer.py:48-75 | The runs are the only such partition: the maximal blocks of equal task |
| Summarizer.DropLastSingle | summarizer.py:63-72 | A partition whose last run has one row came from opening that run |
| Summarizer.DropLastLonger | summarizer.py:59-62 | A partition whose last run is longer came from extending it |
| Summarizer.ShortenedRunShape | summarizer.py:59-62 | Removing the last row keeps runs uniform and neighbours distinct |
| Summarizer.FlattenEmpty | summarizer.py:48-75 | A partition of no rows has no runs |
| Summarizer.RunOf | summarizer.py:59-72 | The open run's count is its length, and its task is that of its first row |
| Summarizer.FinalizeAll | summarizer.py:87-93 | One segment per run |
| Summarizer.DailySummaryOf | summarizer.py:41-85 | The summary has the date, no path, one interval per row as total, and the first blockers and follow-ups (at most five each) in row order |
| Summarizer.BuildDailySummary | summarizer.py:41-85 | The loop computes exactly the specified summary: the finalised runs, the blockers and follow-ups, and one interval per row |
| Summarizer.FoldedContinue | summarizer.py:59-62 | Extending the open run keeps the loop's invariant |
| Summarizer.FoldedOpen | summarizer.py:63-72 | Closing the open run and opening a new one keeps the invariant |
| Summarizer.FoldedDone | summarizer.py:74-75 | Closing the last run gives the segments of all runs |
| Summarizer.RunsGrow | summarizer.py:59-62 | A row of the current task lengthens the last run |
| Summarizer.RunOfAppend | summarizer.py:59-62 | Extending a run updates its end, highlights and count |
| Summarizer.DescriptionsStep | summarizer.py:54-57 | Each row adds its description when it is a blocker or follow-up |
| Summarizer.FinalizeAllAt | summarizer.py:87-93 | Segment k is run k finalised |
| Summarizer.FinalizeAllSnoc | summarizer.py:74-75 | The last run's segment comes last |
| Summarizer.SegmentFacts | summarizer.py:87-93 | Segment k has run k's task, the period from its first sample to one interval after its last, its first three highlights, and one interval per sample |
| Summarizer.AdjacentSegmentsDiffer | summarizer.py:59-72 | Neighbouring segments have different tasks. A day has no segment iff it has no rows |
| Summarizer.FlattenLength | summarizer.py:48-75 | The runs hold as many rows as their counts add up to |
| Summarizer.SampleCountsSum | summarizer.py:77 | The segments' sample counts add up to the number of rows |
| Summarizer.SumDurationsByCounts | summarizer.py:77-92 | Durations of per-run sample minutes add up to the minutes of all samples |
| Summarizer.FinalizeAllDurations | summarizer.py:92 | The segment durations add up to the minutes of all runs' samples |
| Summarizer.TotalIsSumOfDurations | summarizer.py:77-92 | The total active time equals the sum of the segment durations |
| Summarizer.DescriptionsAppend | summarizer.py:54-57 | Later rows never change which earlier rows are listed |
| Summarizer.DescriptionsMembership | summarizer.py:54-57 | A description is listed iff some selected row carries it |
| Summarizer.IssuesMembership | summarizer.py:54-57 | A blocker is listed iff some row mentions error, fail or exception. A follow-up is listed iff some row has a todo or follow-up tag |
| Summarizer.IssuesAppend | summarizer.py:54-57 | Blockers and follow-ups of concatenated rows concatenate |
| Summarizer.IssuesCapped | summarizer.py:81-82 | At most five blockers and five follow-ups are kept: the first ones in row order |
| Summarizer.StoredTagsReadBack | summarizer.py:51 | Tags stored comma-joined read back as the same list when they are clean |
| Summarizer.KeepsStripped | summarizer.py:51 | Clean tags pass the filter unchanged |
| Summarizer.ExampleRuns | summarizer.py:59-72 | Coding, coding, meeting gives two runs |
| Summarizer.ExampleCodingSegment | summarizer.py:87-93 | Coding at 09:00 and 09:01 gives "09:00 - 09:02", 2.0 minutes |
| Summarizer.ExampleMeetingSegment | summarizer.py:87-93 | A meeting at 09:02 gives "09:02 - 09:03", 1.0 minute |
| Summarizer.ThreeSampleDay | summarizer.py:41-93 | The worked day gives a coding and a meeting segment with those periods and durations |
| Summarizer.MinuteLater | summarizer.py:88-90 | The end label is one interval after the last sample |
| Summarizer.NineOClock | summarizer.py:52 | HH:MM of 09:0m |
| Summarizer.ExamplePeriods | summarizer.py:88-90 | The period is "start - end" |
| Summarizer.Tasks | summarizer.py:145-149 | The tasks are the segments' tasks, in order |
| Summarizer.TaskTotals | summarizer.py:145-149 | The totals are the per-task sums, reordered by descending minutes |
| Summarizer.AggregateTaskTotals | summarizer.py:145-149 | The loop and sort compute the specified task totals |
| Summarizer.AddToLabels | summarizer.py:147 | Adding minutes to a known task keeps the labels. A new task is appended |
| Summarizer.AddToValues | summarizer.py:147 | Adding minutes changes only the task's own entry |
| Summarizer.AddToNew | summarizer.py:147 | A new task enters with its minutes |
| Summarizer.AddToFacts | summarizer.py:147 | The labels, values and new entry after one addition |
| Summarizer.FirstAppearancesFacts | summarizer.py:145-149 | The first appearances are distinct and hold every task |
| Summarizer.TaskMinutesAbsent | summarizer.py:145-149 | An absent task has no minutes |
| Summarizer.TaskSumsLabels | summarizer.py:145-149 | The dict's keys are the tasks in order of first appearance |
| Summarizer.TaskMinutesSnoc | summarizer.py:147 | A segment adds its minutes to its own task only |
| Summarizer.TaskSumsValuesStep | summarizer.py:147 | One more segment keeps every total equal to its task's minutes |
| Summarizer.TaskSumsOldEntry | summarizer.py:147 | An existing task's total grows by the segment's minutes when it is that task |
| Summarizer.TaskSumsNewEntry | summarizer.py:147 | A new task's total is its segment's minutes |
| Summarizer.TaskSumsValues | summarizer.py:145-149 | Each total is the sum of its task's segment minutes |
| Summarizer.DistinctMultiplicity | summarizer.py:145-149 | Distinct entries occur once |
| Summarizer.MultiplicityDistinct | summarizer.py:145-149 | Entries occurring once are distinct |
| Summarizer.TaskTotalsOrdered | summarizer.py:149 | The totals are sorted by descending minutes, with ties in insertion order |
| Summarizer.TaskTotalsPermutes | summarizer.py:149 | Sorting keeps the same entries |
| Summarizer.TaskTotalsDistinct | summarizer.py:145-149 | Every task appears once |
| Summarizer.DistinctLabelsCarried | summarizer.py:149 | Sorting keeps the labels distinct |
| Summarizer.TaskTotalsCover | summarizer.py:145-149 | A task is listed iff some segment has it |
| Summarizer.LabelCarried | summarizer.py:149 | A label survives the sort |
| Summarizer.TaskTotalsValues | summarizer.py:145-149 | Each listed total is that task's minutes |
| Summarizer.TaskTotalsEntries | summarizer.py:145-149 | One entry per task of the day, each with its total minutes |
| Summarizer.StrList | summarizer.py:151-166 | A list of strings becomes a JSON array of the same strings |
| Summarizer.SegmentDicts | summarizer.py:155-163 | One dict per segment, in order |
| Summarizer.SegmentToDict | summarizer.py:155-163 | A segment dict has the keys period, task, duration_minutes and highlights, in that order |
| Summarizer.ToDict | summarizer.py:151-166 | The document has the keys date, total_active_minutes, segments, blocking_issues and follow_ups, in that order |
| SummarizerMain.UnpackError | summarizer.py:48 | Unpacking into the wrong number of names raises ValueError |
| SummarizerMain.RowOf | mirulog/storage.py:125-134 | A query row is read with its time, description, task and tags |
| SummarizerMain.RowsOf | summarizer.py:48 | Every query row is read in order |
| SummarizerMain.SummarizeDayAsWritten | summarizer.py:24-29 | As written: no rows gives no summary, and any row raises ValueError |
| SummarizerMain.DayRowsNonEmpty | mirulog/storage.py:125-134 | The day query returns a row iff the day has an analysed capture |
| SummarizerMain.AsWrittenFailsOnEveryDay | summarizer.py:48 | As written, every day with an analysed capture fails with ValueError |
| SummarizerMain.OneCaptureDay | summarizer.py:48 | A day with one analysed capture already fails |
| SummarizerMain.SummarizeDay | summarizer.py:24-29 | Corrected: a summary for the date exactly when there are rows |
| SummarizerMain.SummarizeDayTotal | summarizer.py:24-29 | Corrected: a summary exists iff the day has an analysed capture. Its total is one interval per analysed capture and equals the sum of the segment durations |
| SummarizerMain.SummarizeDayBlockers | summarizer.py:54-55 | Corrected: every listed blocker is the stored description of an analysed capture of that day |
| Notifier.StringsRoundTrip | notifier.py:135-142 | A list of strings written out reads back the same |
| Notifier.DecodeString | notifier.py:138-139 | A string item is read as itself. Any other value is a TypeError |
| Notifier.DecodeStrings | notifier.py:138-139 | A list is read exactly when every item is a string, and what is read writes back as the same JSON list |
| Notifier.DecodeSegment | notifier.py:126-131 | A non-object entry is a TypeError. A missing "period" is KeyError("period"), then a missing "task" is KeyError("task"). A segment read holds exactly the stored period, task, highlights (default []) and duration (default 0.0) |
| Notifier.DecodeSegments | notifier.py:125-133 | A list of entries is read exactly when every entry is, one segment per entry in order. An empty string or object gives no segments, and anything else non-empty fails |
| Notifier.SummaryFromJson | notifier.py:135-142 | A non-object document is an AttributeError. A document is read exactly when its segments, date, lists and total are readable. The summary holds the stored date (default: the requested one), segments, lists and float() of the total, with no path or context |
| Notifier.LoadSummary | notifier.py:119-143 | A missing file is FileNotFoundError, and text that is not JSON is a ValueError. Otherwise the result is the document's reading |
| Notifier.SegmentDictPeriodTask | summarizer.py:155-163 | A segment's dict holds its period and task |
| Notifier.SegmentDictDuration | summarizer.py:155-163 | A segment's dict holds its duration |
| Notifier.SegmentDictHighlights | summarizer.py:155-163 | A segment's dict holds its highlights |
| Notifier.SegmentRoundTrip | notifier.py:125-133 | A segment written by to_dict reads back unchanged |
| Notifier.SegmentItemsRoundTrip | notifier.py:125-133 | All segments read back, in order |
| Notifier.ToDictDateSegments | summarizer.py:151-166 | to_dict holds the date and the segment dicts |
| Notifier.ToDictTotal | summarizer.py:151-166 | to_dict holds the total minutes |
| Notifier.ToDictIssues | summarizer.py:151-166 | to_dict holds the blockers and follow-ups |
| Notifier.ToDictSegmentsDecode | notifier.py:125-133 | The segments of to_dict read back |
| Notifier.ToDictScalarsDecode | notifier.py:135-142 | The date and total of to_dict read back |
| Notifier.ToDictIssuesDecode | notifier.py:135-142 | The lists of to_dict read back |
| Notifier.SummaryFromToDict | notifier.py:119-143 | Decoding to_dict gives back the summary, without its path and context |
| Notifier.LoadSummaryInvertsToDict | notifier.py:119-143 | load_summary of a file written from to_dict returns the summary that was saved |
| Notifier.LoadSummaryDefaults | notifier.py:135-142 | An empty JSON object loads as an empty summary for the requested date |
| Notifier.LoadSummaryMissing | notifier.py:120-122 | A missing file raises FileNotFoundError |
| Notifier.SegmentKeysRequired | notifier.py:125-133 | A segment object without "period" raises KeyError("period"), and one with "period" but no "task" raises KeyError("task"), whatever the other keys hold |
| Notifier.LoadSummaryBadSegment | notifier.py:125-133 | Any bad segment fails the whole load |
| Notifier.RatioBase | notifier.py:50 | The ratio's base is never zero. It is the total whenever the total is non-zero |
| Notifier.AppendTotals | notifier.py:46-56 | The loop appends exactly the totals section |
| Notifier.AppendTimetable | notifier.py:58-67 | The loop appends exactly the timetable section |
| Notifier.AppendBullets | notifier.py:78-92 | The loop appends one bullet per item |
| Notifier.AppendNotes | notifier.py:69-80 | The loop appends exactly the notes section |
| Notifier.AppendNoteBlock | notifier.py:72-78 | One segment's notes block |
| Notifier.AppendList | notifier.py:82-92 | A titled list, present only when non-empty |
| Notifier.RenderJapaneseReport | notifier.py:37-96 | The report is exactly the header, totals, timetable, notes, lists and footer, joined by newlines |
| Notifier.ReportLines | notifier.py:37-96 | The report opens with the dated title and closes with the rule and the footer |
| Notifier.ReportSections | notifier.py:37-96 | The report's "## " headings are totals, timetable and notes, then blockers and follow-ups only when present |
| Notifier.ReportEnding | notifier.py:94-96 | The report ends with a rule and the footer |
| Notifier.TimetableRowsPerSegment | notifier.py:58-67 | One timetable row per segment, or a single no-data row |
| Notifier.TimetableRowsAt | notifier.py:61-64 | Row i describes segment i |
| Notifier.HeadingsAppend | notifier.py:37-96 | Headings of joined sections are joined |
| Notifier.NoHeadings | notifier.py:37-96 | Lines that are not headings contribute none |
| Notifier.PlainLine | notifier.py:37-96 | A line not starting with "#" is no heading |
| Notifier.BulletsNoHeadings | notifier.py:78-92 | Bullets are no headings |
| Notifier.TotalsRowsNoHeadings | notifier.py:52-53 | Totals rows are no headings |
| Notifier.TimetableRowsNoHeadings | notifier.py:61-64 | Timetable rows are no headings |
| Notifier.NoteBlockNoHeadings | notifier.py:72-78 | A note block's "###" title is no level-2 heading |
| Notifier.NoteBlocksNoHeadings | notifier.py:69-80 | Note blocks have no level-2 headings |
| Notifier.HeaderNoHeadings | notifier.py:38-44 | The "#" title line is no level-2 heading |
| Notifier.OneHeading | notifier.py:37-96 | A heading followed by plain lines has one heading |
| Notifier.TotalsSectionHeadings | notifier.py:46-56 | The totals section has one heading |
| Notifier.TimetableSectionHeadings | notifier.py:58-67 | The timetable section has one heading |
| Notifier.NotesSectionHeadings | notifier.py:69-80 | The notes section has one heading |
| Notifier.ListSectionHeadings | notifier.py:82-92 | A list section has its heading only when non-empty |
| Notifier.ListTitlesAreHeadings | notifier.py:82-92 | The list titles are level-2 headings |
| Notifier.HeadingsOfSections | notifier.py:37-96 | Headings of the report are those of its sections |
| Notifier.FooterNoHeadings | notifier.py:94-96 | The footer has no heading |
| Tray.LoadState | tray.py:302-309 | A missing or undecodable state file is an empty state. An object is taken as it is |
| Tray.EntryOf | tray.py:323-324 | The `_global` entry is read when it is an object, and as {} when it is missing or anything else |
| Tray.EntryAt | tray.py:262-263 | `state.get(script, {})` used with `.get`: a missing entry is {}, an object is read, and any other value raises AttributeError |
| Tray.DictOf | tray.py:313 | `dict()` of the stored entry: missing gives {}, an object is copied, an empty string or list gives {}. A non-empty string is a ValueError, and null, a number or a boolean a TypeError. Whenever it succeeds it agrees with the object reading |
| Tray.LoadAnalyzerBackend | tray.py:321-328 | A stored non-blank backend wins, normalised. Otherwise ANALYZER_BACKEND or gemini is used |
| Tray.WithBackend | tray.py:330-346 | Persisting a backend sets only the global entry's key |
| Tray.ChosenBackend | tray.py:330-333 | Only gemini and local are accepted, after normalising |
| Tray.Merge | tray.py:311-319 | Updated keys take the new values, and others keep theirs |
| Tray.FormatTime | tray.py:349-352 | No time is "-". A time is YYYY/MM/DD HH:MM |
| Tray.StatusText | tray.py:249-259 | Running shows the start. Stopped shows the last end, or else the last start |
| Tray.NeverRunShowsDash | tray.py:249-259 | A program never run shows "-" |
| Tray.EntryTime | tray.py:263-269 | A missing or empty time is none. A string is parsed (a rejected one is none). Any other truthy value raises TypeError |
| Tray.StateTime | tray.py:261-269 | A script entry that is not an object raises AttributeError. Otherwise the stored time is read as above |
| Tray.StoppedTimeReadBack | tray.py:218 | After a stop is recorded, the last end reads back as the stop time and the last start is kept |
| Tray.StartedTimeReadBack | tray.py:158-167 | After a start is recorded, the start time reads back and there is no last end |
| Tray.MatchingOf | tray.py:288-300 | Exactly the processes whose command line mentions the script are found |
| Tray.FindProcesses | tray.py:288-300 | The loop finds exactly the matching processes |
| Tray.MatchIgnoresCase | tray.py:298 | Matching ignores case |
| Tray.TrayController.constructor | tray.py:69-74 | The tray starts from the loaded state, with no processes and the loaded backend |
| Tray.TrayController.UpdateState | tray.py:311-319 | When dict() accepts the stored entry, the entry is merged with the updates and the whole state is written. Otherwise the error escapes and nothing changes |
| Tray.TrayController.SetAnalyzerBackend | tray.py:330-346 | An unknown backend changes nothing. A known one is set and persisted |
| Tray.TrayController.Spawn | tray.py:176-189 | The child is recorded. The analyzer gets the chosen backend in its environment, and other variables pass through |
| Tray.TrayController.Start | tray.py:152-174 | A running program is not restarted. Otherwise it is spawned: only analyzer.py gets ANALYZER_BACKEND, and every other child gets the parent environment unchanged. Its start is then recorded, with the end cleared, and the state is written. A stored entry dict() rejects raises after the spawn |
| Tray.TrayController.WaitProcess | tray.py:191-199 | The end and exit code are recorded and the state is written. The process is forgotten only if it is still the recorded one. If the update raises, the process stays recorded |
| Tray.TrayController.ForgetProcess | tray.py:195-197 | Only the recorded process is forgotten |
| Tray.TrayController.StopProgram | tray.py:200-219 | With no matching process nothing changes. Otherwise the stop time is recorded as the last end and the state is written, unless dict() rejects the entry. The spawned-process map is left alone |
| Tray.TrayController.StatusOf | tray.py:249-269 | A running program shows its start. A stopped one shows its stored times, and an unreadable last end (then last start) raises its error |
| Tray.SetBackendPersists | tray.py:321-346 | A chosen backend is read back after a restart |
| Tray.PersistedBackendRead | tray.py:321-328 | A stored non-blank backend is read back normalised |
| Tray.BackendsNormal | tray.py:330-333 | The accepted backends are already normal |
| Tray.UpdateStateKeeps | tray.py:311-319 | Updating one program leaves the others alone and merges its keys |
| Times.RankAgreesWithOrder | mirulog/storage.py:75 | Ordering by stored ISO time agrees with time order, and equal ranks mean equal times |
| Sorting.SortByFacts | mirulog/storage.py:75 | ORDER BY returns a sorted permutation that keeps the order of ties |
| Sorting.SortByMembers | mirulog/storage.py:75 | Sorting neither adds nor drops a capture |
| Wrappers.MapAll | notifier.py:125-133 | A comprehension whose items may raise succeeds exactly when every item does, with one result per item in order |
| Storage.IncreasingTail | mirulog/storage.py:48-65 | After the first capture, ids keep increasing and the first id does not recur |
| LlmResponse.BeforeFence | mirulog/gemini_client.py:64-66 | The fenced body stops before the closing fence, or runs to the end when there is none |
| Times.ClockLabelAfter | summarizer.py:89 | The end label of a segment is a five-character clock time that wraps at midnight |
| Times.IsoDate | mirulog/storage.py:125-134 | The date a capture is filed under is YYYY-MM-DD |

## Findings

| source | as written | input that shows it | evidently intended | confidence | as-written member | corrected member |
|---|---|---|---|---|---|---|
| summarizer.py:48 | The loop unpacks each row of `daily_analysis` into eight names, but the query (mirulog/storage.py:127) selects nine columns, so Python raises ValueError | Any day with one analysed capture | Also bind the ninth column (raw_response) and summarise the rows | high, not executed | SummarizerMain.AsWrittenFailsOnEveryDay | SummarizerMain.SummarizeDayTotal |

## Left out

- Oracles: the clock, environment variables, json.loads, str(), float(), base64, datetime.fromisoformat and isoformat, the HTTP and SDK calls, the Win32/WTS calls, pyautogui screenshots, pynput listeners, psutil and subprocess are parameters whose answers are given. Their own behaviour is not modelled.
- Text: lower- and upper-casing are ASCII-only. Non-ASCII case folding is not modelled.
- Text.ParseInt: only an optional ASCII sign and ASCII digits are accepted, after stripping. Python's `int()` also accepts underscores between digits ("1_000") and non-ASCII decimal digits. So Config.EnvInt rejects such values for CAPTURE_INTERVAL_SECONDS, IDLE_THRESHOLD_MINUTES, GEMINI_MAX_TOKENS and GEMINI_MAX_RETRIES (mirulog/config.py:71-83), where Python accepts them.
- Summarizer: minutes are exact reals. Float rounding is not modelled. With an interval like 6 s, rounding can reorder near-equal task totals in Summarizer.TaskTotals. It can also make the sum of durations differ from the total in the last bits, which Summarizer.TotalIsSumOfDurations proves equal. With the default 60 s interval, each sample adds exactly 1.0 minute.
- LlmResponse.TextField: a truthy non-string value is kept as its str() text, because the result type holds text. Python stores the value untyped.
- Sorting.SortByFacts: SQLite's order for equal timestamps is unspecified. The model breaks ties by id order.
- SummarizerMain.RowOf: the summarizer's own row type allows NULL task, confidence and tags, though the query never returns them.
- Timeouts, retries (GEMINI_MAX_RETRIES is read but never used), image read failures and the logging calls are not modelled.
- Tray.LoadState: a state file holding JSON that is not an object is treated as empty.
- Tray.DictOf: a non-empty list stored as a program's entry is reported as an error. Python's `dict()` accepts a list of two-item pairs.
- Notifier.LoadSummary: a present value of the wrong JSON type is reported as TypeError. Examples are a numeric "period", a null "date", a string "blocking_issues" or a string "duration_minutes". `load_summary` (notifier.py:125-142) stores such values in the dataclasses unchecked. Notifier.DecodeSegment, Notifier.DecodeStrings and Notifier.SummaryFromJson share this gap. Missing keys are modelled exactly.
- Times: every timestamp is taken in one fixed UTC offset. Comparing timestamps from different offsets is not modelled.
- Tray: `_running_info`, `_open_dir`, the menu and the icon drawing are not modelled, because they only display state or open folders. In `_stop_program`, the terminate, wait and kill calls on the matching processes are outside the model; its state write is modelled.
- Observer.CaptureLoop.Run: each pass's capture outcome is given as input, the ticks are a finite list, and a signal must arrive. The sleep is not modelled.
- Threading locks in the tray and the monitor are not modelled.
- `get_active_window` and `hash_file` are oracles.
- Visualizer: the HTTP status handling is reduced to "below 400", and the file write is the returned pair.
- LocalLlmClient.FenceLineStrips: a bare "```json" reply is covered through this lemma and LocalLlmClient.UnbrokenFenceRaises.
- `render_markdown` (summarizer.py:95-143) is not modelled. It renders the same summary the Japanese report renders.
- The summarizer and notifier `main` argument parsing, `_maybe_generate_infographic`, the number formatting (given as functions), pipeline.py, scripts/ and logging_utils are not part of this model.
