# LifeWatch fall detection: a Dafny model of the decision logic

LifeWatch watches an elderly person's home through camera frames, video clips and audio. It asks a
Bedrock model or agent to judge what it sees, and then alerts caregivers (SNS, Telegram) and speaks to
the person (Polly). Each stage is a small AWS Lambda. This project models the decisions those
lambdas take once the cloud services have answered:

- **Action router** (`ActionHandler`). It scans the analysis text for keywords in four
  categories, builds a priority-sorted list of actions and gates each action for notification
  and speech.
- **Action executor** (`AgentExecutor`, `ActionLambda`). It runs the actions one by one with
  partial-failure semantics and produces a summary and a status response.
- **Severity reports** (`AgentInvoke`). This covers:
  - picking the newest frame;
  - choosing up to ten recent events as context and formatting that context;
  - stripping the model's JSON fence;
  - the fail-safe `alert_level 0` reports;
  - the keys the report is stored under.
- **Rule-based video scoring** (`VideoInvoke`). This covers fall indicators per tracked person,
  the clamped 0..100 safety score, the canned priority and the handler.
- **Audio ingestion** (`TranscribeInvoke`, `AudioKeywords`). This covers:
  - the 30-second event-window id, in ISO 8601 basic format (ISO 8601:2004, section 4.3.2);
  - dispatch between an S3 URI and inline audio;
  - storage routing;
  - the keyword priority rule and speaker count of the transcription script.
- **Spoken alert** (`AlertSpeech`). This covers choosing the latest event, the message for each
  alert level and the Polly retry loop that retries once on a denied access.
- **Telegram bot** (`Telegram`). This covers reassembling the agent's streamed reply, routing
  commands, and the subscriber table as the state of a `Bot` class.
- **Step-function trigger** (`StepTrigger`). This covers decoding the request body, defaulting
  the payload, the 256 KiB input gate and the time-based execution name.
- **Demo app** (`VidDemoApp`). This covers placing frames on a grid canvas and rewriting a
  YouTube Shorts address to a watch address.

Every service call is a parameter of the model: S3, Bedrock, SNS, Polly, Transcribe, Rekognition,
DynamoDB, Step Functions and HTTP. It is an oracle that gives a value or an error. Clocks are
inputs too, either an epoch second or a `Calendar.DateTime`. So are `json.loads`/`json.dumps`,
base64 decoding and Python's `str()` of non-string values, passed as `decode`, `dumps`,
`unbase64` and `repr`. Where the source mutates state step by step, the model does too:
- the executor's loop, the history selection, the context formatting, the safety score and the
  Polly retry loop are methods with loop invariants, each proved equal to a specification function;
- the subscriber table is a `map` field of `Telegram.Bot`;
- the grid is a `VidDemoApp.Canvas` whose `pastes` the grid method appends to.

Shared modules:
- `Wrappers`: Option and Result.
- `Json`: decoded JSON values, Python truthiness, `dict.get` and `str()`.
- `Text`: ASCII `lower`, Python-whitespace `strip`,
  lexicographic order.
- `Calendar`: UTC civil time from an epoch second, plus the `strftime`/`strptime` formats the
  lambdas use.

## Model

| member | source | states |
|---|---|---|
| ActionHandler.Found | src/lambdas/action-lambda/action_handler.py:113 | a keyword is recorded exactly when it is in the list and occurs in the text; the recorded keywords keep list order |
| ActionHandler.ScanAction | src/lambdas/action-lambda/action_handler.py:115-125 | the action has its type's fixed priority and immediacy, and its message is the type's label, the first 200 characters of the content and "..." |
| ActionHandler.Scan | src/lambdas/action-lambda/action_handler.py:107-127 | a scan yields at most one action, and yields one exactly when some keyword occurs in the lower-cased content |
| ActionHandler.Insert | src/lambdas/action-lambda/action_handler.py:70 | inserting keeps the list sorted by priority and adds exactly the new action |
| ActionHandler.SortByPriority | src/lambdas/action-lambda/action_handler.py:70 | the result is sorted ascending by priority and is a permutation of the input |
| ActionHandler.SortStableOnSorted | src/lambdas/action-lambda/action_handler.py:70 | the stable sort leaves an already sorted list unchanged |
| ActionHandler.ExtractContent | src/lambdas/action-lambda/action_handler.py:85-105 | a string response is its own content; a response that is not a dict becomes `str(response)` |
| ActionHandler.ExtractFrom | src/lambdas/action-lambda/action_handler.py:89-105 | the first key, in probe order, holding a string or a dict with `text` gives the content; when no key answers, the content is `str(response)` |
| ActionHandler.ProcessBedrockOutput | src/lambdas/action-lambda/action_handler.py:44-83 | empty content gives no actions; content that is not a string gives the single fail-safe emergency alert; text gives the four scans' actions in scan order, sorted by priority |
| ActionHandler.ScansSorted | src/lambdas/action-lambda/action_handler.py:64-70 | the scans' concatenation is already sorted by priority, so fall precedes emergency after the stable sort |
| ActionHandler.ScansAreFired | src/lambdas/action-lambda/action_handler.py:64-67 | the action types produced are exactly the scans that fired, in scan order |
| ActionHandler.ScanSettings | src/lambdas/action-lambda/action_handler.py:115-194 | every routed action carries its type's fixed priority, immediacy and message |
| ActionHandler.FiredTypesShape | src/lambdas/action-lambda/action_handler.py:64-67 | no type is produced twice, the two reminder types are never produced, and a type is present exactly when its scan fired |
| ActionHandler.EmergencyFiresBoth | src/lambdas/action-lambda/action_handler.py:31-38 | text containing "emergency" fires both the fall scan and the emergency scan |
| ActionHandler.EmergencyRaisesBoth | src/lambdas/action-lambda/action_handler.py:64-70 | such text yields a fall alert followed by an emergency alert |
| ActionHandler.EmergencyLeads | src/lambdas/action-lambda/action_handler.py:64-70 | such text yields two to four actions, led by two immediate alerts with the fall alert first |
| ActionHandler.SpeechImpliesAlert | src/lambdas/action-lambda/action_handler.py:199-205 | every action that passes the speech gate also passes the notification gate |
| AgentExecutor.ExecutedEntry | src/lambdas/action-lambda/agent_executor.py:66-89 | the logged entry copies the action's fields and names the action taken for its type |
| AgentExecutor.NotificationMessage | src/lambdas/action-lambda/agent_executor.py:188-203 | the stripped body opens with type, "{p}/5", timestamp and Yes/No; when the metadata dump ends visibly, it is exactly head, message and metadata |
| AgentExecutor.SendNotification | src/lambdas/action-lambda/agent_executor.py:99-139 | without a topic the call fails before publishing; with one, the result is the publish result |
| AgentExecutor.Outcome | src/lambdas/action-lambda/agent_executor.py:41-62 | one pass logs the executed entry first, then adds at most one notification, one speech and one error; a failed notification skips speech and adds exactly one error; an ungated action adds nothing else |
| AgentExecutor.RunExecutesAll | src/lambdas/action-lambda/agent_executor.py:40-43 | every action is executed, in input order, whatever the services do |
| AgentExecutor.RunCounts | src/lambdas/action-lambda/agent_executor.py:40-62 | errors are at most the actions; notifications and speeches are at most the actions passing their gates; every notifiable action is either notified or failed |
| AgentExecutor.RunWithoutTopic | src/lambdas/action-lambda/agent_executor.py:99-102 | without a topic nothing is published or spoken, and every notifiable action leaves exactly one "topic not set" error |
| AgentExecutor.RunAllSucceed | src/lambdas/action-lambda/agent_executor.py:45-53 | when both services always answer, there are no errors and every gated action is notified and spoken |
| AgentExecutor.RunKeepsOrder | src/lambdas/action-lambda/agent_executor.py:40-62 | each of the notification, speech and error lists follows the order of the actions |
| AgentExecutor.Executor.constructor | src/lambdas/action-lambda/agent_executor.py:15-21 | the executor keeps the configured topic, which may be missing |
| AgentExecutor.Executor.ExecuteActions | src/lambdas/action-lambda/agent_executor.py:23-64 | the loop's four lists are those of the specification run, so the run lemmas above hold for them |
| AgentExecutor.Executor.GetExecutionSummary | src/lambdas/action-lambda/agent_executor.py:218-238 | the summary built by the loop is the specified summary text |
| AgentExecutor.AppendErrorLines | src/lambdas/action-lambda/agent_executor.py:235-236 | the loop appends one "- type: error" line per error, in order |
| AgentExecutor.HeaderStripped | src/lambdas/action-lambda/agent_executor.py:225-231 | stripping the summary f-string leaves exactly the four count lines |
| AgentExecutor.ErrorLinesListEach | src/lambdas/action-lambda/agent_executor.py:235-236 | every error has its own line in the error listing |
| AgentExecutor.SummaryShape | src/lambdas/action-lambda/agent_executor.py:218-238 | without errors the summary is the four counts alone; with errors it adds an "Errors:" section that lists every error |
| ActionLambda.Handler | src/lambdas/action-lambda/index.py:28-74 | an event that is not a dict gives 500; no actions gives 200 "No actions required"; otherwise 200 with the action count, the executor's summary and its results |
| ActionLambda.EmergencyReachesCaregivers | src/lambdas/action-lambda/index.py:36-61 | an analysis mentioning an emergency leads with the fall and emergency alerts; with the topic set and the services answering there are no errors and at least two notifications and two speeches |
| ActionLambda.TextRequestRoutesScans | src/lambdas/action-lambda/index.py:36-37 | a non-empty `bedrock_response` string is routed by the four scans of that text |
| ActionLambda.LeadingImmediateRun | src/lambdas/action-lambda/agent_executor.py:40-53 | a list of two to four actions that opens with two immediate ones has no errors and at least two notifications and two speeches when the topic is set and the services answer |
| ActionLambda.TwoGated | src/lambdas/action-lambda/agent_executor.py:91-97 | at least two actions of such a list pass each of the two gates |
| AgentInvoke.Len | src/lambdas/agent-invoke-lambda/index.py:119 | strings, lists and dicts have a length, zero exactly when empty; any other value raises "object of type 'T' has no len()" |
| AgentInvoke.First | src/lambdas/agent-invoke-lambda/index.py:120 | the first item of a list or the first character of a string; a non-empty dict raises `KeyError(0)`, whose text is "0" |
| AgentInvoke.Item | src/lambdas/agent-invoke-lambda/index.py:120 | a dict's value for the key, or the exact text of the `KeyError` or `TypeError` each other value raises |
| AgentInvoke.ModelAnswer | src/lambdas/agent-invoke-lambda/index.py:116-122 | no or empty `content` gives `text`, else `str(body)`; a non-empty list gives its first item's `text` or that item's indexing error; a `content` without a length, a non-empty string and a non-empty dict each give the error Python raises |
| AgentInvoke.AnalysisText | src/lambdas/agent-invoke-lambda/index.py:277-284 | an invocation error passes through; the analysis is text exactly when the model's answer is a string |
| AgentInvoke.CleanReport | src/lambdas/agent-invoke-lambda/index.py:284-286 | text that does not start with the JSON fence is only trimmed |
| AgentInvoke.FenceRoundTrip | src/lambdas/agent-invoke-lambda/index.py:284-286 | a fenced JSON body, with whitespace around it, is recovered trimmed |
| AgentInvoke.Fallback | src/lambdas/agent-invoke-lambda/index.py:296-322 | a fallback report has alert level 0 and the given log file name |
| AgentInvoke.Stamped | src/lambdas/agent-invoke-lambda/index.py:289-294 | the four metadata fields are set, overriding the model's, and every other field is kept |
| AgentInvoke.BuildReport | src/lambdas/agent-invoke-lambda/index.py:277-322 | every report carries timestamp, image key, model and history count; an invocation failure gives the invocation fallback; a parse failure gives the parsing fallback |
| AgentInvoke.FallbackIsQuiet | src/lambdas/agent-invoke-lambda/index.py:296-322 | every fallback report has alert level 0 and a ".json" log file name |
| AgentInvoke.Admit | src/lambdas/agent-invoke-lambda/index.py:146-161 | at most one event per listed key, each with a timestamp inside the window |
| AgentInvoke.AdmitExactly | src/lambdas/agent-invoke-lambda/index.py:146-161 | every `_analysis.json` key whose download decodes to a dict with a timestamp in the window contributes its event, and every collected event comes from such a key |
| AgentInvoke.AdmitAppend | src/lambdas/agent-invoke-lambda/index.py:147-158 | collection keeps listing order: the events of two listings in a row are the first's followed by the second's |
| AgentInvoke.SortDesc | src/lambdas/agent-invoke-lambda/index.py:164 | the events are sorted newest first and are a permutation of the input |
| AgentInvoke.SortDescStable | src/lambdas/agent-invoke-lambda/index.py:164 | the stable sort leaves a list already in order unchanged |
| AgentInvoke.GetHistoricalEvents | src/lambdas/agent-invoke-lambda/index.py:132-170 | the loop's result is the specified selection (see RecentIsNewest) |
| AgentInvoke.RecentIsNewest | src/lambdas/agent-invoke-lambda/index.py:163-166 | at most 10 events are kept, newest first, all recallable, and none left out is newer than one kept |
| AgentInvoke.KeptNotOlder | src/lambdas/agent-invoke-lambda/index.py:166 | a prefix of a newest-first list is sorted, and nothing after it is newer than anything in it |
| AgentInvoke.FormatContext | src/lambdas/agent-invoke-lambda/index.py:172-185 | the accumulated context is the specified context text |
| AgentInvoke.ContextListsEach | src/lambdas/agent-invoke-lambda/index.py:172-185 | no events gives the fixed "no previous events" text; otherwise the header and one block per event, numbered from 1 |
| AgentInvoke.LatestJpg | src/lambdas/agent-invoke-lambda/index.py:225-231 | none exactly when no key ends ".jpg" in any case; otherwise the first JPG with the greatest LastModified |
| AgentInvoke.LatestStep | src/lambdas/agent-invoke-lambda/index.py:225-231 | one more listed object becomes the newest only when it passes the test and is strictly more recent, which keeps the first of equally recent frames |
| AgentInvoke.OutputKeyOverwritesUpperCase | src/lambdas/agent-invoke-lambda/index.py:325 | as written, an upper-case ".JPG" key's output key is the image key itself |
| AgentInvoke.OutputKey | src/lambdas/agent-invoke-lambda/index.py:325 | the corrected output key ends "_analysis.json" and never equals the image key |
| AgentInvoke.OutputKeyAgrees | src/lambdas/agent-invoke-lambda/index.py:325 | on lower-case ".jpg" keys the corrected key is the one written |
| AgentInvoke.KbEntry | src/lambdas/agent-invoke-lambda/index.py:191-202 | the entry has exactly the ten fields; the image key, id and creation time are the run's; the timestamp is the report's or None; alert level, reason, log file name, brief, full description and model are the report's values or their defaults 0, "", "", "", "" and the model id |
| AgentInvoke.KbKeyNeverRecalled | src/lambdas/agent-invoke-lambda/index.py:205 | as written, a report whose log file name ends ".json" is stored under a key the history reader never admits |
| AgentInvoke.FallbackNeverRecalled | src/lambdas/agent-invoke-lambda/index.py:296-322 | as written, no fallback report is ever read back as history |
| AgentInvoke.KbKey | src/lambdas/agent-invoke-lambda/index.py:205 | the corrected key lies under the knowledge-base prefix and ends "_analysis.json" |
| AgentInvoke.KbEntryRecalled | src/lambdas/agent-invoke-lambda/index.py:146-158 | an entry stored under the corrected key is recalled exactly when its time is not before the cutoff |
| AgentInvoke.Analyse | src/lambdas/agent-invoke-lambda/index.py:219-322 | no listing gives 404 "No files found."; no JPG gives 404 "No JPG images found."; a failed download gives 500; otherwise no failure, with the newest JPG's key and the report built for it |
| AgentInvoke.HandlerAsWritten | src/lambdas/agent-invoke-lambda/index.py:219-344 | as written: the 404 and 500 replies store nothing; otherwise 200 with the report, stored at `key.replace(".jpg", "_analysis.json")` and, as an entry, at `{timestamp}_{log_file_name}.json` in the knowledge base |
| AgentInvoke.Handler | src/lambdas/agent-invoke-lambda/index.py:219-344 | the corrected handler: the same replies, with the report stored at the corrected output key and its entry at the corrected knowledge-base key |
| AgentInvoke.HandlerFeedsHistory | src/lambdas/agent-invoke-lambda/index.py:324-338 | with the corrections, the report never overwrites the frame and is recalled within the window |
| VideoInvoke.Indicators | src/lambdas/video-invoke-lambda/index.py:207-222 | each indicator is present exactly when its rule fires (a missing Height counts as 0), with no duplicates and at most 3 |
| VideoInvoke.Entries | src/lambdas/video-invoke-lambda/index.py:168-180 | there are no more movement entries than tracked people |
| VideoInvoke.OnlyHeightIndicates | src/lambdas/video-invoke-lambda/index.py:183 | with the fixed "walking" movement, the indicators are exactly one "horizontal" indicator per person with a low box |
| VideoInvoke.Clamp | src/lambdas/video-invoke-lambda/index.py:236 | the result is within 0..100 and equals the input when the input is in range |
| VideoInvoke.SafetyScore | src/lambdas/video-invoke-lambda/index.py:224-236 | the score is within 0..100, and 100 when nothing is indicated or unstable |
| VideoInvoke.ScoreMonotone | src/lambdas/video-invoke-lambda/index.py:229 | more indicators never raise the score |
| VideoInvoke.CalculateSafetyScore | src/lambdas/video-invoke-lambda/index.py:224-236 | the loop computes 100 − 20·indicators − 10·unstable, clamped |
| VideoInvoke.ParsedShape | src/lambdas/video-invoke-lambda/index.py:154-190 | the person count is all entries, movement entries are no more, and the score is 100 − 20 per person lying flat, clamped |
| VideoInvoke.StableEntries | src/lambdas/video-invoke-lambda/index.py:196-205 | no movement entry is unstable |
| VideoInvoke.ParseVideoAnalysisResults | src/lambdas/video-invoke-lambda/index.py:154-194 | the per-person loop yields the specified analysis |
| VideoInvoke.MockPriority | src/lambdas/video-invoke-lambda/index.py:326-339 | HIGH exactly when the score is below 50 or there is an indicator; LOW exactly when the score is at least 75 with no indicator |
| VideoInvoke.MockPriorityMatchesScript | src/lambdas/video-invoke-lambda/test_example.py:116-122 | without indicators the canned grading is the test script's |
| VideoInvoke.ParsedPriority | src/lambdas/video-invoke-lambda/index.py:326-339 | on a parsed analysis, HIGH exactly when someone lies flat, otherwise LOW; MEDIUM never occurs |
| VideoInvoke.MockReply | src/lambdas/video-invoke-lambda/index.py:326-346 | the canned answer carries the canned priority and the mock source |
| VideoInvoke.SplitUri | src/lambdas/video-invoke-lambda/index.py:100-102 | the bucket holds no '/' |
| VideoInvoke.SplitUriRoundTrip | src/lambdas/video-invoke-lambda/index.py:100-102 | "s3://bucket/key" splits back into the bucket and the key |
| VideoInvoke.Analysis | src/lambdas/video-invoke-lambda/index.py:77-94 | a URI that is not a string or not "s3://bucket/key", a missing or empty job id, or a job without a tracking result gives the mock analysis; a job with a tracking result gives the parse of that tracking |
| VideoInvoke.MockExactlyOnFailure | src/lambdas/video-invoke-lambda/index.py:77-94 | the analysis is the mock exactly when one of those failures occurs |
| VideoInvoke.AnalyzeVideo | src/lambdas/video-invoke-lambda/index.py:77-124 | the method's analysis is the specified one |
| VideoInvoke.StreamContent | src/lambdas/video-invoke-lambda/index.py:305-314 | reading the stream succeeds exactly when no event raises; its content is the chunks' text in stream order |
| VideoInvoke.BrokenStays | src/lambdas/video-invoke-lambda/index.py:305-324 | after the first exception, later events change nothing |
| VideoInvoke.StreamContentAppend | src/lambdas/video-invoke-lambda/index.py:310-314 | an intact stream's content is the concatenation of its parts' content |
| VideoInvoke.StreamReply | src/lambdas/video-invoke-lambda/index.py:303-324 | an intact stream gives the agent's text with the agent source; a broken one gives "Error parsing Bedrock response" with the exception; neither has a priority |
| VideoInvoke.ParseBedrockResponse | src/lambdas/video-invoke-lambda/index.py:303-324 | the loop over the stream builds the specified reply |
| VideoInvoke.AgentAnswer | src/lambdas/video-invoke-lambda/index.py:259-301 | no agent or a failing call gives the canned answer; a completed call gives the stream's reply; an agent-sourced answer is the intact stream's text with no priority |
| VideoInvoke.OnlyCallFailureIsMocked | src/lambdas/video-invoke-lambda/index.py:289-324 | with an agent configured, the canned answer comes exactly from a failing call; a broken stream gives the parse-error reply with no priority |
| VideoInvoke.InvokeBedrockAgent | src/lambdas/video-invoke-lambda/index.py:258-301 | the method's reply is AgentAnswer |
| VideoInvoke.Handler | src/lambdas/video-invoke-lambda/index.py:366-403 | a non-dict event gives 500; a missing `video_uri` gives 500; otherwise 200 with analysis, answer and URI, stored exactly when a bucket is configured |
| VideoInvoke.LyingPersonIsHigh | src/lambdas/video-invoke-lambda/index.py:326-339 | with no agent, a clip where someone lies flat is HIGH and otherwise LOW |
| TranscribeInvoke.WindowStart | src/lambdas/transcribe-invoke-lambda/index.py:102 | the window is a multiple of 30 with window ≤ epoch < window + 30 |
| TranscribeInvoke.EventIdShape | src/lambdas/transcribe-invoke-lambda/index.py:103 | the id is 16 characters with 'T' and a final 'Z', and its seconds are "00" or "30" |
| TranscribeInvoke.SameWindowSameId | src/lambdas/transcribe-invoke-lambda/index.py:98-103 | two instants share an id exactly when they share a window |
| TranscribeInvoke.EventIdOrder | src/lambdas/transcribe-invoke-lambda/index.py:103 | ids sort as strings in the order of their windows |
| TranscribeInvoke.FormatWithSpeakers | src/lambdas/transcribe-invoke-lambda/index.py:182-188 | the transcript sits, unchanged, between the fixed heading and the fixed speaker note |
| TranscribeInvoke.TranscriptText | src/lambdas/transcribe-invoke-lambda/index.py:163-180 | with speaker labels the text is never empty; without them it is the transcript |
| TranscribeInvoke.ChosenEventId | src/lambdas/transcribe-invoke-lambda/index.py:72 | a truthy caller-supplied id wins; otherwise the window id |
| TranscribeInvoke.UriStorage | src/lambdas/transcribe-invoke-lambda/index.py:86-90 | the events bucket, under "transcribe/{id}.json", is preferred to the transcription bucket; nothing is stored when neither is set |
| TranscribeInvoke.StagingBucket | src/lambdas/transcribe-invoke-lambda/index.py:199 | inline audio is staged in the transcription bucket, else the events bucket |
| TranscribeInvoke.Prepare | src/lambdas/transcribe-invoke-lambda/index.py:55-92 | inline audio takes precedence; with neither input the request fails; on the URI path an empty or failed transcription fails with "Transcription failed", otherwise the results carry that transcript and URI, report audio and go to UriStorage; the id is the chosen one |
| TranscribeInvoke.UriPathFollowsTranscript | src/lambdas/transcribe-invoke-lambda/index.py:61-92 | a URI request succeeds exactly when the job yields a non-empty transcript, which the results carry, under the speaker heading when speakers were labelled |
| TranscribeInvoke.DirectAudio | src/lambdas/transcribe-invoke-lambda/index.py:190-224 | no bucket fails; a staging error passes through; otherwise the results carry the transcription of the staged URI, which names the staging bucket; audio is present exactly when the transcript is non-empty; the store goes to the events bucket if set |
| TranscribeInvoke.SpeakersMeanAudio | src/lambdas/transcribe-invoke-lambda/index.py:204-216 | with speaker labels the inline path reports audio present |
| TranscribeInvoke.EventsBucketAlwaysFails | src/lambdas/transcribe-invoke-lambda/index.py:87-88 | as written, with an events bucket set, every request gets 500 |
| TranscribeInvoke.HandlerAsWritten | src/lambdas/transcribe-invoke-lambda/index.py:246-283 | as written: 200 exactly when the event is a dict, preparation succeeds and the results would not go to the events bucket; a store into the events bucket gives 500 with the missing-attribute error |
| TranscribeInvoke.Handler | src/lambdas/transcribe-invoke-lambda/index.py:246-283 | the corrected handler, with the events store defined: a non-dict event gives 500; a failure gives 500 with its message and no store; success gives 200 with the results and their store |
| TranscribeInvoke.EventsBucketStoresByWindow | src/lambdas/transcribe-invoke-lambda/index.py:86-88 | with the events store in place, a transcribed URI request succeeds and is filed under "transcribe/{window id}.json" |
| AudioKeywords.FoundKeywords | src/lambdas/transcribe-invoke-lambda/test_example.py:43 | a keyword is found exactly when it occurs in the lower-cased transcript; found keywords keep list order |
| AudioKeywords.FoundSplits | src/lambdas/transcribe-invoke-lambda/test_example.py:43 | filtering a split list is filtering each part |
| AudioKeywords.FallRisk | src/lambdas/transcribe-invoke-lambda/test_example.py:46 | HIGH exactly when some fall keyword occurs |
| AudioKeywords.EmergencyWins | src/lambdas/transcribe-invoke-lambda/test_example.py:110-113 | a transcript with words from both lists is HIGH |
| AudioKeywords.PriorityMeaning | src/lambdas/transcribe-invoke-lambda/test_example.py:110-115 | each priority in terms of the two word lists |
| AudioKeywords.PriorityMonotone | src/lambdas/transcribe-invoke-lambda/test_example.py:110-115 | extending a transcript on either side never lowers its priority |
| AudioKeywords.PriorityIgnoresCase | src/lambdas/transcribe-invoke-lambda/test_example.py:110-112 | case does not affect the priority |
| AudioKeywords.HighFixture | src/lambdas/transcribe-invoke-lambda/test_example.py:99 | the first fixture is HIGH |
| AudioKeywords.MediumFixture | src/lambdas/transcribe-invoke-lambda/test_example.py:100 | the second fixture is MEDIUM |
| AudioKeywords.LowFixture | src/lambdas/transcribe-invoke-lambda/test_example.py:101 | the third fixture is LOW |
| AudioKeywords.IndentedSpeakerCountedTwice | src/lambdas/transcribe-invoke-lambda/test_example.py:135 | as written, one speaker whose second line is indented counts as two |
| AudioKeywords.IndentedSpeakerCountedOnce | src/lambdas/transcribe-invoke-lambda/test_example.py:135 | the corrected count sees one speaker there |
| AudioKeywords.IndentKeepsSpeakers | src/lambdas/transcribe-invoke-lambda/test_example.py:135 | the corrected count does not depend on indentation |
| AlertSpeech.AnalysisKeys | src/lambdas/agent_executor_lambda/index.py:27 | exactly the keys ending "_analysis.json", in order |
| AlertSpeech.LatestEventKey | src/lambdas/agent_executor_lambda/index.py:15-31 | none exactly when a listing fails or is empty; otherwise the greatest analysis key in the greatest folder |
| AlertSpeech.LatestEvent | src/lambdas/agent_executor_lambda/index.py:15-38 | the event is the fetched report of that key, or none when any step fails |
| AlertSpeech.LevelOf | src/lambdas/agent_executor_lambda/index.py:43-53 | a missing level is 0; levels 0, 1 and 2 select their message; anything else is undetermined |
| AlertSpeech.IncidentMessageQuotesBrief | src/lambdas/agent_executor_lambda/index.py:44-51 | the two incident messages quote the brief right after their opening; a missing brief reads "No concerning activity detected." |
| AlertSpeech.MissingLevelIsFine | src/lambdas/agent_executor_lambda/index.py:43-47 | a report without a level, or with level 0, gets the all-clear |
| AlertSpeech.AudioKey | src/lambdas/agent_executor_lambda/index.py:68-69 | the key starts with the prefix and ends ".mp3" |
| AlertSpeech.Final | src/lambdas/agent_executor_lambda/index.py:59-88 | the reported attempt is the first or the second, and the second exactly when the first was denied access |
| AlertSpeech.SynthesisRetriesOnlyDenied | src/lambdas/agent_executor_lambda/index.py:57-88 | a first success is reported; any other first failure propagates; after a denied first attempt, the second's result is reported |
| AlertSpeech.SpeakToElderly | src/lambdas/agent_executor_lambda/index.py:57-88 | the loop makes one or two attempts, sleeps 5 s before a retry, and returns the specified result |
| AlertSpeech.Handler | src/lambdas/agent_executor_lambda/index.py:94-114 | no event gives 404; otherwise the level's message is spoken, giving 200 with the audio's location, or 500 when speaking fails |
| Telegram.Unwrap | src/lambdas/telegram_bedrock_handler/index.py:45-48 | the unwrapped text holds no quote |
| Telegram.UnwrapRoundTrip | src/lambdas/telegram_bedrock_handler/index.py:45-48 | `b'...'` around text without quotes that does not end in "b" gives back that text |
| Telegram.UnwrapDropsTrailingB | src/lambdas/telegram_bedrock_handler/index.py:45-48 | as written, text ending in "b" loses that "b" |
| Telegram.UnwrapMeant | src/lambdas/telegram_bedrock_handler/index.py:45-48 | the corrected unwrap removes exactly the `b'` opening and the closing quote, and leaves other text unchanged |
| Telegram.UnwrapMeantRoundTrip | src/lambdas/telegram_bedrock_handler/index.py:45-48 | every text survives the corrected unwrap |
| Telegram.Step | src/lambdas/telegram_bedrock_handler/index.py:37-58 | one event only appends to the text, string chunks through the given unwrap, and stops the loop exactly when the stream breaks, a chunk has no bytes, or a block is of another kind |
| Telegram.GatherConcatenates | src/lambdas/telegram_bedrock_handler/index.py:36-58 | without failures the reply is the events' texts concatenated in stream order |
| Telegram.FailureKeepsPrefix | src/lambdas/telegram_bedrock_handler/index.py:32-63 | a failure keeps the text gathered before it, whatever follows |
| Telegram.Finish | src/lambdas/telegram_bedrock_handler/index.py:67-72 | none exactly when nothing was gathered; the result never starts or ends with whitespace; text without backslashes or newlines is only stripped |
| Telegram.FinishConvertsNewline | src/lambdas/telegram_bedrock_handler/index.py:69 | a literal `\n` between two lines of plain text becomes a newline |
| Telegram.ParseAgentResponse | src/lambdas/telegram_bedrock_handler/index.py:28-72 | no stream gives none; otherwise the cleaned-up concatenation, with string chunks unwrapped by the given unwrap |
| Telegram.OneChunk | src/lambdas/telegram_bedrock_handler/index.py:40-52 | a stream of one string chunk gathers exactly its unwrapped text |
| Telegram.ReplyDropsTrailingB | src/lambdas/telegram_bedrock_handler/index.py:45-52 | as written, a reply whose only chunk ends in "b" loses it; with the corrected unwrap it keeps it |
| Telegram.CommandOf | src/lambdas/telegram_bedrock_handler/index.py:114-124 | a command is recognised exactly when the lower-cased text equals its name |
| Telegram.CommandIgnoresCase | src/lambdas/telegram_bedrock_handler/index.py:114 | commands are case-insensitive |
| Telegram.Route | src/lambdas/telegram_bedrock_handler/index.py:100-124 | a parse error passes through; no text or no chat id gives NoText, and only then; non-string text raises on `lower`; text naming a command in any case runs that command for the chat; any other text is asked under the chat's session |
| Telegram.RouteByCommandName | src/lambdas/telegram_bedrock_handler/index.py:114-124 | a text update runs command c exactly when its lower-cased text is c's name |
| Telegram.MissingTextIgnored | src/lambdas/telegram_bedrock_handler/index.py:103-109 | a message with neither chat nor sender is only acknowledged |
| Telegram.ReplyText | src/lambdas/telegram_bedrock_handler/index.py:157-158 | the reply is never empty, and is the agent's text when there is any |
| Telegram.WithSubscriber | src/lambdas/telegram_bedrock_handler/index.py:74-83 | the chat gets an active row, replacing any earlier one, and other rows are unchanged |
| Telegram.WithoutSubscriber | src/lambdas/telegram_bedrock_handler/index.py:86-88 | the chat's row is removed and other rows are unchanged |
| Telegram.SubscribeIdempotent | src/lambdas/telegram_bedrock_handler/index.py:76-83 | subscribing twice is subscribing once |
| Telegram.UnsubscribeUndoes | src/lambdas/telegram_bedrock_handler/index.py:74-89 | unsubscribing undoes a first subscription |
| Telegram.Bot.Subscribe | src/lambdas/telegram_bedrock_handler/index.py:74-84 | the table gains the chat's active row and the confirmation is sent |
| Telegram.Bot.Unsubscribe | src/lambdas/telegram_bedrock_handler/index.py:86-89 | the chat's row is gone and the notice is sent |
| Telegram.Bot.Status | src/lambdas/telegram_bedrock_handler/index.py:91-97 | the answer says subscribed exactly when the table has the chat's row; the table is unchanged |
| Telegram.Bot.Handle | src/lambdas/telegram_bedrock_handler/index.py:100-173 | each route's response and effect on the table, the sent messages and the agent questions, with the agent's reply gathered through the as-written unwrap; errors and textless updates change nothing |
| StepTrigger.Interpret | src/lambdas/trigger-step-function/index.py:15-25 | base64 bodies are decoded first; a string is JSON-decoded or wrapped as `raw_body`; a dict is used as is; anything else leaves the event |
| StepTrigger.Payload | src/lambdas/trigger-step-function/index.py:34-39 | the four keys, with metadata defaulting to {}, transcript to "" and the fixed source |
| StepTrigger.ExecutionName | src/lambdas/trigger-step-function/index.py:49 | "run-" then a 15-character UTC stamp |
| StepTrigger.ExecutionNamesOrdered | src/lambdas/trigger-step-function/index.py:49 | later executions get names that sort later |
| StepTrigger.Handler | src/lambdas/trigger-step-function/index.py:10-63 | 200 exactly when an execution started; a missing body, an undecodable body, a non-dict event or an image without a length give 500 with the error; a payload within 262144 characters starts the execution named for the time with that payload, and its ARN or error is the reply |
| StepTrigger.DictBodyStarts | src/lambdas/trigger-step-function/index.py:15-59 | a dict body with a string image starts the timed execution whose input holds that image and the request's metadata |
| StepTrigger.OversizeStartsNothing | src/lambdas/trigger-step-function/index.py:42-44 | an oversize payload gives 500 "Input size ..." and starts nothing |
| StepTrigger.RawBodyNeverStarts | src/lambdas/trigger-step-function/index.py:19-31 | a plain-text body that is not JSON fails at `len(None)` and starts nothing |
| VidDemoApp.Canvas.constructor | src/app/vid_demo_app.py:75 | a blank canvas of the given size |
| VidDemoApp.Canvas.Paste | src/app/vid_demo_app.py:79 | the paste is recorded after all earlier ones |
| VidDemoApp.Shown | src/app/vid_demo_app.py:76-79 | a pixel shows the last paste covering it, and no paste when none covers it |
| VidDemoApp.Tiles | src/app/vid_demo_app.py:76-79 | one placement per frame, at its index's corner |
| VidDemoApp.CombineToGrid | src/app/vid_demo_app.py:68-80 | no frames give none; zero columns raise; otherwise a fresh canvas of cols·w by rows·h, where w and h are the first frame's size, holding every frame's placement in order |
| VidDemoApp.CornersDistinct | src/app/vid_demo_app.py:77-78 | for positive sizes, distinct indices get distinct corners |
| VidDemoApp.CornerInside | src/app/vid_demo_app.py:72-79 | an index below rows·cols puts its tile inside the canvas |
| VidDemoApp.CornerBelow | src/app/vid_demo_app.py:72-79 | an index at or beyond rows·cols puts its tile at or below the canvas bottom |
| VidDemoApp.OnlyOwnTile | src/app/vid_demo_app.py:76-79 | for equal frame sizes, a pixel of a tile is covered by no other tile |
| VidDemoApp.FrameVisible | src/app/vid_demo_app.py:68-80 | each frame within the grid's capacity is visible on the canvas |
| VidDemoApp.FrameClipped | src/app/vid_demo_app.py:68-80 | a frame beyond the capacity shows on no canvas pixel |
| VidDemoApp.ShortsIdClean | src/app/vid_demo_app.py:114 | the extracted id holds no '?' and no Shorts marker |
| VidDemoApp.WatchUrl | src/app/vid_demo_app.py:113-115 | a Shorts address becomes the watch address of its id; other addresses are unchanged; the result is never a Shorts address |
| VidDemoApp.WatchUrlIdempotent | src/app/vid_demo_app.py:113-115 | rewriting twice is rewriting once |
| Calendar.FromEpoch | src/lambdas/transcribe-invoke-lambda/index.py:103 | the UTC civil time of an epoch second is valid and converts back to it |
| Calendar.FromEpochMonotone | src/lambdas/transcribe-invoke-lambda/index.py:103 | later epochs give later civil times |
| Calendar.StampOrder | src/lambdas/transcribe-invoke-lambda/index.py:103 | fixed-width stamps sort as strings in time order |
| Calendar.ParseStamp | src/lambdas/agent-invoke-lambda/index.py:156 | a parsed stamp is a valid time; only the zero-padded 15-character form is accepted |
| Calendar.ParseStampRoundTrip | src/lambdas/agent-invoke-lambda/index.py:156 | parsing a "%Y%m%d-%H%M%S" stamp gives back its time |
| Text.Take | src/lambdas/action-lambda/action_handler.py:119 | `s[:n]` is a prefix of length min(n, len s) |

## Left out

- All AWS and HTTP calls are oracles: S3, SNS, Polly, Bedrock, Transcribe, Rekognition, SSM, DynamoDB, Step Functions, Telegram. Their payload formats, and DynamoDB or HTTP failures in the Telegram bot, are not modelled.
- The polling loops that wait on the Rekognition and Transcribe jobs (video-invoke-lambda/index.py:126-152, transcribe-invoke-lambda/index.py:147-161) are not modelled. They depend on sleeping and the wall clock, so a job's result is an oracle.
- Clocks are inputs. `utcnow()` in the transcribe lambda is naive, so its `.timestamp()` depends on local time; the model takes the epoch second as given. The `utcnow().isoformat()` stamps in results are left out.
- JSON encoding and decoding, base64 decoding and Python's `str()` of containers are abstract functions.
  - `Telegram` models byte chunks that arrive as text or bytes, with the UTF-8 decode abstract.
- `lower()` maps only the ASCII letters; Unicode case mapping is not modelled. `strip()` uses Python's set of whitespace characters.
- The keyword lists are taken to be lower case, as they are in the source, so `w.lower()` is `w`.
- The bot's fixed reply texts (welcome, subscribed and so on) are named constants, not spelled out with their emoji.
- Prompt assembly is not modelled (agent-invoke-lambda/index.py:20-103 and 249-274), nor the video agent's prompt text (video-invoke-lambda/index.py:267-286). They only build strings for the model.
- Results' `timestamp` fields and the video lambda's `bedrock_analysis` metadata are left out of the result datatypes.
- Demo app:
  - float image resizing (vid_demo_app.py:31-47), frame extraction, downloads, the lambda call and the Streamlit page are I/O or floating point;
  - pixel contents are not modelled, only which paste shows at a pixel;
  - grid sizes are natural numbers, so negative sizes are not modelled.
- VidDemoApp.FrameVisible: requires all frames to have the same positive size. With frames of different sizes a later, larger tile can cover an earlier one.
- The copies of the grid and Shorts code in the other app files are not modelled; they are identical. src/app/app.py reads the grid size as (cols, rows) rather than (rows, cols); that convention is not modelled.
- The combined-input aggregator's handler is not part of this model; only its test fixtures exist.
- transcribe-invoke-lambda/index.py:12 subclasses `Construct`, which lines 1-6 never import, so importing the module as written raises NameError before any handler runs. The model treats the class as a plain class and models its handler as though the module loaded.
- ParseStamp: accepts only the zero-padded 15-character form `YYYYMMDD-HHMMSS`. Python's `strptime` also accepts unpadded fields ("20240101-1234" reads as 12:03:04), which the model rejects. The keys the history reader meets are written with `strftime`, which always pads.
- Error messages are the texts Python 3.12 gives `str(e)` (the lambdas' runtime), e.g. "object of type 'NoneType' has no len()" and, for `KeyError(0)`, "0".
- Telegram.UnwrapMeant: the corrected unwrap is proved (Telegram.UnwrapMeantRoundTrip, Telegram.ReplyDropsTrailingB) but the bot itself, Telegram.Bot.Handle through Telegram.ParseAgentResponse, replies as written with Telegram.Unwrap, which removes every `b'` and every quote.
- Telegram.Finish: models the single left-to-right pass of `replace('\n\n\n', '\n\n')`. Four or more newlines can therefore remain partly collapsed, and the contract does not claim that no triple newline remains.

## Findings

| source | as written | input that shows it | evidently intended | confidence | as-written member | corrected member |
|---|---|---|---|---|---|---|
| src/lambdas/agent-invoke-lambda/index.py:205 | the knowledge-base key is `{timestamp}_{log_file_name}.json`, while the history reader (line 148) only admits keys ending `_analysis.json` | any fallback report, whose `log_file_name` is "{timestamp}_parsing_error.json": its key ends ".json.json", so it is never recalled | stored reports are keyed so that the reader recalls them | high, not executed | AgentInvoke.KbKeyNeverRecalled | AgentInvoke.KbEntryRecalled |
| src/lambdas/agent-invoke-lambda/index.py:325 | `key.replace(".jpg", "_analysis.json")` is case-sensitive, while JPGs are selected case-insensitively (line 225) | image key "frame.JPG": the output key equals the image key, so the analysis overwrites the image | the analysis gets its own `_analysis.json` key | high, not executed | AgentInvoke.OutputKeyOverwritesUpperCase | AgentInvoke.OutputKeyAgrees |
| src/lambdas/transcribe-invoke-lambda/index.py:88 | with `EVENTS_BUCKET` set, results are stored through `self._store_event_results`, which the class never defines (also line 220) | EVENTS_BUCKET set and a URI request that transcribes: AttributeError, status 500 | the results are stored under `transcribe/{event_id}.json` in the events bucket | high, not executed | TranscribeInvoke.EventsBucketAlwaysFails | TranscribeInvoke.EventsBucketStoresByWindow |
| src/lambdas/transcribe-invoke-lambda/test_example.py:135 | speaker prefixes keep the indentation of the triple-quoted lines, so "Speaker 1" and "    Speaker 1" differ | the script's own four-line conversation: two speakers are counted as three | each speaker counted once, whatever the indentation | high, not executed | AudioKeywords.IndentedSpeakerCountedTwice | AudioKeywords.IndentedSpeakerCountedOnce |
| src/lambdas/telegram_bedrock_handler/index.py:48 | `replace("b'", "")` removes every `b'`, including the one formed by a last character "b" and the closing quote | the chunk "b'ab'" unwraps to "a" | the text between `b'` and the closing quote, here "ab" | high, not executed | Telegram.UnwrapDropsTrailingB | Telegram.UnwrapMeantRoundTrip |
