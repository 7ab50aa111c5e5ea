# video-traductor in Dafny

A model of the core of video-traductor. The project has two web
applications that take an uploaded video and give back a version in another
language:

- **The translating server** (`server.js`, `utils.js`, `long-video-processor.js`)
  1. extracts the audio with ffmpeg;
  2. transcribes it with a local Whisper;
  3. cleans the transcript;
  4. translates it with LibreTranslate, falling back to Lingva;
  5. synthesises speech with gTTS;
  6. muxes the speech back into the video.

  Long videos are cut into chunks that are dubbed one after another and
  then concatenated.
- **The dubbing server** (`elevenlabs-version/server.js`,
  `elevenlabs-version/elevenlabs-service.js`) hands the video to the
  ElevenLabs dubbing API and follows the dubbing until it can download the
  result. It falls back to a simulated dubbing when the account may not
  produce a watermark-free video.

Both servers keep their jobs in an in-memory map and answer progress
requests from it. Each has a browser page (`public/script.js`,
`elevenlabs-version/public/script.js`) that does three things:

- it checks the chosen file;
- it posts the file;
- it polls the progress route until the job finishes.

## Modules

| Module | What it holds |
|---|---|
| `Outcomes` | `Result` and `Option` |
| `Text` | splitting, joining, trimming, lower-casing and prefix tests on `seq<char>` |
| `Decimal` | decimal printing of naturals, and a reader that reads a printed number back |
| `Lists` | `Filter` |
| `Sorting` | a stable insertion sort over any total preorder, and code-point string order |
| `Utils` | `utils.js` |
| `LongVideo` | `long-video-processor.js`; `LongVideoProcessor` is a class with the processor's fields |
| `JobServer` | `server.js`; `JobStore` is a class holding the `activeProcesses` map |
| `DubbingService` | `elevenlabs-version/elevenlabs-service.js` |
| `DubbingServer` | `elevenlabs-version/server.js`; `DubbingStore` is a class holding its map |
| `UploadPage` | `public/script.js`; `Page` is a class holding the page's state |
| `DubbingPage` | `elevenlabs-version/public/script.js` |

## How the outside world is modelled

Everything outside the program is a parameter: ffmpeg, Whisper, gTTS,
HTTP replies, the file system, `Date.now()`, `uuidv4()` and
`Math.random()`. A step that can throw is a `Result`.

Repeated outside events are functions from the attempt number to what
happened:

- the dubbing poller's attempts;
- the chunk dubbing steps;
- the answers a page's polling gets.

A run of asynchronous code is modelled as the sequence of its effects
in the order the event loop would run them. Callbacks that fire out of
order, such as chunk extraction events, are taken as a sequence in firing
order.

Behaviours of the code that the model makes explicit:

- A second pass of `cleanTranscription` can change the text
  (`Utils.BannerSplitAcrossLines`). It can do so only by dropping the
  whole text, once the joined lines begin with a language banner
  (`Utils.SecondPassDropsOnlyBanners`).
- The two pipelines store different transcripts. `server.js` stores the
  raw Whisper transcript as `originalText`
  (`JobServer.PipelineDoneContents`), while `long-video-processor.js`
  stores the cleaned text (`LongVideo.ProcessChunkKeepsChunk`).
- `utils.js`'s `transcribeAudio` never runs Whisper. It only reads a
  transcript already on disk.
- `long-video-processor.js` reads `config.LONG_VIDEO_CONFIG.CHUNK_DURATION`
  at lines 122 and 226 and `config.LONG_VIDEO_CONFIG.CLEANUP_CHUNKS` at
  line 152. `config.js` defines no `LONG_VIDEO_CONFIG`. As written,
  `processLongVideo` rejects with a `TypeError` before it splits
  anything. `getVideoInfo` throws the `TypeError` inside ffprobe's
  callback once the probe succeeds, so its promise never settles. The
  model describes both with the chunk duration supplied as a parameter.

## Model

| member | source | states |
|---|---|---|
| Utils.GenerateUniqueFilename | utils.js:9-13 | the generated name contains no slash, so it stays one file name inside the upload directory |
| Utils.UniqueFilenameKeepsParts | utils.js:9-13 | the generated name keeps the original extension, and its stem is the original stem, "_" and the timestamp; this holds for every slash-free name except ".." |
| Utils.Stem | utils.js:10-11 | the stem followed by the extension is the original name |
| Utils.ValidateVideoFile | utils.js:16-19 | accepts exactly a present file whose MIME type starts with "video/"; a missing file and a non-video file fail, each with its own message |
| Utils.TranscribeAudio | utils.js:34-45 | succeeds exactly when the ".txt" file beside the audio exists, and gives its contents; otherwise fails with the missing-transcript message |
| Utils.TxtPathKeepsDirectory | utils.js:36 | the transcript path lies in the audio file's directory |
| Utils.TxtPathExtension | utils.js:36 | the file name's final extension is replaced by ".txt" |
| Utils.TxtPathNoExtension | utils.js:36 | a file name without a final extension is left unchanged |
| Utils.TxtPathIdempotent | utils.js:36 | deriving the transcript path of a transcript path changes nothing |
| Utils.WholePathReplaceAgrees | server.js:230 | replacing the extension on the whole path gives the same transcript path as replacing it on the file name |
| Utils.TranslateText | utils.js:48-80 | gives LibreTranslate's answer when it has one, otherwise Lingva's; fails exactly when neither answers, with "Error en traducción: " followed by Lingva's error; a translation is never empty |
| Utils.UseLingvaIgnored | utils.js:48-80 | the `useLingva` flag never changes the outcome |
| Utils.PrimaryDownUsesFallback | utils.js:63-75 | a refused LibreTranslate request falls back to Lingva's translation |
| Utils.FilterLines | utils.js:84-89 | every line kept passes the filter |
| Utils.CleanTranscription | utils.js:83-91 | the result is a single line, and it is empty exactly when no line of the input passes the filter |
| Utils.CleanOneLine | utils.js:83-91 | a single line cleans to itself if the filter keeps it, else to nothing |
| Utils.CleanTwoLines | utils.js:83-91 | two kept lines are joined by one space |
| Utils.CleanedStart | utils.js:83-91 | a non-empty cleaned transcript, once trimmed, does not start with "[" |
| Utils.CleanTwice | utils.js:83-91 | a second pass gives either the cleaned text itself or nothing |
| Utils.SecondPassDropsOnlyBanners | utils.js:83-91 | a second pass changes a cleaned text only by dropping all of it, and only when the joined lines begin with a language banner |
| Utils.SingleLineIdempotent | utils.js:83-91 | when a single line survives, cleaning twice is cleaning once |
| Utils.BannerSplitAcrossLines | utils.js:83-91 | cleaning is not idempotent: "Detected" and "language x" on two lines join into a banner, which a second pass removes |
| Utils.CleanupTempFiles | utils.js:162-170 | removes at most the given path; leaves the files as they are when the path is missing; removes the path when removal works; never fails |
| Utils.CleanupRepeatable | utils.js:162-170 | cleaning the same path again changes nothing |
| LongVideo.Ceil | long-video-processor.js:27 | `Math.ceil`: the least integer at or above the argument |
| LongVideo.Plan | long-video-processor.js:27-44 | the plan has ceil(duration / chunk duration) chunks, and none when that count is not positive |
| LongVideo.PlanNonEmpty | long-video-processor.js:27-44 | the plan has a chunk exactly when the video's duration is positive |
| LongVideo.ChunkStartsBeforeEnd | long-video-processor.js:32-33 | every planned chunk starts before the video's end |
| LongVideo.LastChunkReachesEnd | long-video-processor.js:27 | the planned chunks cover the whole video |
| LongVideo.ChunkDuration | long-video-processor.js:33-42 | each chunk lasts more than nothing and at most the chunk duration, and exactly that when another chunk follows |
| LongVideo.PlanChunkShape | long-video-processor.js:37-43 | chunk i of the plan has index i and a duration in (0, chunk duration] |
| LongVideo.PlanContiguous | long-video-processor.js:33-34 | every chunk but the last is full and ends where the next one starts |
| LongVideo.PlanEnds | long-video-processor.js:33-34 | the first chunk starts at 0 and the last one ends at the video's end |
| LongVideo.ExactMultiplePlan | long-video-processor.js:27-34 | a video exactly k chunks long has k chunks and a full last chunk, with no empty chunk after it |
| LongVideo.ChunkPathsDistinct | long-video-processor.js:35 | different chunks are written to different files |
| LongVideo.FirstFailure | long-video-processor.js:61-70 | the position of the first failed extraction: every event before it ended, and the event at it failed |
| LongVideo.ExtractionOnePerChunk | long-video-processor.js:53-73 | with one event per chunk, extraction resolves exactly when there is a chunk and all of them ended, and rejects exactly when one failed |
| LongVideo.ResolvedCountsAll | long-video-processor.js:61-68 | a resolved extraction has counted an end for every chunk, and there is at least one chunk |
| LongVideo.LongVideoProcessor.constructor | long-video-processor.js:9-14 | a new processor has no chunks, and its counters and progress are zero |
| LongVideo.LongVideoProcessor.CreateChunks | long-video-processor.js:53-73 | settles as `Extraction` says; stores the chunks only once every chunk has ended; changes no other field |
| LongVideo.LongVideoProcessor.OnExtractionEvent | long-video-processor.js:61-70 | one `end` or `error` handler keeps the count, the promise and the stored chunks in step with the events so far |
| LongVideo.LongVideoProcessor.SplitVideoIntoChunks | long-video-processor.js:17-50 | a failed probe rejects and changes nothing; otherwise it records the chunk count and extracts the plan's chunks |
| LongVideo.ProcessChunkKeepsChunk | long-video-processor.js:76-114 | a dubbed chunk keeps its index, times and path, and carries the muxed file, the cleaned transcript and its translation |
| LongVideo.ProcessChunkFirstError | long-video-processor.js:79-113 | the first step that fails gives the chunk's error: the extraction's, the missing transcript's, the translation's ("Error en traducción: " and the fallback's error, once neither backend answered), the speech synthesis's or the mux's |
| LongVideo.ProcessChunkFails | long-video-processor.js:79-113 | a chunk fails exactly when one of its steps fails; translation fails only when both backends do |
| LongVideo.ByIndexTotalPreorder | long-video-processor.js:177 | ordering by index is a total preorder, so the sort is well defined |
| LongVideo.ConcatLines | long-video-processor.js:178 | one `file '<path>'` line per chunk, in order |
| LongVideo.CombineChunks | long-video-processor.js:170-196 | resolves exactly when the concat run ends, with the final path; the caller's chunks come back sorted by index as a permutation of themselves; a failed run gives its error |
| LongVideo.ConcatListOrderFree | long-video-processor.js:176-179 | the concat list does not depend on the order the chunks came in |
| LongVideo.SortKeepsIndexOrder | long-video-processor.js:177 | chunks already in index order are left as they are by the sort |
| LongVideo.ConcatListLines | long-video-processor.js:176-179 | the list holds one line per chunk, in index order, when no path contains a line break |
| LongVideo.Reports | long-video-processor.js:133-140 | the reports before chunk k are the k reports of the chunks before it |
| LongVideo.ProgressSchedule | long-video-processor.js:132 | the progress starts at 0, strictly increases, and stays below 100 |
| LongVideo.Dubs | long-video-processor.js:143 | one dubbing outcome per planned chunk |
| LongVideo.DubAt | long-video-processor.js:143 | entry j is the outcome of dubbing chunk j |
| LongVideo.FirstErr | long-video-processor.js:128-145 | where the loop stops: every outcome before it succeeded, and the outcome at it failed |
| LongVideo.OkValues | long-video-processor.js:144 | the chunks pushed so far are the values of the successful outcomes, in order |
| LongVideo.ProcessedInOrder | long-video-processor.js:128-145 | dubbed chunks come out in index order, one per index |
| LongVideo.LongVideoProcessor.DubChunks | long-video-processor.js:128-145 | the loop stops at the first failed chunk with its error; otherwise it gives every dubbed chunk; the reports and the final progress are those of the chunks started |
| LongVideo.LongVideoProcessor.ReportProgress | long-video-processor.js:131-141 | sets the progress of chunk i and adds its report |
| LongVideo.LongVideoProcessor.DubChunkAt | long-video-processor.js:143 | dubs chunk i as `Dubs` says |
| LongVideo.LongVideoProcessor.ProcessLongVideo | long-video-processor.js:117-167 | a failed probe rejects and changes nothing. Otherwise it records the chunk count and stores the chunks once every extraction ended. A rejected or pending extraction makes no report and leaves the progress as it was. A resolved one dubs the chunks: the run rejects at the first failure or concatenates them, and the progress is the last chunk started. `currentChunk` is never changed |
| LongVideo.SuccessfulRunInOrder | long-video-processor.js:149-179 | in a successful run the in-place sort leaves the dubbed chunks in the order they were dubbed, and the concat list follows that order |
| LongVideo.GetVideoInfo | long-video-processor.js:212-231 | passes a probe error on; otherwise reports the duration, the planned chunk count, and 5 minutes of processing for each started minute of video |
| JobServer.RequestLanguage | server.js:56 | the language is never empty, and it is the requested one when that is truthy |
| JobServer.ScheduleIncreasing | server.js:126-154 | step and progress strictly increase along the five reports, from (1, 20) to (5, 90), and stay below the completion's 100 |
| JobServer.FollowsScheduleStep | server.js:126-154 | reporting the next step keeps the trace on the schedule |
| JobServer.WhisperTranscribe | server.js:211-242 | a non-zero exit code rejects with "Error en Whisper: " and the captured stderr |
| JobServer.WhisperReadsWholePathName | server.js:227-236 | on exit code 0, reads the file the whole-path replacement names, or fails with the missing-transcript message |
| JobServer.Basename | server.js:165 | the base name has no slash and ends the path |
| JobServer.DownloadUrlShape | server.js:165 | the download URL is "/api/download/" followed by the last segment of the final video's path |
| JobServer.Pipeline | server.js:123-177 | a failed run fails at one of the five steps |
| JobServer.PipelineCompletes | server.js:123-177 | a run completes exactly when audio extraction, Whisper, the transcript, one translation backend, speech synthesis and muxing all succeed and the final file exists |
| JobServer.PipelineDoneContents | server.js:136-166 | a completed run links to the muxed video and stores the raw transcript as the original text |
| JobServer.PipelineDoneTranslation | server.js:139-143 | the stored translation is the primary backend's, or the fallback's when the primary gave none |
| JobServer.WhisperFailureMessages | server.js:135-136 | a Whisper failure fails step 2 with its stderr, and a missing transcript fails it with the missing-transcript message |
| JobServer.TranslationFailureMessage | server.js:142-143 | step 3 fails only when neither backend answers, and then with the fallback's error |
| JobServer.MissingFinalFails | server.js:160-162 | a final video that was not written fails step 5 |
| JobServer.CleanupThree | server.js:169-171 | removing the three temporary files leaves every other file |
| JobServer.RunRecordStatus | server.js:166-175 | a run leaves its record completed exactly when it succeeded, otherwise in error with the failing step and its message, keeping the request's fields |
| JobServer.FreshRunResult | server.js:189-208 | a failed job has no download URL and no translation; a completed one has a URL and the time from start to end |
| JobServer.JobStore.constructor | server.js:36 | the store starts empty |
| JobServer.JobStore.UpdateProcess | server.js:180-187 | sets the step and progress of a known record and nothing else; an unknown id changes nothing |
| JobServer.JobStore.CompleteProcess | server.js:189-200 | marks a known record completed at 100 with the result, the texts and the duration; an unknown id changes nothing |
| JobServer.JobStore.FailProcess | server.js:202-208 | marks a known record as an error with its message; an unknown id changes nothing |
| JobServer.JobStore.SubmitVideo | server.js:44-70 | a rejected upload answers the validation message and stores nothing; an accepted upload stores a new processing record under the fresh id |
| JobServer.JobStore.ProcessVideoAsync | server.js:123-177 | reports the steps along the schedule up to the one that fails, and leaves the record as `Pipeline` decides; a completed run with working removal deletes exactly the three temporary files |
| JobServer.JobStore.RunSteps | server.js:124-163 | the `try` block reports steps 1 to k, where k is the step that fails, or all five |
| JobServer.JobStore.GetProgress | server.js:73-91 | 404 exactly for an unknown id; otherwise the record's fields |
| DubbingService.ValidateApiKey | elevenlabs-version/elevenlabs-service.js:15-19 | throws exactly when the key is falsy, with the configuration message |
| DubbingService.CreateSimulatedDubbing | elevenlabs-version/elevenlabs-service.js:77-92 | the id starts with "sim_", and the status is "simulating" |
| DubbingService.CreateDubbing | elevenlabs-version/elevenlabs-service.js:22-74 | with no key it throws the key message; an unanswered request throws its error |
| DubbingService.CreateDubbingFallback | elevenlabs-version/elevenlabs-service.js:48-68 | falls back to the simulation exactly when the refusal names the watermark; any other refusal throws the API error with the response text; an accepted request starts the dubbing the server named |
| DubbingService.GetDubbingStatus | elevenlabs-version/elevenlabs-service.js:95-133 | a simulated id is processing at 50 with no request; otherwise it checks the key and decorates the server's status with its progress and message, within 0..100 |
| DubbingService.DownloadDubbedVideo | elevenlabs-version/elevenlabs-service.js:136-171 | resolves with the output path exactly when there is a key, the request succeeds and the write stream finishes |
| DubbingService.CheckCredits | elevenlabs-version/elevenlabs-service.js:294-323 | passes the subscription's fields on exactly when there is a key and the request succeeds; a refusal throws with its status |
| DubbingService.NoKeyNoRequest | elevenlabs-version/elevenlabs-service.js:15-19 | without a key every API call throws the key message whatever the server would answer; only a simulated id still gets a status |
| DubbingService.CalculateProgress | elevenlabs-version/elevenlabs-service.js:268-278 | progress lies in 0..100; it is 100 exactly for "dubbed", and 0 exactly for "failed" and for statuses the table does not list |
| DubbingService.GetStatusMessage | elevenlabs-version/elevenlabs-service.js:281-291 | every status has a message, and the default one is given exactly for statuses the table does not list |
| DubbingService.AttemptEnds | elevenlabs-version/elevenlabs-service.js:185-200 | a delivering attempt delivers the output path |
| DubbingService.Seen | elevenlabs-version/elevenlabs-service.js:186-191 | an attempt reports at most one status |
| DubbingService.Outcome | elevenlabs-version/elevenlabs-service.js:197-219 | resolves exactly after a download; a timeout and an exhausted retry count reject with their messages, the latter ending with the last error |
| DubbingService.StopFrom | elevenlabs-version/elevenlabs-service.js:184-217 | the first attempt that ends the poll, or the retry limit |
| DubbingService.PollChecks | elevenlabs-version/elevenlabs-service.js:184-219 | the poll makes between 1 and `MAX_RETRIES` status requests, reports at most one status per request, and gives up only after the last allowed request |
| DubbingService.PollDelivers | elevenlabs-version/elevenlabs-service.js:195-197 | a poll downloads only to the output path, after a last reported status of "dubbed" |
| DubbingService.PollGivesUp | elevenlabs-version/elevenlabs-service.js:206-219 | a poll that gives up times out when the last attempt was still waiting, and runs out of retries with that attempt's error when it threw |
| DubbingService.AttemptsObserved | elevenlabs-version/elevenlabs-service.js:185-200 | real attempts meet the assumptions of the poll lemmas |
| DubbingService.FailedStatusRetried | elevenlabs-version/elevenlabs-service.js:198-212 | a "failed" status does not end the poll while retries remain; it is reported and counted as one more attempt |
| DubbingService.TryAttempt | elevenlabs-version/elevenlabs-service.js:185-200 | the `try` body gives what `Observe` says about that attempt |
| DubbingService.PollStep | elevenlabs-version/elevenlabs-service.js:184-217 | one pass keeps the reports and the stopping point in step with `Poll` |
| DubbingService.PollLoop | elevenlabs-version/elevenlabs-service.js:180-219 | the loop ends as `Poll` says, with its reports and its number of requests |
| DubbingService.PollDubbingStatus | elevenlabs-version/elevenlabs-service.js:174-220 | a simulated id goes to the simulated poll and makes no request; any other id goes to the loop, and the promise settles with its outcome |
| DubbingService.SimReports | elevenlabs-version/elevenlabs-service.js:226-245 | six reports, one per simulated step |
| DubbingService.SimulatedProgressIncreasing | elevenlabs-version/elevenlabs-service.js:226-245 | simulated progress runs from 10 to 100 and strictly increases; only the last step says "dubbed" |
| DubbingService.FindVideo | elevenlabs-version/elevenlabs-service.js:256 | the first name ending in .mp4, .avi or .mov, or none exactly when there is no such name |
| DubbingService.SimulatedOutcome | elevenlabs-version/elevenlabs-service.js:253-264 | resolves with the output path exactly when the listing holds a video and the copy works; otherwise it resolves with nothing or fails with the listing's or the copy's error |
| DubbingService.PollSimulatedDubbing | elevenlabs-version/elevenlabs-service.js:223-265 | reports the six steps in order, then settles as `SimulatedOutcome` says |
| DubbingServer.FormatSecondsReadsBack | elevenlabs-version/server.js:90-102 | the printed duration of whole seconds reads back as the same seconds |
| DubbingServer.FormatTimeReadsBack | elevenlabs-version/server.js:90-102 | `formatTime` prints the milliseconds' whole seconds, rounded down, in a form that reads back to them |
| DubbingServer.ReadsMinutesFirst | elevenlabs-version/server.js:95-100 | an "Mm Ss" text is read as minutes, not as hours |
| DubbingServer.FlatEstimateText | elevenlabs-version/server.js:80-86 | the flat estimate prints as "7m 0s" |
| DubbingServer.NothingLeftText | elevenlabs-version/server.js:72-73 | no time left prints as "0s" |
| DubbingServer.EstimateProportional | elevenlabs-version/server.js:66-86 | with progress, the total is the elapsed time scaled up by the share done and the remainder is the total minus the elapsed time, which is 0 at 100% and never negative up to it; without progress both are 7 minutes |
| DubbingServer.EstimatesAgree | elevenlabs-version/server.js:57-88 | the `estimated` and `remaining` texts always agree; without progress they say 7 minutes, and a finished run is expected to end now |
| DubbingServer.ReportAllLast | elevenlabs-version/server.js:243-245 | only the last status passed to the callback shows, with its progress taken as is, even when that is lower than before |
| DubbingServer.Progresses | elevenlabs-version/server.js:244 | the progress values of the reports, in order |
| DubbingServer.UnexpiredKeeps | elevenlabs-version/server.js:43-54 | a sweep keeps exactly the records at most 30 minutes old, unchanged; a second sweep at the same time removes nothing, and a later sweep removes at least as much |
| DubbingServer.ValidateRequest | elevenlabs-version/server.js:112-123 | accepts exactly a present file with one of the twelve supported languages (English by default); a missing file and an unsupported language answer their own errors |
| DubbingServer.PrototypeKeyAccepted | elevenlabs-version/server.js:121 | the check as written lets "constructor" through, while the intended check refuses it; with no language the request asks for English |
| DubbingServer.ResultUrlNamesOutput | elevenlabs-version/server.js:240-256 | the download URL names the output file "dubbed_<time>.mp4" |
| DubbingServer.DubbedEnds | elevenlabs-version/server.js:238-265 | once the dubbing exists the record ends completed exactly when the poll and the removal succeed, at 100 with the download URL; otherwise in error, with the message repeating the error |
| DubbingServer.RunRecordEnds | elevenlabs-version/server.js:222-266 | a run always ends its record: completed exactly when creation, poll and removal all succeed; a failed creation leaves the record at step 1 with its error |
| DubbingServer.SimulatedRunProgress | elevenlabs-version/server.js:238-244 | the progress can go down: a simulated dubbing takes the record through 20, 10, 30, 50, 70, 90, 100 |
| DubbingServer.DubbingStore.constructor | elevenlabs-version/server.js:42 | the store starts empty |
| DubbingServer.DubbingStore.CalculateTimeEstimates | elevenlabs-version/server.js:57-88 | nothing for an unknown id; otherwise the estimates from the record's start time |
| DubbingServer.DubbingStore.GetProgress | elevenlabs-version/server.js:153-178 | 404 exactly for an unknown id; otherwise the record's fields, its message repeated as the progress message, and its estimates |
| DubbingServer.DubbingStore.SweepExpired | elevenlabs-version/server.js:46-54 | the map afterwards is `Unexpired` of the map before |
| DubbingServer.DubbingStore.SubmitVideo | elevenlabs-version/server.js:110-150 | a request `ValidateRequest` rejects stores nothing; an accepted one stores a new record under the fresh id |
| DubbingServer.DubbingStore.UpdateProcess | elevenlabs-version/server.js:269-286 | overwrites step, progress and message of a known record; an unknown id changes nothing |
| DubbingServer.DubbingStore.CompleteProcess | elevenlabs-version/server.js:288-298 | marks a known record completed; an unknown id changes nothing |
| DubbingServer.DubbingStore.FailProcess | elevenlabs-version/server.js:300-307 | marks a known record as an error, repeating the error in the message; an unknown id changes nothing |
| DubbingServer.DubbingStore.ProcessVideoAsync | elevenlabs-version/server.js:222-266 | leaves the record as `RunRecord` says and reports the progress values of `ProgressTrace`; an unknown id changes nothing |
| DubbingServer.DubbingStore.FollowDubbing | elevenlabs-version/server.js:238-261 | the run after creation leaves the record as `Dubbed` says |
| DubbingServer.DubbingStore.ReportStatuses | elevenlabs-version/server.js:243-245 | one `updateProcess` per reported status |
| UploadPage.FileProblem | public/script.js:76-93 | refuses exactly files that are not videos or are over 5 GiB, checking the MIME type first, each with its own message |
| UploadPage.StepMarks | public/script.js:275-287 | one class per indicator |
| UploadPage.StepMarksShape | public/script.js:275-287 | the steps before the current one are done, the current one is active and the rest idle; an out-of-range step marks all done or all idle; at most one step is active |
| UploadPage.UpdateStepIndicators | public/script.js:275-287 | each indicator gets the class of its position |
| UploadPage.AnswerData | server.js:73-91 | the page's view of a progress answer: the record's fields, or just the 404 error |
| UploadPage.ProgressText | public/script.js:215-230 | the progress message when there is one, else "Procesando..." |
| UploadPage.TranslatingServerView | public/script.js:215-272 | against the translating server the text is always "Procesando...", and neither the chunk row nor the estimates button shows |
| UploadPage.AfterPoll | public/script.js:178-212 | a completed job shows its result, an error its message, and anything else polls again |
| UploadPage.TranslatingServerPolling | public/script.js:178-212 | against the translating server, polling goes on exactly while the job is processing or the id is unknown |
| UploadPage.FirstStopUnique | public/script.js:178-212 | where polling stops is determined by the answers |
| UploadPage.Actions | public/script.js:178-212 | one reaction per answer |
| UploadPage.UnknownIdNeverSettles | public/script.js:178-212 | an id the server does not know never settles the page |
| UploadPage.PollUntil | public/script.js:178-212 | polling stops at the first answer whose reaction settles the page, with that reaction; the dubbing page's interval (elevenlabs-version/public/script.js:171-201) uses the same loop with its own reaction |
| UploadPage.LanguageName | public/script.js:539-555 | the Spanish name of a known code, else the code |
| UploadPage.LanguageNamesAgree | public/script.js:539-555 | the page names exactly the languages the dubbing server accepts |
| UploadPage.LanguageNameKnown | public/script.js:539-555 | the name differs from the code exactly for the named languages |
| Sorting.SortByStable | public/script.js:474-480 | the sort is stable: the voices that tie under the comparator (same category and name) keep the order the list gave them |
| UploadPage.VoiceOrder | public/script.js:475-480 | the voice comparator (category, then name) is a total preorder, so the sort is well defined |
| UploadPage.GroupBy | public/script.js:483-490 | each key's group is exactly the voices with that key, in order; keys are distinct and in first-met order |
| UploadPage.PopulateVoiceSelector | public/script.js:467-536 | listed voices are sorted by the comparator and grouped by category; a list whose first voice has no id is grouped by language in its own order; the groups follow the sorted keys, and each group holds exactly that key's voices |
| UploadPage.PostFailure | public/script.js:123-175 | a failed upload shows "Error al procesar el video: " followed by "HTTP error! status: " and the status, or by the thrown message |
| UploadPage.Page.constructor | public/script.js:2-3 | the page loads with no file, no process id, the button disabled and nothing shown |
| UploadPage.Page.HandleFileSelection | public/script.js:76-93 | a refused file only shows why; an accepted one becomes the chosen file and enables the button |
| UploadPage.Page.RemoveFile | public/script.js:103-110 | no file, the button disabled, results and errors hidden |
| UploadPage.Page.ApplyPollAction | public/script.js:178-212 | settling shows the result or the error, hides the progress and enables the button |
| UploadPage.Page.PollProgress | public/script.js:178-212 | nothing happens without a process id; otherwise the answers are read up to the first that settles the page |
| UploadPage.Page.ProcessVideo | public/script.js:123-175 | with no file it only shows an error; otherwise it shows progress, disables the button, and either polls the new process id or shows the failure |
| UploadPage.Page.RetryProcess | public/script.js:345-350 | hides the error and, with a file chosen, uploads again |
| DubbingPage.FileProblem | elevenlabs-version/public/script.js:88-97 | refuses exactly the files that are not videos; there is no size limit |
| DubbingPage.AcceptsMoreThanUploadPage | elevenlabs-version/public/script.js:88-97 | whatever the translating page accepts, this page accepts, with the same refusal for a non-video; a video over 5 GiB is accepted here only |
| DubbingPage.ServerAnswer | elevenlabs-version/public/script.js:171-201 | a non-2xx answer is thrown like a failed fetch |
| DubbingPage.ProgressText | elevenlabs-version/public/script.js:204-231 | the progress message, else the message, else "Procesando..." |
| DubbingPage.UpdateSteps | elevenlabs-version/public/script.js:204-231 | the first indicator is done from step 1 on, and the second active from step 2 on; below those steps each keeps its class |
| DubbingPage.DubbingServerView | elevenlabs-version/public/script.js:204-231 | against the dubbing server the text is the record's message, and the estimates button shows exactly when progress is positive |
| DubbingPage.SnapshotsRepeatMessage | elevenlabs-version/server.js:164-177 | every progress answer repeats the message as the progress message |
| DubbingPage.AfterPoll | elevenlabs-version/public/script.js:171-201 | a completed record shows its result, an error or a failed fetch shows an error, and anything else keeps polling |
| DubbingPage.Actions | elevenlabs-version/public/script.js:171-201 | one reaction per tick |
| DubbingPage.DubbingServerPolling | elevenlabs-version/public/script.js:171-201 | the interval is cleared exactly when the record finished or failed, or the id is unknown |
| DubbingPage.UnknownIdStops | elevenlabs-version/public/script.js:171-201 | an unknown id stops the page at the first tick with the polling error |
| DubbingPage.CreditsPanel | elevenlabs-version/public/script.js:322-334 | the panel shows exactly when the credits carry a character count; it shows that count, the limit, and the available credits, where used plus available is the limit |
| DubbingPage.DurationParts | elevenlabs-version/public/script.js:347-359 | the hours, minutes and seconds are in range and add back up |
| DubbingPage.FormatDurationReadsBack | elevenlabs-version/public/script.js:347-359 | the page prints a duration as the server prints its estimates, so it reads back to the same seconds |
| DubbingPage.PostFailure | elevenlabs-version/public/script.js:116-155 | a refused upload shows the server's error or a default; a thrown one shows its message |
| DubbingPage.Page.constructor | elevenlabs-version/public/script.js:2-5 | the page loads with no file, no process id, no interval and no section shown, with the button disabled |
| DubbingPage.Page.ShowError | elevenlabs-version/public/script.js:267-275 | only the error section shows, and the interval is cleared |
| DubbingPage.Page.HandleFile | elevenlabs-version/public/script.js:88-97 | a non-video only shows why; a video becomes the chosen file and enables the button |
| DubbingPage.Page.RemoveFile | elevenlabs-version/public/script.js:107-113 | no file, and the button disabled |
| DubbingPage.Page.RetryProcess | elevenlabs-version/public/script.js:278-292 | the sections are hidden, the file dropped and the button disabled; a running interval is left alone |
| DubbingPage.Page.ProcessVideo | elevenlabs-version/public/script.js:116-201 | with no file it only shows an error; otherwise it shows progress, and either shows the upload failure or polls until the interval is cleared |

## Left out

- The ffmpeg, Whisper, gTTS and HTTP calls are parameters: a `Result`
  per step, and an answer per request. Nothing about the audio, video or
  translated content is modelled. `convertVideoToAudio`,
  `generateTTSAudio` and `synchronizeAudioWithVideo` appear only as the
  outcome of their step.
- Timers, `await` interleavings and concurrent requests are not modelled.
  Each asynchronous run is modelled as one sequence of effects. A poll's
  waiting time is not modelled.
- `Date.now()`, `uuidv4()` and `Math.random()` are parameters.
  `toLocaleTimeString()`, `toLocaleString()` and the time-estimate
  `completionTime` text are not modelled.
- Floating-point numbers are `real`, so rounding is exact: chunk times,
  progress percentages and time estimates.
- `LongVideo.GetVideoInfo`, `LongVideo.LongVideoProcessor.ProcessLongVideo`:
  the `TypeError` that the missing `LONG_VIDEO_CONFIG` causes is not
  modelled. The chunk duration
  is a parameter, and the runs are described as if the configuration
  existed.
- `cleanupChunks`, and the `totalDuration` that `processLongVideo` sums
  from fields the processed chunks do not have, are not modelled.
- Express, multer and `res` plumbing are not modelled: upload storage,
  multer's `fileFilter`, the size limit and the download route's file
  stream. The credits route only passes `checkCredits` on, and is not
  modelled separately.
- Logging is not modelled. The messages passed to `updateProcess` in
  `server.js` are only logged, so the model drops them.
- `JobServer.Basename`: paths that end in a slash are not modelled.
- `Utils.Stem`, `Utils.GenerateUniqueFilename`: names that contain a slash
  are not modelled, because multer passes a bare file name.
- `UploadPage.VoiceOrder`: `localeCompare` is modelled as code-point order.
  A voice without a category makes the source's comparator throw, and the
  model sorts it as an empty category instead.
- `UploadPage.GroupBy`, `UploadPage.PopulateVoiceSelector`: two behaviours
  of the source are not modelled.
  - A category or language inherited from `Object.prototype`, such as
    "constructor" or "__proto__", already finds a truthy value in the
    grouping object. The `.push` on it then throws a `TypeError`, which
    `loadElevenLabsVoices` catches before it swaps in its default list. The
    model opens an ordinary group for that key instead.
  - `Object.keys(...).sort()` compares UTF-16 code units, while the model
    sorts the keys by code point (`LexLe`). The two orders differ only
    when a key holds a character above U+FFFF where another holds one in
    U+E000 to U+FFFF.
- `UploadPage.LanguageName`: a code inherited from `Object.prototype` is
  not modelled. The source returns a function for it.
- `DubbingService.CalculateProgress`: a status inherited from
  `Object.prototype`, such as "constructor", is not modelled. The source's
  table lookup returns a function for it, not 0, so the 0..100 bound holds
  only for the other strings. The status comes from the ElevenLabs API.
- `DubbingService.GetStatusMessage`: the same inherited statuses are not
  modelled. The source returns a function for them, not "Procesando...".
- `DubbingService.GetDubbingStatus`: its 0..100 progress bound inherits
  the gap of `CalculateProgress` for an inherited status name.
- `DubbingPage.FormatDurationReadsBack`: fractional and negative seconds
  are not modelled.
- Not modelled on either page:
  - the DOM itself and file-size formatting;
  - the time-estimate modal's open state and its timer;
  - the history, tips and other panels that only display text.
- `LongVideo.LongVideoProcessor.DubChunks` takes the dubbing of one chunk
  as a function value, so that the loop does not unfold the dubbing
  steps. `ProcessLongVideo` passes it `processChunk`'s model.

## Findings

| source | as written | input that shows it | evidently intended | confidence | as-written member | corrected member |
|---|---|---|---|---|---|---|
| elevenlabs-version/server.js:121 | `config.SUPPORTED_LANGUAGES[targetLanguage]` is truthy for every name inherited from `Object.prototype`, so such a language passes the check | `targetLanguage` = "constructor" | accept only the twelve configured language codes | not executed | DubbingServer.PrototypeKeyAccepted | DubbingServer.ValidateRequest |
