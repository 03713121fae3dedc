# soradeno core, modelled in Dafny

soradeno takes video-generation tasks from a Feishu (Lark) multi-dimensional
table, sends them to an upstream model, and writes the results back. This
project models the three pieces of sequential logic around those network calls:

- **Record store client** (`feishu.ts`, modules `Cells` and `Feishu`):
  - the configuration check;
  - the tenant-token cache with its 300-second safety margin;
  - `parseModelName`;
  - the normalisation of a raw record into a flat task (`parseTaskRecord`), over every cell shape the store returns (string, fragment array, object with `.text`/`.link`/`.url`/`.file_token`);
  - the partial-update dictionary `updateTaskStatus` sends.
- **Upstream stream extractor** (`server.ts`, modules `Framing`, `UrlScan` and `Extractor`):
  - server-sent-event lines are reassembled from chunks (split on `"\n"`, the trailing partial line kept);
  - `data: ` payloads are parsed;
  - each delta's content is scanned with three URL patterns. Each pattern is modelled as the scanning loop a global regex performs;
  - a candidate without a scheme gets `https://`, and a candidate is accepted only when it looks like a video URL.
- **Client task runner** (`feishu-frontend.js`, module `Frontend`):
  - the `isProcessing` single-flight lock of `genTask`;
  - its event-frame reader (split on `"\n\n"`) and the success decision;
  - the sequential batch loop with its `ok`/`fail` counters and pauses;
  - the pending/done split of the loaded records.

How the code takes its form:
- State changed in place is a class with `modifies` clauses: `Feishu.FeishuService` holds the token cache, and `Frontend.TaskRunner` holds the lock and the task list.
- Every loop of the source is a `while` loop with invariants. Each loop is proved against a function of its inputs: `ScanLines`, `FoldFrames`, `ScanPatterns`, `Interleaved` and `Successes`.
- Properties relating several calls are lemmas about those functions.
- `Framing` holds the split-and-keep-last-piece idiom used by both readers. Its main result is that a reader fed arbitrary chunks sees exactly the complete pieces of all the text received, followed by a pending remainder.

What becomes a parameter or a plain input:
- Requests are replaced by the replies they would get: `TokenReply`, `Reply`, `LoadReply`, and the `writeCode`/`writeMsg` of the update.
- Each `Date.now()` read becomes a clock parameter of its own (`now`, `received`, `checkedAt`, `receivedAt`).
- `JSON.parse` together with the property path it feeds becomes a function `parse` handed to the reader. The path is `choices?.[0]?.delta?.content` in `server.ts`, and `data.type` with its fields in the frontend.
- Decoded chunks stand in for the byte stream and its `TextDecoder`.
- The `confirm` dialog becomes a boolean.

## Model

| member | source | states |
|---|---|---|
| `Feishu.FeishuService.IsConfigured` | feishu.ts:27-31 | true exactly when none of `appId`, `appSecret`, `appToken`, `tableId` is the empty string |
| `Feishu.FeishuService.constructor` | feishu.ts:12-16 | the four settings are kept (missing ones are ""), the cache starts as `null` token and expiry 0 |
| `Feishu.FeishuService.GetTenantAccessToken` | feishu.ts:45-81 | the returned token or error, the new cache and whether a request was made are exactly those of `AcquireToken` on the old cache and the two clock reads |
| `Feishu.AcquireToken` | feishu.ts:45-81 | the reference for one token call: a truthy cached token before its expiry is returned without a request; otherwise a request is made, a non-zero `code` gives the error `获取飞书 token 失败: <msg>` and keeps the cache, and a zero `code` caches the new token until its arrival time plus `expire - 300` seconds |
| `Feishu.RefreshedTokenReused` | feishu.ts:47-50 | after a successful refresh whose reply arrived at `r0` the expiry is `r0 + (expire - 300) * 1000`; any call before it gets the same token without a request and leaves the cache alone, any call at or after it makes a request |
| `Feishu.CachedTokenKeepsMargin` | feishu.ts:75-77 | a refreshed token is never served at or after 300 seconds before the end of the lifetime the provider gave, counted from the reply's arrival |
| `Feishu.FailedRefreshKeepsCache` | feishu.ts:70-73 | a non-zero `code` gives an error, makes a request, leaves the cache unchanged, and so the next call asks again |
| `Feishu.ParseModelName` | feishu.ts:285-300 | the default id for an empty field; when the field starts with `sora-` and an id character (case-insensitively), the longest such prefix, which is an id and is followed by no id character; otherwise the field unchanged |
| `Feishu.SoraIdParsesToItself` | feishu.ts:294-297 | a whole `sora-[a-z0-9-]+` id parses to itself |
| `Feishu.DefaultModelIsSoraId` | feishu.ts:287 | the default `sora-video-portrait-10s` is such an id |
| `Feishu.ParseModelNameIdempotent` | feishu.ts:285-300 | parsing a parsed model name changes nothing |
| `Feishu.ParseTaskRecord` | feishu.ts:303-432 | the reference parse: each task field is its column's reader (below) applied to the cell, the model id is `ParseModelName` of the display name, `isGenerated` is the truthiness of its cell, the time cell is kept when truthy, and the error is its cell when truthy, else "" |
| `Cells.JsString` | feishu.ts:400 | `String(cell)`: a flag prints `true`/`false`, an integer its decimal digits, a string itself, an array its items' strings joined with ",", an object `[object Object]` |
| `Cells.FragmentText` | feishu.ts:328 | one fragment: a string item is itself, an object its `.text` or "", any other item "" |
| `Cells.JoinFragments` | feishu.ts:327-329 | the fragment texts of an array concatenated in order |
| `Cells.PromptText` | feishu.ts:322-334 | the prompt: "" for a falsy cell, a string as is, an array as its joined fragments, an object with truthy `.text` as that text, anything else "" |
| `Cells.CharacterText` | feishu.ts:337-346 | the character: undefined for a falsy cell, a string as is, an array as its joined fragments, anything else undefined |
| `Cells.LinkText` | feishu.ts:349-374 | a URL cell: undefined when falsy, a string as is, otherwise its truthy `.link`, else undefined |
| `Cells.ImageRef` | feishu.ts:377-395 | the reference image: a string as is; of a non-empty array only the first item, a string or its `.url` then `.file_token`; of an object its `.url` then `.file_token`; undefined otherwise |
| `Cells.ScalarText` | feishu.ts:397-414 | a model, type or status cell: the default when falsy, a string as is, otherwise its truthy `.text`, else `String(cell)` |
| `Feishu.ParseDefaults` | feishu.ts:398-431 | a record whose cells are all absent or falsy parses to the fixed defaults: empty prompt, default model and type, status `待生成`, not generated, error "" |
| `Feishu.FieldDefaults` | feishu.ts:321-431 | each column on its own: an absent or falsy prompt reads as "", type as `视频生成`, status as `待生成`, generated flag as false, error as "", and character, reference image, time and URLs as undefined, whatever the other columns hold |
| `Feishu.ModelDefault` | feishu.ts:397-402 | an absent or falsy model cell gives `sora-video-portrait-10s` both as display name and as model id, whatever the other columns hold |
| `Feishu.FragmentsConcatenate` | feishu.ts:326-330 | a prompt given as an array is the concatenation, in order, of each item's part: a string item itself, an object item (plain or link fragment) its `.text` or "", any other item "" |
| `Feishu.ScalarOfTextCell` | feishu.ts:398-414 | a select or text cell read as a string, a one-fragment array or a `.text` object gives back its text |
| `Feishu.JoinOneFragment` | feishu.ts:328-330 | the join of a one-string array is that string |
| `Feishu.ParseRawRecord` | feishu.ts:303-432 | a task with non-blank values written into a record, with all cells as plain strings, as arrays or as objects, parses back to the same task |
| `Feishu.RawField` | feishu.ts:319 | the raw record holds exactly the cells the task's present fields give |
| `Feishu.RawTextCells` | feishu.ts:322-346 | for a canonical task written in any cell shape, the prompt, character, model, type and status readers return the task's values |
| `Feishu.PromptCellReadsBack` | feishu.ts:322-334 | a prompt written as a string, a one-fragment array or a `{text}` object reads back as that text |
| `Feishu.CharacterCellReadsBack` | feishu.ts:337-346 | a character written as a string or a fragment array reads back as itself, an absent one as undefined |
| `Feishu.RawLinkCells` | feishu.ts:348-395 | for a canonical task, the three URL readers and the reference-image reader return the task's values |
| `Feishu.LinkCellReadsBack` | feishu.ts:351-357 | a URL cell written as a string or as a `.link` object reads back as that URL, an absent one as undefined |
| `Feishu.ImageCellReadsBack` | feishu.ts:377-395 | an image cell written as a string, a one-string array or a `.url` object reads back as that reference |
| `Feishu.RawRestCells` | feishu.ts:425-430 | for a canonical task, the generated flag, the completion time and the error read back as the task's values |
| `Feishu.ParseFromCells` | feishu.ts:318-431 | a record whose readers return the fields of a task parses to exactly that task |
| `Cells.ImageRefReadsFirstItemAndUrl` | feishu.ts:381-393 | of an attachment array only the first item counts; a non-empty `.url` wins over `.file_token`, for an object and for a first array item |
| `Feishu.BuildStatusFields` | feishu.ts:219-258 | the status is always written and `是否已生成 == (status == "成功")`; URL cells and the completion time only on success, the video slot preferring the Drive URL, each as a link/text pair; the error only on `失败` with a non-empty message |
| `Feishu.StatusFields` | feishu.ts:219-258 | the reference dictionary: status and flag always, the video slot (Drive URL first), watermark-free and image links and the time only on `成功`, the error only on `失败` with a message |
| `Feishu.ApplyUpdate` | feishu.ts:262-273 | the store's partial update with the sent dictionary: each written column takes its new cell, every other column keeps its old one |
| `Feishu.StatusFieldsWellFormed` | feishu.ts:219-258 | every dictionary built this way has the flag agree with the status, no URL or time unless successful, and an error only on failure |
| `Feishu.FieldAfterUpdate` | feishu.ts:270-272 | after the partial update a written column holds the new cell and every other column its old one |
| `Feishu.UpdateThenParseStatus` | feishu.ts:219-222 | reading a record back after such an update, `isGenerated` holds exactly when the status read is `成功`, and the status read is the one written |
| `Feishu.UpdateThenParseUrls` | feishu.ts:224-251 | the video, watermark-free and image URLs read back after an update are the links written |
| `Feishu.UpdateThenParseError` | feishu.ts:256-258 | the error message read back after a failed-status update is the one written |
| `Feishu.LinkReadsBack` | feishu.ts:227-250 | a written `{link, text}` pair reads back as its link |
| `Feishu.UpdateKeepsUnwritten` | feishu.ts:219-258 | prompt, character, model, type and reference image read as before the update, and so do the URL cells an update leaves out |
| `Feishu.FeishuService.UpdateTaskStatus` | feishu.ts:208-282 | the token step is `AcquireToken` at the check time and the reply's arrival time; a token failure throws its message and sends nothing; otherwise exactly the dictionary `StatusFields` is sent, and a non-zero reply code throws `更新任务状态失败: <msg>`; the cache ends as the token call leaves it |
| `Framing.IndexOf` | server.ts:9 | the leftmost occurrence of the separator at or after the start, or the end when there is none |
| `Framing.Split` | server.ts:9 | `split` always returns at least one piece |
| `Framing.SplitJoin` | server.ts:9-10 | the complete pieces, each followed by the separator, plus the kept piece give back the whole text |
| `Framing.SplitPieces` | server.ts:9-10 | no complete piece contains a separator that starts inside it, and the kept piece contains none |
| `Framing.SplitOfCut` | server.ts:9 | any such decomposition of a text is the one `split` returns |
| `Framing.CutIsSplit` | server.ts:9-10 | a decomposition determines the complete pieces and the kept piece |
| `Framing.CutStep` | server.ts:8-10 | appending a chunk to the kept piece and splitting again extends the decomposition of all the text received |
| `Framing.SplitIsCut` | server.ts:9-10 | every text is decomposed by its own split |
| `Framing.PartialTailNotReleased` | server.ts:10 | more text that completes no separator changes none of the complete pieces and only grows the kept piece |
| `Framing.PendingFollowsLastSeparator` | server.ts:10 | the kept piece is the text after the last separator received: a separator-free suffix that is the whole text or follows a separator |
| `Framing.TerminatedAppend` | server.ts:11 | terminating two lists of pieces one after the other is terminating their concatenation |
| `Framing.TerminatedEndsWithSep` | server.ts:11 | a non-empty list of terminated pieces ends in the separator |
| `Framing.AllCleanAppend` | server.ts:9-10 | concatenating two lists of clean pieces gives a list of clean pieces |
| `UrlScan.RunEnd` | server.ts:23-25 | the end of the longest run of `[^\s<>"']` characters from a position |
| `UrlScan.Pattern1From` | server.ts:23 | the global scan of `/https?:\/\/[^\s<>"']+/`: at each position an `http://` or `https://` followed by a URL character starts a match that runs to the end of the URL characters, and the scan resumes there |
| `UrlScan.Pattern2From` | server.ts:24 | the scan of the extension pattern: a match is a maximal run of URL characters holding `.mp4`, `.webm`, `.mov` or `.avi` (any case) |
| `UrlScan.Pattern3From` | server.ts:25 | the scan of the keyword pattern: a maximal run holding `video`, `media` or `cdn` (any case) followed later by such an extension |
| `UrlScan.Matches` | server.ts:29 | `content.match(pattern)` for the k-th pattern, the empty list standing for `null` |
| `UrlScan.ExtBeforeQueryOrEnd` | server.ts:38 | `/\.(mp4|webm|mov|avi)(\?|$)/i`: an extension, any case, followed by `?` or the end |
| `UrlScan.LooksLikeVideo` | server.ts:38-41 | the acceptance test: such an extension, or the text `video`, `media` or `cdn` anywhere (case-sensitive) |
| `UrlScan.FirstAccepted` | server.ts:31-46 | the reference for the match loop: the fix-up of the first match that looks like a video URL, or nothing |
| `UrlScan.ScanFrom` | server.ts:28-49 | the reference for the pattern loop from pattern k: a pattern without matches is passed over; after one with matches an accepted candidate is taken, and the loop stops when `videoUrl` is set, even by an earlier line |
| `UrlScan.ScanPatterns` | server.ts:28-49 | the pattern loop over one content from the first pattern |
| `UrlScan.WithScheme` | server.ts:33-36 | the fixed-up candidate always starts with "http"; one that already did is unchanged, any other gets "https://" in front |
| `UrlScan.Pattern1HasScheme` | server.ts:23 | every match of the first pattern starts with "http://" or "https://", so the fix-up leaves it alone |
| `UrlScan.MatchesAreUrlRuns` | server.ts:23-25 | every match of each of the three patterns is a non-empty run of URL characters |
| `UrlScan.Pattern1Runs` | server.ts:23 | the matches of the first pattern are non-empty runs of URL characters |
| `UrlScan.SchemeIsUrlText` | server.ts:23 | the scheme a match starts with consists of URL characters |
| `UrlScan.Pattern2Runs` | server.ts:24 | the matches of the second pattern are non-empty runs of URL characters |
| `UrlScan.Pattern3Runs` | server.ts:25 | the matches of the third pattern are non-empty runs of URL characters |
| `UrlScan.KeywordThenExtHasExt` | server.ts:24-25 | a run with a keyword followed by an extension has an extension |
| `UrlScan.ExtLater` | server.ts:24 | an extension found from a later position is found from an earlier one |
| `UrlScan.Pattern3WithinPattern2` | server.ts:24-25 | wherever the third pattern matches, the second matches the same run |
| `UrlScan.FirstAcceptedIsFirst` | server.ts:31-46 | the match loop returns the fix-up of the first match that looks like a video URL, and returns nothing exactly when no match does |
| `UrlScan.ScanFromResult` | server.ts:28-49 | the pattern loop leaves `videoUrl` as it was or sets it to an accepted candidate of this content, which starts with "http" and looks like a video URL |
| `UrlScan.FreshScanTakesPatternsInOrder` | server.ts:28-49 | with no earlier URL, the scan takes the first accepted match of pattern 1, else of pattern 2, else of pattern 3 |
| `UrlScan.FirstPatternOverwrites` | server.ts:42 | an accepted match of pattern 1 replaces whatever `videoUrl` held |
| `UrlScan.EarlierUrlStopsScan` | server.ts:47 | when `videoUrl` is already set from an earlier line and pattern 1 matches without an accepted candidate, the old value stays and patterns 2 and 3 are not tried |
| `Extractor.LineContent` | server.ts:12-20 | only a `data: ` line whose payload is not `[DONE]` and parses to a non-empty string content hands text to the scan, and that text is the content |
| `Extractor.ProcessLine` | server.ts:12-54 | one complete line's effect on `videoUrl`: the pattern scan of its content, or no change |
| `Extractor.ScanLines` | server.ts:11-55 | `videoUrl` after the given complete lines in order, starting from `null` |
| `Extractor.ScanContent` | server.ts:28-49 | the pattern loop with its break computes `ScanPatterns` of the content and the prior `videoUrl` |
| `Extractor.ScanMatches` | server.ts:31-46 | the loop over one pattern's matches sets `videoUrl` to the first accepted match with its scheme fixed up, and leaves it alone when none is accepted |
| `Extractor.HandleLine` | server.ts:12-54 | one line's effect on `videoUrl` is `ProcessLine`: a scan of its content or no change |
| `Extractor.HandleLines` | server.ts:11-55 | the line loop of one chunk continues the fold over all lines seen |
| `Extractor.ScanLinesSnoc` | server.ts:11 | the fold over one more line applies that line to the fold so far |
| `Extractor.ConcatSnoc` | server.ts:8 | the text received after one more chunk is the old text plus the chunk |
| `Extractor.ExtractVideoUrl` | server.ts:1-56 | however the text is chunked, `videoUrl` is the scan of its complete lines in order and the buffer is the text after the last "\n" |
| `Extractor.ResultIsVideoUrl` | server.ts:33-42 | every value `videoUrl` takes starts with "http" and has a video extension before `?` or the end, or contains `video`, `media` or `cdn` |
| `Extractor.ResultComesFromALine` | server.ts:17-42 | `videoUrl` stays `null` unless some line's content has an accepted candidate, and its value is a candidate of one of the lines |
| `Extractor.IgnoredLineChangesNothing` | server.ts:12-20 | non-`data:` lines, `[DONE]`, unparsable payloads and missing or empty contents leave `videoUrl` unchanged |
| `Extractor.LaterLineOverwrites` | server.ts:42 | a later line whose pattern-1 match is accepted overwrites an earlier URL: there is no set-if-absent guard |
| `Extractor.PartialLineNotScanned` | server.ts:10 | a trailing partial line is never scanned: more text that completes no line changes nothing |
| `Extractor.ChunkBoundaryIrrelevant` | server.ts:5-10 | a chunk that arrives in two pieces gives the same text, the same `videoUrl` and the same buffer |
| `Base.ConcatAppend` | server.ts:8 | the text of two runs of chunks is the text of the first followed by that of the second |
| `Frontend.PendingTasks` | feishu-frontend.js:88 | the pending list holds exactly the loaded records that are not generated and have a prompt (order and multiplicity by `PendingTasksAppend` and `FilterOne`) |
| `Frontend.DoneTasks` | feishu-frontend.js:89 | the done list holds exactly the generated records (order and multiplicity by `DoneTasksAppend` and `FilterOne`) |
| `Frontend.WithPrompt` | feishu-frontend.js:309 | the batch list holds exactly the tasks with a prompt |
| `Frontend.PendingDoneDisjoint` | feishu-frontend.js:88-89 | no record is both pending and done |
| `Frontend.PendingDoneCount` | feishu-frontend.js:87-92 | pending, done and blank records together number the loaded records |
| `Frontend.BatchRunsAllPending` | feishu-frontend.js:309 | the batch filter keeps the pending list as it is, so a batch runs every pending task in order |
| `Frontend.WithPromptAppend` | feishu-frontend.js:309 | filtering two lists one after the other is filtering their concatenation |
| `Frontend.PendingTasksAppend` | feishu-frontend.js:88 | the pending filter of two lists one after the other is the concatenation of their pending lists, so order and repeats are kept |
| `Frontend.DoneTasksAppend` | feishu-frontend.js:89 | the same for the done filter, whose length is the done count reported |
| `Frontend.FilterOne` | feishu-frontend.js:88-89 | a single record is kept by each filter exactly when the filter's test holds of it |
| `Frontend.AfterLoad` | feishu-frontend.js:82-93 | the task list after a load: the pending records of `data.records` (none when missing), or the old list when the load throws |
| `Frontend.TaskRunner.LoadTasks` | feishu-frontend.js:82-93 | a successful load keeps the pending records and reports the counts of all, pending and done records; a failed load leaves the list alone |
| `Frontend.MostRecentResultDecides` | feishu-frontend.js:271-274 | `success` and `resultData` come from the most recent `result` frame, stay `false`/`null` without one, and `success` is that frame's flag |
| `Frontend.FrameOf` | feishu-frontend.js:260-262 | a piece that starts with `data: ` is the frame parsed from the text after it; any other piece is none |
| `Frontend.StepFrame` | feishu-frontend.js:260-282 | one frame's effect: a `result` frame sets `success` and `resultData`; every other frame, an `error` frame's caught throw and an unparsable frame leave them |
| `Frontend.FoldFrames` | feishu-frontend.js:238-284 | `success` and `resultData` after the given complete frames, from `false` and `null` |
| `Frontend.RunSucceeds` | feishu-frontend.js:225-297 | what a started `genTask` returns: false on a thrown request or a non-OK reply, otherwise the final `success` of its stream |
| `Frontend.RunNotice` | feishu-frontend.js:287-300 | the status a started run leaves: skipped or synced on success, otherwise `❌ 失败: ` with the thrown message, the error text or status text, or `生成未完成或失败` |
| `Frontend.NonResultFrameHarmless` | feishu-frontend.js:265-282 | a log, stream, error, other or unparsable frame leaves the decision state unchanged, which is why an error frame's throw does not stop the loop |
| `Frontend.FoldFramesSnoc` | feishu-frontend.js:259 | the fold over one more frame applies that frame to the fold so far |
| `Frontend.HandleFrames` | feishu-frontend.js:259-284 | the frame loop of one chunk continues the fold over all frames seen |
| `Frontend.ReadFrames` | feishu-frontend.js:248-285 | however the stream is chunked, the state is the fold over its complete `"\n\n"` frames and the buffer is the text after the last separator |
| `Frontend.RunSucceedsIffLastResultSucceeded` | feishu-frontend.js:229-233 | a started run succeeds exactly when the reply was OK and the last result frame had a truthy `success` |
| `Frontend.SkippedStillSucceeds` | feishu-frontend.js:287-294 | a result marked `skipped` still counts as success, reported as skipped |
| `Frontend.TaskRunner.Begin` | feishu-frontend.js:195-201 | a call while the lock is held is refused; otherwise the call takes the lock; either way the lock is held afterwards |
| `Frontend.TaskRunner.Finish` | feishu-frontend.js:220-305 | the lock is free on every path out of the `try`; the result is `RunSucceeds`, and the notice is skipped, synced or the failure message |
| `Frontend.TaskRunner.GenTask` | feishu-frontend.js:192-306 | while another run holds the lock the call returns false and changes nothing; otherwise it returns whether the run succeeded and leaves the lock free |
| `Frontend.InterleavedSnoc` | feishu-frontend.js:317-323 | one more task extends the trace by a pause, unless it is the first, and its run |
| `Frontend.InterleavedShape` | feishu-frontend.js:317-323 | the trace runs every task in list order, with a pause between each two and none after the last |
| `Frontend.Interleaved` | feishu-frontend.js:316-323 | the reference trace of the batch: each task's run, with a pause between each two |
| `Frontend.Ids` | feishu-frontend.js:319 | the record ids of the tasks, in order |
| `Frontend.Successes` | feishu-frontend.js:320 | the number of successful runs among the first `n` is at most `n` |
| `Frontend.TaskRunner.RunAll` | feishu-frontend.js:316-323 | `ok + fail` is the number of tasks; `ok` counts the successful runs (none while another run holds the lock); the trace is `Interleaved` of the ids, so a failure stops nothing |
| `Frontend.TaskRunner.BatchGenerate` | feishu-frontend.js:308-328 | with no runnable task or no confirmation nothing happens; otherwise every task with a prompt is run as `RunAll` states and a reload is started; the task list is unchanged when the batch returns, since the reload is not awaited |
| `Frontend.TaskRunner.constructor` | feishu-frontend.js:3-4 | the page starts unlocked with no tasks |

## Left out

- The requests themselves (HTTP, `fetch`, the stream reader, `TextDecoder`): replaced by the replies and decoded chunks they would produce.
- `JSON.parse` and the JSON objects: a function `parse` handed in gives the payload or frame (`Extractor.Payload`, `Frontend.Frame`). A payload whose `JSON.parse` throws, or whose `.type` is read from `null`, is `Malformed`/`Unparsable`.
- The page: every DOM update, `console` and `log` call, and the typewriter text of stream frames.
- `getConfigStatus`, `getAllRecords`, `getPendingTasks`, `getTask` and `getSoraImageUrl` in feishu.ts: plain request wrappers that build a URL and check `data.code`.
- Timing: the two-second pause of the batch is a `Pause` step in the trace, not a delay.
- Concurrency: `isProcessing` relies on the single-threaded event loop. `Begin` and `Finish` split `genTask` at its first `await`, so a call that arrives while a run is awaiting is `Begin` on a held lock.
- Feishu.ParseTaskRecord: `createdTime` keeps the raw cell instead of `new Date(...).toLocaleString("zh-CN")`, because date formatting is locale data. `isGenerated` is the truthiness of the cell rather than the cell itself.
- Feishu.AcquireToken: the two `Date.now()` reads (feishu.ts:47 before the request, feishu.ts:77 after the reply) are two independent inputs; nothing relates them, so a clock that runs backwards is allowed too.
- Frontend.TaskRunner.BatchGenerate: the un-awaited `loadFeishuTasks()` at feishu-frontend.js:327 is only reported as started; it lands later as a separate `LoadTasks`, and how it interleaves with other page events is not modelled.
- Frontend.TaskRunner.Finish: the page code between taking the lock and the `try` (feishu-frontend.js:202-218) is left out with the DOM; a throw there would leave `isProcessing` set, which the model does not capture.
- Cells: array items are never `null`; the source would throw on `item.text` for them.
- Feishu.ParseRawRecord: only stated for tasks whose values are non-blank and whose model is the parse of its display name, since blank values read back as defaults.
- Cells.JsString: numbers are integers, printed as plain decimal digits. That is `String(n)` only for magnitudes below 10^21 that a double holds exactly (up to 2^53); JavaScript prints larger numbers in exponent form or rounded, and non-integers with a fraction, neither of which is modelled.
- UrlScan: `\s` is ECMAScript's white-space set. Case folding under `/i` is ASCII only, which is what a non-Unicode regex does for these ASCII patterns.
