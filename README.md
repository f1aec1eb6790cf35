# Distributed music processor: the job registry of `api.py`

This project models the server side of a music stem separator. A client
uploads a song, and the server keeps one registry item per distinct upload,
keyed by a reduced MD5 checksum. On request, the server cuts the song into
six-second windows and publishes one job per window to the workers. It
records each worker's result (one stem per instrument and window). Once
every job of the item is complete, it assembles the full-length stems and
a final mix of the requested instruments. A later request remixes the
stored stems onto silence instead of splitting again.

The model covers:

- the registry `app` as the class `Api.App`: its item list `musics`, the
  counters `jobID`, `JobID` and `repeat`, the files under `./uploads` and
  `./download` as a path-to-audio map, and the job queue as the sequence of
  published messages;
- the request handlers `submit`, `listAll`, `process` (split and remix),
  `progress`, `jobs`, `jobStat` and `reset`;
- the result listener's `receive_result` and `assemble_result`, as the class
  `Listener.ResultListener`.

Audio is a sequence of integers indexed by millisecond. `overlay` adds
samples over the base's length, `silent` is zeros, and `make_chunks` slices
the audio into fixed windows. The following are parameters of `App`: MD5
(the integer value of the hex digest), decoding an upload, and reading its
tags. Uncaught exceptions are `Crash` failures, and `HTTPException`s are
`HttpError`s with the source's status code and detail.

The code is followed where it behaves unexpectedly:

- `audio_chunks` is never filled, so `app.jobID` never advances. Every split
  numbers its jobs from the same value, and a second split before results
  exist appends jobs with the same ids again.
- `reset` assigns the differently spelt `app.JobID`. The model keeps that as
  the separate field `JobID` and leaves `jobID` alone.
- `receive_result` examines only the first registered item, because its loop
  ends with `break`. It divides by zero when that item has no jobs. Once
  every job of that item is complete, it assembles on every delivery.
- `assemble_result` reads `job["tracksPath"]` of every job and
  `existingTrack["track"]` of the instrument entry it finds. A job without
  stems, a missing file, or a stem name outside the enumeration crashes the
  run where it happens. Files already rewritten stay rewritten.
- A remix rewrites each instrument's link before moving on. A missing stem
  file therefore leaves the links rewritten up to that stem.
- `jobs()` answers with the job ids of the first item that has jobs, and only
  that item.

Modules:

| module | file |
|---|---|
| `Wrappers` | wrappers.dfy |
| `Text` | text.dfy |
| `Audio` | audio.dfy |
| `Instruments` | instruments.dfy |
| `Records` | records.dfy |
| `Tracker` | tracker.dfy |
| `Registry` | registry.dfy |
| `Queries` | queries.dfy |
| `Assembly` | assembly.dfy |
| `Processing` | process.dfy |
| `Api` | api.dfy |
| `Assemble` | assemble.dfy |
| `Listener` | listener.dfy |

What each module covers:

- `Wrappers`: `Option` and `Result`.
- `Text`: decimal rendering, splitting off the last part, `splitext`.
- `Audio`: `silent`, `overlay`, `make_chunks`.
- `Instruments`: the `Instruments` enumeration.
- `Records`: the registry's records, the checksum and the file paths and
  links.
- `Tracker`: the completed count, the percentage and marking jobs done.
- `Registry`: the registry's invariant.
- `Queries`: `progress`, `jobs` and `jobStat` as functions.
- `Assembly`: the stems, the final mix and the remix mix as functions of the
  files.
- `Processing`: what `process` does to an item.
- `Api`: the class `App`.
- `Assemble`: `assemble_result` as a run over the jobs, and what it computes.
- `Listener`: the class `ResultListener`.

## Model

| member | source | states |
|---|---|---|
| Text.NatToString | api.py:104 | The decimal text of a checksum is non-empty and all digits. |
| Text.NatToStringRoundTrip | api.py:104 | Reading the decimal text back gives the number. |
| Text.NatToStringInjective | api.py:104 | Different checksums give different file names. |
| Text.AfterLastShape | api.py:339 | `split(c)[-1]` is a suffix of the string without `c`, preceded by `c` when shorter than the string. |
| Text.AfterLastJoin | api.py:339 | The text after the last `c` of `a + c + b` is `b` when `b` has no `c`. |
| Text.AfterLastNone | api.py:175 | A string without `c` is its own last part. |
| Text.SplitExtension | api.py:198 | The extension of a file name (the text after its last dot, without the dot) contains neither a dot nor a slash. |
| Text.ExtensionsAgree | api.py:198 | For `stem.ext` with a stem not made of dots only, the message format and the extension of the final file agree. |
| Text.ExtensionOfDotlessName | api.py:175 | For a name without a dot, the message format is empty and the file extension is the whole name. |
| Audio.Silent | api.py:167 | `silent(duration)` has that length and only zero samples. |
| Audio.Overlay | api.py:172 | An overlay keeps the base's length. |
| Audio.OverlayOnSilence | api.py:167-172 | Overlaying a stem on silence of its length gives the stem. |
| Audio.OverlayNothing | api.py:172 | Overlaying empty audio leaves the base unchanged. |
| Audio.MakeChunks | api.py:77-79 | `make_chunks` gives ceil(length / size) windows. |
| Audio.ChunksPrefix | api.py:77-79 | The first k windows concatenate to the audio's first k * size milliseconds. |
| Audio.ChunksPrefixAt | api.py:77-79 | The same, with the end `k * size` of window `k - 1` passed in; proved window by window. |
| Audio.ChunkLength | api.py:77-79 | Every window is non-empty and at most `size` long; all but the last are exactly `size` long. |
| Audio.ChunksReassemble | api.py:77-79 | The windows concatenate back to the whole audio, each 0 < length <= size. |
| Instruments.FromValue | api.py:57-61 | `Instruments(v)` exists exactly for 1..4 and has value `v`. |
| Instruments.CatalogValues | api.py:57-61 | The enumeration has four members with values 1..4 in order, and every member is listed. |
| Instruments.ValueRoundTrip | api.py:57-61 | A member's value maps back to the member. |
| Instruments.IndexOfName | api.py:352-354 | The entry of `completedTracks` found for a name is the member's position, and it is absent exactly for names outside the enumeration. |
| Instruments.NamesDistinct | api.py:57-61 | Members have distinct names. |
| Instruments.RequestedNames | api.py:171 | The set of requested names holds exactly the names of the requested ids. |
| Records.IntChecksum | api.py:82-84 | The checksum lies in [0, 1000000) and is congruent to the digest modulo 1000000. |
| Records.CatalogTracks | api.py:117-119 | A new item lists the four instruments in enumeration order, with ids 1..4. |
| Records.FindMusic | api.py:108 | The first item with the id, or none when no item has it. |
| Records.LinkOfDownload | api.py:373-378 | A download link is the host address followed by `/download/` and the file name. |
| Records.LinkReadsBack | api.py:165 | A remix finds the file a link was built from, and re-linking leaves the link unchanged. |
| Records.RelinkIdempotent | api.py:170-173 | Rewriting a stem link twice gives the same link as rewriting it once. |
| Records.RemixPathsDistinct | api.py:176 | Remix paths with different `repeat` values differ. |
| Tracker.Completed | api.py:240 | The completed count never exceeds the number of jobs. |
| Tracker.CompletedAllIff | api.py:240-243 | The count equals the number of jobs exactly when every job has status 1. |
| Tracker.CompletedByStatus | api.py:240 | The count depends only on the statuses. |
| Tracker.CompletedGrows | api.py:240 | Raising statuses never lowers the count. |
| Tracker.PercentBounds | api.py:241 | The percentage lies in [0, 100] and is 100 exactly when every job is counted. |
| Tracker.MarkDone | api.py:425-433 | Every job with the delivered id gets status 1 and the delivered stem files, with its other fields unchanged. Every other job is unchanged, and the list keeps its length and order. |
| Tracker.DeliveryNeverLowersProgress | api.py:425-436 | A delivery never lowers the completed count or the percentage a client polls. |
| Tracker.DuplicateDeliveryKeepsCount | api.py:425-434 | A second delivery for the same job id leaves the count where the first left it. |
| Tracker.DeliveryIdempotent | api.py:425-433 | Delivering the same message twice leaves the jobs as one delivery does. |
| Registry.ValidAfterUpdate | api.py:162 | Replacing an item by a valid item with the same id keeps the registry valid. |
| Registry.ValidAfterAppend | api.py:123 | Appending a valid item under a new id keeps the registry valid. |
| Registry.FoundIsUnique | api.py:141 | In a valid registry, the lookup finds the one item with the id. |
| Queries.Progress | api.py:229-252 | NotFound exactly for an unknown item or one without jobs. Otherwise: while some job is pending, the percentage of completed jobs (`Percent` of the completed count and the job count), which is then below 100; at 100 with every job complete, the stored results, or the still-loading marker while none are stored. |
| Queries.FirstWithJobs | api.py:268-269 | The first item whose job list is non-empty; every earlier item has none. |
| Queries.JobsReply | api.py:265-276 | "Invalid input" exactly when no item has jobs; otherwise the ids of the first item with jobs. |
| Queries.FindJobIn | api.py:283-284 | The first job with the id; none exactly when no job has it. |
| Queries.FindJob | api.py:281-284 | The first item and job with the id, items in order; none exactly when no item holds it. |
| Queries.FindJobInAt | api.py:283-289 | A job carrying the id with no earlier job carrying it is the one found. |
| Queries.FindJobAt | api.py:281-289 | A job found in an item with no earlier item holding the id is the one found. |
| Queries.JobStatReply | api.py:279-293 | NotFound exactly when no job has the id. Otherwise a copy of the first such job with that id, without its status, with `tracksPath` dropped unless empty. |
| Assembly.LayerStep | api.py:364-367 | The first requested stem becomes the layers; later ones are overlaid without changing the length. |
| Assembly.NoFirstNoChunks | api.py:343-362 | An instrument with no stem in a job adds nothing to its stem. |
| Assembly.NoFirstNoStem | api.py:343-362 | An instrument with no stem in any job gets an empty stem. |
| Assembly.StemSpansWindows | api.py:343-362 | When each job's stems of an instrument are as long as its window, the full stem is as long as all windows together. |
| Assembly.LayersLength | api.py:347-367 | A job's layers are as long as its window when it requested a stem it received, and empty otherwise. |
| Assembly.MixSpansWindows | api.py:345-370 | When every job has a requested stem as long as its window, the final mix is as long as the upload's windows together. |
| Assembly.RemixMix | api.py:167-172 | The remix keeps the length of the silent base. |
| Assembly.RemixOfOneStem | api.py:167-172 | Remixing a single requested stem gives that stem. |
| Assembly.RemixSkipsUnrequested | api.py:171 | Stems that are not requested leave the remix base unchanged. |
| Processing.AsIds | api.py:149-153 | Validated instrument values are kept in order. |
| Processing.ProcessCoversUpload | api.py:187-212 | One job and one message per window, in window order. Job and message k both carry the item's id and job id `jobID + k`. Every window is non-empty and at most 6000 ms, and every job's `time` is at most 6. Every new job is pending, without stem files, and carries the requested ids. The published payloads concatenate back to the whole upload. |
| Processing.SplitOutcome | api.py:187-226 | A split succeeds exactly when the upload exists and decodes, and then returns the item. The old jobs stay as a prefix, followed by exactly the jobs `NewJobs` builds from the upload's six-second windows (`MakeChunks`), and the messages published are exactly `NewMessages` over the same windows. Files, `repeat` and results are unchanged. On failure nothing changes and nothing is published. |
| Processing.RelinkUpTo | api.py:169-173 | Rewriting the links keeps every instrument's name and position. |
| Processing.RelinkUpToIdempotent | api.py:169-173 | A second remix leaves the links as the first left them. |
| Processing.FirstMissing | api.py:169-172 | The first requested stem whose file is missing; every earlier one is readable. It is absent exactly when all requested stems are readable. |
| Processing.FirstMissingAt | api.py:169-172 | A missing stem after readable ones is the one a remix stops at. |
| Processing.RemixOutcome | api.py:164-185 | A remix keeps the item's id, name and jobs and publishes nothing. On success it returns the new results and raises `repeat` by one. On failure files and `repeat` are unchanged. |
| Processing.RemixResult | api.py:164-185 | A remix succeeds exactly when the previous final file and every requested stem exist. Then `final` links the new `combined_{repeat}_{id}` file, which is as long as the previous final mix and is the only file added, and every stem link is rewritten. The new file holds the requested stems overlaid on silence as long as the previous final mix, and every other file keeps its content. |
| Processing.RemixTwice | api.py:164-185 | Two successive remixes link different final files, leave the same stem links, and raise `repeat` by two. |
| Processing.RemixLinksDistinct | api.py:176-180 | Successive remixes of an item get different final links. |
| Processing.LinkInjective | api.py:180 | Different local paths that start with the same character give different links. |
| Processing.ProcessOutcome | api.py:162-226 | `process` records the start time. With results it keeps the jobs and publishes nothing; without results it changes no file and not `repeat`. |
| Processing.SplitKeepsValid | api.py:204-212 | A split adds only pending jobs of the item, so the item stays valid. |
| Processing.RemixKeepsValid | api.py:164-180 | A remix touches only the results, so the item stays valid. |
| Processing.ProcessKeepsValid | api.py:162-226 | `process` keeps a valid item valid in both branches. |
| Api.App.constructor | api.py:36-41 | The registry starts empty, with `jobID` and `repeat` at zero, `JobID` not set, and no published messages. |
| Api.App.Submit | api.py:87-130 | The upload is stored under its checksum. An item already registered under the checksum is returned and the registry is unchanged. An upload without tags is "Invalid input". Otherwise exactly one item is appended, with the checksum as id and all four instruments. The counters and the queue are unchanged. |
| Api.App.ListAll | api.py:133-135 | The registry's items, in order. |
| Api.App.Process | api.py:138-226 | Unknown item: NotFound. A value outside 1..4: "Track not found". Both leave everything unchanged. Otherwise the item, files, `repeat`, reply and appended messages are those of `ProcessOutcome`, `jobID` is unchanged, and the registry stays valid. The id still finds the same position, which now holds the updated item. |
| Api.App.Remix | api.py:164-185 | The item, files, `repeat` and reply become those of `RemixOutcome`, and nothing is published. |
| Api.App.MixStems | api.py:167-172 | The loop stops at `FirstMissing`. Otherwise it yields the overlay of every requested stem on the base, in instrument order. |
| Api.App.Split | api.py:187-226 | The item, queue and reply become those of `SplitOutcome`, and `jobID` is unchanged. |
| Api.App.Publish | api.py:189-222 | The loop appends exactly the jobs and messages of the windows, numbered from `jobID`. |
| Api.App.Jobs | api.py:265-276 | The loop answers `JobsReply`. |
| Api.App.Dispatch | api.py:159-226 | Starts the chosen item and adds its remix or split jobs. The item, files, reply and queue are those of `ProcessOutcome`. Both job counters are unchanged and the registry stays valid. |
| Api.App.JobStat | api.py:279-293 | The loop answers `JobStatReply`. |
| Api.App.Reset | api.py:296-315 | Every plain file directly inside the two directories is removed and every other file kept. The registry is emptied and `JobID` set to 0. `jobID`, `repeat` and the queue are unchanged. |
| Assemble.TrackStep | api.py:349-367 | A stopped run stays stopped, and `completedTracks` keeps one entry per instrument. |
| Assemble.EntriesRun | api.py:349-367 | A stopped run stays stopped through a job's stems. |
| Assemble.JobStep | api.py:347-370 | A stopped run stays stopped through a job. |
| Assemble.JobsRun | api.py:345-370 | A stopped run stays stopped through the remaining jobs. |
| Assemble.TrackStepTracks | api.py:349-367 | A stem file placed apart fails exactly when its file is missing or its name is not an instrument's. Otherwise the instrument's first stem file holds its stem so far, every untouched file is unchanged, and the layers are those of the stems read. |
| Assemble.EntriesRunTracks | api.py:349-367 | A job's stems fail exactly when one of them is unreadable; otherwise the tracking facts hold after the job. |
| Assemble.JobStepTracks | api.py:347-370 | A job fails exactly when it has no stem list or an unreadable stem; otherwise its layers are appended to the mix. |
| Assemble.JobsRunTracks | api.py:345-370 | The run fails exactly when some job is unreadable. Otherwise each instrument's first stem file holds its full stem, and the mix is the concatenation of every job's layers. |
| Assemble.AssembleCorrect | api.py:335-395 | Success exactly when every job's stems are recorded and readable. Then progress is 100 and `final` links the final file, which holds the concatenation over jobs of the overlaid requested stems. Each instrument, in enumeration order, links its first window stem's file, which holds its stems concatenated in job order, or `hostAddr` alone when it has none. Every other file is unchanged. |
| Listener.ExportedKeys | api.py:401-420 | Exporting the stems adds exactly their files. |
| Listener.ExportedKeepsOthers | api.py:401-420 | Exporting the stems leaves every other file unchanged. |
| Listener.ExportedLastWriter | api.py:401-420 | Each file written holds the audio of the last stem written to it. |
| Listener.DeliveredReadable | api.py:401-420 | Stems with instrument names that were just written are readable by the assembly. |
| Listener.MarkedValid | api.py:425-433 | Marking jobs done keeps an item valid. |
| Listener.ReceiveKeepsValid | api.py:397-438 | Every delivery keeps the registry valid, whether it records, assembles or crashes. |
| Listener.ReceiveAssemblesWhenComplete | api.py:423-438 | Only the first item changes. The delivery assembles exactly when all of that item's jobs are then complete. Otherwise it only records the stems. |
| Listener.LastDeliveryAssembles | api.py:397-438 | The delivery that completes an item whose stems are readable and placed apart stores the assembled results. The final file holds the mix and each instrument's first stem file holds its stem. |
| Listener.ResultListener.constructor | api.py:319-324 | The listener works on the registry it is given. |
| Listener.ResultListener.ReceiveResult | api.py:397-438 | The registry, files and reply become those of `ReceiveOutcome`, the registry stays valid, and the counters and queue are unchanged. |
| Listener.ResultListener.ExportStems | api.py:401-420 | The loop records each stem under its checksum path and writes it there, in message order. |
| Listener.ResultListener.MarkAndCount | api.py:425-434 | The loop marks the jobs with the id and counts the completed ones, as `MarkDone` and `Completed`. |
| Listener.ResultListener.AssembleResult | api.py:335-395 | The files and the reply are those of `AssembleOutcome`. The item's results are stored only when the run reaches its end. |
| Listener.ResultListener.RunJobs | api.py:345-370 | The loop over the jobs is `JobsRun` from the current files. |
| Listener.ResultListener.RunJob | api.py:347-370 | The loop over a job's stems is `JobStep`. |

## Left out

- worker.py (model inference, normalisation, its queue handling) and the browser interface are not part of this model.
- The pika connections and queue declarations are not modelled. `basic_publish` is an append to `queue`, and `start_consuming` is a call of `ReceiveResult` per message. Concurrency between the listener thread and the request handlers is not modelled.
- An exception in `receive_result` ends the consumer in the source; the model returns the failure and does not model what the listener does afterwards.
- `submit`'s temporary file is not modelled, and the upload appears in the store directly. Neither is the `download` route.
- `processingTime(s)`, `time.time()` and `round` (floats, the clock) are left out. `processStart` is recorded from a `now` parameter.
- The hostname replacement in JSON replies (`replace("0.0.0.0", hostname)`) is left out. Replies carry the stored results.
- MD5, tag reading and decoding are parameters of `App`. pydub's format conversion on `export` and `from_file` is taken as lossless, and `overlay` adds samples without clipping.
- Processing.RawSize: a window's byte size is its whole frames times the bytes per frame; pydub's own rounding of milliseconds to frames is not modelled.
- Queries.Progress: the in-progress percentage is `completed * 100 / total` on integers. The source divides in floating point and truncates, so 29 of 100 jobs gives 28 there and 29 here.
- Tracker.PercentBounds: the percentage is `completed * 100 / total` on integers. The source's floating-point division, truncated, can be one lower below 100 (29 of 100 gives 28). It is 100 exactly in the same cases.
- Assemble.AssembleCorrect: stated only for items whose stem files are non-empty paths, each different from every earlier one and from the final path (`Assembly.Placed`). Two windows with identical stem audio share a path in the source. The second is then appended to the first and removed, which deletes the accumulated stem. `AssembleOutcome` still models that case as the code does it.
- Listener.LastDeliveryAssembles: stated under the same `Placed` condition as `AssembleCorrect`.
- Assemble.TrackStep: a stem name outside the enumeration is a crash where it happens, as in the code (the `KeyError` on `{}`), rather than a precondition of `assemble_result`.
- A `jobs` key that is absent is the same as an empty job list; every reader of the key treats both alike or fails on both.
