# Modern Concurrency sample apps: a verified model of their core logic

This project models in Dafny the logic inside five Swift files of the *Modern Concurrency in Swift*
sample apps, and proves properties of it. The networking, UI and platform code around that logic
is not modelled.

- **SuperStorage** (`SuperStorageModel`), in module `SuperStorage`:
  - the list of running downloads, with append, update-first-by-name and reset;
  - the `partInfo` arithmetic that splits a file into ranged parts;
  - the nested byte loop of `downloadWithProgress`, with its stop flag and its exit rule;
  - the order in `download` of progress update, then status check.
- **Sky** (`ScanModel`, with `ScanTask.run` abstracted), in module `Scan`:
  - the scheduled, completed and counted counters;
  - the worker;
  - the runner that scans inputs `0..<total` one after another.
- **One-shot continuation slots**, in module `OneShot`. Each of `TimeoutTask` (module `Timeout`) and
  `ChatLocationDelegate` (module `ChatLocation`) keeps an optional continuation. An event resumes
  that continuation only if it is still stored, and then clears it.
  - Each class keeps the continuation, a count of installed continuations and a log of resumptions.
  - Each event is a method proved equal to a step function on that state.
  - The key property: under any sequence of events, every continuation is resumed at most once.
- **Blabber** (`BlabberModel`), in module `Blabber`:
  - the countdown timer, a tick state machine that yields "3...", "2...", "1..." and then ">>> message";
  - the guards and message construction of `say`;
  - the fold that turns the lines of the live chat stream into the message list;
  - the cancellation handler of `chat`.
- Module `Text` models Swift's `"\(n)"` rendering of an `Int`. It proves that parsing the rendering
  back gives the number, so the rendering is injective.

Inputs the model cannot see become parameters:
- **HTTP status codes.** An `Option<int>` status stands for a response; None means the request threw.
- **Byte and line streams.** A stream is a sequence plus how it ends.
- **JSON decoding.** Decoding is a partial function `string -> Option<...>`.
- **The `ByteAccumulator`.** Its three queries are function parameters.
- **The unreliable scan API.** It is a set of failing inputs.
- **Fresh UUIDs.** Each is a caller-supplied `nat`.
- **The stop flag `stopDownloads`.** No code in the modelled files sets it to true; `reset()` only clears it. The model lets the loop read any sequence of values, which covers whatever code may set it.

## Model

| member | source | states |
|---|---|---|
| Text.IntToString | mcon-materials-editions-1.0/07-concurrent-code-with-taskgroup/projects/starter/Sky/Tasks/ScanTask.swift:57 | `"\(i)"` is non-empty; it is all digits exactly when `i >= 0` |
| Text.ParseIntToString | mcon-materials-editions-1.0/07-concurrent-code-with-taskgroup/projects/starter/Sky/Tasks/ScanTask.swift:57 | parsing the decimal text of any `Int` gives that `Int` back |
| Text.IntToStringInjective | mcon-materials-editions-1.0/02-beginner-async-await/projects/starter/SuperStorage/Model/SuperStorageModel.swift:166 | two `Int`s render to the same text if and only if they are equal |
| SuperStorage.FirstNamed | mcon-materials-editions-1.0/02-beginner-async-await/projects/starter/SuperStorage/Model/SuperStorageModel.swift:193 | `firstIndex(where:)` by name: the index found holds the name, and no earlier record has it; None exactly when no record has it |
| SuperStorage.UpdateFirst | mcon-materials-editions-1.0/02-beginner-async-await/projects/starter/SuperStorage/Model/SuperStorageModel.swift:192-198 | only the progress of the first record with the name changes; length, ids, names and every other record, including later ones with the same name, are unchanged; no match leaves the list unchanged |
| SuperStorage.ApplyUpdates | mcon-materials-editions-1.0/02-beginner-async-await/projects/starter/SuperStorage/Model/SuperStorageModel.swift:145-149 | a series of progress updates keeps length, ids and names, and leaves records of other names unchanged |
| SuperStorage.UpdateUniqueLast | mcon-materials-editions-1.0/02-beginner-async-await/projects/starter/SuperStorage/Model/SuperStorageModel.swift:192-198 | an update for a name that only the last record has changes exactly that record's progress |
| SuperStorage.NewRecordReceivesUpdates | mcon-materials-editions-1.0/02-beginner-async-await/projects/starter/SuperStorage/Model/SuperStorageModel.swift:186-198 | a record appended under a name no earlier record has ends at the last progress reported for it |
| SuperStorage.EarlierRecordShadowsNew | mcon-materials-editions-1.0/02-beginner-async-await/projects/starter/SuperStorage/Model/SuperStorageModel.swift:193 | when an earlier record has the same name, the appended record stays at 0.0 whatever updates follow |
| SuperStorage.CeilDiv | mcon-materials-editions-1.0/02-beginner-async-await/projects/starter/SuperStorage/Model/SuperStorageModel.swift:163 | the division rounded up: `(q - 1) * b < a <= q * b` |
| SuperStorage.PartInfoOf | mcon-materials-editions-1.0/02-beginner-async-await/projects/starter/SuperStorage/Model/SuperStorageModel.swift:162-167 | part `index` starts at `index * ceil(size / count)`, is at most the standard part size, and ends no later than the file |
| SuperStorage.PartListFacts | mcon-materials-editions-1.0/02-beginner-async-await/projects/starter/SuperStorage/Model/SuperStorageModel.swift:162-167 | for any list of the parts: no two overlap, every byte of the file lies in one, and their names differ |
| SuperStorage.Parts | mcon-materials-editions-1.0/02-beginner-async-await/projects/starter/SuperStorage/Model/SuperStorageModel.swift:169-170 | the four parts `partInfo(index: i, of: 4)` do not overlap, cover every byte of the file and have distinct names |
| SuperStorage.PartsDoNotOverlap | mcon-materials-editions-1.0/02-beginner-async-await/projects/starter/SuperStorage/Model/SuperStorageModel.swift:162-167 | each part ends at or before any later part starts |
| SuperStorage.PartsCoverFile | mcon-materials-editions-1.0/02-beginner-async-await/projects/starter/SuperStorage/Model/SuperStorageModel.swift:162-167 | every byte of the file lies in some part |
| SuperStorage.PartNamesDistinct | mcon-materials-editions-1.0/02-beginner-async-await/projects/starter/SuperStorage/Model/SuperStorageModel.swift:166 | the names "<file> (part k)" of different parts differ |
| SuperStorage.FiveByteFileLastPartNegative | mcon-materials-editions-1.0/02-beginner-async-await/projects/starter/SuperStorage/Model/SuperStorageModel.swift:163-165 | a 5-byte file in 4 parts gets sizes 2, 2, 1, -1; the last part starts at offset 6, past the end |
| SuperStorage.ClampedPartInfo | mcon-materials-editions-1.0/02-beginner-async-await/projects/starter/SuperStorage/Model/SuperStorageModel.swift:165 | the clamped part size lies between 0 and the standard part size |
| SuperStorage.ClampedSizePrefix | mcon-materials-editions-1.0/02-beginner-async-await/projects/starter/SuperStorage/Model/SuperStorageModel.swift:162-167 | the first k clamped parts cover `min(size, k * ceil(size / count))` bytes |
| SuperStorage.ClampedPartsSumToFileSize | mcon-materials-editions-1.0/02-beginner-async-await/projects/starter/SuperStorage/Model/SuperStorageModel.swift:162-167 | the clamped part sizes add up to the file size |
| SuperStorage.Batch | mcon-materials-editions-1.0/02-beginner-async-await/projects/starter/SuperStorage/Model/SuperStorageModel.swift:139-141 | the inner loop stops at the first byte count where the batch is full, or at the end of the stream; it throws exactly when a failing stream ends before the batch is full |
| SuperStorage.OuterLoop | mcon-materials-editions-1.0/02-beginner-async-await/projects/starter/SuperStorage/Model/SuperStorageModel.swift:136-151 | the loop receives a prefix of the stream and reports ascending byte counts; every round that ran read the stop flag clear; it exits on a set flag, a completed accumulator or a stream error |
| SuperStorage.NoBatchAfterStop | mcon-materials-editions-1.0/02-beginner-async-await/projects/starter/SuperStorage/Model/SuperStorageModel.swift:136 | once round r reads the stop flag set, at most r batches have run |
| SuperStorage.NoBatchStartsCompleted | mcon-materials-editions-1.0/02-beginner-async-await/projects/starter/SuperStorage/Model/SuperStorageModel.swift:136 | every round that runs a batch began at a byte count where `checkCompleted()` was false |
| SuperStorage.NoBatchAfterCompletion | mcon-materials-editions-1.0/02-beginner-async-await/projects/starter/SuperStorage/Model/SuperStorageModel.swift:136 | a round that begins with the accumulator complete runs no batch: it is the last round |
| SuperStorage.AfterLoop | mcon-materials-editions-1.0/02-beginner-async-await/projects/starter/SuperStorage/Model/SuperStorageModel.swift:153-157 | a cancellation error exactly when the stop flag is set and partial downloads are unsupported; otherwise the data |
| SuperStorage.Progresses | mcon-materials-editions-1.0/02-beginner-async-await/projects/starter/SuperStorage/Model/SuperStorageModel.swift:143-149 | one published progress per reported byte count, in order; with a monotone progress measure the published values never fall |
| SuperStorage.StreamedOutcome | mcon-materials-editions-1.0/02-beginner-async-await/projects/starter/SuperStorage/Model/SuperStorageModel.swift:136-157 | a stream error gives a transport error; a loop that exited gives the after-loop rule applied to the bytes received |
| SuperStorage.ReadBatch | mcon-materials-editions-1.0/02-beginner-async-await/projects/starter/SuperStorage/Model/SuperStorageModel.swift:139-141 | the inner `while` loop appends stream bytes and stops where `Batch` says |
| SuperStorage.ByteLoop | mcon-materials-editions-1.0/02-beginner-async-await/projects/starter/SuperStorage/Model/SuperStorageModel.swift:136-151 | the nested loops end exactly as `OuterLoop` says, holding a prefix of the stream |
| SuperStorage.SuperStorageModel.constructor | mcon-materials-editions-1.0/02-beginner-async-await/projects/starter/SuperStorage/Model/SuperStorageModel.swift:36-38 | no downloads, stop flag clear |
| SuperStorage.SuperStorageModel.AddDownload | mcon-materials-editions-1.0/02-beginner-async-await/projects/starter/SuperStorage/Model/SuperStorageModel.swift:186-189 | exactly one record, with the name and progress 0.0, is appended; earlier records are unchanged |
| SuperStorage.SuperStorageModel.UpdateDownload | mcon-materials-editions-1.0/02-beginner-async-await/projects/starter/SuperStorage/Model/SuperStorageModel.swift:192-198 | the list becomes `UpdateFirst` of the old list |
| SuperStorage.SuperStorageModel.Reset | mcon-materials-editions-1.0/02-beginner-async-await/projects/starter/SuperStorage/Model/SuperStorageModel.swift:178-181 | downloads empty and stop flag clear |
| SuperStorage.SuperStorageModel.Download | mcon-materials-editions-1.0/02-beginner-async-await/projects/starter/SuperStorage/Model/SuperStorageModel.swift:81-97 | a record is added; a response marks it 1.0 before the status check, so a non-200 response is an error with the record at 1.0 |
| SuperStorage.SuperStorageModel.ApplyProgress | mcon-materials-editions-1.0/02-beginner-async-await/projects/starter/SuperStorage/Model/SuperStorageModel.swift:145-149 | applying the published progresses one by one gives `ApplyUpdates` |
| SuperStorage.SuperStorageModel.DownloadWithProgress | mcon-materials-editions-1.0/02-beginner-async-await/projects/starter/SuperStorage/Model/SuperStorageModel.swift:105-158 | a ranged request needs 206 and a full one 200; otherwise the outcome and the progress list follow `OuterLoop` and the after-loop rule |
| Scan.RunScan | mcon-materials-editions-1.0/07-concurrent-code-with-taskgroup/projects/starter/Sky/Tasks/ScanTask.swift:47-58 | succeeds exactly for inputs the API does not fail; the result parses back to the input |
| Scan.FirstFailure | mcon-materials-editions-1.0/07-concurrent-code-with-taskgroup/projects/starter/Sky/ScanModel.swift:75-78 | the least failing input below total, or None when none fails |
| Scan.ScanResults | mcon-materials-editions-1.0/07-concurrent-code-with-taskgroup/projects/starter/Sky/ScanModel.swift:74-78 | scanning `0..<n` gives exactly n results |
| Scan.ScanResultsInOrder | mcon-materials-editions-1.0/07-concurrent-code-with-taskgroup/projects/starter/Sky/ScanModel.swift:74-78 | entry i is `"\(i)"`: the results come in ascending input order |
| Scan.ScanResultsDistinct | mcon-materials-editions-1.0/07-concurrent-code-with-taskgroup/projects/starter/Sky/Tasks/ScanTask.swift:57 | different inputs give different entries |
| Scan.ScanModel.constructor | mcon-materials-editions-1.0/07-concurrent-code-with-taskgroup/projects/starter/Sky/ScanModel.swift:57-59 | `total` is the given value and the counters start at 0 |
| Scan.ScanModel.OnTaskCompleted | mcon-materials-editions-1.0/07-concurrent-code-with-taskgroup/projects/starter/Sky/ScanModel.swift:86-93 | completed and counted go up by 1, scheduled down by 1 |
| Scan.ScanModel.OnScheduled | mcon-materials-editions-1.0/07-concurrent-code-with-taskgroup/projects/starter/Sky/ScanModel.swift:96-99 | scheduled goes up by 1 and no other counter changes |
| Scan.ScanModel.Worker | mcon-materials-editions-1.0/07-concurrent-code-with-taskgroup/projects/starter/Sky/ScanModel.swift:61-69 | returns the scan's result; on success scheduled is back to its old value and completed is 1 higher; scheduled reaches its old value + 1 |
| Scan.ScanModel.RunAllTasks | mcon-materials-editions-1.0/07-concurrent-code-with-taskgroup/projects/starter/Sky/ScanModel.swift:71-80 | the results of `0..<total` in order, or the first failure; during the run scheduled never exceeds its value at the start + 1, and reaches it when total > 0; `completed - counted` is constant |
| OneShot.Install | mcon-materials-editions-1.0/04-async-streams/projects/starter/BlabberTests/Utility/TimeoutTask.swift:14-15 | stores a fresh continuation and keeps the slot invariant |
| OneShot.Resume | mcon-materials-editions-1.0/04-async-streams/projects/starter/BlabberTests/Utility/TimeoutTask.swift:22-23 | resumes the stored continuation once, logs it and clears the slot; with nothing stored, a no-op |
| OneShot.NeverResumed | mcon-materials-editions-1.0/04-async-streams/projects/starter/BlabberTests/Utility/TimeoutTask.swift:22-29 | a continuation absent from the log was resumed 0 times |
| OneShot.ResumedAtMostOnceCount | mcon-materials-editions-1.0/04-async-streams/projects/starter/BlabberTests/Utility/TimeoutTask.swift:22-29 | under the slot invariant, each continuation is resumed at most once |
| OneShot.OnlyOneResumed | mcon-materials-editions-1.0/04-async-streams/projects/starter/Blabber/Utility/ChatLocationDelegate.swift:62-77 | a log naming only one continuation counts one resumption per entry |
| Timeout.ErrorDescription | mcon-materials-editions-1.0/04-async-streams/projects/starter/BlabberTests/Utility/TimeoutTask.swift:56-60 | only `TimeoutError` has a description, "The operation timed out." |
| Timeout.Step | mcon-materials-editions-1.0/04-async-streams/projects/starter/BlabberTests/Utility/TimeoutTask.swift:14-30 | reading `value` installs; the timer resumes with `TimeoutError`; success resumes with the value; a throwing operation changes nothing; each keeps the slot invariant |
| Timeout.Run | mcon-materials-editions-1.0/04-async-streams/projects/starter/BlabberTests/Utility/TimeoutTask.swift:14-30 | any sequence of events keeps the invariant and only appends to the log |
| Timeout.Initial | mcon-materials-editions-1.0/04-async-streams/projects/starter/BlabberTests/Utility/TimeoutTask.swift:38 | a new task has no continuation stored and no resumptions |
| Timeout.EachContinuationResumedAtMostOnce | mcon-materials-editions-1.0/04-async-streams/projects/starter/BlabberTests/Utility/TimeoutTask.swift:20-30 | under any interleaving of events, each installed continuation is resumed at most once |
| Timeout.ThrowingOperationResolvesNothing | mcon-materials-editions-1.0/04-async-streams/projects/starter/BlabberTests/Utility/TimeoutTask.swift:26-30 | reads and throwing operations alone never resume anything |
| Timeout.ThrowingOperationEndsInTimeout | mcon-materials-editions-1.0/04-async-streams/projects/starter/BlabberTests/Utility/TimeoutTask.swift:20-30 | when the operation throws, the reader gets the timer's `TimeoutError` |
| Timeout.ClearedSlotStaysCleared | mcon-materials-editions-1.0/04-async-streams/projects/starter/BlabberTests/Utility/TimeoutTask.swift:22-29 | with nothing stored and no new read of `value`, no event changes the slot |
| Timeout.FirstResolverDecides | mcon-materials-editions-1.0/04-async-streams/projects/starter/BlabberTests/Utility/TimeoutTask.swift:17-30 | from any stored continuation, the first of timer, successful operation and `cancle()` decides its result, whatever events other than a read follow |
| Timeout.FirstResolverWins | mcon-materials-editions-1.0/04-async-streams/projects/starter/BlabberTests/Utility/TimeoutTask.swift:17-30 | whichever of timer and operation comes first decides the result; the later one is a no-op |
| Timeout.TimeoutTask.constructor | mcon-materials-editions-1.0/04-async-streams/projects/starter/BlabberTests/Utility/TimeoutTask.swift:40-47 | starts in the initial slot state |
| Timeout.TimeoutTask.Value | mcon-materials-editions-1.0/04-async-streams/projects/starter/BlabberTests/Utility/TimeoutTask.swift:14-15 | the new state is `Step` of a read, and the fresh continuation's number is returned |
| Timeout.TimeoutTask.TimerFired | mcon-materials-editions-1.0/04-async-streams/projects/starter/BlabberTests/Utility/TimeoutTask.swift:20-24 | the new state is `Step` of the timer event |
| Timeout.TimeoutTask.OperationFinished | mcon-materials-editions-1.0/04-async-streams/projects/starter/BlabberTests/Utility/TimeoutTask.swift:26-30 | the new state is `Step` of the operation's result |
| Timeout.TimeoutTask.Cancle | mcon-materials-editions-1.0/04-async-streams/projects/starter/BlabberTests/Utility/TimeoutTask.swift:49-52 | the new state is `Step` of a cancel: resume with `CancellationError`, then clear |
| ChatLocation.LocationErrorMessage | mcon-materials-editions-1.0/04-async-streams/projects/starter/Blabber/Utility/ChatLocationDelegate.swift:62 | the refusal error reads "The app isn't authorized to use location data" |
| ChatLocation.Step | mcon-materials-editions-1.0/04-async-streams/projects/starter/Blabber/Utility/ChatLocationDelegate.swift:53-78 | the result by status: notDetermined and authorized change nothing, any other status resumes with not-authorized; an empty location list changes nothing, otherwise the first location resumes; a failure resumes with its error |
| ChatLocation.Run | mcon-materials-editions-1.0/04-async-streams/projects/starter/Blabber/Utility/ChatLocationDelegate.swift:53-78 | any sequence of callbacks keeps the invariant and only appends to the log |
| ChatLocation.Initial | mcon-materials-editions-1.0/04-async-streams/projects/starter/Blabber/Utility/ChatLocationDelegate.swift:43-44 | the slot starts holding the continuation given to `init` |
| ChatLocation.ResumedAtMostOnceOverall | mcon-materials-editions-1.0/04-async-streams/projects/starter/Blabber/Utility/ChatLocationDelegate.swift:53-78 | across any sequence of callbacks the continuation is resumed at most once |
| ChatLocation.QuietCallbacksKeepWaiting | mcon-materials-editions-1.0/04-async-streams/projects/starter/Blabber/Utility/ChatLocationDelegate.swift:55-69 | undetermined or granted authorization and empty location lists leave the continuation stored |
| ChatLocation.FirstResumptionIsFinal | mcon-materials-editions-1.0/04-async-streams/projects/starter/Blabber/Utility/ChatLocationDelegate.swift:62-77 | once resumed, later callbacks change nothing |
| ChatLocation.ChatLocationDelegate.constructor | mcon-materials-editions-1.0/04-async-streams/projects/starter/Blabber/Utility/ChatLocationDelegate.swift:43-49 | starts in the initial slot state |
| ChatLocation.ChatLocationDelegate.DidChangeAuthorization | mcon-materials-editions-1.0/04-async-streams/projects/starter/Blabber/Utility/ChatLocationDelegate.swift:53-65 | the new state is `Step` of the callback; it starts updates exactly for the authorized states |
| ChatLocation.ChatLocationDelegate.DidUpdateLocations | mcon-materials-editions-1.0/04-async-streams/projects/starter/Blabber/Utility/ChatLocationDelegate.swift:67-72 | the new state is `Step` of the callback |
| ChatLocation.ChatLocationDelegate.DidFailWithError | mcon-materials-editions-1.0/04-async-streams/projects/starter/Blabber/Utility/ChatLocationDelegate.swift:74-78 | the new state is `Step` of the callback |
| Blabber.Say | mcon-materials-editions-1.0/04-async-streams/projects/starter/Blabber/Model/BlabberModel.swift:147-163 | nothing is sent exactly for empty text; the user is nil exactly for a system message, otherwise the username; the post succeeds exactly on status 200 |
| Blabber.CountdownStream | mcon-materials-editions-1.0/04-async-streams/projects/starter/Blabber/Model/BlabberModel.swift:65-82 | four non-empty elements, the last ">>> message" |
| Blabber.CountdownTimer.constructor | mcon-materials-editions-1.0/04-async-streams/projects/starter/Blabber/Model/BlabberModel.swift:66-68 | countdown at 3, timer valid, nothing yielded |
| Blabber.CountdownTimer.Tick | mcon-materials-editions-1.0/04-async-streams/projects/starter/Blabber/Model/BlabberModel.swift:68-81 | a valid timer yields the next element of "3...", "2...", "1...", ">>> message" and is invalidated after the last; an invalidated timer yields nothing |
| Blabber.Countdown | mcon-materials-editions-1.0/04-async-streams/projects/starter/Blabber/Model/BlabberModel.swift:61-87 | an empty message returns at once; otherwise the posts are the countdown elements in order; it throws at the first failed post and never returns |
| Blabber.Decoded | mcon-materials-editions-1.0/04-async-streams/projects/starter/Blabber/Model/BlabberModel.swift:139-143 | no more messages than lines |
| Blabber.DecodedAppend | mcon-materials-editions-1.0/04-async-streams/projects/starter/Blabber/Model/BlabberModel.swift:139-143 | the messages of two stretches of lines are the two stretches' messages in order |
| Blabber.UndecodableLineSkipped | mcon-materials-editions-1.0/04-async-streams/projects/starter/Blabber/Model/BlabberModel.swift:140-142 | a line that fails to decode leaves the list exactly as without it |
| Blabber.AllLinesDecode | mcon-materials-editions-1.0/04-async-streams/projects/starter/Blabber/Model/BlabberModel.swift:139-143 | when every line decodes, message i is line i's message |
| Blabber.DecodedFromLines | mcon-materials-editions-1.0/04-async-streams/projects/starter/Blabber/Model/BlabberModel.swift:139-143 | every message comes from some line of the stream |
| Blabber.StatusMessage | mcon-materials-editions-1.0/04-async-streams/projects/starter/Blabber/Model/BlabberModel.swift:129 | a system message whose text is "<n>" followed by " active users", where "<n>" reads back as the server's count |
| Blabber.BlabberModel.constructor | mcon-materials-editions-1.0/04-async-streams/projects/starter/Blabber/Model/BlabberModel.swift:40-47 | empty username and no messages |
| Blabber.BlabberModel.ReadMessages | mcon-materials-editions-1.0/04-async-streams/projects/starter/Blabber/Model/BlabberModel.swift:117-144 | no first line is an error ("No response from server." or the stream's error); an undecodable first line is "Invalid response from server"; otherwise one status message, then the decoded lines in order; a failing stream ends in its error |
| Blabber.BlabberModel.AppendDecoded | mcon-materials-editions-1.0/04-async-streams/projects/starter/Blabber/Model/BlabberModel.swift:139-143 | the loop over later lines appends exactly their decoded messages |
| Blabber.BlabberModel.Chat | mcon-materials-editions-1.0/04-async-streams/projects/starter/Blabber/Model/BlabberModel.swift:91-113 | a failed request or a non-200 status is an error with the messages unchanged; on 200, the result and the messages are those of reading the stream, including its three error cases |
| Blabber.BlabberModel.CancelChat | mcon-materials-editions-1.0/04-async-streams/projects/starter/Blabber/Model/BlabberModel.swift:106-109 | the message list is emptied |

## Left out

- Networking, URL construction and JSON coding (`URLSession`, `URL(string:)`, `JSONDecoder`, `JSONEncoder`) are library calls. Responses are inputs, as an optional status plus bytes or lines, and decoding is an abstract partial function. The "Could not create the URL." and "Invalid username" guards are not modelled.
- `availableFiles`, `stats`, `shareLocation`, `observeAppStatus`, NotificationCenter and the notifications task started by `readMessages` are I/O or platform plumbing and are left out.
- `ByteAccumulator` is not part of this model. Its `checkCompleted`, `isBatchCompleted` and `progress` are function parameters; its data is the prefix of the stream read so far.
- The detached progress-update tasks, the `@MainActor` hops and the `@TaskLocal` binding are scheduling. `DownloadWithProgress` applies the published progresses after the loop, in the order issued, and `supportsPartialDownloads` is a parameter.
- SuperStorage.SuperStorageModel.DownloadWithProgress: no code in the modelled files ever sets `stopDownloads` to true. The model lets the loop test read an arbitrary sequence of values, plus one value after the loop, which over-approximates the shown code. If those values run out first, the outcome is `StillRunning`. This also bounds the loop that spins forever when the stream ends before the accumulator completes, which the model does not otherwise capture.
- The multi-part download body beyond `partInfo` is a stub in the source and is not modelled. The Double division in `partInfo` is exact ceiling division here, so precision loss above 2^53 bytes is not modelled.
- UUIDs are caller-supplied numbers. Dates, `countPerSecond`, `started`, the scan's one-second sleep and the location manager itself are left out as clocks and platform services. The location is an opaque type parameter, and `startUpdatingLocation` is the returned flag.
- Scan.ScanModel.RunAllTasks: requires `total >= 0`. `init(total:)` accepts any `Int`, but the range `0..<total` traps at run time for a negative `total`, so the model does not cover that crash.
- SuperStorage.FirstNamed: names are compared code point by code point. Swift's `String ==` compares by Unicode canonical equivalence, so two differently normalised spellings of one name match in the app but not in the model.
- Scan.ScanModel.Worker: `ScanTask.run` throws, but `worker` calls it without `try`. The model reads the call as `try`: a failing scan skips `onTaskCompleted`, and `runAllTasks` stops at the first failure. `UnreliableAPI` is not part of this model; a set of failing inputs stands for it.
- TimeoutTask's `seconds * 1_000_000_000` conversion, the stored operation and the real race between its two tasks are left out. Events are taken one at a time, in any order.
- Blabber.BlabberModel.ReadMessages: the lines after the first are read as the rest of the same stream. The byte buffering of two line iterators over one `AsyncBytes` is not modelled.
- Blabber.Countdown: the timer's one-second period is a count of ticks. Producer and consumer are interleaved one element per tick, which gives the same posts in the same order as an unbounded stream buffer.
- The EmojiArt image database, the UI and thread-logging demos and the test target are outside the modelled core.

## Findings

| source | as written | input that shows it | evidently intended | confidence | as-written member | corrected member |
|---|---|---|---|---|---|---|
| mcon-materials-editions-1.0/02-beginner-async-await/projects/starter/SuperStorage/Model/SuperStorageModel.swift:163-165 | `partSize = min(standardPartSize, file.size - partOffset)` with no lower bound | a 5-byte file in 4 parts: standard size 2, the last part at offset 6 with size -1 | part sizes of at least 0 that add up to the file size | not executed | SuperStorage.FiveByteFileLastPartNegative | SuperStorage.ClampedPartsSumToFileSize |
