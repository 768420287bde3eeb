# Verified model of the sm-rest transfer engine

sm-rest gives SourceMod plugins an asynchronous HTTP client. A worker thread drives libcurl and posts
events; the main thread dispatches them to plugin callbacks and sends back cancel requests and credits
for consumed stream bytes. This project models that engine in Dafny and proves what it promises, for
every interleaving of the two threads, every sequence of answers from libcurl, and every sequence of API
calls a callback may make.

`dafny verify dfyconfig.toml` checks everything.

## How the files fit together

| file | what it holds |
|---|---|
| `Text.dfy`, `Uri.dfy` | header lists; percent encoding, form bodies, query strings and a server's parser for them |
| `Events.dfy` | the values that cross between the threads |
| `MainThreadQueue.dfy` | the event queue as an object, and under interleaving at the level of single field writes |
| `JobSpec.dfy` | every `RestJob` operation as a function from fields and environment answers to fields and posted events |
| `RestJob.dfy` | the `RestJob` object, updated in place, each method proved equal to its `JobSpec` function |
| `Live.dfy` | one job together with libcurl's side of its transfer, and the invariant every step keeps |
| `Outcomes.dfy` | what each answer of the server, of libcurl and of the file system leads to, case by case, in the numbers of the source |
| `Retries.dfy`, `MemorySink.dfy`, `Download.dfy`, `Pacing.dfy` | what follows for retries, the in-memory body, the resumable download, and callback rates |
| `TransferThread.dfy` | the worker object: mailbox, active list, and one turn of its loop |
| `RetryTime.dfy` | over the worker's turns, when a retry begins |
| `MainThread.dfy`, `Callbacks.dfy` | the main thread's tables as functions; events, frames and arbitrary plugin callbacks |
| `RequestLife.dfy` | one request from its creation to its last callback |
| `RestExtension.dfy` | the extension object, updated in place, proved to follow those functions and to send exactly their messages to the worker |
| `System.dfy`, `SystemTheorems.dfy` | both threads, all jobs, any interleaving; what every run guarantees |
| `WorkerRefinement.dfy` | a list of active jobs that follows the two-thread machine move by move |
| `TurnRefinement.dfy`, `FrameRefinement.dfy` | a turn of the worker object, and a frame of the extension object with any callbacks, as sequences of the machine's moves |

In `RestJob` the fields that describe the current response, the output file and the stream are grouped in
three records; the rest are fields of the class. A `std::string` is a `string` with one char per byte.
`static_cast<size_t>` and `long` are 32 bits wide, as on the i386 target. The answers of libcurl, the file
system, the clock and the random generator are parameters. Forwards are numbers handed out in order, with
a multiset of the released ones.

## What the environment is assumed to do

- A write callback answered with PAUSE consumes nothing, and the same bytes come again. There are no
  writes while paused, and none after a refused write. A write is at most `maxWrite` bytes.
- Body bytes follow the header block of the final response. Once they come, the status stays.
- A transfer reports DONE at most once while attached. It reports success only when the whole body was
  accepted, with the status of the final response, and a refused write makes it report a write error.
- The jitter lies within the bounds of its distribution.
- `seconds * 1000` wraps when it overflows a 32-bit `long`. C++ leaves signed overflow undefined; this is what
  the i386 instructions do, and what `Retries.RetryAfterHonouredIff` is about.
- For downloads: the server holds one fixed resource without content coding and answers 206 with the
  requested suffix, 200 with all of it, or a status that is not 2xx (sections 14.2 and 15.3.7 of RFC 9110).
  No one else writes the part file.

The remaining guards of the two-thread machine are not assumptions: `SystemTheorems.NothingIsRefused`
proves that the invariant gives them. `Carries` and `Distance` measure progress; that a thread keeps
taking turns is up to the operating system.

## Where the code does less than it says

The model follows the code in each case. The fragment case is not documented; a caller would not expect it.

- The documentation lists 429, 502, 503 and 504 as retried (pawn/scripting/include/rest.inc:141). A request
  with a data callback is not retried when the error response has a body, because the counter that guards
  against replaying a stream also counts error-body bytes. `Retries.RetryableStatusIsRetriedIff` gives the
  exact condition, `Retries.StreamedErrorBodyIsNotRetried` a reachable case.
- Retry-After "is honoured" on the same line. Above 2147483 seconds the product overflows a 32-bit `long`:
  4294968 seconds become 704 milliseconds. `Retries.RetryAfterHonouredIff` says for which values the delay
  is right.
- README.md:11 of the repository promises one progress report when a direction completes. Every call that
  libcurl makes in a completed state is reported. `Pacing.CompletionReportedOnceIff` gives the condition.
- Setting a query on a URL that has a fragment puts it behind the fragment, where no server reads it.
  `Uri.AppendQueryAddsIff` gives the condition, `Uri.FragmentLosesQuery` an example.
- `ChunkSize` is documented as 1 KiB to 10 MiB (pawn/scripting/include/rest.inc:173). Only curl's buffer is
  clamped (src/job.cpp:312-314); coalescing uses the value as set (src/job.cpp:642), and so does the model.
  `Pacing.CoalescesAsDocumentedIff` gives the condition, `Pacing.NegativeChunkBuffersAll` what -1 does. The
  other theorems cover every value, except that `Pacing.DataEventsAreFew` divides by it and asks for one that
  is not zero.
- Resume is documented to continue an existing part file (pawn/scripting/include/rest.inc:118). One that is
  already whole, as a failed rename leaves it, is answered 416 and deleted, and the download ends as HttpError.
  `Download.ResumeSucceedsIff` gives the condition, `Download.WholePartIsLost` a run.
- The branch of `BeginAttempt` for a cancelled job (src/job.cpp:146-151) cannot be reached: a job whose
  cancellation was requested is finished (`Live.StepKeeps`, clause `Lifecycle`). It is modelled all the same.

## Model

| member | source | states |
|---|---|---|
| SystemTheorems.CreditConservation | src/job.cpp:630-678 | In every state of every run the pending counter of an unfinished streaming job with a live record is exactly its bytes queued, drained, in the plugin's hands, and in unapplied credits. |
| SystemTheorems.ResetOnlyResetsZero | src/job.cpp:124-139 | When a new attempt resets the stream, buffer, counter and pause flag are already clear. |
| SystemTheorems.ClampNeverBites | src/job.cpp:667-669 | A credit the worker applies is never more than the counter, so the clamp at zero never changes it. |
| SystemTheorems.StreamExactness | src/job.cpp:630-665 | For a live record, while the job runs and after it has finished, what was dispatched, drained, queued and buffered is, in this order, exactly what was accepted from libcurl, and a prefix of the body. |
| SystemTheorems.ExactlyOnceDelivery | src/extension.cpp:279-299 | Dispatched events are always a prefix of the posted ones; a job that lost its record without being dropped got all of them, ending in its only completion, and an Ok stream got the whole body. |
| SystemTheorems.EventGrammar | src/job.cpp:480-541 | In every state of every run a job's posted events carry its id and form a word of (Progress, Headers)\* (Progress, Data)\* Complete?, ending in Complete exactly when it is finished, with at most one Headers per status line and only the last Data shorter than a chunk. |
| SystemTheorems.DrainedJobIsServed | src/extension.cpp:279-299 | Once a job is finished and its events have left queue and batch, its record has been served. |
| SystemTheorems.PausedIsNotStuck | src/job.cpp:630-678 | A paused unfinished job is attached, and with a live record at least the low-water mark of its bytes is on the way back. |
| SystemTheorems.NothingOutstandingMeansRunning | src/job.cpp:667-678 | With nothing on the way, a job with a live record is not paused. |
| SystemTheorems.PausedBytesOnlyComeNearer | src/transfer_thread.cpp:75-96 | While a job stays paused behind a live record no move of either thread takes its bytes further from being credited, and each drain, dispatch, return, pick-up and credit brings them strictly nearer. |
| SystemTheorems.BackpressureBound | src/job.cpp:630-665 | In every state of every run the bytes of a job that are buffered, queued, drained, in the plugin's hands or in unapplied credits stay below high water plus one chunk plus one write, for running, finished and dropped jobs alike. |
| SystemTheorems.SilenceAfterDrop | src/extension.cpp:205-219 | Once a record was dropped no callback of the job is dispatched in any later state, whatever is queued or drained. |
| SystemTheorems.NoOrphanRunsOn | src/extension.cpp:205-219 | A job without a record is finished, or a cancel for it is pending. |
| SystemTheorems.NoCancellationIsLost | src/transfer_thread.cpp:98-143 | A cancel the worker takes in some turn leaves its job finished when that turn leaves the cancelling phase, even if the job was handed over in the same swap. |
| SystemTheorems.CancelPostsCancelled | src/job.cpp:948-964 | A cancel that reaches a running job posts exactly one more event, Complete with status Cancelled. |
| SystemTheorems.OnlyUnfinishedJobsStay | src/transfer_thread.cpp:75-96 | Whenever the worker is between two turns, every active job is unfinished, and attached or waiting but not both. |
| SystemTheorems.NothingIsRefused | src/transfer_thread.cpp:75-156 | In every reachable state each drained event can be dispatched, each callback can return, each record can be dropped, and each taken cancel and credit can be applied. |
| System.RunKeeps | src/transfer_thread.cpp:45-156 | The invariant of the two-thread machine (FIFO channel, credit accounts, records, pending cancels, per-job invariant) holds in every state of every run. |
| System.NextKeeps | src/extension.cpp:175-329 | Every move of either thread keeps that invariant. |
| System.CancelNextFinishes | src/transfer_thread.cpp:132-143 | Taking a cancel off the worker's list leaves that job finished. |
| WorkerRefinement.WorkerFollowsMachine | src/transfer_thread.cpp:75-96 | Starting empty and changing with every move of any run as ListAfter says, the list holds exactly the machine's active jobs, each once, with their current values. |
| TurnRefinement.TurnStartIsMoves | src/transfer_thread.cpp:75-87 | From any state in which the worker polls, the list, the events and the files that the Worker object computes for the first half of its turn are those of a sequence of moves of the machine: take, begin, cancel, credit, retry. |
| TurnRefinement.TurnEndIsMoves | src/transfer_thread.cpp:89-92 | So are those of the second half, for any DONE messages libcurl may send. |
| TurnRefinement.AdmitMoves | src/transfer_thread.cpp:110-117 | The admission loop is one Begin move for each new job. |
| TurnRefinement.RetryMoves | src/transfer_thread.cpp:182-193 | The retry loop is one Begin move for each due job. |
| TurnRefinement.ReapMoves | src/transfer_thread.cpp:158-180 | The completion loop is one Done move for each message. |
| FrameRefinement.FrameIsMoves | src/extension.cpp:21-34 | A frame with any scripts is a sequence of moves of the machine: drain, then for each event its start, its script's moves and its end; tables, cancels, credits and new jobs are those the Extension object computes. |
| FrameRefinement.EventMoves | src/extension.cpp:279-329 | So is one event with its callback. |
| FrameRefinement.ScriptMoves | src/extension.cpp:331-390 | So are the API calls of one callback. |
| WorkerRefinement.CancelNextMatches | src/transfer_thread.cpp:132-143 | One round of ApplyCancellations changes the list as the machine's step changes its active jobs. |
| WorkerRefinement.CancelNextPosts | src/transfer_thread.cpp:132-143 | And it posts the same events. |
| WorkerRefinement.CreditNextMatches | src/transfer_thread.cpp:145-156 | One round of ApplyConsumed changes the list as the machine's step changes its active jobs. |
| WorkerRefinement.RemoveMatches | src/transfer_thread.cpp:214-222 | Removing finished jobs from the list is the end of the machine's turn. |
| Live.StepKeeps | src/job.cpp:141-189 | Every step of a job with its transfer keeps: one place at a time, byte exactness, the credit account, the memory bound, the event grammar, one Headers event per status line, bounded retries. |
| Live.BeginKeeps | src/job.cpp:141-189 | A new attempt keeps them: the old attempt left no stream byte behind. |
| Live.WriteKeeps | src/job.cpp:563-665 | A body write keeps them for all three sinks, whether it is taken, refused or paused. |
| Live.HeaderLineKeeps | src/job.cpp:480-541 | A header line keeps them; Headers is posted at most once per status line, before any Data. |
| Live.ConsumeKeeps | src/job.cpp:667-678 | A credit keeps them: the account stays exact, and a transfer that is still paused is attached with at least the low-water mark uncredited. When it resumes is `Outcomes.ResumedIff`. |
| Live.FinishKeeps | src/job.cpp:916-946 | The end of an attempt keeps them: a final flush and one Complete, or a scheduled retry. |
| Live.CancelKeeps | src/job.cpp:948-954 | Cancelling keeps them. |
| Live.DelayInRange | src/job.cpp:805-816 | For any headers and jitter the retry delay lies between zero and the Retry-After cap. |
| Live.PostKeeps | src/job.cpp:650-665 | Posting an allowed event keeps the word (Progress, Headers)\* (Progress, Data)\* Complete? and the chunk sizes. |
| Live.FinalPostsKeep | src/job.cpp:893-900 | Only the last Data event before Complete may be shorter than a chunk. |
| Outcomes.ResumedIff | src/job.cpp:667-678 | A credit leaves a paused transfer paused exactly when 1048576 or more bytes are still uncredited after it, changes no other part of the job, and leaves the counter at what is uncredited. |
| Outcomes.PausedIff | src/job.cpp:630-648 | A stream write is answered with a pause exactly when 4194304 or more bytes are uncredited; then nothing is taken, otherwise all of it. |
| Outcomes.PausedUntilCredited | src/job.cpp:630-678 | In any run a paused transfer stays paused until it ends or a credit takes what is uncredited below 1048576, and such a credit resumes it. |
| Outcomes.TransportOutcome | src/job.cpp:830-872 | For each way a transfer can break: a timeout or an unlisted failure is retried exactly when retries are left and no streamed byte could be repeated; otherwise the last event is the Complete with the status of that code. The files stay as they are. |
| Outcomes.ErrorResponseOutcome | src/job.cpp:874-891 | A response that is not 2xx is retried exactly for 429, 502, 503 and 504 under the same condition; otherwise it ends as HttpError with its headers and body, and the part file is deleted exactly for 400 to 499. |
| Outcomes.SuccessOutcome | src/job.cpp:893-914 | A 2xx ends Ok with what was buffered posted first, or with the part file moved to its place; a failed rename ends as IoError and touches nothing. |
| Outcomes.CancelOutcome | src/job.cpp:948-986 | A cancel posts Complete with status Cancelled and what there was, and nothing is held any more. |
| Outcomes.BeginOutcome | src/job.cpp:141-189 | An attempt is attached, or posts one empty Complete: IoError when a file could not be opened, NetworkError when libcurl failed. |
| Outcomes.SinkMeaning | src/job.cpp:543-561 | Bytes go to the file or the stream only for 200 to 299, to the file when there is one, and to memory otherwise. |
| Outcomes.ProgressMeaning | src/job.cpp:722-750 | When a progress call posts, and its four numbers: the download counted from the start of the file, with total 0 when unknown, the upload as it is. |
| Outcomes.PaddedLineIsRead | src/job.cpp:480-508 | A header line adds its name and its value, without the blanks around them, to the end of the list. |
| Outcomes.LineWithoutColonIsSkipped | src/job.cpp:499-504 | A line without a colon that is neither blank nor a status line changes nothing. |
| Outcomes.HeadIsRead | src/job.cpp:480-541 | Whatever came before, after a status line and any header lines the list is exactly what the server sent, in order; the blank line posts it once, exactly when headers are wanted, the status is at least 200, and no redirect is about to be followed. |
| Retries.RetriesTerminate | src/job.cpp:788-816 | A job makes at most max(0, maxRetries) + 1 attempts, and its waiting adds up to at most a minute per retry. |
| Retries.BackoffIsWithinAQuarter | src/job.cpp:805-816 | Without Retry-After the delay of every attempt lies within a quarter of its base. |
| Retries.StreamNeverRestarts | src/job.cpp:788-798 | A request with a data callback is never sent again once any body byte has come, of a stream, of an error body, or of a download. |
| Retries.RetryableStatusIsRetriedIff | src/job.cpp:874-881 | With retries left, a 429, 502, 503 or 504 is retried exactly when there is no data callback or no error body. |
| Retries.StreamedErrorBodyIsNotRetried | src/job.cpp:788-798 | Gives a run of five steps from a new job in which a 503 with one body byte ends the job as HttpError on its first of four attempts, with no stream byte taken. |
| Retries.BackoffIntervalsAreDisjoint | src/job.cpp:805-816 | The ranges of attempts one to six are disjoint and increasing. |
| Retries.BackoffIsCapped | src/job.cpp:805-816 | From the sixth attempt on the base is the 30 second cap. |
| Retries.RetryAfterHonouredIff | src/job.cpp:74-92 | The delay is min(60000, 1000 s) exactly for the seconds whose 32-bit product does not wrap to something smaller. |
| Retries.RetryAfterOverflows | src/job.cpp:91 | A header value of 4294968 makes the delay 704 ms, and 2147484, the first to overflow, counts as no header. |
| Retries.RetryAfterReplacesBackoff | src/job.cpp:805-816 | A usable Retry-After replaces the back-off whatever the jitter; an unusable one leaves it (section 10.2.3 of RFC 9110). |
| Retries.ParsedLongFits | src/job.cpp:83-89 | The parsed seconds saturate at the bounds of a 32-bit long. |
| Retries.DecimalRoundTrip | src/job.cpp:83-89 | Any number written in decimal, after spaces, a sign and zeros and before any other text, is read back, cut at the bounds of a 32-bit long. |
| Retries.NoNumber | src/job.cpp:83-89 | Text without a digit after its spaces and sign, such as a date, is no number. |
| Retries.DelayMeaning | src/job.cpp:805-816 | The delay in numbers: the seconds of a Retry-After up to 60; without one 1, 2, 4, 8, 16 and then 30 seconds, give or take a quarter. |
| Download.PartStaysPrefix | src/job.cpp:221-244 | Over the whole life of a download, any number of attempts interrupted anywhere, finished or not, with or without resume: if there was no part file or a prefix of the resource to begin with, or once a transfer has begun, the part file is a prefix of the resource in every state, and so never holds an error-body byte. |
| Download.RunKeepsDownload | src/job.cpp:602-628 | While a 2xx body comes in, the part file is as long as the resume offset and the body counter say, and what is on disk and what is still to come make up the resource. |
| Download.NextRequestMayResume | src/job.cpp:221-244 | What any such download leaves behind, a later request for the same file may resume from: the results chain over requests. |
| Download.ResumeSucceedsIff | src/job.cpp:874-914 | Against a server that honours ranges (section 15.5.17 of RFC 9110) an answered attempt ends the download well exactly when its part file was shorter than the resource; one that was already whole is deleted and the download ends as HttpError. |
| Download.WholePartIsLost | src/job.cpp:883-888 | Gives a run in which the whole resource is on disk as a part file and resuming deletes it. |
| Download.DownloadedFileIsResource | src/job.cpp:893-914 | A download that ends Ok has put exactly the resource at the output path and left no part file. |
| Download.FinishMovesWholeResource | src/job.cpp:874-914 | Success renames the whole resource, a retry leaves the disk alone, a final 4xx removes the part file. |
| Download.FileBytesExtendPrefix | src/job.cpp:602-628 | A 206 write appends the next bytes, a 200 to a Range request starts over, and a short write leaves a prefix. |
| Download.ErrorBytesStayOut | src/job.cpp:543-561 | A body with a status that is not 2xx does not touch the disk. |
| Download.BeginStaysPrefix | src/job.cpp:221-244 | Opening the part file keeps a prefix; an attempt that starts has a part file exactly as long as its Range header says, and an empty one when it carries none. |
| Download.StepKeepsDownload | src/job.cpp:602-628 | Every step of a download keeps the part file in step with the counters. |
| MemorySink.PrimaryBodyIsWholeOrRefused | src/job.cpp:583-600 | However a body is split, it is kept whole when it fits under the cap and refused as too large otherwise, with a prefix within the cap. |
| MemorySink.InMemoryOutcome | src/job.cpp:839-845 | Over any run of an in-memory request, an attempt ends in Complete with TooLarge exactly when a write was refused, which only a body over the cap causes; one that ends with a response hands over the whole body. |
| MemorySink.ErrorBodyKeepsItsHead | src/job.cpp:583-600 | An error body of a file or stream job keeps exactly its first 64 KiB, while all of it is counted. |
| MemorySink.ErrorBodyOutcome | src/job.cpp:583-600 | Over any run of a file or stream request that ends as HttpError, the completion carries exactly the first 64 KiB of the error body and its full length. |
| MemorySink.CapIsMaxBodySize | src/job.cpp:585-586 | The cap is maxBodySize when it is a size; a negative one becomes at least 2 GiB. |
| Pacing.DataEventsAreFew | src/job.cpp:630-665 | A body of n streamed bytes costs at most n / chunkSize + 1 Data events. |
| Pacing.CoalescesAsDocumentedIff | src/job.cpp:642 | Streamed data is coalesced at the documented size exactly when ChunkSize was set within its range. |
| Pacing.NegativeChunkBuffersAll | src/job.cpp:630-648 | Over any run with ChunkSize -1, while a body of less than 4 GiB comes in no Data event has been posted, nothing is pending, everything accepted is in the buffer, and the transfer is not paused. |
| Pacing.ProgressIsThrottled | src/job.cpp:722-750 | In one attempt of any run, with header lines, writes and credits in between, a Progress event posted while neither direction is complete comes at least progressInterval after the one before. |
| Pacing.ProgressPerWindow | src/job.cpp:722-750 | So n of them in one attempt take at least n - 1 intervals. |
| Pacing.CompletionReportedOnceIff | src/job.cpp:731-737 | Over any stretch of any run the completion reports are exactly the calls made in a completed state: one report if and only if one such call. |
| Pacing.CompletionIsReportedAgain | src/job.cpp:731-737 | Two completed calls in one millisecond post two Progress events. |
| RestJob.Job.BeginAttempt | src/job.cpp:141-189 | The object's new fields, the events posted and the files are those of the specification, and it says whether a transfer was started. |
| RestJob.Job.OpenOutputFile | src/job.cpp:221-244 | Appends to a non-empty part file when resuming, truncates otherwise, and records the offset. |
| RestJob.Job.OnHeaderLine | src/job.cpp:480-509 | Status lines clear the list, blank lines end the block, other lines add a trimmed header. |
| RestJob.Job.OnHeadersComplete | src/job.cpp:511-541 | Posts Headers once per response, for final statuses that are not about to be followed. |
| RestJob.Job.WriteCallback | src/job.cpp:563-581 | Sends the bytes to the sink the status and the request select, and returns its answer. |
| RestJob.Job.WriteMemory | src/job.cpp:583-600 | Keeps what fits, refuses an oversized primary body. |
| RestJob.Job.WriteFile | src/job.cpp:602-628 | Appends to the part file, starting it over once when the server ignored the range. |
| RestJob.Job.WriteStream | src/job.cpp:630-648 | Pauses at high water without taking a byte, otherwise buffers and flushes at a full chunk. |
| RestJob.Job.FlushStream | src/job.cpp:650-665 | Moves the buffer into one Data event and onto the counter. |
| RestJob.Job.OnStreamConsumed | src/job.cpp:667-678 | Takes the credit, and resumes exactly when paused, attached and below 1 MiB (1048576 bytes). |
| RestJob.Job.PostProgress | src/job.cpp:722-750 | Posts or throttles, with the resume offset added. |
| RestJob.Job.ProgressCallback | src/job.cpp:706-720 | Aborts a cancelled job, reports otherwise. |
| RestJob.Job.ScheduleRetry | src/job.cpp:805-816 | The job waits until now plus the retry delay, whose value `Retries.DelayMeaning` gives. |
| RestJob.Job.HandleTransportFailure | src/job.cpp:830-872 | The object in place ends or retries as the verdict says; which code leads to which is `Outcomes.TransportOutcome`. |
| RestJob.Job.HandleHttpFailure | src/job.cpp:874-891 | Retry, or end as HttpError, removing the part file on 4xx. |
| RestJob.Job.HandleHttpSuccess | src/job.cpp:893-914 | Flush and end Ok, or rename and end Ok or IoError. |
| RestJob.Job.FinalizeDownload | src/job.cpp:818-828 | The part file becomes the output file, or nothing moves. |
| RestJob.Job.OnAttemptDone | src/job.cpp:916-946 | The end of an attempt, over all its branches. |
| RestJob.Job.Cancel | src/job.cpp:948-954 | Releases the transfer and ends the job as Cancelled. |
| RestJob.Job.Finish | src/job.cpp:956-986 | Posts one Complete, and nothing when already finished. |
| RestJob.Job.ReleaseCurl | src/job.cpp:765-786 | Detaches and frees the handle if there is one. |
| RestJob.Job.ResetAttemptState | src/job.cpp:124-139 | Clears what belongs to one attempt and keeps the rest. |
| MainThreadQueue.Queue.Post | src/main_thread_queue.cpp:3-13 | Appends and raises the flag, or does nothing when disabled; the flag stays right. |
| MainThreadQueue.Queue.Drain | src/main_thread_queue.cpp:15-23 | Returns all events in order and leaves the queue empty with the flag down. |
| MainThreadQueue.Queue.SetEnabled | src/main_thread_queue.cpp:25-28 | Changes the switch and nothing else. |
| MainThreadQueue.QueueIsFifo | src/main_thread_queue.cpp:3-23 | For any interleaving of single field writes, drained batches and what is queued are the accepted posts in order, and the flag is right whenever the lock is free. |
| MainThreadQueue.SkippedFrameStrandsNothing | src/extension.cpp:21-34 | A frame that sees the flag down skips an empty queue, or one whose post is about to raise the flag. |
| MainThreadQueue.FinalDrainEmpties | src/extension.cpp:104-110 | After disabling and joining, one Drain leaves the queue empty for good, even if a post raced with disabling. |
| TransferThread.Worker.TakePending | src/transfer_thread.cpp:98-108 | All three lists change hands at once and are left empty. |
| TransferThread.Worker.Enqueue | src/transfer_thread.cpp:45-53 | Appends the job to the mailbox. |
| TransferThread.Worker.Cancel | src/transfer_thread.cpp:55-63 | Appends the cancel request. |
| TransferThread.Worker.Consume | src/transfer_thread.cpp:65-73 | Appends the credit. |
| TransferThread.Worker.FindJob | src/transfer_thread.cpp:119-130 | Finds the first unfinished job with the id. |
| TransferThread.Worker.AdmitIncoming | src/transfer_thread.cpp:110-117 | Begins each new job in order and appends it; list, events and files are those of the fold. |
| TransferThread.Worker.ApplyCancellations | src/transfer_thread.cpp:132-143 | List and events after all requests. |
| TransferThread.Worker.ApplyConsumed | src/transfer_thread.cpp:145-156 | List after all credits. |
| TransferThread.Worker.StartDueRetries | src/transfer_thread.cpp:182-193 | Begins exactly the retries that are due; list, events and files are those of the fold. |
| TransferThread.Worker.ReapCompleted | src/transfer_thread.cpp:158-180 | Ends the attempt of each job with a DONE message, in message order. |
| TransferThread.Worker.RemoveFinished | src/transfer_thread.cpp:214-222 | Keeps exactly the unfinished jobs, in order. |
| TransferThread.Worker.ComputeWaitMs | src/transfer_thread.cpp:195-212 | The wait is the least remaining retry delay, clamped to between zero and one second, so no retry time is overslept. |
| TransferThread.Worker.BeginTurn | src/transfer_thread.cpp:75-87 | One turn up to curl_multi_perform: admit, cancel, consume, retry, in this order; it leaves the lists ready for the next half. |
| TransferThread.Worker.EndTurn | src/transfer_thread.cpp:89-92 | The turn after it: completions, then removal; only unfinished jobs are left and the lists are ready for the next turn. |
| TransferThread.Worker.Stop | src/transfer_thread.cpp:23-43 | Every active job is cancelled, both lists are emptied, and a disabled queue receives nothing. |
| TransferThread.TurnPlacesEveryJob | src/transfer_thread.cpp:75-87 | After the first half of a turn every job is attached, waiting or finished, at most one attempt further, and every job named by a taken cancel is finished, newly admitted ones included. |
| TransferThread.TurnEndsUnfinished | src/transfer_thread.cpp:89-92 | After the second half only unfinished jobs with distinct ids are active, each attached or waiting. |
| TransferThread.CancelAllReachesEveryJob | src/transfer_thread.cpp:132-143 | Cancelling changes exactly the unfinished jobs that were named, once each. |
| TransferThread.AdmitPlaces | src/transfer_thread.cpp:110-117 | Each admitted job has made one attempt, and is finished exactly when that could not start. |
| TransferThread.RetryPlaces | src/transfer_thread.cpp:182-193 | A due job begins one new attempt, no other job changes. |
| TransferThread.ReapPlaces | src/transfer_thread.cpp:158-180 | A job whose transfer is done is released, no other job changes. |
| TransferThread.KeptMembers | src/transfer_thread.cpp:214-222 | Exactly the unfinished jobs are kept, each once. |
| RetryTime.RetryBeginsIff | src/transfer_thread.cpp:182-193 | The retry loop at time t begins the next attempt of a waiting job exactly when t has reached its retry time, and otherwise leaves the job as it is. |
| RetryTime.TurnRetriesIff | src/transfer_thread.cpp:75-87 | So does a whole first half of a turn, whatever is admitted, cancelled and credited besides. |
| RetryTime.DelayIsWaitedFor | src/job.cpp:805-816 | An attempt that ended at time d with some delay is followed by the next in a turn at time t exactly when t is at least d plus that delay. |
| RetryTime.EarlyTurnKeepsWaiting | src/transfer_thread.cpp:75-96 | A whole turn before that leaves the job on the list, waiting for the same time. |
| RetryTime.WaitsThroughTurns | src/transfer_thread.cpp:75-96 | So does any number of them. |
| RetryTime.BeginsInTheFirstDueTurn | src/transfer_thread.cpp:75-96 | And the first turn that is not too early begins the attempt. |
| MainThread.ForwardsStayLinear | src/natives.cpp:579-594 | In every run each forward created has exactly one holder (request, record or in-flight completion) or was released exactly once. |
| MainThread.ActLinear | src/extension.cpp:147-173 | Every single operation keeps that. |
| MainThread.SetCallbackLinear | src/natives.cpp:460-526 | Replacing a callback releases the old forward and keeps the new one. |
| MainThread.SendLinear | src/natives.cpp:579-594 | Send moves three forwards to the record, creates one, and frees the handle without releasing any. |
| MainThread.DropJobLinear | src/extension.cpp:205-219 | Dropping releases now, or leaves the release to the running callback. |
| MainThread.EndEventLinear | src/extension.cpp:295-329 | After a callback a dropped record, and a completed one, is released once. |
| MainThread.UnloadReleasesEverything | src/extension.cpp:104-123 | After unload no forward is held and each was released exactly once. |
| MainThread.ActTidy | src/extension.cpp:301-329 | A record is marked as dispatching exactly while its event is, and only such a record can be marked dropped. |
| Callbacks.DropAllReaches | src/extension.cpp:175-219 | A walk of the whole table, in any order, leaves a deleted client or unloaded plugin no record but the one whose callback is running, marks that one, changes no other record, and asks to cancel exactly the dropped jobs, once each. |
| Callbacks.CancelAllReaches | src/extension.cpp:261-277 | A walk of the whole table asks to cancel exactly the requester's own jobs of the client, and counts them. |
| Callbacks.ScriptKeeps | src/extension.cpp:301-329 | Any finite sequence of API calls in a callback keeps the tables in order and forwards linear. |
| Callbacks.EventKeeps | src/extension.cpp:279-329 | Handling one event does, whatever the callback does. |
| Callbacks.FrameKeepsForwardsLinear | src/extension.cpp:21-34 | A whole frame does. |
| Callbacks.GoneIsSilent | src/extension.cpp:279-286 | A job without a record is never heard again, in this batch or a later one. |
| Callbacks.DropInsideCallbackSilences | src/extension.cpp:205-219 | A callback that deletes the client or unloads the plugin, its own or another's, silences the job for the rest of the batch at once. |
| RequestLife.SetCallbackMeaning | src/natives.cpp:460-526 | Each of the three natives fills its own slot and no other, releases what that slot held, and sets the flag that makes the worker post such events. |
| RequestLife.SendMeaning | src/natives.cpp:545-599 | The new record has the client of the request, the sender as owner, each forward in the slot it was set for, and both flags down; every other record stays. |
| RequestLife.RequestTracks | src/natives.cpp:460-526 | Through any script, a request that is neither sent nor freed stays on its client and each slot holds what was last set for it. |
| RequestLife.RecordTracks | src/extension.cpp:175-219 | Through any script, a record keeps its client, owner and forwards; it can only be dropped, and then its job is to be cancelled. |
| RequestLife.DroppedAfterSend | src/extension.cpp:175-219 | Deleting the client of a request, or unloading its sender, at any time after Send leaves no record of it, and the worker was asked to run the job and to cancel it. |
| RequestLife.CancelAfterSend | src/extension.cpp:242-259 | After Send and any script, the sender can cancel the job as long as it has a record, and no other plugin can. |
| RequestLife.EachKindHasItsCallback | src/natives.cpp:460-599 | From Request through any script to Send and through any script after it, each kind of event is heard by exactly the callback last set for that kind, and the completion by the one given to Send. |
| RequestLife.EventAsks | src/extension.cpp:331-390 | After what the callback asks for, a Data event returns the credit of its whole body, heard or not, a Headers event cancels exactly when its callback ran and answered Plugin_Handled, and the others ask for nothing. |
| RequestLife.BatchOnRecord | src/extension.cpp:279-329 | Over any batch a record stays exactly as it is, or leaves with its completion or because a callback dropped it, and then its job is to be cancelled. |
| RestExtension.Extension.NewRequest | src/natives.cpp:266-300 | A new request handle without forwards. |
| RestExtension.Extension.SetCallback | src/natives.cpp:460-526 | Stores the new forward and releases the one it replaces. |
| RestExtension.Extension.FreeRequest | src/extension.cpp:158-167 | Releases the request's forwards and forgets the handle. |
| RestExtension.Extension.Send | src/natives.cpp:545-599 | The record, on the client of the request and owned by the sender, takes the forwards, a new job with the next id reaches the mailbox, the handle is gone and the id comes back; an invalid handle, URL or callback changes nothing and gives zero. |
| RestExtension.Extension.SubmitJob | src/extension.cpp:229-240 | Assigns the id, stores the record before the job is handed over, and keeps both of the worker's lists as its turn needs them. |
| RestExtension.Extension.CancelJob | src/extension.cpp:242-259 | Sends a cancel exactly for a job of the requester. |
| RestExtension.Extension.CancelJobsForClient | src/extension.cpp:261-277 | Sends the cancels of the walk and returns their number, which for a walk of the whole table is the number of the requester's jobs of the client. |
| RestExtension.Extension.DropJob | src/extension.cpp:205-219 | Cancels, then marks a dispatching record or releases and removes it. |
| RestExtension.Extension.DropJobs | src/extension.cpp:175-203 | The loop over the table, for a client or a plugin; after a walk of the whole table only a record whose callback is running is left to it, and that one is marked. |
| RestExtension.Extension.Execute | src/extension.cpp:331-390 | A callback's API calls, in order, leave the tables and the mailbox as specified. |
| RestExtension.Extension.Dispatch | src/extension.cpp:331-390 | Runs the callback if there is one, then returns the credit of a data event or the cancel a headers callback asked for. |
| RestExtension.Extension.HandleIntermediate | src/extension.cpp:301-329 | Marks, dispatches, unmarks, and releases a record the callback dropped. |
| RestExtension.Extension.HandleComplete | src/extension.cpp:295-299 | The record leaves the table before the callback runs, and is released after it. |
| RestExtension.Extension.HandleEvent | src/extension.cpp:279-299 | One event, over all its branches. |
| RestExtension.Extension.OnGameFrame | src/extension.cpp:21-34 | One frame handles exactly the drained batch, in order; nothing happens when the flag is down. |
| RestExtension.Extension.ReleaseRecord | src/extension.cpp:221-227 | Releases the four forwards of a record, each once. |
| RestExtension.Extension.OnUnload | src/extension.cpp:104-123 | Every record and request gives its forwards back once; worker lists and queue are empty. |
| RestExtension.BeginWorkerTurn | src/transfer_thread.cpp:75-87 | The first half of a turn leaves the extension's invariant intact: ids on the worker's lists stay distinct and below the next id. |
| RestExtension.EndWorkerTurn | src/transfer_thread.cpp:89-92 | So does the second half, which leaves only unfinished jobs. |
| Text.HeaderListRefinesMap | src/text.cpp:36-89 | Any calls of SetHeader and RemoveHeader from an empty list keep one entry per name and behave as a map keyed by the lowered name; when two names are the same is `Text.SameNameMeaning`. |
| Text.FindHeaderAgreesWithMap | src/text.cpp:78-89 | Looking up a name is looking up its lowered form in the map. |
| Text.SetHeaderRefinesMap | src/text.cpp:54-67 | SetHeader is a map update; every entry keeps its place and spelling. |
| Text.RemoveHeaderRefinesMap | src/text.cpp:69-76 | RemoveHeader deletes the key and no other lookup changes. |
| Text.RemoveHeaderKeepsOrder | src/text.cpp:69-76 | The entries that stay keep their order: removing works on each stretch of the list by itself. |
| Text.HeaderTable.Set | src/text.cpp:54-67 | The loop over the vector does that in place. |
| Text.HeaderTable.Remove | src/text.cpp:69-76 | So does the removal. |
| Text.HeaderTable.Find | src/text.cpp:78-89 | Returns the first matching value, or none. |
| Text.EqualsIgnoreCase | src/text.cpp:36-52 | True exactly for names that are as long as each other and agree at every place, up to the case of the letters A to Z. |
| Text.SameNameMeaning | src/text.cpp:36-52 | Two names are the same exactly when at every place the characters are equal, or one is in A to Z and the other is 32 above it. |
| Text.ToLowerMeaning | src/text.cpp:9-20 | Lowering moves A to Z 32 up and nothing else, leaves no character of A to Z, and twice is once. |
| Text.TrimIsMaximal | src/text.cpp:22-34 | Drops exactly a prefix and a suffix of spaces, tabs, carriage returns and line feeds, and leaves none of them at either end. |
| Text.TrimGivesBack | src/text.cpp:22-34 | Text that begins and ends with something else comes back from between any blanks. |
| Uri.UriEncode | src/uri.cpp:26-46 | The loop computes the percent encoding. |
| Uri.DecodeEncode | src/uri.cpp:26-46 | Percent decoding (section 2.1 of RFC 3986) gives every byte string back. |
| Uri.EncodeAlphabet | src/uri.cpp:6-24 | Encoded text holds only unreserved characters and percent signs. |
| Uri.OctetMeaning | src/uri.cpp:6-24 | Letters, digits and - _ . ~ stay (section 2.3 of RFC 3986); every other octet becomes a percent sign and its two upper-case hexadecimal digits. |
| Uri.BuildFormBody | src/natives.cpp:528-543 | The loop builds the pairs separated by ampersands. |
| Uri.SetQuery | src/natives.cpp:335-344 | After any calls the query is the form body of the parameters set so far. |
| Uri.FormRoundTrip | src/natives.cpp:528-543 | A form parser (section 5.1 of the WHATWG URL Standard) recovers every list of names and values, empty ones included. |
| Uri.AppendQueryAddsIff | src/uri.cpp:80-91 | The server sees the URL's parameters followed by the new ones exactly when the URL has no fragment or there is nothing to add. |
| Uri.AppendToFragment | src/uri.cpp:80-91 | On a URL with a fragment the server sees only the old parameters. |
| Uri.FragmentLosesQuery | src/uri.cpp:80-91 | Appending a=1 to http://h/#f leaves the server without it. |
| Uri.QueryRoundTrip | src/uri.cpp:80-91 | On a URL without a fragment the server reads its own parameters followed by those set, and the path is unchanged. |

## Left out

- libcurl's options, TLS, authentication, methods, upload bodies and multipart forms: calls without logic of their own; opening the upload file is one input of `BeginAttempt`.
- SourceMod handles, forwards and contexts: created without fail; a response handle that cannot be created shows up as a callback that does not run.
- RestJob.Job.Finish: the error text, effective URL, elapsed time and Content-Length of the event, which are carried along and never decided on.
- RestExtension.Extension.Send: whether the URL is absolute and the callback valid is an input, the fields of the request that are not in `RequestSpec` are left out, and so is a request handle that SourceMod refuses to free because another plugin owns it.
- RestExtension.Extension.OnUnload: SourceMod's removal of the handle types is modelled as destroying the remaining request handles; the two-thread machine itself has no unload move.
- Callbacks.DropInsideCallbackSilences: the order in which the hash table is walked is an input, and the walk is required to come past the job in question, as a walk of the whole table does.
- Live.StepKeeps: a write that libcurl makes inside `curl_easy_pause` is a step of its own after the credit; a retry may begin at any time here, as these steps have no clock; `RetryTime` has one.
- SystemTheorems.PausedBytesOnlyComeNearer: states that progress is never undone and what each move contributes, not that the scheduler lets both threads run.
- TransferThread.Worker.ApplyConsumed: writes that libcurl makes inside `curl_easy_pause` while the credits are applied. The machine allows them as steps of their own.
- TransferThread.Worker.BeginTurn: the same writes.
- TurnRefinement.TurnStartIsMoves: the same writes, so the moves given are those of a turn without them.
- Uri.SetQuery: the parameters set so far are a ghost argument, as the request keeps only the string.
- Download.PartStaysPrefix: content-coded bodies, and a part file written by someone else.
- Job ids: `m_nextJobId` is unbounded, where the code's int would wrap after 2^31 requests.
- `JoinUrl`, `ClampToCell`, `MethodName`, `ReadBody`, getters and setters, CA bundle and directory handling: only easy claims.
