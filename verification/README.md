# A verified model of the analysis job pipeline

This project models the parts of the repository in which interleaving, faults, parsing or
arithmetic decide whether the system keeps its promises, and proves those promises.

* **Job dispatch** (`RedisStreams`, `Dispatch`, `Dispatch*`, `SubmissionService`). Submissions and
  workers talk to a job repository, a Redis stream with one consumer group, and a dead-letter
  stream. `Dispatch.dfy` is a labelled transition system with one label per atomic command. A queue
  command can succeed, fail without effect, or take effect and lose its reply; a worker can crash
  between any two commands and comes back under the same consumer name; a submission can be
  abandoned at any point; a queue object can be rebuilt. The job repository is reliable: an update
  returns true exactly when the id is present, and rows survive worker crashes.
  `DispatchCode.dfy` and `SubmissionService.dfy` are the same program as objects with fields and
  methods: between any two commands every other actor may run, every command is recorded, and the
  record is proved to be an execution of the transition system, so the results about executions
  hold of the objects. What a method did is stated on that record (`DispatchRecord`): a worker's
  *trail* says how many turns and commands it has behind it and how its current turn went.
* **The browser's tracker** (`Tracker`). Submit, load, poll loop, timers and responses in any order.
* **Metrics** (`Text`, `MetricsText`, `MetricsLabels`, `Histograms`, `HistogramRaces`, `Gauge`,
  `MetricsExport`, `ExpositionLines`, `FrontendMetrics`). The printer of the Prometheus text exposition format, its two
  readers (the service's scalar reader and the browser's line pattern), label escaping, cumulative
  histograms and their decoding, the lock-free job histogram under concurrent observers and a
  rendering that loads it number by number, and the non-atomic gauge.
* **Repository URLs** (`Strings`, `UrlValidator`, `GitHubUrl`). The strict validator with its
  canonical form, and the reader that takes GitHub URLs apart again.
* **The process runner** (`ProcessRunner`). The parent side, against an operating system that
  answers every call in every way it may.
* **Settings, the worker pool and the wire format** (`Settings`, `Wire`).

`dafny verify dfyconfig.toml` checks the whole project. `History` in `Dispatch.dfy` is an auxiliary
record of the run (faults, certain crashes, analyses); no step reads it. A *window fault* is a fault
between publishing a retry and acknowledging the message it replaces.

## Results the code does not give unconditionally

* The documented transitions are not all there are. One lost reply to a retry's XADD leaves two live
  messages, and a worker that has already looked at the row can put a completed job back to RUNNING:
  such an execution exists for every configuration with at least two workers and one retry, and for
  no other (`DispatchOverwritten.TerminalOverwritten`, `DispatchOverwritten.LawfulConfigurations`).
  State by state, a job's next change can be an undocumented one, over all continuations, if and only
  if some worker holding one of its messages is already at a step whose next mark does not fit the
  status (`DispatchLifecycle.NextChangeIff`); that worker alone needs at most three steps. A terminal
  status survives every continuation, whatever fails, if and only if there is no such worker
  (`DispatchLifecycle.FinalIff`). While no window fault has hit the job there is none, which gives
  `DispatchLifecycle.EveryChangeLawful` and `DispatchLifecycle.TerminalIsFinal`.
* The summary parser goes through a double: the six numbers come back exactly if and only if each
  is representable (`MetricsExport.SummaryExact`), which every number up to 2^53 is and 2^53 + 1 is
  not (`MetricsExport.SummaryInexact`).
* The buckets of the job histogram can be read as decreasing, and its +Inf line as below a bucket.
  Two neighbouring numbers differ by the observations counted in the interval between the two
  bounds, plus those of smaller values that came past both places between the two loads, minus those
  that stood between the places all the while (`HistogramRaces.NeighboursDiffer`); the second is the
  smaller one when the last outnumber the others (`HistogramRaces.ReadsDownIff`). Seen from the
  moment the first of the two is loaded: in some continuation the second can be smaller if and only
  if more observations stand between the two places than the interval already holds
  (`HistogramRaces.CanFallIff`). One observation in progress is enough
  (`HistogramRaces.ReadsDown`), and the page's clamp then hides the fall
  (`FrontendMetrics.PageNearlyShows`). When no observation overlaps the rendering the numbers are
  exact (`HistogramRaces.QuietReading`, `FrontendMetrics.PageShowsIntervals`), and otherwise an
  interval is off by at most the number of overlapping observations.
* A canonical URL is accepted again if and only if it is at most 512 characters long
  (`UrlValidator.FixedPoint`); GitLab answers can exceed that (`UrlValidator.GitLabMayNotFit`),
  GitHub answers cannot (`UrlValidator.GitHubFixedPoint`).
* The tracker needs the page's guards, and only against a submission in flight: starting another job
  keeps stored results with the job they belong to, whatever is answered afterwards, if and only if
  there is none (`Tracker.GuardIff`; the run is `Tracker.GuardNeeded`). The page has a result
  whenever it is done if and only if no analysis was answered with success and without data
  (`Tracker.AlwaysShownIff`). Unmounting ends polling for good if and only if no submission is in
  flight (`Tracker.PollsAfterUnmountIff`).
* The process runner signals a child that was already reported missing if and only if there is no
  memory for the text that reports it, and then twice (`strays` in `ProcessRunner.Sound`; the run is
  `ProcessRunner.StraySignals`). The output is everything the cap leaves of what was read if and only
  if no append ran out of memory (`ProcessRunner.CapturedIff`; the run is
  `ProcessRunner.LostOutput`). If the catch handler in turn finds no memory for its own text, the
  `noexcept` function ends the whole process before it has cleaned anything up: the run does not
  return if and only if that happens, and the child may be left running
  (`ProcessRunner.Abandoned`; the run is `ProcessRunner.EndsProcess`).

## Model

| member | source | states |
|---|---|---|
| `DispatchSafety.AlwaysSafe` | backend/src/worker/JobWorker.cpp:117-423 | In every state of every execution: each entry is exactly one of undelivered, pending for one consumer, acknowledged; nothing reaches the stream before the group exists; each consumer has at most one pending entry and a busy worker's message is that entry; attempts stay within the limit; and every published job is terminal or has a live message no worker is about to drop |
| `DispatchSafety.StepKeepsInv` | backend/src/worker/RedisStreamJobQueue.cpp:202-614 | Every single command of every actor, with every outcome, keeps the safety invariant |
| `DispatchSafety.StepKeepsNoneLost` | backend/src/worker/JobWorker.cpp:151-197 | Every single command keeps "terminal, or some live message not about to be acknowledged" for every published job |
| `DispatchSafety.MoveCounts` | backend/src/worker/JobWorker.cpp:252-312 | Whatever a worker publishes carries an attempt between 0 and the retry limit, and max_retry_exceeded only at the limit |
| `DispatchRuns.AcceptedNeverLost` | backend/src/api/repositories/RepositoryService.cpp:101-143 | From the moment a submission's XADD took effect, answered or not, the job is in every later state terminal or still has a kept message |
| `DispatchRuns.HandedOutOnce` | backend/src/worker/RedisStreamJobQueue.cpp:433-473 | In any run the entries handed out fresh are exactly those before the group's position, each by exactly one step: none skipped, none twice |
| `DispatchRuns.HandedOutIsPending` | backend/src/worker/RedisStreamJobQueue.cpp:433-473 | A fresh entry was pending for nobody and becomes the one entry of the consumer that read it |
| `RedisStreams.ExecKeepsPartition` | backend/src/worker/RedisStreamJobQueue.cpp:202-260 | Every command keeps each entry exactly one of undelivered, pending, acknowledged, provided the group exists before an XADD although it starts at "$" |
| `RedisStreams.LoadCountsLive` | backend/src/worker/RedisStreamJobQueue.cpp:113-200 | pending + lag is the number of entries still undelivered or pending |
| `RedisStreams.LoadAfter` | backend/src/worker/RedisStreamJobQueue.cpp:113-200 | How each command changes pending + lag |
| `DispatchDuplicates.AlwaysBalanced` | backend/src/worker/JobWorker.cpp:328-351 | In any run, a job's live messages outside the retry window plus its final acknowledgements equal one (once published) plus its window faults |
| `DispatchDuplicates.LiveBound` | backend/src/worker/JobWorker.cpp:328-351 | A job's live messages number at most 1 + its window faults + workers now in its retry window |
| `DispatchDuplicates.OneWorkerAtATime` | backend/src/worker/RedisStreamJobQueue.cpp:439-473 | Without a window fault on the job at most one worker at a time works on it |
| `DispatchBacklog.BacklogBound` | backend/src/worker/RedisStreamJobQueue.cpp:280-306 | With P concurrent submissions, W workers, limit B, every XINFO answered and no window fault, pending + lag never exceeds B - 1 + P + W |
| `DispatchBacklog.AlwaysLimited` | backend/src/worker/RedisStreamJobQueue.cpp:113-200 | The same account in any run, with unanswered checks and window faults added |
| `DispatchLifecycle.UnlawfulStepIff` | backend/src/worker/JobWorker.cpp:151-179 | A step changes the status in an undocumented way if and only if it is the mark of a worker the status has moved away from |
| `DispatchLifecycle.NextChangeIff` | backend/src/worker/JobWorker.cpp:454-502 | Over all continuations of any state: the job's next status change can be an undocumented one if and only if some worker holding a message of it is already at a step whose next mark does not fit the status |
| `DispatchLifecycle.FinalIff` | backend/src/worker/JobWorker.cpp:166-179 | A terminal status is unchanged at the end of every continuation, whatever faults follow, if and only if no worker is in that position |
| `DispatchLifecycle.BreaksAlone` | backend/src/worker/JobWorker.cpp:454-502 | A worker in that position makes the undocumented change by itself, in at most three steps and without any fault |
| `DispatchLifecycle.EveryChangeLawful` | frontend/src/pages/Architecture.jsx:144-149 | In an execution, until a window fault hits the job, every status change is QUEUED to RUNNING, or RUNNING to COMPLETED, QUEUED or FAILED |
| `DispatchLifecycle.TerminalIsFinal` | backend/src/worker/JobWorker.cpp:166-179 | A status that was COMPLETED or FAILED before any window fault hit the job never changes, whatever faults follow |
| `DispatchOverwritten.TerminalOverwritten` | backend/src/worker/JobWorker.cpp:328-351 | For every configuration with at least two workers and one retry: an execution with a single fault, a lost retry reply, that takes a COMPLETED job back to RUNNING |
| `DispatchOverwritten.LawfulConfigurations` | frontend/src/pages/Architecture.jsx:144-149 | Every status change of every job in every execution is a documented one if and only if there is at most one worker or no retry |
| `DispatchStamps.TerminalIsStamped` | backend/src/worker/JobWorker.cpp:465-502 | A terminal row has startedAt unless a worker crashed just when it was about to set it for the job, and, as soon as none of the job's messages is live, completedAt unless one crashed about to set that; no other crash loses a time |
| `DispatchStamps.AckedIsStamped` | backend/src/worker/JobWorker.cpp:376-385 | The same without window faults on the job as soon as one final acknowledgement has happened, duplicates or not |
| `DispatchStamps.StepKeepsRow` | backend/include/infrastructure/InMemoryJobRepository.h:110-160 | No step changes a row's URL or creation time; the start and completion times change only by the stamp of a worker holding the job, to the time it read |
| `DispatchAttempts.AttemptsInOrder` | backend/src/worker/JobWorker.cpp:252-312 | Without window faults on the job its attempts are exactly 0..k in stream order, k at most the limit, and its active message carries k |
| `DispatchAttempts.AnalysesBounded` | backend/src/worker/JobWorker.cpp:484-490 | A job is analysed at most once per entry plus once per fault; without faults at most maxRetries + 1 times |
| `DispatchVerdicts.EveryDecisionExplained` | backend/src/worker/JobWorker.cpp:252-312 | In every execution, whatever a worker does with a message after analysing it is what the last analysis it made of that message calls for: completing it if that succeeded; failing it, under the failure's own name, if trying again would not help; otherwise queueing a retry if and only if the attempt is below the limit, and failing it as max_retry_exceeded if not |
| `DispatchVerdicts.ChangeJustified` | backend/src/worker/JobWorker.cpp:484-502 | A row becomes COMPLETED, QUEUED or FAILED only by a worker whose last analysis was of that job and called for it; in particular COMPLETED only after a successful one |
| `DispatchVerdicts.VerdictIsMarked` | backend/src/worker/JobWorker.cpp:623-650 | After an analysis the worker's next command, unless it crashes, is the mark the result calls for, and the row then has that status |
| `DispatchVerdicts.EveryDeadExplained` | backend/src/worker/JobWorker.cpp:312-366 | Every dead letter was written by a worker whose last analysis was of the very message it names and called for failing it under the reason it gives |
| `DispatchConservation.CountersConserved` | backend/src/worker/JobWorker.cpp:301-304 | Without faults: counters, stream entries, dead-letter entries, acknowledgements and program counters balance |
| `DispatchConservation.SubmissionsAccounted` | backend/src/worker/JobWorker.cpp:414-417 | Without faults: submitted = completed + failed + jobs still open, corrected by workers that counted a completion and have not acknowledged |
| `DispatchDraining.StepPotential` | backend/src/worker/JobWorker.cpp:312-366 | Without new submissions every successful command spent on a message lowers a weighted sum over live messages of retries left and worker phase; a fault raises it by at most a constant |
| `DispatchDraining.WorkIsBounded` | backend/src/worker/JobWorker.cpp:127-200 | Over any stretch without new submissions, the commands spent on messages are bounded by the work that remained plus a constant per fault |
| `DispatchDraining.Drains` | backend/src/worker/JobWorker.cpp:127-200 | As many fault-free rounds as work remained empty the queue, and then every published job is COMPLETED or FAILED |
| `DispatchDraining.EmptyMeansSettled` | backend/src/worker/JobWorker.cpp:127-200 | In any safe state with nothing live every published job is terminal |
| `DispatchDrained.DrainsDespiteFaults` | backend/src/worker/JobWorker.cpp:127-200 | Without new submissions, as many rounds of four turns per worker as the work at the start plus a constant per fault leave the queue empty and every published job COMPLETED or FAILED, whatever fails in between |
| `DispatchDrained.EmptyStays` | backend/src/worker/JobWorker.cpp:127-200 | Without new submissions an empty queue stays empty, whatever fails |
| `DispatchDrained.CanDrain` | backend/src/worker/JobWorker.cpp:127-200 | From the end of every execution the workers alone, with nothing failing, can empty the queue and settle every published job |
| `DispatchSnapshot.ReportAgrees` | backend/src/worker/RedisStreamJobQueue.cpp:678-775 | Without faults the snapshot exists iff the job was published and gives its latest attempt and stream id, the worker that has it, and whether it was dead-lettered, with the reason the dead letter gives |
| `DispatchSnapshot.HolderExact` | backend/src/worker/RedisStreamJobQueue.cpp:733-769 | The 1000-entry pending window never hides a holder |
| `DispatchSnapshot.PendingAtMostWorkers` | backend/src/worker/JobWorkerPool.cpp:46-60 | The group's pending total is at most the worker count |
| `DispatchSnapshot.ReadsAreAtomic` | backend/src/worker/RedisStreamJobQueue.cpp:678-690 | With the command mutex held, the three reads report one single state whatever submissions and local worker code do in between |
| `DispatchSnapshot.GetJobDispatchSnapshot` | backend/src/worker/RedisStreamJobQueue.cpp:678-775 | The three scanning loops compute exactly the report the lemmas above are about |
| `DispatchCode.InMemoryJobRepository.Save` | backend/include/infrastructure/InMemoryJobRepository.h:40-48 | Adds the row; an id already present keeps its row |
| `DispatchCode.InMemoryJobRepository.UpdateStatus` | backend/include/infrastructure/InMemoryJobRepository.h:110-122 | True iff the id is present; only that row's status changes, every other field and row stays |
| `DispatchCode.Cluster.Guaranteed` | backend/src/worker/JobWorker.cpp:117-228 | Whatever the objects have been through, the safety invariant holds of them and no published job is lost |
| `DispatchCode.Cluster.Settles` | backend/src/worker/JobWorker.cpp:127-200 | Once the record shows enough turns of every worker since the last submission, whatever failed in between, the server's queue is empty and every published job's row is COMPLETED or FAILED |
| `DispatchCode.RedisStreamJobQueue.EnsureForWorker` | backend/src/worker/RedisStreamJobQueue.cpp:202-260 | A worker that is told the group is there can rely on it, whichever of the two queue objects created it and whatever reply was lost |
| `DispatchCode.RedisStreamJobQueue.IsBackpressured` | backend/src/worker/RedisStreamJobQueue.cpp:113-200 | Rejects if and only if XINFO was answered and pending + lag had reached the limit; an unanswered query lets the submission through |
| `DispatchCode.RedisStreamJobQueue.PublishJob` | backend/src/worker/RedisStreamJobQueue.cpp:262-348 | Success if and only if the last command is the submission's answered XADD, and then the entry is in the stream; failure only because the group could not be made sure of, the backlog was at its limit, or the XADD was not answered; either way the submission is over and its row is still there |
| `DispatchCode.RedisStreamJobQueue.PublishRetryOf` | backend/src/worker/RedisStreamJobQueue.cpp:262-348 | A retry skips the backlog check because its attempt is positive; on success the next attempt is in the stream while the old message is still pending, and the acknowledgement follows |
| `DispatchCode.RedisStreamJobQueue.ConsumeNext` | backend/src/worker/RedisStreamJobQueue.cpp:406-496 | It begins a turn: group, then the consumer's own entries, then fresh ones, stopping at the first failure; without one there is a message, pending for this consumer with the job and attempt the stream has, or nothing new in the stream |
| `DispatchCode.RedisStreamJobQueue.Ack` | backend/src/worker/RedisStreamJobQueue.cpp:498-547 | True if and only if XACK was answered, and then the entry was pending and is now acknowledged |
| `DispatchCode.RedisStreamJobQueue.PublishDeadLetter` | backend/src/worker/RedisStreamJobQueue.cpp:549-614 | On success an entry with the job, attempt, original id and reason is in the dead-letter stream; either way the message is still pending |
| `DispatchCode.JobWorker.ProcessJob` | backend/src/worker/JobWorker.cpp:425-530 | True if and only if it went on to the completion time, and then the analysis succeeded and the row was marked COMPLETED; otherwise the analysis failed, and the worker's fields say whether trying again may help and if not why, or the row was missing at a mark |
| `DispatchCode.JobWorker.HandleRetryOrDeadLetter` | backend/src/worker/JobWorker.cpp:252-423 | A failure worth another try below the limit marks the job QUEUED and, once handled, has left the next attempt in the stream; any other marks it FAILED and has left a dead letter with the named reason, max_retry_exceeded at the limit; it stops at the first failed command, and is true if and only if the acknowledgement was answered |
| `DispatchCode.JobWorker.Turn` | backend/src/worker/JobWorker.cpp:127-200 | One turn: it reads, and unless a command fails, which ends the turn, it goes on to the acknowledgement of the message it read, or finds its own entries and the stream both without one |
| `DispatchCode.JobWorker.HandleMessage` | backend/src/worker/JobWorker.cpp:140-197 | A message once read is gone through to its acknowledgement or the first failed command |
| `DispatchCode.JobWorker.WorkerLoop` | backend/src/worker/JobWorker.cpp:117-228 | For any number of turns and any interference, the record is an execution, so the invariant holds and no published job is lost; and the worker has begun every one of its turns and issued more commands than that since it started |
| `SubmissionService.RepositoryService.SubmitRepository` | backend/src/api/repositories/RepositoryService.cpp:30-163 | Invalid exactly when the URL has no canonical form, and then nothing is touched; otherwise, wherever an exception strikes or none: the row is saved with the URL as submitted; the answer is ACCEPTED if and only if the XADD was answered (INTERNAL_ERROR if an exception follows), and the job is then in the stream and not lost; BACKPRESSURED otherwise, for one of the three reasons publishing can fail; INTERNAL_ERROR after an early exception, with no row or a QUEUED one that has no message |
| `Settings.ResolveWorkerCount` | backend/src/app/Application.cpp:161-192 | Always between 1 and 16: the number stoi reads, capped, or 4 when there is none above 0 |
| `Settings.MaxRetryAttempts` | backend/src/worker/JobWorker.cpp:230-250 | Any text stoi reads as a non-negative int gives that int; everything else gives 3 |
| `Settings.ResolveMaxBacklog` | backend/src/worker/RedisStreamJobQueue.cpp:92-111 | At least 1: the number stoll reads at the start of the text when it is positive and fits a long long, else 64 |
| `Settings.JobWorkerPool.Start` | backend/src/worker/JobWorkerPool.cpp:36-74 | One running worker per consumer name; a second start changes nothing |
| `Settings.JobWorkerPool.Stop` | backend/src/worker/JobWorkerPool.cpp:76-101 | Every worker of the pool is stopped and the pool is empty |
| `Settings.ConsumerNamesDistinct` | backend/src/worker/JobWorkerPool.cpp:46-60 | Different workers have different consumer names |
| `Settings.JobWorkerPool.NamesDistinct` | backend/src/worker/JobWorkerPool.cpp:46-60 | No two workers of the pool share a consumer name |
| `Wire.ParseStreamMessage` | backend/src/worker/RedisStreamJobQueue.cpp:350-404 | Unwraps the nested reply arrays level by level and reads field pairs left to right; no message when a level is missing or has another form or there is no job id; an unreadable attempt is 0 |
| `Wire.ParsedMeans` | backend/src/worker/RedisStreamJobQueue.cpp:350-404 | Of every field the last value counts, unknown fields do not matter, an attempt that cannot be read is 0, and there is a message if and only if there is a job id that is not empty |
| `Wire.EntryReadBack` | backend/src/worker/RedisStreamJobQueue.cpp:297-306 | Every entry written with an int attempt is read back unchanged from the reply that delivers it |
| `Tracker.AlwaysTracked` | frontend/src/hooks/useAnalysisJob.js:29-166 | Under any order of events and answers in which no second job is started while a submission is in flight: at most one continuation carries the current generation and it is the active job's; stored analysis, details and record belong to the active job; one submission at a time; a pending timer is the one clearTimeout clears; while the page waits something in flight will end the wait |
| `Tracker.PageIsTracked` | frontend/src/App.jsx:70-72 | The page's own guards (form disabled while busy, no load while submitting) allow only such runs |
| `Tracker.AlwaysShownIff` | frontend/src/hooks/useAnalysisJob.js:50-64 | The page has a result whenever it is done if and only if the active job's analysis was never answered with success and no data |
| `Tracker.PollsAfterUnmountIff` | frontend/src/hooks/useAnalysisJob.js:48 | Unmounting leaves no current poll loop; one can run later if and only if a submission is in flight, whose acceptance starts it |
| `Tracker.StepKeepsInv` | frontend/src/hooks/useAnalysisJob.js:66-106 | Each event keeps all of that |
| `Tracker.TrackingInv` | frontend/src/hooks/useAnalysisJob.js:66-69 | Restarting polling retires whatever ran before and leaves one loop |
| `Tracker.TrackingAsks` | frontend/src/hooks/useAnalysisJob.js:153-166 | A job that starts being tracked is requested under a new generation, with its details, and no earlier loop carries that generation |
| `Tracker.JobAnswerMeans` | frontend/src/hooks/useAnalysisJob.js:71-104 | A current answer that the job is not finished leaves phase polling and one timer, the one clearTimeout clears; that it completed, one request for its analysis; that it failed, or no answer, an error and no loop; an answer for any other loop changes nothing |
| `Tracker.AnalysisAnswerMeans` | frontend/src/hooks/useAnalysisJob.js:50-64 | The active job's analysis is stored and shown, whichever loop asked for it; a refusal is an error; a failed request is one only for the current loop |
| `Tracker.SubmissionAnswerMeans` | frontend/src/hooks/useAnalysisJob.js:130-150 | An accepted submission becomes the active job and is polled by one new loop; any other answer is an error without a loop |
| `Tracker.DetailsAnswerMeans` | frontend/src/hooks/useAnalysisJob.js:35-46 | Details of the active job are stored and nothing else changes; anything else is dropped |
| `Tracker.SubmitMeans` | frontend/src/hooks/useAnalysisJob.js:112-130 | A valid submission stops polling, forgets every result and is in flight; an invalid one is an error and changes nothing else |
| `Tracker.LoadMeans` | frontend/src/hooks/useAnalysisJob.js:153-166 | A loaded job is active, with no results, and is polled by one new loop |
| `Tracker.PhaseIsLastDecision` | frontend/src/hooks/useAnalysisJob.js:13-169 | In any run the phase is what the last deciding event set it to; so an error means an invalid submission or a negative answer and nothing since |
| `Tracker.PollsUntilDone` | frontend/src/hooks/useAnalysisJob.js:71-104 | However often the job turns out not to be finished, as long as it is answered the page ends with its analysis and no loop |
| `Tracker.GuardIff` | frontend/src/App.jsx:70-72 | From any reachable state, submitting or loading another job keeps stored results with their job under every later order of answers if and only if no submission is in flight |
| `Tracker.GuardNeeded` | frontend/src/App.jsx:70-72 | A run from the start with a single event the guard forbids, after which the stored analysis is another job's |
| `Tracker.AnalysisJob.Handle` | frontend/src/hooks/useAnalysisJob.js:13-169 | The hook's handlers and continuations, over its mutable refs and state, do exactly the model's step and keep the invariant |
| `MetricsExport.RenderPrometheus` | backend/src/observability/PrometheusMetricsService.cpp:101-179 | The counters and the job histogram are loaded one number at a time while others go on adding; the text is exactly what was loaded, with every HTTP series once, each of the two maps in an order of its own; and each of the five totals printed lies between its values before and after |
| `MetricsExport.SummaryReadBack` | backend/src/app/Application.cpp:219-251 | For all counters and whatever text follows, scanning the rendered text finds exactly the six job values |
| `MetricsExport.ParseMetricsSummary` | backend/src/app/Application.cpp:242-251 | The six scans, each rounded to a double and 0 where there is no sample, are the summary the next lemma is about |
| `MetricsExport.SummaryExact` | backend/src/app/Application.cpp:242-251 | The parsed summary equals the rendered counters if and only if each is exactly representable as a double |
| `MetricsExport.SummaryInexact` | backend/src/app/Application.cpp:242-251 | 2^53 + 1 is the first counter that comes back as another number |
| `MetricsExport.Fixed6ReadBack` | backend/src/observability/PrometheusMetricsService.cpp:101-105 | A number printed with six decimals is read as the nearest number of millionths |
| `ExpositionLines.ExpositionHas` | backend/src/observability/PrometheusMetricsService.cpp:130-176 | The text has the line of the queue depth, the +Inf line, sum and count of the job histogram as loaded, and for every HTTP series its count line and all lines of its histogram |
| `MetricsText.ParsePrometheusScalar` | backend/src/app/Application.cpp:219-240 | The line loop finds the first sample line of the metric |
| `MetricsText.SampleNamesItself` | backend/src/app/Application.cpp:224-230 | A sample line matches exactly the metric it names, not one that is a prefix |
| `MetricsLabels.LabelKeyInjective` | backend/src/observability/PrometheusMetricsService.cpp:181-203 | Distinct (method, route, status) never share a series key |
| `MetricsLabels.ReadEscaped` | backend/src/observability/PrometheusMetricsService.cpp:181-191 | An escaped label value is read back exactly, up to its closing quote |
| `MetricsLabels.LabelsReadBack` | backend/src/observability/PrometheusMetricsService.cpp:193-203 | A reader of the series key finds the method under method, the route under route and the status under status, whatever characters they hold |
| `HistogramRaces.JobHistogram.ObserveJobProcessingDurationSeconds` | backend/src/observability/PrometheusMetricsService.cpp:51-71 | Bucket by bucket, then the count, then the sum, with other observations between any two steps: every number is then the number of observations counted there so far, and this value is counted in full; a negative value changes nothing |
| `HistogramRaces.AlwaysRead` | backend/src/observability/PrometheusMetricsService.cpp:135-149 | In every interleaving each number is the number of observations that have got there, and the sum the sum of the finished ones, and a rendering has loaded each as it was at its own moment |
| `HistogramRaces.NeighboursDiffer` | backend/src/observability/PrometheusMetricsService.cpp:135-149 | Two neighbouring numbers differ by the interval's counted observations, plus those of smaller values that came past both places between the loads, minus those that stood between the places throughout |
| `HistogramRaces.ReadsDownIff` | backend/src/observability/PrometheusMetricsService.cpp:135-149 | A rendering reads less at one place than at the place before (for the last, a +Inf line below the last bucket) if and only if those that stood outnumber the other two kinds |
| `HistogramRaces.CanFallIff` | backend/src/observability/PrometheusMetricsService.cpp:135-149 | From the moment a place is loaded, over all continuations: the next number can be smaller if and only if more observations stand between the two places than the interval already holds |
| `HistogramRaces.ReadsDown` | backend/src/observability/PrometheusMetricsService.cpp:51-71 | A run with one observation, half done, that is read as 0, 1, 0 |
| `HistogramRaces.QuietReading` | backend/src/observability/PrometheusMetricsService.cpp:135-149 | In any run, a rendering that starts when every observation is finished and that none overlaps reads exactly the numbers of values up to each bound, their total and their sum |
| `HistogramRaces.IntervalNearly` | frontend/src/lib/metrics.js:41-48 | The clamped difference of two neighbouring loads is off by at most the number of observations the rendering overlapped |
| `Histograms.HttpHistograms.ObserveHttpRequest` | backend/src/observability/PrometheusMetricsService.cpp:73-99 | Under the lock, after any observations bucket i of a series is the number of its values up to bound i, with the request count and the sum |
| `Histograms.CumulativeMonotone` | backend/src/observability/PrometheusMetricsService.cpp:135-149 | The buckets of a histogram no observation is changing never decrease and never exceed the count |
| `Histograms.DecodeBuckets` | frontend/src/lib/metrics.js:41-48 | The front end's filter-and-map keeps the finite buckets with their differences, clamped at 0 |
| `Histograms.DecodedCounts` | frontend/src/lib/metrics.js:41-48 | Decoding a histogram no observation is changing gives the number of values in each interval, without the clamp |
| `FrontendMetrics.ParsePrometheusMetrics` | frontend/src/lib/metrics.js:13-48 | The line loop collects the job buckets of every matching line in order and decodes them |
| `FrontendMetrics.ExpositionBuckets` | frontend/src/lib/metrics.js:19-30 | In the whole rendered text, whatever the newline-free labels, the browser finds exactly the numbers loaded for the job histogram's buckets and its +Inf line, with their bounds, in order |
| `FrontendMetrics.PageShowsLoads` | frontend/src/lib/metrics.js:41-48 | From loads through text to page: below 2^53 the page shows each bound with the number loaded for it and its difference to the one before, or 0 where that is negative |
| `FrontendMetrics.PageShowsIntervals` | frontend/src/lib/metrics.js:41-48 | From observations through text to page, in any run: when no observation overlaps the rendering and there are fewer than 2^53, each interval shows exactly the number of values that fell into it |
| `FrontendMetrics.PageNearlyShows` | frontend/src/lib/metrics.js:41-48 | With observations in progress each interval is off by at most their number, and the clamp fires exactly when the observations that stood between the two buckets outnumber the interval's and those that came past both |
| `FrontendMetrics.SampleMatched` | frontend/src/lib/metrics.js:21-25 | The line pattern takes a labelled sample apart into its name, labels and count |
| `FrontendMetrics.OtherLine` | frontend/src/lib/metrics.js:19-30 | Comments and samples of other metrics add no bucket |
| `FrontendMetrics.LabelKeyIsLine` | backend/src/observability/PrometheusMetricsService.cpp:181-203 | Escaping keeps a series key on one line when its labels are |
| `Gauge.GaugeExact` | backend/src/observability/PrometheusMetricsService.cpp:34-45 | Under any interleaving of increment, load, store and subtract the gauge is the number of open scopes and the clamp is unreachable |
| `UrlValidator.CanonicalCloneUrl` | backend/include/utils/UrlValidator.h:48-129 | The validator's loops compute the answer the lemmas below are about |
| `UrlValidator.CanonicalIff` | backend/include/utils/UrlValidator.h:48-129 | A URL is accepted with a given answer if and only if it fits and is a spelling (any case of scheme and host, optional www., .git and slash) of a valid host and path, and the answer depends on these two alone |
| `UrlValidator.FixedPoint` | backend/include/utils/UrlValidator.h:48-129 | An answer is its own answer if it is at most 512 long, and is refused otherwise |
| `UrlValidator.AnswerLiteral` | backend/include/utils/UrlValidator.h:118-128 | Every answer is the literal https://github.com/ or https://gitlab.com/, a valid path, and .git |
| `UrlValidator.HostsByName` | backend/include/utils/UrlValidator.h:60-92 | Scheme and hosts go by in any letter case; only GitHub may have www. |
| `UrlValidator.Limits` | backend/include/utils/UrlValidator.h:166-195 | The limits on segments and owners, each with a text that just keeps it and one that just does not |
| `UrlValidator.GitHubFixedPoint` | backend/include/utils/UrlValidator.h:110-113 | GitHub answers are at most 163 long, hence always fixed points |
| `UrlValidator.GitLabMayNotFit` | backend/include/utils/UrlValidator.h:118-125 | An accepted GitLab URL whose answer is refused |
| `UrlValidator.IsValidPathSegment` | backend/include/utils/UrlValidator.h:166-181 | Exactly the segments of 1 to 100 allowed characters, no leading dash, not all dots |
| `UrlValidator.IsValidGitHubOwner` | backend/include/utils/UrlValidator.h:183-195 | Exactly the owners of 1 to 39 letters, digits and dashes with no dash at either end |
| `GitHubUrl.ParseGitHubUrl` | backend/src/github/GitHubMetadataService.cpp:36-69 | The trimming, stripping and splitting loops compute the answer the lemmas below are about |
| `GitHubUrl.SplitStr` | backend/src/github/GitHubMetadataService.cpp:26-34 | The non-empty tokens, in order |
| `GitHubUrl.CanonicalReadBack` | backend/src/github/GitHubMetadataService.cpp:36-69 | Every GitHub answer of the validator is read back as exactly the owner and the repository of its path |
| `GitHubUrl.SubmittedReadBack` | backend/src/github/GitHubMetadataService.cpp:36-69 | Every accepted spelling of a GitHub URL, with or without .git and slash, is read as the owner and the repository of its path if the host is written in lower case, and otherwise not at all |
| `ProcessRunner.Run` | backend/src/utils/ProcessRunner.cpp:110-317 | On every path on which it returns: descriptors are closed once each and no others; without a timeout or a failed append the output was read to its end; the child is reaped once or reported missing and never signalled after reaping, and signalled, twice, after being reported missing if and only if the text that says so found no memory; the error names the step that failed; output is the capped beginning of what was read and flagged iff cut, and all of that iff no append found no memory; success iff a normal exit 0 before the deadline. It does not return if and only if the handler's own text found no memory, and then nothing has been cleaned up |
| `ProcessRunner.CapturedIff` | backend/src/utils/ProcessRunner.cpp:263-270 | The output is everything the cap leaves of what was read if and only if no append failed; after a failed one it is strictly shorter and not flagged |
| `ProcessRunner.StraySignals` | backend/src/utils/ProcessRunner.cpp:279-317 | A run of the code, on answers fixed in advance, that signals a child already reported missing |
| `ProcessRunner.LostOutput` | backend/src/utils/ProcessRunner.cpp:263-317 | A run of the code, on answers fixed in advance, whose output lacks a full buffer that was read and had room |
| `ProcessRunner.EndsProcess` | backend/src/utils/ProcessRunner.cpp:305-309 | A run of the code, on answers fixed in advance, that ends the process with its child still running |
| `ProcessRunner.Drain` | backend/src/utils/ProcessRunner.cpp:243-276 | The read loop reads when and only when poll reports data, goes on until the first answer that ends it (end of file, or an error other than an interruption or no data) and stops before that only at the deadline or when an append finds no memory; the output is as above and timedOut says which |
| `ProcessRunner.AwaitExit` | backend/src/utils/ProcessRunner.cpp:279-298 | The wait loop ends with the child reaped, reported missing, or still running at the deadline |
| `ProcessRunner.KillAndReap` | backend/src/utils/ProcessRunner.cpp:94-106 | Two signals, one successful wait, and the result says what became of the child |
| `ProcessRunner.AppendedKept` | backend/src/utils/ProcessRunner.cpp:263-270 | Appending what still fits keeps the output the first min(total, cap) bytes, flagged iff total exceeds cap |

## Left out

- The MySQL repositories and `Database`: replaced by the reliable repository contract. A failed read there looks like an unknown job and would be acknowledged, so no-loss is claimed under that contract only.
- The worker loop without a dispatch queue, and `dequeueNextJob`: the application always supplies a queue.
- Delayed effects: a command that loses its reply takes effect at once or not at all, never after later commands of the same client; stream trimming and a restart of Redis are not modelled.
- Counters are bumped in the same step as the command whose success they follow; a crash between the two is not modelled. The submitted counter is likewise part of the publishing step.
- DispatchSnapshot.GetJobDispatchSnapshot: does not model `deliveryCount`, `traceparent` and `tracestate`, which it copies from the replies; `getQueueGroupSnapshot` and the consumer list are reporting only.
- What the other threads do between two commands of an actor (`Cluster.Perform`) is taken from the transition system; that each command's code does the same is stated by the command's own method.
- DispatchCode.RedisStreamJobQueue.PublishJob: does not model the trace context arguments or the reply parsing of XINFO; pending + lag is taken from the server's state.
- DispatchCode.JobWorker.ProcessJob: cloning, scanning and storing an analysis are an oracle that ends in success, a retryable failure or a permanent failure; the clone-output patterns of `isRetryableFailure` are part of that oracle.
- Attempt numbers are unbounded; `attempt + 1` overflowing an int needs a retry limit of INT_MAX.
- SubmissionService.RepositoryService.SubmitRepository: where an exception strikes is a parameter, at one of three points between its commands; after publishing, that it makes the submitted counter miss the job is not modelled. Job ids are generated fresh.
- Settings.ResolveMaxBacklog: overflow in the parsed text is modelled as a parse failure; other stoi details (locale, hexadecimal) are not.
- MetricsText.ParsePrometheusScalar: reads integers only; exponents, fractions, NaN and infinities are not printed for the six job values. Values beyond 2^63 are outside the summary's integer type and not modelled.
- MetricsLabels.LabelKeyInjective: covers all label texts, but a newline in a label is printed as it is, so such a series is not one line of the exposition.
- HistogramRaces.JobHistogram.ObserveJobProcessingDurationSeconds: sums and bounds are real numbers, without floating-point rounding; each atomic access is one step in one order for all threads, although the source asks for relaxed order only; the compare-and-exchange loop is its successful exchange.
- Histograms.DecodeBuckets: keeps a bound as its text; parseFloat of it is not modelled.
- FrontendMetrics.ParsePrometheusMetrics: reads whole-number counts only, which is what the printer writes for buckets; white space is ASCII; the other counters, the HTTP routes (whose labels may contain a closing brace) and their sorting are not modelled.
- Gauge.GaugeExact: the atomic operations are sequentially consistent.
- MetricsExport.RenderPrometheus: the HTTP series are loaded in one step, which the lock around them makes true; writers of the job counters are any that never lower them; the three error lines it answers an exception with are left out.
- Tracker.AlwaysTracked: texts, URLs and messages are dropped; a fetched job record counts as belonging to the job it was requested for; state read by a guard is the state of the last event.
- GitHubUrl.SubmittedReadBack: covers GitHub URLs; a GitLab URL whose group is named like the marker is matched by the source as well.
- UrlValidator.CanonicalCloneUrl: allocation failure, which the source answers with no URL, is not modelled.
- ProcessRunner.Run: the child's side, signal masks, PATH lookup and the resource-limit values are not modelled; memory can run out at six points (finding the program and preparing its arguments, the texts of a pipe, fork or wait error, the append, the handler's text), although a short append needs none, time passes between any two clock readings, and a blocking wait is interrupted finitely often.
- Handlers, controllers, CORS, JSON assembly, logging, tracing, health, technology and insight rules, rendering and routing.
