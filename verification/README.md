# A verified model of the note-taker's call orchestration

The note-taker takes calls from an API, sends a bot into each Meet or Zoom call, records it, uploads the
audio, has it transcribed, tells a receiver by webhook, and later deletes the audio. This project models
three connected parts of that in Dafny and proves what they keep and what they mean.

Check it with `dafny verify dfyconfig.toml`.

## What is modelled

**The orchestration protocol** (`Orchestration*.dfy`). A transition system over whole runs. A state holds a
clock, one `Call` record per call (row, held row lock, how far its coroutine is, container, scratch WAV,
stored object, dispatches due, history), intakes in progress and sweeps in progress. One step is one
session block or one external effect between two blocks. Any number of runners interleave with intake,
stale, orphan and retention sweeps, webhook delivery and crashes, and a run is any sequence of enabled
actions. `RunsKeepInv` carries one inductive invariant over all runs; `OrchestrationTheorems.dfy` and
`OrchestrationTiming.dfy` read the promises off it. `OrchestrationAudio.dfy` says which audio stays in every
continuation of a run, `OrchestrationRetention.dfy` how soon the other goes, `OrchestrationIntake.dfy` when
intake keeps its limit, `OrchestrationWebhooks.dfy` which calls never send their webhook, and
`OrchestrationPolicy.dfy` what single steps decide and record, in numbers. `OrchestrationWitnesses.dfy` holds concrete runs: a whole life of a call, and the
places where a promise fails.

**The call loops** (`CallLoop*.dfy`, `Recorder.dfy`, `LateStarts.dfy`, `MeetLoop.dfy`, `ZoomLoop.dfy`, `Platforms.dfy`). Both
`run_call_loop`s are methods over an unbounded sequence of polls. Both are proved to follow one machine,
`CallLoop.Step`; what the machine's exits mean is then proved about the trace itself, both ways, without
reference to the loop's variables.

**The runner and the edges.** `Calls.dfy` is the row and its service; `BotRunner.dfy` is one runner's own
code (claim, sweeps, exit pipeline) as methods that change its state, each tied to the protocol's steps by a
lemma; `EndToEnd.dfy` composes a call loop's trace, the WAV check and the exit pipeline; `Retention.dfy`,
`Retries.dfy`, `Deepgram*.dfy` and `Audio.dfy` are the retention pass, the two retry loops, the response
mapper and the silence check; `ProcessingBudget.dfy` adds the phases of a call's processing up along a run.

| module | source |
|---|---|
| Calls | services/call.py, repositories/call.py, enums |
| BotExit, BotRunner, Orchestration* | workers/bot_runner.py, workers/retention.py, workers/webhook_dispatcher.py |
| Retention, TranscriptionRetries, WebhookDelivery, Deepgram | workers/retention.py, services/transcription.py, workers/webhook_dispatcher.py, integrations/transcription/deepgram.py |
| MeetStates, MeetLoop | bot/states.py, bot/listeners.py |
| ZoomStates, ZoomLoop | bot/states_zoom.py, bot/listeners_zoom.py |
| RecorderControl, Audio, EndToEnd | bot/record_audio.py, bot/join_meet.py |

## What it rests on

- A session block is one atomic step. The service reads a row and then writes it without locking it, so
  that terminal statuses absorb depends on this.
- A row lock that a block holds across external work (the claim's checks, a delivery, a reclaim) is
  modelled as held: other writers of that row wait, or skip it where the query says so.
- A claim, a delivery and a reclaim stamp `updated_at` with the time their transaction began, which is never
  earlier than the row's last stamp; the other blocks begin and commit in one step. A claim's own time, from
  which time bounds count, is its commit.
- `dispatch_webhook` is a step family of its own, due from the moment its path asks for it. That admits more
  interleavings than the code, never fewer.
- The runner's `docker run` client lives as long as its container: the bot's stream ends only when the container
  is gone. Were the client to die first, the pipeline would upload and delete a WAV that the bot still writes;
  that no audio is lost rests on this, and on a stored copy being the whole file.
- The store keeps what it has acknowledged, a failed upload leaves no object, and deleting is idempotent.
- A crash takes away any set of coroutines, locks, due dispatches, sweeps and intakes, and nothing else.
- A poll is one snapshot of the page; queries that raise, clicks that raise and waits that raise are flags of
  the poll. Clocks never run backwards where time matters. Numbers read off the page come with the poll.
- Sleeps, provider answers and receiver answers are inputs.

## Where the code and its documentation differ

The model follows the code.

- `README.md:130` promises that the audio of a failed call goes after its window. It does only for a failed
  transcription. A call that fails before its URL is written keeps its WAV in scratch, which nothing
  cleans up (`UploadFailureKeepsTheWav`), or, when a sweep fails it after the upload, an object that no
  retention query finds (`StaleSweepLeaksAnObject`). The exact condition, over every continuation of the
  run: `AudioStaysExactly`, `RecordingsWithoutUrlStay` and, for objects alone, `SweptObjectsEscapeRetention`.
  What does go, goes in time: `RetentionIsPrompt`. (A bucket lifecycle rule is named as a second line of
  defence for objects; it is not part of this model.)
- `bot/README.md:362` says that an operator stop ends done with a null `end_reason`. Every done row names a
  reason, and an operator stop ends done as `call_ended`, exactly when the bot was recording, could leave, left
  an audible WAV and the pipeline succeeded: `OperatorStopMeans`, `OperatorStopExample`, `DoneNamesItsReason`.
- The same file promises a webhook on each terminal transition (`README.md:258`). A crash between the commit and
  the dispatch loses it for good, since no sweep makes up for it: `CrashLosesADispatch`. Which ended calls never
  send it: `NeverSentExactly`; without a crash none: `DispatchIsCertainWithoutCrash`.
- `README.md:245` lists `join_timeout`. The loop returns exit 4 only while recording, so no loop outcome
  becomes that: `NoShowMeans`.
- `poll_once` is documented to return true when a call was claimed. It also does when it refused one:
  `PollOnce`, `RefusalExample`.
- The API's ceiling check lets racing creates pass, as `README.md:250` says ("advisory"), and by any number:
  `IntakeRaceOverfillsTheQueue`. Active calls keep the limit all along if and only if every insert still finds a
  place (`IntakeKeepsTheLimitExactly`); checks that leave room for the creates under way suffice for that, but are
  not necessary (`BookingsKeepTheLimitExactly`, `BookingsAskForMore`). The ceiling on running calls holds
  nevertheless: `ConcurrencyCeiling`.
- `bot/README.md:339` says that in the empty room and alone the Meet rules apply to Zoom. With waiting text on
  the page in mid-call they do not: Zoom still counts the room and Meet does not (`WaitingTextExample`, two whole
  traces). The loops move alike if and only if such text is harmless: `StepsAgreeExactly`, `LoopsAgree`,
  `LoopsPart`.
- The exception handler around the loops is there to leave no recorder behind. A recorder whose start raises
  after its child was spawned is left behind all the same, because the loop turns that into an outcome. Read
  off the trace, a child is left if and only if all polls up to the admission are quiet and the start at the
  admission fails late: `JoinAndRecord`, `LateStartsExactly`; one poll is enough: `LateStartExample`.

## Model

| member | source | states |
|---|---|---|
| Calls.TransitionsClimb | src/oreeai_notetaker/services/call.py:12-17 | Every legal transition strictly raises a row's rank, and a row is terminal exactly when no target at all is legal |
| Calls.CallService.Create | src/oreeai_notetaker/services/call.py:31-46 | A create succeeds exactly while fewer calls than the limit are active, and a lone create never takes the active calls past the limit; a refusal changes nothing |
| Calls.CallService.CountActive | src/oreeai_notetaker/repositories/call.py:13-16 | The count is the calls in flight plus the calls still queued, so with a queued call in the table it is larger than the number in flight: a claim that counts at most the limit has room |
| Calls.ActiveIdsSplit | src/oreeai_notetaker/repositories/call.py:13-16 | Active calls are those in flight and those queued, none counted twice |
| Calls.CallService.MoveTo | src/oreeai_notetaker/services/call.py:110-129 | A mark writes one row along a legal edge or nothing, reports a missing row and an illegal edge apart, and keeps every row well shaped |
| Calls.CallService.MarkBotStarted | src/oreeai_notetaker/services/call.py:69-74 | Only a queued row becomes joining; no other row and no other column changes |
| Calls.CallService.MarkRecording | src/oreeai_notetaker/services/call.py:76-79 | Only a joining row becomes recording |
| Calls.CallService.MarkProcessing | src/oreeai_notetaker/services/call.py:81-84 | Only a recording row becomes processing |
| Calls.CallService.MarkDone | src/oreeai_notetaker/services/call.py:86-101 | Only a processing row becomes done, and the end reason, transcript and URL land in that same write |
| Calls.CallService.MarkFailed | src/oreeai_notetaker/services/call.py:103-108 | Every non-terminal row can fail, a terminal one never; the reason lands in that same write |
| OrchestrationRuns.RunsKeepInv | src/oreeai_notetaker/workers/bot_runner.py:299-801 | The inductive invariant of the whole protocol holds in every state that any run reaches |
| OrchestrationRuns.NextKeepsInv | src/oreeai_notetaker/workers/bot_runner.py:299-801 | No single step of any participant, crash included, breaks the invariant |
| OrchestrationInvariant.ActKeepsCallOk | src/oreeai_notetaker/workers/bot_runner.py:299-801 | Each of the 21 actions on one call keeps what is local to it: row shape, locks, coroutine, history, dispatches, audio, times |
| OrchestrationRuns.ClaimFindsRoom | src/oreeai_notetaker/workers/bot_runner.py:679-698 | A claim that counts at most the limit, itself included, has room next to all calls in flight and all admitted but uncommitted claims |
| OrchestrationPolicy.ClaimsDecideExactly | src/oreeai_notetaker/workers/bot_runner.py:667-695 | A claim takes only a free queued row, admits it if and only if the active calls, itself included, are within the limit and the disk has room, and refuses it for the limit before the disk |
| OrchestrationPolicy.ClaimsCommitTheirVerdict | src/oreeai_notetaker/workers/bot_runner.py:682-695 | In every reachable state the commit of a claim writes what the claim decided |
| OrchestrationPolicy.ActiveMeans | src/oreeai_notetaker/repositories/call.py:13-16 | The four statuses that count as active |
| OrchestrationPolicy.IntakeDecidesExactly | src/oreeai_notetaker/services/call.py:31-34 | A create is let through if and only if fewer calls than the limit are active |
| OrchestrationPolicy.StaleQueryListsExactly | src/oreeai_notetaker/workers/bot_runner.py:770-787 | The stale query lists a call if and only if it is joining or recording for more than the record duration + 300 s, or processing for more than 2400 s |
| OrchestrationPolicy.OrphanQueryListsExactly | src/oreeai_notetaker/workers/bot_runner.py:707-728 | The orphan query lists the calls that have a container |
| OrchestrationPolicy.RetentionQueryListsExactly | src/oreeai_notetaker/workers/retention.py:119-138 | The retention query lists a free row with its URL if and only if it is done for more than the done days or failed for more than the failed days, in seconds |
| OrchestrationPolicy.SweepsDoTheirKind | src/oreeai_notetaker/workers/bot_runner.py:789-801 | A stale sweep fails a listed call as stale_call and an orphan sweep as worker_restart, with one dispatch due, unless it has ended |
| OrchestrationPolicy.RetentionDoesItsKind | src/oreeai_notetaker/workers/retention.py:91-103 | Retention deletes a listed call's object, without looking at age or URL again, and leaves the row to the commit |
| OrchestrationPolicy.HistoryIsHonest | src/oreeai_notetaker/workers/bot_runner.py:299-801 | The history that the theorems speak of records each claim, spawn, dispatch, post, acceptance, end, recording, URL and reclaim when it happens, with its time, and nothing else |
| OrchestrationPolicy.AudioComesAndGoes | src/oreeai_notetaker/workers/bot_runner.py:484-589 | A scratch WAV comes from a recording only and goes by a deletion that works only; a stored object comes from an upload of one only and goes by a retention sweep only |
| OrchestrationPolicy.SignalsDecideExactly | src/oreeai_notetaker/workers/bot_runner.py:616-624 | The recording signal moves a joining row; after a sweep it changes nothing and the stream goes on |
| OrchestrationPolicy.LateCommitsChangeNothing | src/oreeai_notetaker/workers/bot_runner.py:362-368 | A commit of the pipeline that a sweep came before changes no column and makes no dispatch due |
| OrchestrationPolicy.PostsExactly | src/oreeai_notetaker/workers/webhook_dispatcher.py:92-132 | A post counts one try, keeps the time of an acceptance, and is followed by another only after a network error or a 5xx while tries are left |
| OrchestrationPolicy.DeliveriesEndExactly | src/oreeai_notetaker/workers/bot_runner.py:299-310 | The end of a delivery adds its tries to the row and writes its acceptance, if any |
| OrchestrationPolicy.CrashesTakeExactly | src/oreeai_notetaker/workers/bot_runner.py:690-704 | A crash takes coroutines, locks, dispatches, sweeps and intakes, and no row, container, file or object |
| OrchestrationTheorems.ConcurrencyCeiling | src/oreeai_notetaker/workers/bot_runner.py:657-704 | Joining, recording and processing calls never exceed the limit, with any number of runners and racing intakes, and not even when claims past their check are counted too |
| OrchestrationTheorems.RowsAreWellShaped | src/oreeai_notetaker/workers/bot_runner.py:627-704 | Which columns each status may hold, and that a call is claimed and its bot spawned at most once |
| OrchestrationTheorems.OutcomesAreFrozen | src/oreeai_notetaker/services/call.py:116-129 | Over any step of any run a status only rises, and once terminal its reasons and transcript never change |
| OrchestrationTheorems.StoredObjectsAreOwned | src/oreeai_notetaker/workers/bot_runner.py:448-475 | Every stored object belongs to a processing row, a row with its URL, or a swept row; and a URL that was written and cleared again has no object left |
| OrchestrationAudio.SweptObjectsEscapeRetention | src/oreeai_notetaker/workers/retention.py:119-138 | A terminal call's stored object is still there in every continuation of the run if and only if a sweep failed the call, and if and only if its row carries no URL |
| OrchestrationAudio.AudioStaysExactly | src/oreeai_notetaker/workers/retention.py:64-138 | Once nothing acts for an ended call any more, its audio is there in every continuation if and only if its WAV is in scratch or its object was left by a sweep |
| OrchestrationAudio.RecordingsWithoutUrlStay | src/oreeai_notetaker/workers/bot_runner.py:523-532 | Read off the row: a recorded call that ended without its URL keeps audio for ever, one that ended with it exactly if its WAV could not be deleted |
| OrchestrationAudio.WhatLasts | src/oreeai_notetaker/workers/bot_runner.py:581-589 | Over any continuation a terminal call keeps its status, a swept call its object, and a call at rest its scratch WAV |
| OrchestrationAudio.ObjectCanGo | src/oreeai_notetaker/workers/retention.py:91-116 | From any reachable state in which a terminal call has an object and a URL, the run can go on, without a crash, to the object's deletion |
| OrchestrationRetention.RetentionIsPrompt | src/oreeai_notetaker/workers/retention.py:77-116 | An object whose row has a URL is never older than the window of its status, in seconds, plus the age of the newest retention pass that was not disturbed over it, counted from the row's last stamp |
| OrchestrationRetention.CleanPassesReclaim | src/oreeai_notetaker/workers/retention.py:77-116 | A pass that finds the call expired and free, and neither skips it nor dies, leaves no object for the rest of the run |
| OrchestrationRetention.QuerySawTheRow | src/oreeai_notetaker/workers/retention.py:119-138 | A row that is terminal with a URL now, and ended before an earlier query, was so at that query with no later stamp |
| OrchestrationIntake.IntakeKeepsTheLimitExactly | src/oreeai_notetaker/services/call.py:31-46 | In every run, active calls stay within the limit all along if and only if every insert finds fewer active calls than the limit |
| OrchestrationIntake.BookingsKeepTheLimitExactly | src/oreeai_notetaker/services/call.py:31-46 | In every run, active calls together with creates under way stay within the limit all along if and only if every check finds a place left besides both: sufficient for the active calls |
| OrchestrationIntake.BookingsAskForMore | src/oreeai_notetaker/services/call.py:31-46 | A run of two racing checks and one insert that keeps the limit on active calls but not on bookings: not necessary |
| OrchestrationIntake.SerialIntakeKeepsTheLimit | src/oreeai_notetaker/services/call.py:31-46 | Creates that come one at a time keep active calls within the limit in every run, whatever else goes on |
| OrchestrationIntake.IntakeRaceOverfillsTheQueue | src/oreeai_notetaker/services/call.py:31-46 | For every limit of at least 1 and every number there is a run of racing creates that ends with that many active calls |
| OrchestrationTheorems.NoAudioIsLost | src/oreeai_notetaker/workers/bot_runner.py:484-589 | Every recording is in scratch, in the store, or was reclaimed, and that only later than the window of its own status, in seconds, after the end |
| OrchestrationTheorems.RetentionWaits | src/oreeai_notetaker/workers/retention.py:77-116 | No object of a done call is deleted within 86400 s times the done days of its end, and none of a failed call within the failed days, although the sweep releases its locks between query and deletion and does not look again |
| OrchestrationTheorems.AtMostOneDispatch | src/oreeai_notetaker/workers/bot_runner.py:299-310 | Over a whole run a call is dispatched at most once, only when terminal; so attempts stay within the maximum and at most one is accepted |
| OrchestrationTheorems.DispatchIsCertainWithoutCrash | src/oreeai_notetaker/workers/bot_runner.py:299-381 | In a run without a crash a call is terminal exactly when its one dispatch is due, under way, done or next, and every post and acceptance is on the books |
| OrchestrationWebhooks.NeverSentExactly | src/oreeai_notetaker/workers/bot_runner.py:299-310 | An ended call that nothing acts for stays without its webhook in every continuation if and only if its dispatch is neither due nor has begun |
| OrchestrationWitnesses.CrashLosesADispatch | src/oreeai_notetaker/workers/bot_runner.py:523-532 | A run in which a crash comes between the terminal commit and the dispatch, and the webhook is not sent in any continuation |
| OrchestrationTiming.NoCallIsStranded | src/oreeai_notetaker/workers/bot_runner.py:770-801 | If completed stale sweeps are at most a gap apart, every claimed call is terminal within 2 * (record duration + 300) + 2400 + 3 gaps of its claim, crashes included |
| OrchestrationTiming.ActKeepsOnTime | src/oreeai_notetaker/workers/bot_runner.py:770-801 | No action refreshes a row that has rested longer than its cutoff plus the gap |
| OrchestrationTiming.PromptCallsAreNeverStale | src/oreeai_notetaker/workers/bot_runner.py:776-787 | A call that never rests longer than the record duration + 300 s in joining or recording, nor longer than 2400 s in processing, is on no stale sweep's list and is never failed as stale, however the sweeps fall |
| OrchestrationTiming.OverdueIsLate | src/oreeai_notetaker/workers/bot_runner.py:770-787 | The stale query's condition is exactly that a row has rested longer than that |
| OrchestrationWitnesses.WholeLifeOfACall | src/oreeai_notetaker/workers/bot_runner.py:535-570 | A run exists in which a call is queued, recorded, transcribed, delivered once, scrubbed and reclaimed: the theorems are not about an empty set of runs |
| OrchestrationWitnesses.StaleSweepLeaksAnObject | src/oreeai_notetaker/workers/bot_runner.py:789-801 | A run in which the stale sweep fails a call after its upload, and the object is there in every continuation |
| OrchestrationWitnesses.UploadFailureKeepsTheWav | src/oreeai_notetaker/workers/bot_runner.py:523-532 | A run in which the upload fails, and the WAV is there in every continuation |
| BotRunner.NextQueued | src/oreeai_notetaker/workers/bot_runner.py:667-675 | The claim takes the oldest queued row that is not locked; none only if there is none |
| BotRunner.Runner.PollOnce | src/oreeai_notetaker/workers/bot_runner.py:657-704 | The oldest free queued row becomes joining if and only if in-flight plus queued calls are within the limit and the disk has room; else it fails as concurrency_limit when they exceed it, and as disk_full otherwise, with one webhook and no coroutine; after an admission at most the limit is in flight |
| BotRunner.RefusalExample | src/oreeai_notetaker/workers/bot_runner.py:686-704 | A queued call and a full disk: the poll reports true although it claimed nothing and the call has failed |
| BotRunner.Runner.StaleSweep | src/oreeai_notetaker/workers/bot_runner.py:770-801 | Exactly the rows joining or recording for more than the record duration + 300 s, or processing for more than 2400 s, are failed as stale and dispatched once each, also those whose container cannot be killed |
| BotRunner.OverdueInSeconds | src/oreeai_notetaker/workers/bot_runner.py:770-780 | The sweep's condition in seconds |
| BotRunner.Runner.OrphanSweep | src/oreeai_notetaker/workers/bot_runner.py:707-747 | Only containers that cannot be killed are left; exactly the non-terminal calls among the leftovers fail as worker_restart and are dispatched once each; a failed listing changes nothing |
| BotRunner.OrphansInFull | src/oreeai_notetaker/workers/bot_runner.py:727-738 | After an orphan sweep exactly the calls that had a container and had not ended are failed as worker_restart |
| BotRunner.Runner.RunCall | src/oreeai_notetaker/workers/bot_runner.py:627-647 | A joining call ends terminal with exactly one dispatch, and its WAV is afterwards in scratch or in the store as the upload went; any other call is left alone |
| BotRunner.Runner.ApplyExitStatus | src/oreeai_notetaker/workers/bot_runner.py:313-381 | One row moves to the row that exit, WAV and outside determine, one dispatch goes out unless it was terminal, and the WAV leaves scratch exactly when its upload landed |
| BotRunner.Runner.ProcessCall | src/oreeai_notetaker/workers/bot_runner.py:371-381 | A processing call ends terminal with one dispatch; its WAV moves from scratch to the store exactly when the upload lands |
| BotRunner.Runner.TranscribeCall | src/oreeai_notetaker/workers/bot_runner.py:374-381 | After the upload the call ends done or as a failed transcription, with its URL, one dispatch, and no scratch copy either way |
| BotRunner.Runner.UploadCallAudio | src/oreeai_notetaker/workers/bot_runner.py:484-532 | Either the object is in the store and the row untouched, or the store is untouched and the call fails as upload_failed with one dispatch |
| BotRunner.Runner.MarkTranscriptionFailed | src/oreeai_notetaker/workers/bot_runner.py:448-475 | The failed row carries the URL of the stored object, the scratch copy goes, one dispatch goes out |
| BotRunner.Runner.FinishDoneCall | src/oreeai_notetaker/workers/bot_runner.py:535-570 | Transcript, end reason and URL land with done, the scratch copy goes, one dispatch goes out |
| BotRunner.PipelineFollowsTheProtocol | src/oreeai_notetaker/workers/bot_runner.py:313-381 | The pipeline run in one go and the protocol's steps end with the same row, stored object, scratch WAV and dispatch |
| BotRunner.SessionFollowsTheProtocol | src/oreeai_notetaker/workers/bot_runner.py:627-647 | From the check of a claimed call to the bot's exit, the coroutine and the protocol agree on row, WAV, container and exit; a call that is not joining any more gets no bot |
| BotRunner.FailedSpawnMeans | src/oreeai_notetaker/workers/bot_runner.py:273-281 | A bot that cannot be started fails its call as bot_error with -1 |
| BotRunner.ClaimFollowsTheProtocol | src/oreeai_notetaker/workers/bot_runner.py:657-704 | The protocol's two claim steps in a row leave the row, coroutine and dispatch that the claim in one go leaves, stated in numbers |
| BotRunner.SweepFollowsTheProtocol | src/oreeai_notetaker/workers/bot_runner.py:789-801 | One id of a sweep and the protocol's sweep step agree, also that a terminal call is left alone |
| BotRunner.StaleSweepIsComplete | src/oreeai_notetaker/workers/bot_runner.py:770-801 | After a stale sweep no row is overdue |
| CallLoop.EndsOnce | bot/listeners.py:190-429 | A trace of polls ends at most once and with one outcome |
| MeetLoop.PollOnce | bot/listeners.py:220-429 | One iteration of the Meet loop, branch by branch, is one step of the shared machine on what the page shows, and the recorder runs exactly while the loop records |
| MeetLoop.RunCallLoop | bot/listeners.py:190-429 | The Meet loop ends exactly where the machine ends on the same trace, with the same outcome and the same doings; a returned outcome leaves no recorder, but for a start that failed late |
| MeetLoop.JoinAndRecord | bot/join_meet.py:355-372 | Once the loop has ended, the recorder runs if and only if the trace has a late start: quiet polls, then an admission whose start raises with the child spawned already; no page query, leave click or wait that raises leaves it running |
| MeetLoop.LateStartExample | bot/listeners.py:230-241 | A trace of one poll after which the recorder runs |
| LateStarts.WaitingMeansQuiet | bot/listeners.py:220-275 | The loop still waits after some polls if and only if each of them was quiet: no stop, admission, wall or exception, and the waiting time not over |
| LateStarts.LateStartsExactly | bot/listeners.py:230-241 | At the poll where the loop ends, a failed start that orphans its child is the same as a late start of the trace |
| LateStarts.LateStartOfTheTrace | bot/listeners.py:230-241 | Once the loop has ended, ending by such a start and having a late start anywhere in the trace are the same |
| ZoomLoop.PollOnce | bot/listeners_zoom.py:301-524 | One iteration of the Zoom loop, branch by branch, is one step of the shared machine on what the page shows |
| ZoomLoop.RunCallLoop | bot/listeners_zoom.py:264-524 | The Zoom loop ends exactly where the machine ends on the same trace, with the same outcome and the same doings |
| ZoomLoop.JoinAndRecord | bot/join_zoom.py:296-313 | Once the loop has ended, the recorder runs if and only if the trace has a late start |
| ZoomLoop.LateStartExample | bot/listeners_zoom.py:314-321 | A trace of one poll after which the recorder runs |
| RecorderControl.Recorder.Start | bot/record_audio.py:130-151 | A child that exits within the grace is let go; one that was spawned before the start raised runs on and stays owned |
| RecorderControl.StartRecording | bot/listeners.py:230-252 | The admitting poll starts and announces or fails at once, and then leaves a child only after a late failure |
| RecorderControl.PollKnocking | bot/listeners_zoom.py:339-370 | A poll that is not admitted gives up for a wall before it gives up for time, and else waits |
| RecorderControl.Recorder.Stop | bot/record_audio.py:162-184 | Stopping is idempotent and lets go of the child |
| RecorderControl.Finish | bot/listeners.py:143-162 | The recorder is stopped whether or not leaving raises |
| RecorderControl.HandleStop | bot/listeners.py:165-187 | A stop before the recording leaves the recorder alone and reports no recording; a later one stops it |
| RecorderControl.CheckOver | bot/listeners.py:277-324 | Removal, end, a dead recorder and the time limit end the call in that order, and only a poll with none of them goes on |
| RecorderControl.WatchRoom | bot/listeners.py:326-402 | On a poll with in-call evidence the timers move, and the call ends, as the machine says |
| CallLoopMeaning.AloneMeans | bot/listeners.py:331-355 | The loop leaves as alone if and only if others were seen once and since some poll at least the grace ago every in-call poll shows it alone; polls without evidence do not restart the clock |
| CallLoopMeaning.EmptyRoomMeans | bot/listeners.py:356-374 | Exit 4 if and only if no in-call poll ever showed anyone else, the room shows empty now and the empty-room time has passed since the admission |
| CallLoopMeaning.UnknownRoomMeans | bot/listeners.py:378-398 | The count-unavailable exit if and only if nobody else was ever seen and for the empty-room time no in-call poll could tell who is there: unknown is never taken for empty |
| CallLoopMeaning.ControlsGoneMeans | bot/listeners.py:403-427 | The missing-controls end if and only if this poll and the two before it, all after the admission, show no evidence |
| CallLoopMeaning.OutcomesNameTheirBranch | bot/listeners.py:190-429 | The alone end reason and exit 4 come from no other branch than the ones above |
| CallLoopExits.RemovalMeans | bot/listeners.py:277-284 | The loop ends with exit 3 and removed if and only if a poll after the admission, not a stop, shows the removal |
| CallLoopExits.EndMeans | bot/listeners.py:286-293 | Exit 0 and call_ended on the notice if and only if such a poll shows the end and no removal |
| CallLoopExits.RecorderDeathMeans | bot/listeners.py:295-309 | Exit 5 for the dead recorder if and only if its child is gone while the call goes on, and leaving works |
| CallLoopExits.TimeLimitMeans | bot/listeners.py:311-324 | Exit 0 and give_up if and only if the longest recording time has passed since the admission, and nothing earlier applies |
| CallLoopExits.StopMeans | bot/listeners.py:165-187 | Exit 0 without an end reason if and only if the poll asks for a stop, telling apart before and after the admission |
| CallLoopExits.WaitingTimeoutMeans | bot/listeners_zoom.py:344-353 | Exit 2 if and only if a bot that is not admitted sees no wall and the waiting time has passed; the reason tells whether the host has started |
| CallLoopExits.WallMeans | bot/listeners_zoom.py:339-342 | Exit 5 for a wall if and only if that wall shows to a bot that is not admitted |
| CallLoopExits.FailedStartMeans | bot/listeners.py:230-241 | Exit 5 for the recorder's start if and only if an admission's start fails |
| CallLoopExits.OutcomeTable | bot/listeners.py:190-429 | Each reason has one exit code and one end reason, and the recording flag says whether the admission had come: with the meanings above no outcome is without its condition |
| CallLoopExits.ExceptionsNeedAFault | bot/listeners.py:220-275 | An exception leaves the loop only on a poll where something raised; for waiting polls and stops, exactly when |
| CallLoopExits.FaultsEndTheLoop | bot/listeners.py:220-429 | The loop does not go on past a query or a wait that raised, and a leaving that raised lets only those outcomes through that need none |
| CallLoopMeaning.LonelinessIsTimed | bot/listeners.py:331-355 | The alone timer is set exactly while some all-alone stretch reaches to now, to the start of the longest such stretch |
| CallLoopMeaning.IgnoranceIsTimed | bot/listeners.py:378-398 | Until others are seen the unknown timer is set exactly while a stretch of unknown polls reaches to now, to the start of the longest |
| CallLoopMeaning.OthersAreRemembered | bot/listeners.py:331-335 | The loop has seen others exactly when some in-call poll of the trace showed at least two participants |
| CallLoopMeaning.GoneIsCounted | bot/listeners.py:403-427 | The miss counter is the number of evidence-free polls just before now, and below three while the loop runs |
| CallLoopSafety.PollsAreInTime | bot/listeners.py:261-324 | No poll happens later than waiting time + record time + two intervals after the start |
| CallLoopSafety.LoopEndsInTime | bot/listeners.py:190-429 | Once there are more polls than fit before that deadline, the loop has ended, and not after it: termination |
| CallLoopSafety.SessionLogs | bot/listeners.py:143-252 | The recorder is started at most once, the announcement comes once and only after it, and a returned outcome after a start has stopped it |
| CallLoopSafety.OutcomesAreValid | bot/listeners.py:76-92 | Every returned outcome obeys the validity rules that its constructor enforces |
| Platforms.NoticesCannotEndALiveCall | bot/states_zoom.py:169-207 | At a poll where Leave or End shows and no terminal dialog does, no text makes the Zoom loop report a removal or an end |
| Platforms.NoticeTextDoesNotInterfere | bot/states_zoom.py:169-207 | Putting such text in or taking it out on any polls with the toolbar up changes neither where the Zoom loop ends nor its outcome |
| Platforms.ToolbarGoneForThreePolls | bot/listeners_zoom.py:506-522 | The missing-toolbar end if and only if three polls in a row after the admission show neither Leave nor End |
| Platforms.MeetPagesMean | bot/states.py:99-196 | What each sign of a Meet page is in terms of its marks: knocking text overrides the leave control, a count only shows with it, and an unknown count is alone only with a hint |
| Platforms.ZoomPagesMean | bot/states_zoom.py:90-270 | The same for Zoom: Leave and End alike, both notices override them, dialogs are trusted always and text only without the toolbar |
| Platforms.ZoomWallsMean | bot/listeners_zoom.py:143-174 | Which wall is reported when several show |
| Platforms.UnknownIsNeverLeft | bot/states.py:175-196 | Neither loop leaves as alone or for an empty room at a poll without a count and a hint, or with a count of two or more |
| Platforms.StepsAgreeExactly | bot/listeners.py:326-427 | On the same poll and controls, the two recording loops move the same way if and only if waiting text is harmless: something ends the call first, there is none, the controls are gone, or by the timers and the count the room is quiet |
| Platforms.QuietRooms | bot/listeners_zoom.py:429-504 | The room is quiet, in terms of who shows, which timers run and how long they have, exactly when a look at it does what a mere wait does |
| Platforms.PollsAgreeExactly | bot/listeners_zoom.py:429-522 | The same condition at every poll of two whole traces |
| Platforms.LoopsAgree | bot/listeners_zoom.py:264-524 | While waiting text is harmless, the Meet loop ends at a poll if and only if the Zoom loop does, with the same code, end reason and recording flag, and else both are in the same state |
| Platforms.LoopsPart | bot/listeners.py:403-412 | At the first poll where it is not, both loops are recording in the same state and their moves differ: Meet waits, Zoom acts on the room |
| Platforms.NoTextIsHarmless | bot/listeners.py:403-412 | Traces without waiting text in mid-call never part the loops |
| Platforms.WaitingTextExample | bot/listeners.py:403-412 | Two whole traces from the start that show the same at every poll, with waiting text on the last only: Zoom leaves as alone there, Meet goes on |
| EndToEnd.DoneAloneMeans | bot/join_meet.py:459-475 | A row ends done/alone if and only if the loop left as alone, the WAV is audible or silent and the pipeline succeeds; and then others were once seen |
| EndToEnd.NoShowMeans | src/oreeai_notetaker/workers/bot_runner.py:287-296 | A row ends failed/no_show if and only if the loop found the room empty, and then no poll ever showed anyone; no row ends as join_timeout |
| EndToEnd.SilentMeans | src/oreeai_notetaker/workers/bot_runner.py:343-365 | A row ends failed/silent_recording if and only if a clean recorded end other than alone left a silent WAV |
| EndToEnd.OperatorStopMeans | src/oreeai_notetaker/workers/bot_runner.py:343-365 | For every WAV verdict and also when leaving raises: a stop ends done if and only if it came while recording, leaving worked, the WAV is audible and the pipeline succeeds, and then as call_ended; before the recording it fails as bot_error:exit_0 |
| EndToEnd.OperatorStopExample | src/oreeai_notetaker/workers/bot_runner.py:351-357 | A trace of two polls, admitted and stopped, whose result line names no reason and whose row ends done as call_ended |
| EndToEnd.DoneNamesItsReason | src/oreeai_notetaker/workers/bot_runner.py:351-357 | A row ends done if and only if it ends with an end reason: no done row has a null one |
| EndToEnd.ExitTable | src/oreeai_notetaker/workers/bot_runner.py:343-381 | Only exits 0, 3 and alone-via-silence of a recording bot go on to the upload; they end done exactly when WAV, upload, source and transcription work, with alone for 7, removed for 3, and the bot's own reason or call_ended for 0; the URL is there exactly when the upload landed |
| EndToEnd.FailureTable | src/oreeai_notetaker/workers/bot_runner.py:287-296 | Each failure reason comes from its own exit code and no other: never_admitted 2, no_show and join_timeout 4, consent_missing 6, silent_recording 7, bot_error the rest; upload_failed exactly when an exit that goes on has no WAV in the store |
| EndToEnd.TranscriptionFailureTable | src/oreeai_notetaker/workers/bot_runner.py:414-475 | transcription_failed exactly when the upload landed and the source or the transcription failed, with that detail |
| EndToEnd.DoneRemovedMeans | src/oreeai_notetaker/workers/bot_runner.py:343-354 | A row ends done/removed if and only if the page showed the removal while recording and the pipeline succeeds |
| EndToEnd.DoneGiveUpMeans | src/oreeai_notetaker/workers/bot_runner.py:343-357 | A row ends done/give_up if and only if the longest recording time had passed since the admission, nothing ended the call first, the WAV is audible and the pipeline succeeds |
| EndToEnd.DoneCallEndedMeans | src/oreeai_notetaker/workers/bot_runner.py:343-357 | A row ends done/call_ended if and only if an end notice, the missing controls or a stop ended the recording, the WAV is audible and the pipeline succeeds |
| EndToEnd.NeverAdmittedMeans | src/oreeai_notetaker/workers/bot_runner.py:287-296 | A row ends failed/never_admitted if and only if the waiting time passed without an admission or a wall |
| EndToEnd.BotErrorMeans | bot/join_meet.py:459-475 | A row ends failed/bot_error:exit_5 if and only if the loop raised or ended with an error, or a clean recorded end left no readable WAV; bot_error:exit_0 if and only if a stop came before the admission; no other number occurs |
| Retention.Reclaimable | src/oreeai_notetaker/workers/retention.py:119-138 | A pass's target: rows expired at the query that are neither locked then or later nor fail to delete |
| Retention.Worker.EnforceRetention | src/oreeai_notetaker/workers/retention.py:64-116 | A pass deletes the objects and clears the URLs of exactly the free rows with a URL that are done for more than the done days or failed for more than the failed days, in seconds, and whose deletion works; returns their number; changes nothing else; misconfigured, it changes nothing |
| Retention.ExpiredInSeconds | src/oreeai_notetaker/workers/retention.py:119-138 | The query's condition in seconds, one window for each status |
| Retention.Worker.ReclaimEach | src/oreeai_notetaker/workers/retention.py:91-116 | The loop does so for any list, in any order, with any locks and failures |
| Retention.ReclaimFollowsTheProtocol | src/oreeai_notetaker/workers/retention.py:92-106 | One reclaim and the protocol's two retention steps leave the same row, and no object |
| Retention.ReclaimedRowsStayReclaimed | src/oreeai_notetaker/workers/retention.py:119-138 | What a pass reclaimed no later query returns, at any time |
| Retention.UndisturbedPassIsComplete | src/oreeai_notetaker/workers/retention.py:64-116 | Without locks and failures no expired row is left |
| TranscriptionRetries.Transcribe | src/oreeai_notetaker/services/transcription.py:80-121 | The first answer that is not transient among the first three decides; one sleep after each transient answer but the last; too large an audio never reaches the provider |
| TranscriptionRetries.DecisionIsUnique | src/oreeai_notetaker/services/transcription.py:95-121 | That policy determines the number of provider calls and the result |
| TranscriptionRetries.PolicyInFull | src/oreeai_notetaker/services/transcription.py:60-121 | One, two or three calls, with sleeps of 1 s and 4 s between them; a success on the third is returned, three transient answers exhaust the policy |
| TranscriptionRetries.PolicyTime | src/oreeai_notetaker/services/transcription.py:95-121 | With attempts of at most 660 s the whole policy, sleeps included, takes at most 1985 s |
| ProcessingBudget.CallsInBudgetAreNeverStale | src/oreeai_notetaker/workers/bot_runner.py:770-801 | Over a whole run: if no crash takes its coroutine and each phase keeps its own budget (upload, source and commit 415 s together, every provider attempt 660 s), a call is never listed or failed by a stale sweep |
| ProcessingBudget.OnBudgetIsNotOverdue | src/oreeai_notetaker/workers/bot_runner.py:93-103 | The phase budgets add up along the run to at most the 2400 s cutoff |
| ProcessingBudget.RunsKeepInStep | src/oreeai_notetaker/workers/bot_runner.py:367-381 | While a call is processing its coroutine is in one of the phases, and each began no later than the budgets of those before it allow |
| ProcessingBudget.ActMovesOnInPhase | src/oreeai_notetaker/workers/bot_runner.py:367-381 | A call comes into processing only with its upload beginning, its stamp is not refreshed while it is, and its phases only go forward |
| TranscriptionRetries.TheReserveIsTight | src/oreeai_notetaker/workers/bot_runner.py:93-103 | 415 s is exact: with 416 s the slowest policy is overdue at its end |
| WebhookDelivery.Dispatcher.Deliver | src/oreeai_notetaker/workers/webhook_dispatcher.py:90-139 | The loop stops at the first answer that is final or at the maximum, counts every attempt on the row, sleeps between attempts only, and stamps the row exactly on an acceptance |
| WebhookDelivery.EndIsUnique | src/oreeai_notetaker/workers/webhook_dispatcher.py:92-132 | Where the loop ends is determined by the answers and the maximum |
| WebhookDelivery.DeliveryInFull | src/oreeai_notetaker/workers/webhook_dispatcher.py:92-132 | Only a network error or a 5xx is tried again, a 2xx delivers, and any other answer, a 4xx among them, ends the delivery |
| WebhookDelivery.SleepsInFull | src/oreeai_notetaker/workers/webhook_dispatcher.py:36 | The sleeps are 1, 4, 16, 64 and then always 256 s |
| WebhookDelivery.DeliveryFollowsTheProtocol | src/oreeai_notetaker/workers/bot_runner.py:299-310 | The loop stops exactly when the protocol allows no further post, and leaves the protocol's row |
| WebhookDelivery.BackoffTotal | src/oreeai_notetaker/workers/webhook_dispatcher.py:36 | n sleeps total (4^k - 1)/3 seconds with k = min(n, 5), and 256 for each further one |
| Deepgram.SegmentsFromWords | src/oreeai_notetaker/integrations/transcription/deepgram.py:269-314 | The segments are those of the maximal one-speaker runs of the words that parse, across alternatives; kept and dropped words add up to the words seen |
| Deepgram.AppendWord | src/oreeai_notetaker/integrations/transcription/deepgram.py:301-313 | One more word turns the segments of a maximal cut into those of the maximal cut of the longer word list |
| Deepgram.RunsAreUnique | src/oreeai_notetaker/integrations/transcription/deepgram.py:269-314 | A word list has only one cut into maximal runs, so the segments are determined |
| Deepgram.LastRunIsTheTail | src/oreeai_notetaker/integrations/transcription/deepgram.py:302-304 | The last run takes all the words at the end that have one speaker |
| Deepgram.SegmentsAlternate | src/oreeai_notetaker/integrations/transcription/deepgram.py:302-313 | Neighbouring segments differ in speaker, the first starts with the first word and the last ends with the last, and there are none only without words |
| Deepgram.TrimmedWordsJoin | src/oreeai_notetaker/integrations/transcription/deepgram.py:301-304 | The repeated join-and-strip is the space-join of the non-empty words, when words are trimmed |
| Deepgram.SegmentsFromUtterances | src/oreeai_notetaker/integrations/transcription/deepgram.py:244-266 | One segment per utterance that parses, in order, and the rest is counted as dropped |
| Deepgram.ParseResponse | src/oreeai_notetaker/integrations/transcription/deepgram.py:194-235 | Utterances win over words when they are a list; the result is empty without error if and only if nothing came back, and entries of which none parses fail |
| DeepgramRoundTrips.UtterancesRoundTrip | src/oreeai_notetaker/integrations/transcription/deepgram.py:244-266 | Every utterance that a provider says comes back as a segment, in order, with its own speaker, start, end and text |
| DeepgramRoundTrips.WordsRoundTrip | src/oreeai_notetaker/integrations/transcription/deepgram.py:286-301 | The merger works on exactly the words said, in order, each with its own speaker and times and its punctuated form if there is one |
| DeepgramRoundTrips.WordsInOrder | src/oreeai_notetaker/integrations/transcription/deepgram.py:282-287 | The words of all alternatives are taken in order, none left out |
| DeepgramRoundTrips.AlternativesInOrder | src/oreeai_notetaker/integrations/transcription/deepgram.py:222-241 | The alternatives of all channels are taken in order, none left out |
| DeepgramRoundTrips.EntriesParseExactly | src/oreeai_notetaker/integrations/transcription/deepgram.py:255-300 | An entry parses if and only if it is an object with an integer or boolean speaker and two numeric times, and an utterance also with a text |
| DeepgramRoundTrips.PunctuatedWordsComeFirst | src/oreeai_notetaker/integrations/transcription/deepgram.py:301 | The punctuated form if it is not empty, else the bare one, else nothing |
| DeepgramRoundTrips.TimesConvert | src/oreeai_notetaker/integrations/transcription/deepgram.py:263-265 | How integers, booleans and floats become times |
| DeepgramRoundTrips.OthersAreSkipped | src/oreeai_notetaker/integrations/transcription/deepgram.py:238-241 | What is not an object is skipped in a list of objects, and what is not a list counts as none |
| Audio.Accumulate | bot/record_audio.py:65-96 | The totals are those of the whole file for every chunk size |
| Audio.OneMoreSquare | bot/record_audio.py:87-94 | A sample adds its own square to the total |
| Audio.CheckRecording | bot/record_audio.py:101-112 | Missing, unreadable, silent below the floor, else audible; a file without samples has level zero |
| Audio.ThresholdWithoutRoot | bot/record_audio.py:101-112 | Comparing the root mean square with the floor is comparing the total with floor^2 * n, for a positive floor |

## Left out

- BotRunner.Runner.PollOnce: no other participant acts between its steps here; the interleaved claim is the protocol's, and the row order is an input because rows carry no creation time.
- BotRunner.Runner.StaleSweep: no other participant acts during the sweep here; the protocol has one step per id. Killing a container before marking its call is a step of its own there, in any order.
- BotRunner.Runner.OrphanSweep: container names that are not call ids, which the sweep removes without touching any call.
- BotRunner.Runner.FinishDoneCall: the retention pass that follows a done call is left to the protocol, where a pass may begin at any time.
- MeetLoop.JoinAndRecord: a recorder whose stop raises.
- RecorderControl.Recorder.Stop: the signals and the time-outs of ending the child.
- CallLoopMeaning.AloneMeans: a leave click that raises instead of returning this outcome is excluded; that the recorder stops then too is SessionLogs and JoinAndRecord.
- Audio.Accumulate: reading the WAV header, and the floating-point rounding of the totals.
- Audio.ThresholdWithoutRoot: stated over reals, with the root as a number whose square is given.
- ProcessingBudget.CallsInBudgetAreNeverStale: the budget of each phase is a premise; that a provider attempt ends within its read time-out is the HTTP client's, and the attempts are steps of the retry method, not of the protocol.
- OrchestrationRetention.RetentionIsPrompt: that retention passes come, and undisturbed, is a premise; the row's last stamp is the end of the call or the beginning of its delivery.
- Deepgram.TrimmedWordsJoin: which characters are white space, and how values that are not strings print, are parameters.
- WebhookDelivery.Dispatcher.Deliver: signing, the payload's contents and the flush after each attempt.
- The texts of the reasons that a loop reports (each has one name here, so none is empty), and the periodic screenshots while waiting or while the count is unknown.
- How a page is searched: selectors, regular expressions for the participant count, clicks, the joining forms before the loop starts.
- Whether the done payload carries the URL: a retention pass may run between the done commit and its dispatch.
- The runner's main loop, its heartbeat, and the fairness of its polling: the order in which participants act is any order.
- Provider selection, settings, request validation, authentication, spawn arguments, profile copies, log parsing, migrations and deployment: finite or about other systems.
