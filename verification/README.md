# Recording controller: a verified model

A controller (the API) and one agent per machine record a session together.
The API queues commands, agents poll for them and acknowledge them, reports
come back, media goes to object storage, and a session ends stored, discarded
or failed. This project states what that machinery keeps over whole runs and
proves it, for every input, every interleaving and every crash the model admits.

## How it is put together

Services and agent components whose methods update fields are classes, or
methods with loops, in the form of the program. An API service's method is
proved equal to a specification function of the old state, and runs of the API
are made of those functions. The agent's command path and its report queue
wait in the middle of their work; their methods are proved to do, step by
step, what the agent and the queue of a run do (`Agents`, `Reports`), whatever
happens while they wait.

| files | what they hold |
|---|---|
| `Entities`, `Wrappers` | the rows the API stores, its in-memory readiness, failures as values |
| `Commands`, `Sessions`, `Manifests`, `Previews`, `Slugs`, `Prefixes` | the API's services, the slugs, the storage prefix and the guarded purge |
| `Lifecycle`, `PreviewRuns` | whole runs of the API: every request in any order, restarts in between |
| `AppliedSet`, `Delivery`, `Agents`, `Redelivery` | API, agents, lost and late messages, crashes: what happens to each command |
| `Histories` | the life-cycle theorems, stated of those histories |
| `Reports` | the agent's queue of undelivered reports |
| `Layout`, `Continuous`, `Upload`, `Completion` | the recording directory, its manifest, the two uploaders, the worker pool, the readback, and completions by several machines |
| `Scenarios` | runs that show where a session of two machines goes wrong |
| `Input`, `Health` | the chunked event parser and the stall detector |
| `Buckets`, `Timeline`, `Peaks` | the arithmetic of buckets, the activity timeline and the waveform |

A run is a sequence of states and the calls, events or acts between them. In
`Delivery` one step is one API handler, or one thing an agent does between two
awaits. A poll answer may fail to arrive, an acknowledgement may arrive late or
never, saves of the applied list land in any order or not at all, a handler
may throw at any point, and agents and API restart whenever they like.

## Where the code and its comments differ

The model follows the code. These are the places where that matters.

- A comment says `deliveryCount` tells a retired command from an applied one
  (`src/sessions/commands.service.ts:126-128`). It does below the cap: an
  acknowledged row with a smaller count was applied
  (`Redelivery.BelowCapWasApplied`). At the cap, which the count never exceeds
  (`Redelivery.DeliveriesAreCapped`), it does not: retiring a row leaves what
  an acknowledgement leaves (`Commands.RetiringLooksLikeAcknowledging`).
- Abandonment ignores the lease: a third delivery is given up by the next poll
  of its agent, however recent it is (`Sessions.LeaseProtectsNobody`).
- A handler that throws is neither recorded nor acknowledged, so the same
  process can run it again (`Redelivery.SameProcessRunsTwice`).
- A ready report is remembered even when the transition it triggers is refused
  (`Sessions.RefusedReadyIsRemembered`), and the first `stopped` report takes
  the session to review whatever the other agents do
  (`Scenarios.OneStopSuffices`).
- A session can be stored although the manifest of a participant never arrived
  (`Scenarios.StoredWithoutSecond`). The completion vouches for a machine's
  media exactly when the manifests it found expect all that the machine's own
  would name (`Completion.VouchedForExactly`), so whenever that manifest was
  among them (`Completion.HeldIsVerified`).
- A session on several machines fails when the first of them completes before
  the others have uploaded. That completion is accepted exactly when all that
  the other manifests name is already in storage
  (`Completion.AcceptedExactly`). Otherwise it is refused, its agent reports a
  failed upload, and no later completion is accepted
  (`Completion.EarlyCompletionFails`, with such a run in
  `Scenarios.FirstToFinishFails`).
- Slugs are not injective. A source has its audio key to itself exactly when it
  is all letters, digits and dashes (`Previews.AudioKeyIsShared`). A track's
  source always shares its slug with the one a leading slash makes of it
  (`Manifests.LeadingSlashIsLost`); among sources without a leading slash it is
  alone exactly when it holds no dash and no character a slug may not hold
  (`Manifests.SlugIsShared`).
- `closedSegments` is meant to hold back the segment still being written. It
  lets a highest-numbered one through exactly when two names share the highest
  number (`Continuous.ClosedSparesHighest`; `Continuous.HighestIsClosed` has
  the listing).
- A pool with a concurrency below one starts no runner, so a readback with it
  reports verified without reading anything (`Upload.Uploader.Verify`). The
  program never configures such a value.
- Deleting events nobody counts changes nothing unless one that carries a
  detail line stands between a raw header and its own detail
  (`Input.CookedChangesNothing`, with the condition in both directions).
- Under a year that is not four digits long every purge is refused
  (`Prefixes.PrefixPassesGuard`, an if-and-only-if).

## Model

| member | source | states |
|---|---|---|
| Delivery.NoCommandIsLost | agent/src/agent.ts:148-178 | in every history an acknowledged row either had its handler run to completion on the agent it was meant for, or an earlier poll of that agent found it unacknowledged at the cap and its sweep listed it |
| Delivery.AcksAreTrue | agent/src/agent.ts:166-177 | every acknowledgement on its way, and every list of applied ids in memory, in flight to disk or on disk, names only commands that agent finished |
| Delivery.StepRows | src/sessions/commands.service.ts:77-132 | one event changes a row in one of three ways only: hand-out of the next eligible row, acknowledgement by its own agent, retirement by a sweep that lists it as dead |
| Delivery.HistoryIsApiRun | src/sessions/sessions.controller.ts:62-122 | seen from the API every history is one of its runs: the calls are exactly those its events ask, each at the clock of its event, and at every moment of the history the API is the state of that run at that place |
| Histories.EventInRun | src/sessions/sessions.controller.ts:62-122 | an event of a history is one call of that run, from the API before it to the API after it, or leaves the API as it is |
| Histories.BarrierInHistory | src/sessions/sessions.service.ts:114-186 | in every history, with agents, losses and crashes in play, starts for a session are queued by one event only, from preparing to recording, by a session that never failed, after every participant reported ready since the last API restart, its last report within the recorded bound |
| Histories.StoredInHistory | src/sessions/manifest.service.ts:57-92 | in every history a stored session was saved out of review by one event, and by a later one found complete against the manifests then held under its prefix |
| Histories.PrefixInHistory | src/sessions/sessions.service.ts:157-264 | in every history a prefix once set is never another, and every start, upload, abort and render command carries its session's |
| Histories.PreviewInHistory | src/preview/preview.service.ts:263-346 | in every history a ready preview keeps its state and artifacts, and was complete against the manifests held when its report was served |
| Histories.RendersInHistory | src/preview/preview.service.ts:142-185 | in every history a report took the row out of rendering between two renders queued for one session |
| Redelivery.SecondExecutionHasCause | agent/src/agent.ts:148-178 | a command is carried out again only after a further hand-out made while no acknowledgement had landed, and only if the earlier execution threw or died, or finished and was forgotten by a restart for one of four causes |
| Redelivery.RestartForgets | agent/src/applied-store.ts:32-60 | those causes: unreadable file, spoiled write, a save older than the command's completion, or the id no longer among the newest 200 |
| Redelivery.ExecutionIsAccountedFor | agent/src/agent.ts:163-173 | from its start on, an execution is running, cut short, still known to the agent, or forgotten for a cause |
| Redelivery.AgentsAreTied | agent/src/applied-store.ts:53-60 | in every history memory, pending saves and file of an agent stay related: each save is the newest 200 of a list the process once held, whatever order saves land in |
| Redelivery.ExecutionsAreCapped | src/sessions/commands.service.ts:30-105 | executions of one command never outnumber its hand-outs, never exceed three, and happen on its own agent only |
| Redelivery.DeliveriesAreCapped | src/sessions/commands.service.ts:77-105 | `deliveryCount` equals the number of hand-outs in the history and never exceeds three |
| Redelivery.BelowCapWasApplied | src/sessions/commands.service.ts:122-132 | in every history an acknowledged row whose count is below the cap had its handler run to completion on its own agent |
| Redelivery.SameProcessRunsTwice | agent/src/agent.ts:163-178 | a history in which a handler throws and one process, never restarted, runs the same command twice |
| Redelivery.HandOutsAreSpaced | src/sessions/commands.service.ts:82-100 | two hand-outs of a command are at least a lease apart, and each took an oldest row eligible at that moment |
| Agents.AgentProcess.Handle | agent/src/agent.ts:148-178 | with saves settling at every wait, the path does act by act what the agent of a history does: refuse and acknowledge a duplicate; run, record, save and acknowledge a new command in that order; throw, recording and acknowledging nothing |
| Agents.AgentProcess.Await | agent/src/agent.ts:163-177 | whatever settles while the path waits is a step of the same agent and none of the path's own |
| Agents.AgentProcess.Acknowledge | agent/src/agent.ts:209-218 | after the post the path polls again, whether the post succeeded or not |
| Agents.ActsAreHistory | agent/src/agent.ts:148-178 | what an agent does on its own continues any history it is part of, so the theorems about histories hold of the process |
| Agents.AgentProcess.constructor | agent/src/agent.ts:126-142 | a new process over a file is the restart of whatever agent died over it |
| AppliedSet.ReloadKnowsNewest | agent/src/applied-store.ts:32-60 | what is loaded from a landed save is exactly the last 200 ids it was given |
| Commands.CommandsService.NextFor | src/sessions/commands.service.ts:77-105 | whatever other requests do to the table between ticks, hands out an oldest eligible row of the first tick that finds one, stamping it and counting the delivery; gives up only past the deadline with nothing eligible |
| Commands.CommandsService.FindOldest | src/sessions/commands.service.ts:83-93 | finds an eligible row no eligible row is older than, and finds none only when there is none |
| Commands.CommandsService.Ack | src/sessions/commands.service.ts:114-120 | stamps the row of that agent once; an unknown id, another agent's row or a second acknowledgement changes nothing |
| Commands.CommandsService.RetireRow | src/sessions/commands.service.ts:130-132 | stamps that row and no other |
| Commands.CommandsService.FindAbandoned | src/sessions/commands.service.ts:141-152 | lists exactly the agent's unacknowledged rows at the cap, each once, oldest first |
| Commands.NextExists | src/sessions/commands.service.ts:83-93 | when some row is eligible, an oldest eligible one exists |
| Commands.RetiringLooksLikeAcknowledging | src/sessions/commands.service.ts:122-132 | retiring a dead row leaves the table an acknowledgement would have left |
| Sessions.SessionsController.AbandonmentSweep | src/sessions/sessions.controller.ts:72-87 | the loop over dead rows computes the sweep over exactly the abandoned rows, and no transition error escapes it |
| Sessions.SweepFailsOnce | src/sessions/sessions.controller.ts:72-87 | a sweep fails, once each, exactly the sessions that have a dead row and can still fail, whatever the number of dead rows, and leaves all others as they were |
| Sessions.SweepClears | src/sessions/sessions.controller.ts:72-87 | after a sweep the agent has no unacknowledged row at the cap, other rows are untouched, and no session with a dead row can still fail |
| Sessions.LeaseProtectsNobody | src/sessions/commands.service.ts:134-152 | a third delivery made at this very moment is given up by its agent's next poll, and its session fails |
| Sessions.SweepRetires | src/sessions/commands.service.ts:130-132 | every listed row is stamped acknowledged, every other row keeps its value, none is added |
| Sessions.SessionsService.Create | src/sessions/sessions.service.ts:72-112 | the new session, its tracks, one prepare per distinct agent, empty readiness |
| Sessions.PreparedOnce | src/sessions/sessions.service.ts:93-109 | each new track is listed in exactly one prepare command, the one sent to its own agent |
| Sessions.SessionsService.Report | src/sessions/sessions.service.ts:114-186 | the loop-and-branch form of a status report computes its specification, errors included |
| Sessions.RefusedReadyIsRemembered | src/sessions/sessions.service.ts:146-174 | a ready report to a session that may not record is remembered, and answered with an error exactly when it completes the participants |
| Sessions.SessionsService.LargestOffset | src/sessions/sessions.service.ts:168-172 | the maximum of the absolute offsets reported, or zero |
| Sessions.SessionsService.StopRecording | src/sessions/sessions.service.ts:219-229 | a legal stop moves the session and queues one stop per participant; an illegal one changes nothing |
| Sessions.SessionsService.Save | src/sessions/sessions.service.ts:232-247 | a legal save keeps an existing prefix and queues one upload per participant carrying it |
| Sessions.SessionsService.Discard | src/sessions/sessions.service.ts:249-264 | a legal discard queues one abort per participant with the prefix the session has, if any |
| Sessions.ReportOnBehalf | src/sessions/sessions.service.ts:118-126 | a failure reported for a session that can fail is accepted and fails it |
| Lifecycle.BarrierSafety | src/sessions/sessions.service.ts:114-186 | in every run start commands for a session are queued by one call only, from preparing to recording, by a session that never failed, when every participant had reported ready since the last API restart; the recorded bound covers the offset of each one's last ready report, and is zero or the offset of some agent's last ready report |
| Lifecycle.BarrierBroadcast | src/sessions/sessions.service.ts:176-181 | that call queues exactly one start per participant and nothing else, all with the same start instant and the session's prefix |
| Lifecycle.ReadinessIsEarned | src/sessions/sessions.service.ts:147-155 | what the API remembers of an agent is that agent's last ready report for the session, made since the last restart |
| Lifecycle.StoredWasVerified | src/sessions/manifest.service.ts:57-92 | a stored session was saved by the operator out of review, and later a completion found every key of every manifest then held listed with a positive size |
| Lifecycle.PrefixNeverChanges | src/sessions/sessions.service.ts:157-175 | once set, a session's prefix is the same in every later state |
| Lifecycle.PrefixInvariant | src/sessions/sessions.service.ts:157-264 | the prefix is absent while preparing and present from recording to stored, and every start, upload, abort and render command carries its session's own |
| Lifecycle.SessionOverTime | src/sessions/entities/session.entity.ts:22-35 | over any run sessions are never deleted, never return to preparing, never leave a terminal state, and the recorded offset bound never shrinks once recording has begun |
| Lifecycle.StepSession | src/sessions/entities/session.entity.ts:22-35 | any request moves a session along the legal table only, and into each state only by the requests that may: recording by a ready report, review by one stopped report, failed by a failure report or a sweep, the others by the operator's request or a completion |
| Lifecycle.EnteredState | src/sessions/sessions.service.ts:331-337 | every state but the first was entered by some call of the run |
| Manifests.ManifestService.Ingest | src/sessions/manifest.service.ts:22-48 | the manifest is kept, known track rows take its totals, the offset bound can only grow |
| Manifests.TotalledExact | src/sessions/manifest.service.ts:33-39 | a row takes the totals of the last entry naming it, and no other row changes |
| Manifests.ManifestService.ExpectedKeys | src/sessions/manifest.service.ts:94-109 | the set holds exactly the manifest's own key and one key per segment of every manifest |
| Manifests.ListSizes | src/storage/storage.service.ts:96-118 | follows the pages up to the first that is not truncated and maps each key to its last listed size |
| Manifests.VerifySession | src/storage/storage.service.ts:38-58 | verified exactly when something was expected and every expected key is listed with a positive size; missing is exactly the rest |
| Manifests.ManifestService.Complete | src/sessions/manifest.service.ts:57-92 | stores the session exactly when a manifest is held, every expected key reads back and the transition is legal; each other case is refused without a change |
| Manifests.SourceSlug | src/sessions/source-slug.ts:18-20 | one path segment, equal to a source that needs no change |
| Manifests.LeadingSlashIsLost | src/sessions/source-slug.ts:18-20 | every source shares its slug with the one a leading slash makes of it |
| Manifests.SlugIsShared | src/sessions/source-slug.ts:18-20 | among sources with no leading slash, one shares its slug with another if and only if it holds a dash or a character outside the slug alphabet |
| Prefixes.PrefixPassesGuard | src/sessions/sessions.service.ts:298-304 | a prefix passes the purge guard if and only if its year has four digits and the id is one path segment |
| Prefixes.PurgePrefix | agent/src/upload/purge.ts:32-46 | removes exactly the listed keys below the prefix, whatever the listing holds; refuses other prefixes untouched; a failed removal leaves only a part removed |
| Prefixes.PurgesAreDisjoint | agent/src/upload/purge.ts:17-45 | purges of sessions with different ids have no key in common |
| Prefixes.KeyNamesItsSession | agent/src/upload/purge.ts:17-40 | a key lies below one session prefix only |
| Prefixes.PrefixLayout | src/sessions/sessions.service.ts:298-304 | where year, month, day and id stand in a prefix with a four-digit year |
| PreviewRuns.ReadyIsFrozen | src/preview/session-preview.entity.ts:24-26 | in every run a ready preview stays ready with the same artifacts |
| PreviewRuns.ReadyWasComplete | src/preview/preview.service.ts:263-346 | a ready preview was accepted while rendering, with a video artifact and an audio key for every audio source of the manifests then held |
| PreviewRuns.RendersDoNotOverlap | src/preview/preview.service.ts:142-185 | between two render commands queued for one session an accepted report took the row out of rendering |
| PreviewRuns.RenderedSessionsAreStored | src/preview/preview.service.ts:142-150 | a render is queued only for a session that is stored, and it stays stored |
| PreviewRuns.StepPreview | src/preview/session-preview.entity.ts:11-30 | how any request may change a preview row |
| Previews.IncompletenessExact | src/preview/preview.service.ts:321-346 | the check finds nothing wrong if and only if there is a video artifact and, under its prefix, an audio key for every captured source |
| Previews.MissingAudioProxies | src/preview/audio-selection.ts:107-114 | names exactly the expected sources whose key was not rendered |
| Previews.AudioTrackRefs | src/preview/preview.service.ts:379-389 | exactly the audio sources of the manifests |
| Previews.StripPreviewCuts | src/preview/preview.service.ts:343-346 | the prefix is recovered from a video key below it |
| Previews.AudioKeyIsShared | src/preview/audio-selection.ts:95-98 | a source shares its key with some other source if and only if it is not all letters, digits and dashes |
| Previews.DistinctSourcesShareAKey | src/preview/audio-selection.ts:95-98 | a dot and an underscore do |
| Previews.PreviewService.Request | src/preview/preview.service.ts:142-185 | queues one render and marks the row, or answers from the row, or refuses |
| Previews.PreviewService.Finish | src/preview/preview.service.ts:263-312 | applies a render report: ignored, deferred, failed, incomplete or ready |
| Previews.PreviewService.Select | src/preview/preview.service.ts:236-251 | records a captured source and refuses any other |
| Reports.ReportQueue.FlushPending | agent/src/agent.ts:557-570 | with any pushes and settling saves during each post, the flush does event by event what the queue of a run does: each success removes the report it posted from the head and saves the rest; it stops at the first failure, and nothing is lost or reordered |
| Reports.ReportQueue.Send | agent/src/agent.ts:474-484 | a report joins the queue, and the queue is saved, exactly when posting it failed |
| Reports.ReportQueue.constructor | agent/src/agent.ts:126-142 | a new process over a file is the restart of whatever queue died over it |
| Reports.EventsAreRun | agent/src/agent.ts:138-146 | what one process does to its queue continues any run it is part of |
| Reports.AlwaysConserved | agent/src/agent.ts:138-146 | at every moment reports sent plus reports queued are the reports loaded plus pushed, in order, and every save is a stretch of that log |
| Reports.LeavesOnlyWhenSent | agent/src/agent.ts:557-570 | a report leaves a living queue only by a successful post of that same report, from the head |
| Reports.RestartIsAccounted | agent/src/pending-store.ts:26-54 | every restart: nothing comes back from an unreadable or spoiled file; a save of the dead process gives what its stamps say; an older file gives what the dead process had loaded, or the reports it could not read |
| Reports.SaveIsAccounted | agent/src/pending-store.ts:26-54 | from a save of the dead process only reports sent after it was requested come back again, and only reports pushed after it are lost |
| Layout.CompleteUploadIsStored | src/sessions/manifest.service.ts:57-92 | a session whose machines' walks were all uploaded at full size, none of the expected files empty, is stored when completed |
| Layout.CompleteUploadReadsBack | agent/src/main.ts:213-242 | for any number of machines, also where two share a key, every expected key is listed with a positive size |
| Layout.VerifiedUploadsMeet | agent/src/upload/uploader.ts:143-157 | after the verified uploads of all machines one after the other, also where one overwrote another's object, the session is uploaded in full |
| Layout.VerifiedUploadAdds | agent/src/upload/uploader.ts:143-157 | a machine whose upload read back in full joins those uploaded before it |
| Layout.ReadBackExactly | src/sessions/manifest.service.ts:94-109 | with some machines uploaded the readback succeeds if and only if all that the manifests of the others name is already listed |
| Completion.AcceptedExactly | src/sessions/manifest.service.ts:57-92 | so a completion by one of several machines is accepted if and only if that holds |
| Completion.EarlyCompletionFails | agent/src/agent.ts:346-366 | otherwise it is refused, the report of its agent fails the session, and every later completion is refused |
| Scenarios.FirstToFinishFails | agent/src/agent.ts:346-366 | a run from the empty API, of two machines whose manifests are both in: the first, all it recorded sent, completes, is refused, and the session ends failed |
| Scenarios.OneStopSuffices | src/sessions/sessions.service.ts:128-142 | a run in which a session of two machines reaches review while one of them never reports that it stopped |
| Completion.VouchedForExactly | src/sessions/manifest.service.ts:57-109 | every successful readback vouches for a machine's media if and only if the manifests held expect all that its manifest names; it being among them is enough |
| Completion.HeldIsVerified | src/sessions/manifest.service.ts:57-92 | in every run what a manifest names was listed with a positive size by the completion that stored the session, if that manifest was held by then |
| Scenarios.StoredWithoutSecond | src/sessions/manifest.service.ts:57-92 | a run that ends stored with a participant's manifest never received and its segment not in storage |
| Layout.OneMachineExactly | src/sessions/manifest.service.ts:94-109 | on one machine a complete upload reads back if and only if no expected file is empty |
| Layout.ExpectedIsWalked | agent/src/capture/session.ts:196-231 | every key the API expects from a machine's manifest is the key of a file that machine's walk sends |
| Layout.SaveSkipsWhatWasSent | agent/src/upload/continuous.ts:49-60 | a segment is walked under the key the continuous uploader used, and is skipped if and only if the object there has its size |
| Layout.ContinuousKeyIsWalkKey | agent/src/upload/continuous.ts:49-52 | the two uploaders' keys for a segment are equal |
| Layout.WalkExact | agent/src/main.ts:217-225 | the walk yields exactly the files of the tree, each under the key its path spells |
| Layout.WalkKeysDistinct | agent/src/main.ts:217-225 | no two files of a well-formed tree share a key |
| Layout.KeyNamesOneFile | agent/src/main.ts:217-225 | a key determines its file, path and size |
| Layout.Walk | agent/src/main.ts:217-225 | the recursive loop appends exactly the walked files |
| Layout.CollectSegments | agent/src/manifest.ts:132-150 | the sorted segment names of a directory with their sizes; nothing for one that cannot be read |
| Layout.CollectedIsFound | agent/src/manifest.ts:140-149 | what is collected is in the directory under a segment's name and extension |
| Layout.CaptureSession.Stop | agent/src/capture/session.ts:196-231 | the manifest carries the session's start and end instants and its clock offset, lists every track but metadata with its codec, frame rate and segments, collected, reordered by the locale and laid end to end, and its text is in the session directory |
| Layout.SegmentTimeRanges | agent/src/manifest.ts:65-81 | the loop with a cursor computes the ranges |
| Layout.RangesMeet | agent/src/manifest.ts:65-81 | ranges lie end to end from zero, each boundary within half a millisecond of the measured one |
| Upload.PoolIsExact | agent/src/upload/uploader.ts:106-119 | in every interleaving no item is worked on twice, at most `concurrency` are in flight, at most one settling per item happens, and a pool at rest without a throw has settled every item if and only if it had a runner or no items |
| Upload.PoolStaysSound | agent/src/upload/uploader.ts:106-119 | items are handed out in order, each to one runner, and a runner without one threw or found the queue empty |
| Upload.AloneExact | agent/src/upload/uploader.ts:73-98 | a file is skipped if and only if a head request answers its size; else it is put up to the first success, at most `retries` times, given up only after that many failures, and the object is what the last landing put left |
| Upload.RestIsDetermined | agent/src/upload/uploader.ts:106-119 | with distinct keys the rest of a pool does not depend on its interleaving: a settled file has ended as it would alone, an error is reported exactly when some file alone would be given up, and with fewer of those than runners every file is settled and storage holds what each alone would leave |
| Upload.SettledAsAlone | agent/src/upload/uploader.ts:106-119 | at every moment of every interleaving a file that has settled, and its object, are as it alone would end |
| Upload.Uploader.UploadFile | agent/src/upload/uploader.ts:73-98 | the retry loop computes that outcome and touches no other key |
| Upload.Uploader.SendAll | agent/src/upload/uploader.ts:106-147 | terminates for every choice of runner; the caller is told at the moment of the first file given up, and from it the final rest follows: what was settled then is unchanged and no worker has more left to do; with fewer given up than runners every file is settled; files that are all present are left alone |
| Upload.Uploader.Verify | agent/src/upload/uploader.ts:128-140 | missing is exactly the sorted short keys whichever worker finished first; verified if and only if every readback equals its size, or no runner was configured |
| Upload.Uploader.UploadAll | agent/src/upload/uploader.ts:143-157 | storage ends as if each file were sent alone, as long as fewer are given up than there are runners; the report is exact, an error is told at the first file given up, and repeating it on a storage that reads back and answers sends nothing |
| Upload.SortIsStable | agent/src/upload/uploader.ts:136-138 | the sorted report depends only on which keys are in it |
| Continuous.BooksAreTrue | agent/src/upload/continuous.ts:30-66 | over any sweeps with any failures: done is what was sent, waiting is exactly what was met closed and not yet sent, the two are disjoint, failures counts failed tries |
| Continuous.UploadedOnce | agent/src/upload/continuous.ts:51-65 | no key is successfully uploaded twice |
| Continuous.WaitingSinceFirstMet | agent/src/upload/continuous.ts:53-53 | a waiting key is aged from the first sweep that met it |
| Continuous.AgeNeverShrinks | agent/src/upload/continuous.ts:70-79 | while the oldest waiting key stays stuck, the reported age grows by at least the time passed |
| Continuous.ContinuousUploader.Sweep | agent/src/upload/continuous.ts:38-68 | the nested loops visit exactly the closed segments of the directories that can be listed, in order |
| Continuous.ContinuousUploader.VisitKey | agent/src/upload/continuous.ts:51-65 | the books after one segment, sent or failed |
| Continuous.ContinuousUploader.Health | agent/src/upload/continuous.ts:70-79 | count, failures and the age of the oldest waiting key |
| Continuous.OneHeldBack | agent/src/upload/eligibility.ts:9-16 | of a listing with segments exactly one is held back, and it is a highest-numbered one |
| Continuous.ClosedSparesHighest | agent/src/upload/eligibility.ts:9-16 | a highest-numbered segment is called closed if and only if two names share the highest number |
| Continuous.HighestIsClosed | agent/src/upload/eligibility.ts:9-16 | a listing in which that happens |
| Input.ChunkingIndependence | agent/src/activity/input-listener.ts:204-210 | however the text is cut into chunks, the end state, the leftover text and the callbacks are those of one chunk |
| Input.KeyIdentityDoesNotMatter | agent/src/activity/input-listener.ts:212-263 | two streams that differ only in codes of non-modifier keys and of buttons leave the same state and make the same callbacks |
| Input.CookedCanBeDeleted | agent/src/activity/input-listener.ts:212-263 | deleting lines of events nobody counts, where no raw header waits for its detail, changes neither state nor callbacks |
| Input.CookedChangesNothing | agent/src/activity/input-listener.ts:212-230 | such lines change nothing if and only if no raw header is waiting or none of them is a detail |
| Input.HeldAreModifiers | agent/src/activity/input-listener.ts:212-263 | only codes of the modifier table are ever held |
| Input.HotkeySpellsModifiers | agent/src/activity/input-listener.ts:265-277 | there is a hotkey if and only if a modifier is held, and it spells those held in the fixed order before the opaque key |
| Input.CallsAreCanonical | agent/src/activity/input-listener.ts:265-277 | every hotkey ever emitted is one of fifteen strings |
| Input.DetailReadsBack | agent/src/activity/input-listener.ts:116-125 | every code, however the line is spaced, is parsed back as that code |
| Input.PressIsRecognised | agent/src/activity/input-listener.ts:116-119 | a raw key press is recognised wherever its name stands in the line |
| Input.InputListener.ConsumeText | agent/src/activity/input-listener.ts:204-210 | the buffer loop computes the specification of a chunk |
| Input.InputListener.HandleLine | agent/src/activity/input-listener.ts:212-263 | the branches on one line compute the new state and the callback |
| Input.InputListener.Stop | agent/src/activity/input-listener.ts:297-309 | forgets held keys, the pending header and the leftover text |
| Health.StalledExactly | agent/src/capture/health.ts:34-80 | a track is stalled if and only if it is not metadata, was seen before, and was idle in each of the last `stallTicks` ticks that counted it |
| Health.StalledNeverAlone | agent/src/capture/health.ts:45-68 | a stalled verdict comes with another track that advanced in that tick and is not stalled |
| Health.QuietExactly | agent/src/capture/health.ts:70-73 | a track is quiet if and only if it is audio, was seen before and only a trickle arrived |
| Health.CounterIsStreak | agent/src/capture/health.ts:62-63 | the counter kept is the length of the run of idle ticks at the end of the track's history |
| Health.DeltaIsGrowth | agent/src/capture/health.ts:38-42 | a tick's delta is the growth since the last tick that saw the track |
| Health.HealthTracker.Observe | agent/src/capture/health.ts:34-80 | the two loops compute the verdicts, the counters and the remembered byte counts |
| Timeline.BuildTimeline | src/preview/activity-timeline.ts:117-200 | every field of the timeline, bucket by bucket |
| Timeline.SampleIsInItsBucket | src/preview/activity-timeline.ts:153-154 | a sample falls into exactly one bucket, the one its time lies in, the last including the end |
| Timeline.BucketsConserve | src/preview/activity-timeline.ts:156-166 | the buckets' keys, clicks and pointer movement add up to those of the samples |
| Timeline.BucketsMeet | src/preview/activity-timeline.ts:134-141 | rounded buckets start at zero, never run backwards and end at the rounded duration |
| Timeline.FocusIsOrdered | src/preview/activity-timeline.ts:174-179 | focus intervals are in order, do not overlap, and neighbours show different windows |
| Timeline.FocusCoversSamples | src/preview/activity-timeline.ts:171-179 | every sample with a title lies in an interval of that title |
| Timeline.RoundedFocusIsOrdered | src/preview/activity-timeline.ts:196-196 | rounding keeps the intervals in order and inside the session |
| Timeline.TotalsFitTheSpan | src/preview/activity-timeline.ts:181-184 | the unrounded totals of any different windows add up to no more than the span of the session |
| Timeline.TotalsStep | src/preview/activity-timeline.ts:181-184 | the map of totals is kept exact: its windows are those some sample after the first shows, in the order they were first credited |
| Timeline.TopWindowsExact | src/preview/activity-timeline.ts:188-190 | the ranking descends, and lists each such window exactly once with its rounded total |
| Buckets.SlotExact | src/preview/activity-timeline.ts:154-154 | a slot is in range, and is `k` exactly for positions between edge `k` and the next, the last slot being open above |
| Peaks.PeaksFromPcm | agent/src/preview/render.ts:177-193 | one value per bucket: the loudest clamped sample of that bucket over full scale; a bucket count no array can have, negative or from 2 to the 32 on, is an error |
| Peaks.LoudestExact | agent/src/preview/render.ts:184-190 | a peak bounds every sample of its bucket, one of them reaches it, and an empty bucket has zero |
| Peaks.PeaksSpanTheSignal | agent/src/preview/render.ts:184-192 | all peaks lie in 0..1, and the largest is that of the loudest sample |
| Peaks.BucketsAreOrdered | agent/src/preview/render.ts:182-185 | every sample falls into a bucket in range, and later samples into no earlier bucket |
| Peaks.NoBucketIsEmpty | agent/src/preview/render.ts:182-185 | with at least as many samples as buckets every bucket gets a sample |

## Left out

- Reports.ReportQueue.FlushPending: one call is given finitely many posts, so a queue refilled and drained without end is not modelled.
- Timeline.BuildTimeline: takes samples already parsed and sorted.
- Layout.CaptureSession.Stop: what a locale makes of the order of segment names, and what a media tool measures, are parameters.
- Layout.CompleteUploadReadsBack: assumes nothing named like a segment is a directory and no machine is named `manifest.json`, either of which loses expected keys, and that sorting by locale only reorders.
- Input.ParseXi2Line: codes are unbounded integers; the original's lose precision beyond 2 to the 53.
- API handlers are atomic: two requests inside each other's database calls are not interleaved. One replica runs.
- A command's id is its position in the table instead of a random identifier; session ids are given and fresh.
- Clocks and the calendar are parameters. A run's clock never goes back. The start barrier's lead is its default of five seconds.
- Arithmetic on times, widths and peaks is over exact reals; floating-point rounding is left out. Text is compared character by character.
- Progress reports, live counters, titles, listings and presigned links: they change no state a theorem depends on.
- A continuous sweep that overlaps the purge of an abort can re-create an object the purge removed; sweeps and purges are each modelled on their own.
- Request validation in front of the services, among it the rule that does not admit waveform artifacts, authentication, and the database's own failures.
- Redaction of titles, JSON parsing of samples and stores, media tools, process supervision, back-off sleeping, the console and deployment.
