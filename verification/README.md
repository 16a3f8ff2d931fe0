# db-saver, modelled and verified

db-saver dumps Docker databases on a schedule, uploads the archives with rclone, applies a
retention policy to the remote directory and shows its logs live in the browser. This project
models the concurrent and arithmetical core of that program in Dafny and proves properties of it
for every input, every run and every interleaving. To verify it, run `dafny verify dfyconfig.toml` here.

## Layout

| files | what they model |
|---|---|
| `Fanout` | the live-log protocol as a state machine: 50-slot lossy channels, a list per job, slices over shared backing arrays that a removal shifts in place, a snapshot under a lock, and outside it a loop that loads an element and sends to it |
| `FanoutSafety`, `FanoutDelivery`, `FanoutOrder` | its invariants and what every subscriber is offered, accepts and receives over whole runs |
| `FanoutLeaving`, `FanoutCourse`, `FanoutHarm` | a subscriber that leaves during a broadcast: what the shift does to the elements still to be loaded, what keeps a broadcast on its course, and exactly when leaving does harm over every continuation |
| `FanoutWitness` | runs in which leaving or overlapping does harm, and exactly when broadcasts can overtake each other |
| `LogEngine`, `LogWriter`, `EventStream` | the `Engine` and `sseWriter` objects, proved against the state machine, and the event stream up to the browser's parser |
| `Retention`, `RetentionLaws`, `RetentionTies`, `RetentionFailures`, `Rclone` | the retention policy with its int64 arithmetic, its laws with and without ties, failing deletions, and the methods that carry it out |
| `Schema`, `Database` | the two tables as values, and the `DB` object |
| `Runs`, `RemoteRuns`, `Backup` | overlapping backup runs over the tables and over the remote directory, `RunBackup` as one call, and calls in series |
| `Scheduler`, `Handlers`, `Interleaving` | the scheduler's index, the job handlers, and all of them interleaved with firing entries and runs |
| `Sessions` | the session store |
| `Archive`, `Format`, `GoText`, `Values` | archive names, byte counts, the string functions of the Go library, and values that several models share |

Two forms recur. A shared structure is a state machine: `Step` is one atomic step of one goroutine,
a run is a sequence of events, and an event that is not possible changes nothing, so a statement
about all runs is a statement about all interleavings. The same structure is also a class whose
methods are proved to take exactly those steps. Fields marked as history record what happened and
influence nothing.

Where a promise turns out false of the code, the code is kept as it is, the exact condition under
which it holds is proved, and a run shows the failure:

* order of live messages: two broadcasts to one job that overlap can overtake each other (`OvertakingIff`);
* unsubscribing while a broadcast is under way can make it skip or repeat a subscriber or panic, at once or after a later join (`UnsubscribeHarmlessIff`, `NextDepartureHarmlessIff`, `UnsubscribePanicsIff`: exactly when some continuation in which nobody else leaves does so);
* live messages equal the lines of the log only if no write cuts a line (`StreamEqualsBatchIff`);
* a carriage return in a message does not survive the event stream (`RoundTripIff`);
* ages from 106752 days on overflow int64 (`AgeTestExactIff`, `CompositionNeedsOrder`);
* saving the edit dialog unchanged turns "unlimited" retention into 7 backups or 30 days (`EditDialogRoundTripIff`);
* overlapping handlers of one job can leave scheduler and table in disagreement (`AgreesIff`, with `CrossedUpdatesAgreeIff` and `DeletedUnderUpdateAgreesIff` for particular schedules);
* a second `Start` leaks cron entries (`StartConsistentIff`);
* a run deletes an archive that was uploaded after its listing when that upload took the name of a listed file (`DeletesWhatItListedIff`, `StaleListingLosesArchive`).

The program's README announces retention by count *or* by age; the code applies both when both are
positive (internal/rclone/rclone.go:179-194), and so does the model.

## Model

| member | source | states |
|---|---|---|
| FanoutSafety.StepKeepsInv | internal/backup/engine.go:50-83 | one step of any goroutine, in any state of the invariant, keeps it: lists hold distinct open channels, every open channel is listed, an undisturbed broadcast still sees its snapshot through the shared array, all of it is open, and what it has loaded is what its snapshot names |
| FanoutSafety.ChannelLifecycle | internal/backup/engine.go:50-83 | in every run a job's list is exactly its open channels, each once; nothing is closed twice; a send hits a closed channel only if somebody left the job during that broadcast |
| FanoutSafety.ClosedAtMostOnce | internal/backup/engine.go:56-67 | over a whole run a channel is closed once if it is closed at the end and never otherwise |
| FanoutSafety.UnsubscribeAgain | internal/backup/engine.go:56-67 | calling `unsubscribe` again, after any further events, changes nothing |
| FanoutSafety.DisturbedIff | internal/backup/engine.go:56-82 | the "disturbed" flag means: an effective unsubscribe of the job lies between the broadcast's snapshot and its last send |
| FanoutSafety.DisciplinedRunsNeverPanic | internal/backup/engine.go:72-82 | without such an unsubscribe no run panics |
| FanoutDelivery.StepKeepsLedger | internal/backup/engine.go:50-83 | every step keeps the accounts: accepted is received then queued, at most 50 are queued, accepted is a subsequence of offered, and an undisturbed broadcast has been offered once to exactly the channels it has passed |
| FanoutOrder.OfferedExactly | internal/backup/engine.go:72-83 | in every run without a disturbed broadcast, a channel is offered exactly the messages of the broadcasts that passed it, each once |
| FanoutOrder.DeliveredPlusDropped | internal/backup/engine.go:72-83 | when the broadcasts are finished, delivered and dropped messages together are exactly the broadcasts of the subscriber's time |
| FanoutOrder.SerialDelivery | internal/backup/engine.go:50-83 | if moreover broadcasts to the job do not overlap, received then queued is a subsequence in broadcast order, without duplicates, of the broadcasts since subscription |
| FanoutOrder.NothingDropped | internal/backup/engine.go:77-82 | a subscriber with fewer than 50 messages queued at every send to it accepted everything offered |
| FanoutLeaving.ShiftUnderIterator | internal/backup/engine.go:60-64 | shifting an array under an iterator at `k` of `m` leaves the window it has still to load intact at that moment if and only if the stated relation of positions and lengths holds; a later join can undo one of its three cases (`LaterJoinSkips`) |
| FanoutLeaving.DrainPanicsIff | internal/backup/engine.go:77-82 | finishing a broadcast panics if and only if a closed channel is among the remaining targets, the loaded one included |
| FanoutHarm.UnsubscribeHarmlessIff | internal/backup/engine.go:50-83 | in every run, the first subscriber to leave during a broadcast: whatever events follow, joins included, as long as nobody else leaves the job during it, the broadcast does not panic and, once finished, has offered its message exactly once to everybody else of its snapshot, if and only if it does not hold the leaver and has nothing left to load, or iterates over an outgrown array without the leaver ahead, or shares the list's array and the leaver is behind its window, or is not yet passed while the list is longer than the window |
| FanoutHarm.NextDepartureHarmlessIff | internal/backup/engine.go:50-83 | the same for the next to leave after any number of harmless departures, for everybody the broadcast had served or was on its way to |
| FanoutHarm.CarefulDepartures | internal/backup/engine.go:50-83 | in every run in which any number of subscribers leave during a broadcast, each under that condition in the state it leaves in: the broadcast does not panic, nobody is offered its message twice, and once it is finished everybody of its snapshot who did not leave was offered it exactly once |
| FanoutHarm.UnsubscribePanicsIff | internal/backup/engine.go:50-83 | after a departure, some continuation in which nobody else leaves the job makes the broadcast panic if and only if it had loaded the leaver, or the leaver was still ahead and the array was outgrown or the leaver was last of list and window; also after any number of harmless departures |
| FanoutHarm.UndisturbedIsCareful | internal/backup/engine.go:56-82 | a broadcast during which nobody left meets the hypothesis of these results |
| FanoutHarm.PanicPossibleIff | internal/backup/engine.go:77-82 | in any run, whoever left before and with whatever harm, a broadcast can still panic without anybody else leaving if and only if a closed channel is among the channels it has still to send to |
| FanoutCourse.PeaceKeepsCourse | internal/backup/engine.go:50-83 | whatever happens to other jobs, broadcasts and consumers and whoever joins, a broadcast whose remaining targets are open, distinct and not yet served keeps all its promises as long as nobody leaves its job |
| FanoutWitness.LeavingLastPanics | internal/backup/engine.go:62-79 | a run in which the only subscriber leaves between snapshot and send, and the send panics |
| FanoutWitness.LoadedLeaverPanics | internal/backup/engine.go:62-79 | a run in which a subscriber that is not the last leaves after it was loaded, and the send panics |
| FanoutWitness.LeavingFirstSkipsAndRepeats | internal/backup/engine.go:62-79 | a run in which one subscriber is skipped and another gets the message twice |
| FanoutWitness.LaterJoinSkips | internal/backup/engine.go:50-79 | a run in which the removal spares the window but the next join overwrites it: a subscriber of the snapshot stays open and is never offered the message, and one who joined after the broadcast gets it |
| FanoutWitness.OverlapReorders | internal/backup/engine.go:72-82 | a run without any unsubscribe in which two broadcasts arrive in the wrong order |
| FanoutWitness.OvertakingIff | internal/backup/engine.go:72-82 | in every run, a broadcast issued now can reach an open subscriber before an earlier one if and only if an earlier one still has to reach it |
| LogEngine.Engine.SubscribeLogs | internal/backup/engine.go:50-54 | the object takes exactly the subscribe step: in place when the array has room, in a new array otherwise |
| LogEngine.Engine.Unsubscribe | internal/backup/engine.go:56-67 | the object takes exactly the unsubscribe step, shifting the shared array in place |
| LogEngine.Engine.TakeSnapshot | internal/backup/engine.go:72-75 | the object takes exactly the snapshot step |
| LogEngine.Engine.LoadNext | internal/backup/engine.go:77 | the object takes exactly the load step, reading the shared array now |
| LogEngine.Engine.SendHeld | internal/backup/engine.go:78-81 | the object takes exactly the send step, to the channel it has loaded |
| LogEngine.Engine.ReceiveFrom | internal/web/sse.go:49-52 | the consumer takes the oldest queued message |
| LogEngine.Engine.BroadcastLog | internal/backup/engine.go:72-83 | an uninterrupted call is a snapshot followed by all its loads and sends |
| LogEngine.FindFirst | internal/backup/engine.go:60-61 | the search loop finds the first position of the channel |
| LogEngine.UninterruptedBroadcast | internal/backup/engine.go:72-83 | an uninterrupted broadcast offers its message once to every open channel of the job and to nobody else |
| LogWriter.SseWriter.Write | internal/backup/engine.go:91-99 | broadcasts the non-blank lines of its argument in order and appends all of it to the buffer |
| LogWriter.BroadcastAllOffers | internal/backup/engine.go:91-99 | consecutive broadcasts offer an open channel of the job their messages in order and other channels nothing |
| LogWriter.StreamEqualsBatchIff | internal/backup/engine.go:91-99 | the messages broadcast over any writes are the non-blank lines of the final buffer if and only if at each write the unfinished line and its continuation fit |
| LogWriter.TerminatedWritesAgree | internal/backup/engine.go:91-99 | newline-terminated writes always satisfy that |
| LogWriter.LiveLogIsFinalLogIff | internal/backup/engine.go:72-99 | what an open subscriber is offered while the log is written is the non-blank lines of the final log under the same condition |
| LogWriter.ChunkedLineIsCut | internal/rclone/rclone.go:109-112 | a line that a subprocess writes in two pieces is broadcast as two messages |
| EventStream.ErrorOutweighs | internal/web/sse.go:54-61 | text that is shown as an error is shown as an error whatever surrounds it: no success or retention word outweighs it |
| EventStream.ServeLogs | internal/web/sse.go:40-66 | the response is the frame of the connection line followed by one frame per received message |
| EventStream.RoundTripIff | internal/web/sse.go:40-66 | for newline-free messages, parsing the response by sections 9.2.5 and 9.2.6 of the WHATWG HTML Living Standard yields the connection event and then the messages in order, if and only if no message has a carriage return |
| EventStream.HtmlDecodes | internal/web/sse.go:54-63 | class and message are uniquely recovered from the data of an event |
| EventStream.WriterMessagesNewlineFree | internal/backup/engine.go:92-96 | every message the writer broadcasts is newline-free |
| EventStream.PathRoundTrip | internal/web/sse.go:12-19 | the address the log window connects to (web/templates/logs_modal.html:24) parses back to its job id |
| RetentionLaws.ProductFitsIff | internal/rclone/rclone.go:181 | the wrapping int64 product of days equals the true nanoseconds if and only if days is at most 106751 |
| RetentionLaws.AgeTestExactIff | internal/rclone/rclone.go:180-186 | comparing the saturated difference with it agrees with the integers for every pair of instants if and only if days is at most 106751 |
| RetentionLaws.OverflowExpiresEverything | internal/rclone/rclone.go:180-186 | at 106752 days a file written this instant is selected |
| RetentionLaws.KeepsPrefix | internal/rclone/rclone.go:158-194 | for every listing the survivors are its first KeepCount files: min of the count and the number of unexpired files; no deleted file is strictly newer than a kept one |
| RetentionLaws.TieIndependent | internal/rclone/rclone.go:158-160 | number and times of survivors are the same for every order the unstable sort may give to ties |
| RetentionLaws.ApplyTwice | internal/rclone/rclone.go:166-213 | applying a policy twice at one instant equals once, also with ties |
| RetentionLaws.PoliciesCommute | internal/rclone/rclone.go:166-213 | two policies commute when modification times are distinct |
| RetentionTies.PoliciesCommute | internal/rclone/rclone.go:158-213 | with ties they leave as many files of the same ages in either order, however each pass breaks the ties |
| RetentionLaws.PoliciesCompose | internal/rclone/rclone.go:166-213 | their composition is the policy with the tighter count and age, zero or less being unlimited, when the tighter age has the smaller product |
| RetentionTies.PoliciesCompose | internal/rclone/rclone.go:158-213 | the same with ties, for the number and the ages of the survivors |
| RetentionLaws.SmallAgesOrdered | internal/rclone/rclone.go:181 | ages of at most 106751 days always satisfy that |
| RetentionLaws.CompositionNeedsOrder | internal/rclone/rclone.go:180-186 | whenever the products are not ordered, some directory tells composition and combined policy apart |
| RetentionLaws.OverflowBreaksComposition | internal/rclone/rclone.go:180-186 | such policies exist: one day and 106752 days, whose product is negative |
| RetentionFailures.FailuresOnlyKeepMore | internal/rclone/rclone.go:196-210 | for every directory, ties included, and every set of failing deletions, some pass without failures has the same targets, and the two results differ by the failed targets only; directories and unselected files stay as they are |
| RetentionFailures.OnlyOneFullPass | internal/rclone/rclone.go:196-210 | with distinct modification times that holds of the one pass without failures |
| RetentionFailures.RetryRepairs | internal/rclone/rclone.go:196-212 | a later successful pass at the same instant reaches the result of a pass without failures, when modification times are distinct |
| RetentionTies.RetryRepairs | internal/rclone/rclone.go:196-212 | with ties it keeps as many files of the same ages |
| RetentionFailures.CountIsBound | internal/rclone/rclone.go:189-194 | a pass without failures leaves at most N files |
| RetentionFailures.NewestSurvives | internal/rclone/rclone.go:179-194 | a strictly newest unexpired file survives every pass |
| RetentionFailures.OthersSparedIff | internal/backup/engine.go:176 | the policy ranges over the whole remote directory: the files of other jobs all survive a pass if and only if every file from position KeepCount on is the job's own |
| RetentionFailures.SharedDirectoryLosesOtherJob | internal/backup/engine.go:176 | a job can delete another job's only archive |
| Rclone.RcloneService.ListBackups | internal/rclone/rclone.go:137-163 | filters directories out and returns the files newest first, each once; an error returns nothing |
| Rclone.SortNewestFirst | internal/rclone/rclone.go:158-160 | sorts in place: newest first and a permutation |
| Rclone.SelectFiles | internal/rclone/rclone.go:176-194 | the two loops compute the set of files that either rule selects |
| Rclone.RcloneService.DeleteAll | internal/rclone/rclone.go:196-210 | in any visiting order, every target is tried once and exactly the successful ones disappear |
| Rclone.RcloneService.ApplyRetention | internal/rclone/rclone.go:166-213 | is one retention pass, or changes nothing when the listing fails or the policy is off |
| Schema.WritesDoNotClobber | internal/database/db.go:175-252 | in every interleaving of writes a job's configuration is the last one written by a configuration write and its run fields the last written by a status write |
| Schema.IdsAreNotReused | internal/database/db.go:40 | an id that was given out and deleted never comes back |
| Schema.NewIdsAreFresh | internal/database/db.go:175-209 | a new job gets an id no job had before |
| Schema.NewestDescends | internal/database/db.go:273-323 | the history queries return matching rows in descending order of id |
| Schema.NewestIsNewest | internal/database/db.go:273-323 | they leave a matching row out only when full of newer ones |
| Database.DB.GetJobs | internal/database/db.go:98-136 | returns every row once, newest id first |
| Database.DB.GetJob | internal/database/db.go:139-172 | returns a copy of the row, or null if there is none |
| Database.DB.CreateJob | internal/database/db.go:175-209 | inserts under a fresh id and writes id and times back into the record |
| Database.DB.UpdateJob | internal/database/db.go:212-232 | writes the configuration and nothing else of the row |
| Database.DB.UpdateJobRunStatus | internal/database/db.go:235-246 | writes the run fields and nothing else of the row |
| Database.DB.DeleteJob | internal/database/db.go:249-252 | removes the row if it is there and nothing else |
| Database.DB.CreateHistory | internal/database/db.go:254-270 | appends a row under the next id and writes id and time back |
| Database.DB.GetRecentHistory | internal/database/db.go:273-296 | returns the newest rows up to the limit |
| Database.DB.GetHistoryByJob | internal/database/db.go:299-323 | returns the newest rows of the job up to the limit |
| Database.Scan | internal/database/db.go:287-296 | the accumulating loop computes the query |
| Runs.HistoryIsConserved | internal/backup/engine.go:130-214 | in every interleaving of runs and edits, per job, "running" rows are as many as runs past their first insert and "success" or "failed" rows as runs past their last with that outcome |
| Runs.HistoryOnlyGrows | internal/backup/engine.go:139-207 | no row is ever changed or removed, so the first row of a run stays "running" |
| Runs.RowsBelongToRuns | internal/backup/engine.go:139-207 | every row was inserted by exactly one run |
| Runs.FinishedRunHasTwoRows | internal/backup/engine.go:132-207 | a finished run has exactly two rows, with the contents of its first and last record |
| Runs.QuietJobShowsLastOutcome | internal/backup/engine.go:130-206 | when no run of a job is under way, a job that was run shows the outcome of the run that reported last |
| Runs.ShowsRunningIff | internal/backup/engine.go:130-206 | a job shows "running" if and only if the run that reported last has not reported its outcome |
| Runs.OverlapHidesRunning | internal/backup/engine.go:102-206 | with overlapping runs a job can show an outcome while a run is under way |
| Runs.OverlapIsReached | internal/backup/engine.go:102-204 | a run from the empty database, for any job, in which two runs overlap and the second reports its outcome while the first is still at work |
| Runs.SerialRunIsFiveSteps | internal/backup/engine.go:130-207 | an undisturbed run is its five steps |
| RemoteRuns.DeletionsFollowOwnUpload | internal/backup/engine.go:157-177 | in every interleaving of uploads, listings and single deletions of any runs, each deletion follows the successful upload of its own run and a listing of the directory by it, names a file of that listing which its policy selected, and is tried once |
| RemoteRuns.LostFile | internal/rclone/rclone.go:196-210 | in every interleaving, whatever disappears from the directory was deleted by such a command |
| RemoteRuns.LastListingBounds | internal/rclone/rclone.go:189-210 | in every interleaving, when the run that listed last has made all its deletions successfully and nothing was uploaded since its listing, at most its count of files is left |
| RemoteRuns.DeletesWhatItListedIff | internal/rclone/rclone.go:171-210 | what a run is about to delete is the file its listing held if and only if no upload since has left a file under that name, when such files have other modification times |
| RemoteRuns.StaleListingLosesArchive | internal/backup/engine.go:125-177 | a run of three overlapping runs, two of them with one archive name, in which a fresh archive, the newest of the directory, is deleted from an older listing |
| RemoteRuns.AloneIsPass | internal/rclone/rclone.go:171-210 | the steps of a run that nothing interrupts amount to one retention pass, in any order of deletions and whatever fails |
| Backup.BackupEngine.RunBackup | internal/backup/engine.go:101-214 | an unknown job changes nothing; otherwise tables, directory, live log and stored log (all that was written, but for the closing line of a success) are those of a serial run with the outcome of its steps, and its rclone commands are none, a failed upload, or its own successful upload followed only by deletions of files there |
| Backup.BackupEngine.HandleFailure | internal/backup/engine.go:199-214 | reports "failed" and stores a row with the whole log including the error line |
| Backup.DeletionsFollowOwnUpload | internal/backup/engine.go:164-177 | over any runs in series, every remote deletion belongs to a run whose own upload succeeded before it, with only deletions in between, and deletes a file that was there then |
| Backup.LostFile | internal/backup/engine.go:150-177 | over any runs in series, a file is lost only in a run that uploaded: failed runs remove nothing |
| Backup.FailureIsShownAsError | internal/backup/engine.go:203 | whatever the error text, the first message a failure broadcasts gets the error class |
| Backup.SuccessfulRunBounds | internal/backup/engine.go:164-177 | after a successful run with N > 0 and successful deletions at most N files are left, and the new archive is one of them if strictly newest and young enough |
| Scheduler.SyncIs | internal/scheduler/scheduler.go:60-76 | synchronising schedules exactly what the configuration asks for, touches no other job and keeps the index consistent |
| Scheduler.ConsistentMeans | internal/scheduler/scheduler.go:12-18 | a consistent index is injective and its values are exactly the live cron entries |
| Scheduler.ScheduleConsistentIff | internal/scheduler/scheduler.go:88-107 | scheduling without removing first keeps the index consistent if and only if the job is not indexed or the expression does not parse |
| Scheduler.StartAgrees | internal/scheduler/scheduler.go:36-54 | `Start` on a fresh scheduler schedules exactly the enabled jobs whose expression is not empty and parses |
| Scheduler.StartConsistentIff | internal/scheduler/scheduler.go:36-54 | `Start` on a used scheduler keeps the index consistent if and only if it schedules no job that is indexed already |
| Scheduler.JobScheduler.Start | internal/scheduler/scheduler.go:36-54 | on any scheduler the object's loop schedules every active row on top of what was there; on a fresh one it then agrees with the table |
| Scheduler.JobScheduler.SyncJob | internal/scheduler/scheduler.go:60-76 | the object removes the old entry and schedules the job if it is active |
| Scheduler.JobScheduler.RemoveJob | internal/scheduler/scheduler.go:78-86 | the object drops the entry from index and cron set |
| Scheduler.Cron.AddFunc | internal/scheduler/scheduler.go:92-103 | adds under a fresh id, or nothing when the expression does not parse |
| Handlers.Handler.HandleJobCreate | internal/web/handlers.go:366-412 | table, index and answer are those of the request served as a whole, with the default port and the schedule read from the form |
| Handlers.Handler.HandleJobUpdate | internal/web/handlers.go:414-471 | the same for an update, with its three error paths in order |
| Handlers.Handler.HandleJobDelete | internal/web/handlers.go:473-486 | the same for a deletion, which removes the entry before the row |
| Handlers.Handler.HandleJobToggle | internal/web/handlers.go:488-508 | the same for a toggle |
| Handlers.ServeKeepsSynced | internal/web/handlers.go:366-508 | any request served on its own keeps table and scheduler in agreement |
| Handlers.SchedulerRefinesTable | internal/web/handlers.go:366-508 | after `Start` and any requests in series the scheduled ids and expressions are exactly what the table asks for and what a fresh `Start` would schedule |
| Handlers.ParseScheduleForm | internal/web/handlers.go:740-762 | the expression read from a form is never empty, the preset is one of six and `daily_3am` for any other, and a custom expression is kept |
| Handlers.ScheduleStable | internal/web/handlers.go:740-762 | a schedule read from a form reads back unchanged |
| Handlers.EditWithoutChange | web/templates/job_modal.html:45-161 | what saving the untouched edit dialog of a stored job stores |
| Handlers.EditDialogRoundTripIff | web/templates/job_modal.html:45-161 | it stores the same configuration if and only if both retention bounds and the port are positive, the path is not empty and the type is known |
| Interleaving.SchedulerSafety | internal/scheduler/scheduler.go:60-107 | in every interleaving of handlers, restarts, firing entries and runs the index is injective, its values are the live entries, and each entry fires the job it is keyed by |
| Interleaving.RunsAreRuns | internal/scheduler/scheduler.go:92-98 | seen through tables and runs, every such interleaving is a run of the machine in `Runs`, so its theorems hold here |
| Interleaving.OrphanDoesNothing | internal/backup/engine.go:102-108 | a fired entry whose row is gone changes neither table and starts no run |
| Interleaving.GoneJobNeverRuns | internal/backup/engine.go:102-108 | once a row is gone no run of that job ever begins, whatever handlers and entries follow |
| Interleaving.JobAgrees | internal/web/handlers.go:399-504 | if handlers of one job never overlap, then whenever none is at work scheduler and row agree about it, however everything else interleaves |
| Interleaving.QuietSchedulerIsFreshStart | internal/scheduler/scheduler.go:36-54 | if that holds of all jobs, the scheduler at rest is what a fresh `Start` would build |
| Interleaving.ServedAlone | internal/web/handlers.go:366-508 | the steps of an undisturbed handler amount to its request served as a whole |
| Interleaving.ScheduledIsLastAsked | internal/scheduler/scheduler.go:60-86 | in every interleaving a job is scheduled under what the last synchronisation, removal or restart asked for |
| Interleaving.TableIsLastWritten | internal/database/db.go:175-252 | in every interleaving its row holds what the last create, update or delete left |
| Interleaving.AgreesIff | internal/web/handlers.go:399-504 | in every interleaving, overlaps included, scheduler and table agree about a job if and only if that last operation asked for what that last write wants |
| Interleaving.CrossedUpdatesAgreeIff | internal/web/handlers.go:458-463 | when two updates of one job write in one order and synchronise in the other, scheduler and table agree if and only if both ask for the same |
| Interleaving.DeletedUnderUpdateAgreesIff | internal/web/handlers.go:481-504 | when a job is deleted under an update, with the synchronisation or the deletion of the row last, an entry outlives the job if and only if the configuration asks for one |
| Sessions.AnswerIff | internal/auth/auth.go:44-132 | with unique tokens and a clock that does not go back, a request is let in if and only if its token was logged in, not logged out, and at most seven days old, wherever cleanups and lazy deletions fall |
| Sessions.NobodyLetInWrongly | internal/auth/auth.go:83-105 | whatever clock and tokens do, nobody is let in otherwise |
| Sessions.RedrawnTokenIsLost | internal/auth/auth.go:97-102 | a token drawn again between decision and deletion loses its new session |
| Sessions.CleanupLosesIff | internal/auth/auth.go:123-132 | a cleanup drops a login if and only if it reads the clock after its week, even if the clock then goes back |
| Sessions.AuthenticateIsThreeSteps | internal/auth/auth.go:83-105 | an undisturbed request is lookup, decision and deletion |
| Sessions.SessionManager.IsAuthenticated | internal/auth/auth.go:83-105 | the answer and the map it leaves; no cookie or an empty one is refused |
| Sessions.SessionManager.CreateSession | internal/auth/auth.go:44-51 | stores the token with its expiry, a week ahead |
| Sessions.SessionManager.InvalidateSession | internal/auth/auth.go:65-71 | removes the token of the cookie, if there is one |
| Sessions.SessionManager.CleanUp | internal/auth/auth.go:123-132 | in any visiting order, exactly the expired sessions disappear |
| Archive.SanitizedIsSafe | internal/backup/engine.go:236-240 | a sanitized name has only safe characters and no underscore at an edge |
| Archive.UnchangedIff | internal/backup/engine.go:236-240 | exactly such names are left alone |
| Archive.SanitizeTwice | internal/backup/engine.go:236-240 | sanitizing is idempotent |
| Archive.DecodeBack | internal/backup/engine.go:119-126 | name, type and time are recovered from the archive name |
| Archive.NamesCollideIff | internal/backup/engine.go:119-126 | archive names collide if and only if sanitized names, types and seconds agree |
| Archive.DifferentNamesCollide | internal/backup/engine.go:236-240 | different job names can be sanitized to one |
| Archive.NameOrderIsTimeOrder | internal/backup/engine.go:125-126 | for fixed name and type, string order of archive names is wall-clock order |
| Format.FormatBytes | internal/web/handlers.go:71-85 | the loop ends with `div` the greatest power of 1024 not above `b`, inside int64, and a unit index inside the table |
| Format.UnitIsUnique | internal/web/handlers.go:79-84 | the unit of a count is determined |
| Format.UnitsAscend | internal/web/handlers.go:79-84 | a larger count is never shown in a smaller unit |
| Format.LastUnitIsReached | internal/web/handlers.go:84 | the greatest int64 uses the last unit of the table |

## Left out

- Docker, pg_dump, psql, sqlite3, tar and gzip: the dump is one step that writes any log and succeeds or fails.
- Running rclone, its configuration file and its remotes: an abstract directory with an outcome per command; a failed upload may leave anything under the archive's name.
- SQL, migrations, cascades and failing database calls: writes are atomic and succeed, as the code assumes by discarding their errors; ids do not run out of int64.
- The cron parser and clock: whether an expression parses is a parameter and entries fire at any time.
- Notifications, settings, dashboard counters, templates other than the edit dialog, routing, redirects, cookie attributes, `Authenticate`, `Restore` and downloads.
- Random tokens and instants are inputs; the session result assumes distinct tokens and a clock that does not go back, and says what fails otherwise.
- Torn reads: the shift of a backing array in `unsubscribe`, the load of one element and the send to it are one step each, so an element is never read in the middle of a shift; an append's spare capacity is a parameter.
- Remote directories: all jobs of the model write to one, the case in which they can affect each other; the trimming of remote paths is left out.
- Backup.BackupEngine.RunBackup: models a call during which no other goroutine takes a step; overlapping runs are in `Runs` and `RemoteRuns`, overlapping subscribers in `Fanout`.
- LogWriter.SseWriter.Write: the same; a subscriber that comes or goes during a write is in `Fanout`.
- RetentionLaws.PoliciesCommute: assumes distinct modification times, because each pass may break a tie differently and then keep another file of the same age; `RetentionTies` has what holds with ties.
- RetentionLaws.PoliciesCompose: the same.
- RetentionFailures.RetryRepairs: the same.
- RetentionFailures.OnlyOneFullPass: the same; `FailuresOnlyKeepMore` is the statement without it.
- FanoutHarm.NextDepartureHarmlessIff: assumes that earlier departures were harmless; which further departures add harm to a broadcast that is already harmed is not characterised.
- FanoutHarm.UnsubscribePanicsIff: the same; `PanicPossibleIff` has no such assumption.
- Overlapping rclone commands: each command on the remote directory is one step, and a listing sees one state of the directory.
- Handlers.EditDialogRoundTripIff: assumes that the container and remote of the job are still offered by the dialog, and stands for the textual connection fields by one field that the dialog leaves as it is.
- Format.FormatBytes: the quotient is printed from floating point; the model keeps the exact pair.
- The algorithm of Go's `sort.Slice`: `Rclone.SortNewestFirst` sorts by insertion, and callers rely only on its contract, which fixes no order among ties.
- Invalid UTF-8: text is a sequence of characters, not of bytes.
