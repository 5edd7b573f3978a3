# Verified model of Nox Yard's recovery and bookkeeping logic

Nox Yard runs Compose projects on one Docker host. This project models the parts of it that must not
go wrong when something else does, and proves what they promise for every input, every answer of the
Docker Engine and the job store, every interleaving, and every point at which a worker can crash.

`dafny verify dfyconfig.toml` checks all of it.

## The components

- **Replacing containers** (`ComposeOrder`, `Assessment`, `Engine`, `ReplacementSafety`, `Recreate`).
  `Engine` is the Docker Engine and the job store as a worker sees them: containers with name, image,
  configuration, endpoints and status, unique names, and calls that succeed, fail, or take effect and
  lose their response. Before any call, any running containers may exit by themselves; so a container
  has the status in which calls left it, and the status a look at it shows. The world remembers what
  the last look at each container found out, health and settling time included; statements about readiness
  say that a container passed the test of `ready`, or of `waitHealthy`, at such a look. A `Host` keeps the `history` of every durable world a
  crash could leave behind.
  `ReplacementSafety` says when a world is safe and a step is justified, and how each kind of call keeps
  it so. `Recreate.Worker` has the methods of the source in its own form; its invariant `Valid` contains
  `Sound`, which speaks of the whole history, and no method forgets any of it, so each method's
  `ensures Valid()` is a statement about all crash points; `WholeJob` composes them over any number of
  lost processes. "When calls work" below stands for `FineFrom`: from here on every call succeeds,
  containers stay up, none becomes unhealthy, those that are starting or settling become ready within each
  deadline, after however many polls, and a started one-shot ends with code 0. `Ended` and `Concluded` say how a
  run ends when calls do not work.
- **Self-update** (`SelfUpdate`) is the sibling protocol with one container and a database snapshot. The
  database is the sequence of changes that applications made to it; every running one, original or
  replacement, may write before any step of the worker.
- **Container logs** (`Utf8`, `Utf8Encoding`, `Logs`, `LogDecoding`, `LogHistory`, `LogPaging`, `LogWitnesses`). `Feed` is the simple
  byte-by-byte specification, `Pump` the same with a callback that may refuse events, and the
  class `EventWriter` is the source's writer. `PageOf` is one history page; `Chain` follows `next`.
  `LogWitnesses` holds logs, decoded from bytes a container can write with any parseable timestamps, on which
  paging goes wrong.
- **Daily schedules** (`Zones`, `Schedule`). A zone is a list of instants at which its offset changes,
  more than 48 hours apart, whole minutes, jumps under 24 hours. `date` is any function that behaves as
  Go's `time.Date` promises, so everything holds whichever answer Go gives in a gap or a fold.
- **Project files** (`FileJournal`, `FileDeployment`). The shell program as a machine over a map from
  path to content that can stop between any two files, and the deployment steps around it.
- **Readiness** (`Readiness`): the polling loop, proved against the history of all polls.
- **Dotenv editing** (`Dotenv`, `DotenvReading`, with `Strings`): the line scanner, the quoting and the editor,
  and that what is written reads back.
- **Caches and notifications** (`Cache`, `Notifier`). Every critical section is one method; a `Run` is any
  interleaving of them. A subscriber may read its channel at any moment inside `Notify`.

## What turned out to be conditional

Where the code does not meet a property on all inputs, the model keeps the code and the theorem says
exactly when it does:

- A recreate rollback succeeds, everything else working, if and only if no create response was lost
  (`Recreate.Worker.Rollback`, `Recreate.Worker.Fail`). `Recreate.LostCreateNeedsRecovery` is such a run,
  and by `Recreate.Worker.Execute` every group without obstacles has one. Self-update looks for such a
  container and recovers (`SelfUpdate.Worker.Rollback`).
- A sync rolls the old files back on every error of its commit record
  (`internal/managed/deployment.go:612-613`), also if that record took effect. The records of a run are all
  true if and only if that did not happen, followed by a restore that changes a file
  (`FileDeployment.Worker.CommitFiles`); when it does, the job is recorded as committed while the
  files are the old ones (`FileDeployment.CommittedThenRestored`).
- Self-update's last record tells the truth if and only if it was not that the success was recorded
  unheard, the replacement removed and the snapshot not put back (`SelfUpdate.Worker.RunWorker`);
  `SelfUpdate.SucceededThenRemoved` is such a run. The original's data is in the snapshot or, without one, in
  the live database in every world, unless the snapshot was put back while a replacement that could not be
  removed was left running (`SelfUpdate.Worker.Rollback`, `SelfUpdate.ExposedIsSpoiled`).
- Resuming a log page takes exactly the rest if and only if the cut is clean
  (`LogHistory.ScanDelivers`, `LogHistory.ResumptionIsExactIffClean`): no later event is older than the
  boundary, no earlier one is newer, and every earlier event at the boundary instant is counted in the cursor
  under the same spelling. Out-of-order timestamps lose events (`LogWitnesses.EarlierEventIsLost`), also
  when only the events are out of order (`LogWitnesses.OvertakenRecordIsLost`); two
  spellings of one instant on two streams can send the reader round in a circle
  (`LogWitnesses.OtherSpellingIsRepeated`).
- `DecodeLogEvents` flushes both writers after the callback has refused an event
  (`internal/inventory/logs.go:100-105`), and the callback judges such text like any other. A full page is
  exact if and only if the unfinished line of the other stream is older than the page or finds no room on
  it (`LogPaging.DecodedPageIsExactIff`), and following the pages gives the whole log if and only if
  that is so at every cut (`LogPaging.ChainIsExactIff`). `LogWitnesses.PartialLineOnFullPage` is a log where
  it is not. Terminals and streams of whole lines have no such text (`LogPaging.HistoryIsExact`).
- An ASCII line keeps its trailing CR if and only if its length is a multiple of 65536
  (`Logs.AsciiKeepsCRIff`); in general, if and only if the CR ends one of the pieces into which the text is
  cut (`Logs.LineIsCut`, `Logs.ReassemblyIsExact`). Shorter lines are always trimmed.
- `NextAt` is later than now if and only if today's run is still to come, or adding one day reached a later
  civil date and no fold that has begun shows that date's time of day again (`Schedule.NextIsLaterIff`);
  `Schedule.SlotHasComeIff` is the same for the slot with gaps, `Schedule.SlotsBracketNowIff` for both. All
  three hold in every zone. A fold that goes back over midnight breaks the first
  (`Schedule.NextAtMidnightFold`), and a gap that begins at midnight can (`Schedule.NextAtMidnightGap`,
  `Schedule.NextBehindGap`); a gap late in the evening breaks the second (`Schedule.SlotAheadOfNow`). A gap
  that only lies within its own length of midnight can also fail it, because `AddDate` may answer with
  the reading on the other side of it; `GapsClear` therefore asks for that much distance.
- An edit of a dotenv file is exact, and repeating it changes nothing, if and only if the key is already
  assigned or no quote in the file is left open (`Dotenv.EditIsExactIff`, `Dotenv.LastEditWinsIff`).
- A restore after an interrupted commit, and after edits by somebody else, gives back the old files if
  and only if no journalled file was edited to content of neither version
  (`FileJournal.RestoreUnlessForeign`); otherwise all restores refuse and change nothing.

## Model

| member | source | states |
|---|---|---|
| ComposeOrder.TopologicalOrder | internal/composeorder/order.go:10-51 | succeeds exactly when every dependency entry is well formed, names a present service and no dependency chain is cyclic; the result lists every container once, each after all it depends on; the error says truly whether a cycle or a malformed entry was found |
| ComposeOrder.Search.Visit | internal/composeorder/order.go:18-44 | the recursive search: on success the container and all it depends on are in the order and the stack is as before; a cycle is reported only if there is one, a malformed entry only if there is one; ends because the stack of unfinished containers can only grow to all of them |
| ComposeOrder.Search.VisitEntry | internal/composeorder/order.go:26-39 | one dependency entry: accepted only if well formed, and then every replica of the named service is already ordered |
| ComposeOrder.OrderRefutesCycles | internal/composeorder/order.go:10-51 | a list with every dependency first proves that no dependency chain is cyclic, so success and cycles exclude each other |
| Assessment.DependencyOrder | internal/recreate/assessment.go:373-414 | succeeds exactly when every entry is admissible for the running states involved and nothing is cyclic; then the order is a dependency order and the one-shot members are exactly those some member waits for to complete |
| Assessment.AssessEntry | internal/recreate/assessment.go:380-403 | an entry is accepted exactly when it is well formed and all its dependencies are in a state that lets both sides be replaced; it marks exactly the members whose completion it waits for |
| Assessment.AllowedByCondition | internal/recreate/assessment.go:380-403 | which states of the two members each of the three conditions admits |
| Assessment.AwaitedHasCompleted | internal/recreate/assessment.go:395-399 | in an accepted group every one-shot member has exited with code 0 |
| Assessment.ScopedDependencyOrder | internal/recreate/assessment.go:417-436 | leaving external dependencies out keeps the order a dependency order of the group: each member once, in-group dependencies first |
| Assessment.GroupDependenciesAreEarlier | internal/recreate/assessment.go:417-436 | no member depends on itself or on one that comes later in the order |
| ReplacementSafety.AssessedPlanIsValid | internal/recreate/assessment.go:201-334 | what the assessment computes is all the protocol needs to start from: order, one-shot marks, distinct originals and recovery names |
| ReplacementSafety.OriginalChanges | internal/recreate/worker.go:360-382 | stopping, renaming or detaching an original keeps every crash state safe, provided it is already marked in the saved journal and no call has left any of its dependants running |
| ReplacementSafety.CandidateCreated | internal/recreate/worker.go:391-398 | creating a candidate keeps the state safe: it is the only one the journal may be missing |
| ReplacementSafety.CandidateChanges | internal/recreate/worker.go:402-407 | starting a candidate, when all it depends on in the group passed the readiness test at their last look, touches no original and no bystander |
| ReplacementSafety.AgingIsSafe | internal/recreate/worker.go:428-470 | containers that exit by themselves between two calls, any number and any of them, leave every crash state safe |
| ReplacementSafety.JournalSaved | internal/recreate/worker.go:99-109 | a journal write that forgets no mark and no candidate keeps the state safe, whether or not its response arrives |
| ReplacementSafety.OriginalRemoved | internal/recreate/worker.go:640-645 | removing an original keeps the state safe only after success |
| ReplacementSafety.SuccessWasVerified | internal/recreate/worker.go:411-422 | in every run, a job that is recorded verified or reconciled was replaced at some moment before: every candidate in place with its name, image, configuration and endpoints and, when it was last looked at, stable, in the wanted state, and if it runs not unhealthy and settled; and every original stopped under its recovery name |
| ReplacementSafety.NothingLostBeforeSuccess | internal/recreate/worker.go:623-648 | in every run and at every crash point, if an original is gone then its whole group had been replaced before |
| Recreate.Worker.Execute | internal/recreate/worker.go:204-426 | the whole run, whatever Engine and store answer and whichever containers exit: every durable state a crash can leave is safe (originals kept, changes marked ahead, bystanders untouched, at most one candidate missing from the journal), every step justified (dependants stop first, candidates start after their dependencies passed the readiness test, outcomes recorded honestly), and none is forgotten; when everything works, started one-shots ending with code 0, the group ends verified and replaced, and when everything works but the response to the first create call, recovery_required; a verdict other than to replace, and a group that is not as recorded, leave Engine and journal alone in every world, and when calls work are recorded skipped, unchanged, not_needed or recovery_required as the verdict says; whatever happens, the job is left open only if a request to the store was the last thing and went unanswered, and is otherwise recorded after a saved journal, as a failure exactly if failure handling began; and a failure in time whose last call did not take effect unheard, handled while calls work, ends with the originals rolled back, or not_needed if nothing was announced |
| Recreate.Worker.Decide | internal/recreate/worker.go:239-353 | the same for each verdict on a group that is as recorded |
| Recreate.WholeJob | internal/recreate/worker.go:204-648 | a worker that crashes after any step, then any number of processes that reconcile, then any number that clean up, each lost at any of its own steps and answered anyhow: over all worlds there ever were, no original is gone and no success recorded unless the whole group had been replaced before; and a worker that is never lost and always answered gets a smooth replacement verified |
| Recreate.Serve | internal/recreate/worker.go:606-648 | one such process, from any safe past: when it works, a reconciling one records a group that is replaced, and a cleaning one removes every original of it |
| Recreate.LostCreateNeedsRecovery | internal/recreate/worker.go:391-394 | a run in which every call works and is heard except for the response to one create call, and which ends recovery_required |
| Recreate.Worker.StillMatches | internal/recreate/worker.go:234-238 | accepts only a group whose containers are all as recorded and were not restarted or stopped since; when calls work and nothing exited it accepts every such group |
| Recreate.Worker.ReplaceGroup | internal/recreate/worker.go:355-426 | from the announcement on: the same, with failure at any point ending in the recovery closure on a state rollback can handle |
| Recreate.Worker.Announce | internal/recreate/worker.go:355-358 | the flag and the resolved images are durable before the Engine is changed |
| Recreate.Worker.RetireOriginals | internal/recreate/worker.go:360-382 | stops, renames and detaches in reverse dependency order; after it every original is stopped under its recovery name with no endpoint but `none`; stopped halfway, it leaves a state rollback can handle |
| Recreate.Worker.RetireOriginal | internal/recreate/worker.go:361-381 | one original: marked durably before anything is done to it; a failed step says truly whether time is up |
| Recreate.Worker.Detach | internal/recreate/worker.go:374-381 | disconnects exactly the recorded endpoints and changes nothing else of the container |
| Recreate.Worker.CreateCandidates | internal/recreate/worker.go:389-410 | creates, records and starts in dependency order; success means every member is in place and passed the readiness test at its own poll; certain when calls work and started one-shots end with code 0; a failed step says truly whether time is up, and has lost a candidate only with the response of its last call |
| Recreate.Worker.CreateCandidate | internal/recreate/worker.go:391-395 | asked for only when no earlier candidate is missing from the journal |
| Recreate.Worker.StartCandidate | internal/recreate/worker.go:402-406 | asked for only when the candidates of all in-group dependencies passed the readiness test when last looked at |
| Recreate.Worker.Ready | internal/recreate/worker.go:428-470 | succeeds if and only if within the deadline some poll accepts the container and every poll before it says to go on waiting; a poll accepts exactly a container that is neither paused, restarting nor killed for memory, and is an exited one-shot with code 0, or stopped as its original was, or running, healthy or without healthcheck, and up for the settling time; it waits exactly for a stable one-shot that has not exited, or a stable running container that is not unhealthy but still starting or settling |
| Recreate.Worker.Verify | internal/recreate/worker.go:489-522 | success means every member is in place and passed the readiness test at its own poll; when calls work, accepts exactly the groups that are completely replaced once running one-shots have ended, and changes nothing |
| Recreate.Worker.Fail | internal/recreate/worker.go:209-231 | an expired context leaves the Engine alone and is recorded recovery_required if the record arrives; otherwise a job that changed nothing is recorded not_needed, and one that did, when calls work from the rollback on, ends rolled back if and only if no candidate is missing from the journal, otherwise recovery_required |
| Recreate.Worker.Recover | internal/recreate/worker.go:209-228 | the outcome a failure amounts to, and that it is true of the Engine |
| Recreate.Worker.Rollback | internal/recreate/worker.go:535-590 | from every failure point: nil means the Engine holds exactly the containers it held before, as calls left them: names, configuration, endpoints and running states included, and no candidate; and every touched original has passed the readiness test since; when calls work, nil is returned if and only if no create response was lost |
| Recreate.Worker.RemoveCandidates | internal/recreate/worker.go:537-544 | success means no candidate the journal knows is left; originals and other containers are untouched; whatever happens, those from some position of the order on are gone and those before it are as they were |
| Recreate.Worker.RestoreOriginal | internal/recreate/worker.go:550-587 | success means this original is exactly as it was, has passed the readiness test since, and nothing else changed; certain when its name is free and calls work |
| Recreate.Worker.RestoreSettings | internal/recreate/worker.go:554-569 | brings back exactly the name and the recorded endpoints |
| Recreate.Worker.RestoreRunning | internal/recreate/worker.go:570-587 | brings back the running state, compares the whole container and waits until it passes the readiness test; success of a needed start was heard |
| Recreate.Worker.Restartable | internal/recreate/worker.go:545-549 | restoring in dependency order restarts an original only when its dependencies run and never below a running dependant |
| Recreate.Worker.NameIsFree | internal/recreate/worker.go:554-561 | once every candidate is gone, no original finds its name taken |
| Recreate.Worker.AllRestored | internal/recreate/worker.go:545-589 | restoring the touched originals restores the whole Engine |
| Recreate.Worker.Complete | internal/recreate/worker.go:592-604 | a success is recorded only for a group that is in place and passed the readiness test, member by member; and exactly if the target was reserved, the journal saved and the record made, each heard to, on a job still open |
| Recreate.Worker.Reconcile | internal/recreate/worker.go:606-619 | success is recorded only for a group in place that passed the readiness test; when calls work, it succeeds exactly for a journal that announced changes and a group that is completely replaced once running one-shots have ended |
| Recreate.Worker.Cleanup | internal/recreate/worker.go:623-648 | removes nothing but originals, only after a verified or reconciled success, only while they are stopped under their recovery name with their old image; success means all are gone; everything else is unchanged |
| Recreate.CreationAdvances | internal/recreate/worker.go:391-398 | a created and recorded candidate extends the created part of the order and keeps every candidate accounted for |
| SelfUpdate.Worker.RunWorker | internal/selfupdate/worker.go:78-163 | for a failure at any step, lost responses and exits included, while every running application writes to the database before any step: if recovery reports restored, the Engine holds exactly the containers from before and the database all that the original ever wrote and nothing else, and the original was seen running, healthy if it had been stopped; if committed, the replacement has the original name, the target image and configuration and was seen healthy, and the original is down; the final record tells the truth if and only if it was not that the success was recorded unheard, the replacement removed and the snapshot not put back; when calls work, it commits; looks that find a starting container wait for it; before the commit no call follows one that failed; a commit, and a restored outcome with a known replacement, had every call of their sequences answered; after a commit the original and the snapshot are gone if their removals took effect; a record of failure says restored exactly if it was |
| SelfUpdate.SucceededThenRemoved | internal/selfupdate/worker.go:149-152 | a run in which the record of success takes effect unheard and the snapshot is not put back: the update is on record as a success and the replacement is gone |
| SelfUpdate.Worker.Recovery | internal/selfupdate/worker.go:86-117 | the deferred closure: what is on record afterwards is true if and only if the answers did not betray it; a recorded failure equals the outcome, and is recorded if its call takes effect and the database is at hand |
| SelfUpdate.Worker.RecordJob | internal/store/self_update.go:161-172 | only the first outcome is recorded; a later attempt is an error and changes nothing |
| SelfUpdate.TrafficIsSafe | internal/selfupdate/worker.go:119-152 | whatever running applications write, the snapshot holds what the original wrote until it was stopped, or without one the live database holds exactly what it wrote, unless a replacement was left running |
| SelfUpdate.Worker.Attempt | internal/selfupdate/worker.go:119-152 | every way out before the commit leaves a state recovery can handle; committed means the healthcheck of the replacement has passed |
| SelfUpdate.Worker.Retire | internal/selfupdate/worker.go:119-131 | success means the original is renamed and stopped, and the snapshot is exactly the live database, which holds all that the original wrote; only then can a replacement exist |
| SelfUpdate.Worker.Rollback | internal/selfupdate/worker.go:262-301 | nil means the Engine is as before, the database is genuine (all of the original's writes and no others), and the original was seen running, healthy if it had been stopped; when calls work nil is certain, even if the create response was lost; with a known replacement, what is recorded, what is left of it and whether the only database is exposed to it are told from the answers |
| SelfUpdate.Worker.LookUpReplacement | internal/selfupdate/worker.go:264-268 | when the lookup works it finds the replacement exactly if there is one |
| SelfUpdate.Worker.RestoreOriginal | internal/selfupdate/worker.go:277-296 | success means the original has its name, was seen running, healthy if it had been stopped, and nothing else changed |
| SelfUpdate.Worker.RestoreDatabase | internal/selfupdate/worker.go:303-314 | success means the snapshot is the live database again, with the job still open in it |
| SelfUpdate.ExposedIsSpoiled | internal/selfupdate/worker.go:269-276 | if a replacement could not be removed before the snapshot is put back, its next write is in the only database there is |
| SelfUpdate.Worker.WaitHealthy | internal/selfupdate/worker.go:230-260 | succeeds if and only if within the deadline some poll finds the container running and healthy and every poll before it finds it running and starting; nothing but exits and writes of running applications can happen meanwhile |
| SelfUpdate.Worker.RemoveOriginal | internal/selfupdate/worker.go:155-158 | the original is removed only after the success is recorded |
| SelfUpdate.Worker.CleanUp | internal/selfupdate/worker.go:152-162 | after the commit the original goes if its removal takes effect, then the snapshot if its does, and the replacement stays in place |
| SelfUpdate.CreatingIsSafe | internal/selfupdate/worker.go:132-138 | a create call keeps every crash state safe with or without its response |
| Utf8.ValidConcat | internal/inventory/logs.go:159-161 | valid UTF-8 joins to valid UTF-8 |
| Utf8.BoundaryAhead | internal/inventory/logs.go:161 | in valid text a rune boundary is at most three bytes ahead of any position |
| Utf8Encoding.ValidIff | internal/inventory/logs.go:161 | valid text is exactly what some sequence of Unicode scalar values is encoded as, as section 3 of RFC 3629 defines it |
| Utf8Encoding.DecodeEncodes | internal/inventory/logs.go:161 | and each rune stands for one of them only |
| Logs.EventWriter.Write | internal/inventory/logs.go:147-168 | for every way of accepting or refusing events: the writer ends in the state, and has offered the events, of the byte-by-byte specification up to its first refusal |
| Logs.EventWriter.Flush | internal/inventory/logs.go:169-198 | exactly one event with the right flags and timestamp, or none for an empty buffer without a line end; a refusal keeps the buffer |
| Logs.FeedAppend | internal/inventory/logs.go:147-168 | the events do not depend on how the bytes are split across writes |
| Logs.PumpAppend | internal/inventory/logs.go:147-168 | neither do they when the callback refuses an event |
| Logs.PumpFollowsFeed | internal/inventory/logs.go:147-168 | up to the first refusal the offered events are those of a writer that is never refused |
| Logs.ChunksRespectRunes | internal/inventory/logs.go:161-164 | chunks of valid UTF-8 are valid, 65536 to 65539 bytes long, so the forced cut never happens |
| Logs.CutIsBoundary | internal/inventory/logs.go:161 | the first point at which a full buffer is cut is a rune boundary |
| Logs.ValidLineStaysValid | internal/inventory/logs.go:147-168 | every event of a line of valid UTF-8 is valid UTF-8 |
| Logs.ChunksAreBounded | internal/inventory/logs.go:161 | for arbitrary bytes every chunk has at most 65540 bytes |
| Logs.EventsAreBounded | internal/inventory/logs.go:147-198 | so has every event, its timestamp too, including the final partial one |
| Logs.SegmentIsKept | internal/inventory/logs.go:158-165 | putting the chunks of a line together gives back its bytes |
| Logs.LineIsOneRecord | internal/inventory/logs.go:176-197 | all events of a terminated line, whatever its bytes, bear the timestamp of its first piece; all but the first are continuations, and exactly the last ends the line |
| Logs.StampIsFirstField | internal/inventory/logs.go:181-188 | a piece of text is stamped with what stands before its first space, if and only if that parses |
| Logs.StampedRecord | internal/inventory/logs.go:180-197 | so a line that begins with a timestamp has only events with that timestamp, also when it is unfinished |
| Logs.StampedStream | internal/inventory/logs.go:147-198 | and a stream of such lines has only stamped events, however it is split across writes |
| Logs.LineIsCut | internal/inventory/logs.go:158-165 | for arbitrary bytes and any channel, the chunks of a line are its pieces at the first, and then each next, full buffer, as a function of the text alone |
| Logs.AsciiKeepsCRIff | internal/inventory/logs.go:176-179 | an ASCII line that ends in CR keeps it if and only if its length is a multiple of 65536 |
| Logs.ShortLinesAreTrimmed | internal/inventory/logs.go:176-179 | every line shorter than 65536 bytes, whatever its bytes, loses its trailing CR |
| Logs.ValidTextIsCutAtBoundaries | internal/inventory/logs.go:158-165 | the cuts of valid text lie between runes, 65536 to 65539 bytes apart |
| Logs.LongLineKeepsCR | internal/inventory/logs.go:176-179 | 65535 spaces and a CR are delivered with the CR |
| Logs.ReassemblyIsExact | internal/inventory/logs.go:90-136 | reassembling the events of any byte stream gives its newline split, each complete line as its record; and the limit rejects exactly the streams with a longer record |
| LogDecoding.DecodeLogEvents | internal/inventory/logs.go:90-107 | what is offered to the callback, in order, whatever it refuses; success exactly if nothing was refused |
| LogDecoding.ChannelsAreIndependent | internal/inventory/logs.go:90-99 | interleaving does not matter: each channel is decoded as if it were alone |
| LogDecoding.OfferedPerChannel | internal/inventory/logs.go:90-107 | the events of one channel are those of its own bytes |
| LogDecoding.DecodeLogs | internal/inventory/logs.go:111-136 | succeeds exactly when every record of both channels is within the limit, and then delivers exactly the records of both, in the order in which their ends were decoded, unterminated ones last, standard output first |
| LogDecoding.LinesAreTold | internal/inventory/logs.go:111-136 | the texts of each stream and the order of the streams determine the lines, so the success clause of `DecodeLogs` leaves nothing open |
| LogDecoding.EmitHeld | internal/inventory/logs.go:128-134 | text without a line end is delivered last, once per channel, and never as an empty record |
| LogHistory.Pager.Emit | internal/inventory/log_history.go:83-108 | the closure does to its variables what the specification of one event says |
| LogHistory.ReadLogPage | internal/inventory/log_history.go:76-114 | for any log: fails if and only if an event without a timestamp precedes the first that finds no room; otherwise it has a next cursor exactly if some event found no room, and without one the page holds exactly the chosen events of the whole log, in order |
| LogHistory.PageOfAny | internal/inventory/log_history.go:76-114 | the page of any log, stamped or not: the events chosen are those behind the boundary instant and those at it beyond the counts, up to the first without room; a full page begins with these |
| LogHistory.AdvanceDenotes | internal/inventory/log_history.go:101-106 | the cursor always says where the page ends: the last timestamp, and how many events per stream end with that spelling of it |
| LogHistory.ScanDelivers | internal/inventory/log_history.go:83-108 | for any cut, clean or not, the callback takes exactly the events behind the boundary instant and those at it beyond the cursor's counts, until one has no room |
| LogHistory.ExactIffClean | internal/inventory/log_history.go:89-95 | these are exactly the events behind the cut if and only if the cut is clean |
| LogHistory.ResumptionIsExactIffClean | internal/inventory/log_history.go:89-95 | what the callback takes when reading resumes at a cursor is exactly the rest, each event once, if the cut is clean (nothing before it is later, nothing after it is older, and equal instants before it are counted under one spelling), and, where events can be told apart, only then |
| LogHistory.OrderedCutsAreClean | internal/inventory/log_history.go:89-95 | every cut is clean when timestamps do not decrease and an instant has one spelling |
| LogHistory.ScanIsExact | internal/inventory/log_history.go:83-108 | at every point of the scan the page is exactly the events since the cursor and the skip counts are those of the log |
| LogHistory.PageIsExact | internal/inventory/log_history.go:76-114 | a page that is not full is the whole rest; a full page is cut at the first event without room, and is the next run of events with a cursor right behind it if and only if no event offered after the cut is dated after the cursor and fits into what room is left |
| LogHistory.OfferedAfterFull | internal/inventory/log_history.go:97-113 | what the closing flushes can still add to a full page |
| LogPaging.DecodedEventsFit | internal/inventory/log_history.go:82-99 | the largest event, at six output bytes per input byte, fits an empty page after the 8192-byte allowance |
| LogPaging.FirstPage | internal/inventory/log_history.go:76-114 | where a page is cut is told from the log alone; the page is the next run of events with a cursor right behind it if and only if nothing offered behind the cut slips onto it, otherwise it is no run of the log at all |
| LogPaging.ChainIsExactIff | internal/inventory/log_history.go:76-113 | following the next cursors yields the whole log from the starting position, each event once, within as many pages as there are events, if and only if at none of its cuts anything slips onto the full page |
| LogPaging.TailIsUnfinished | internal/inventory/logs.go:94-105 | what a decoded source still offers after a refusal is the other stream's unfinished line or text no smaller than what was refused |
| LogPaging.DecodedPageIsExactIff | internal/inventory/logs.go:94-105 | a full page of a decoded log is exact if and only if the other stream's unfinished text at the cut is not dated within the page's range or does not fit what room is left |
| LogPaging.NothingUnfinished | internal/inventory/logs.go:94-105 | a terminal, or two streams whose frames end their lines, has no such unfinished text |
| LogPaging.HistoryIsExact | internal/inventory/log_history.go:35-114 | so the history of a terminal, and of two streams of whole lines, is paged exactly, with nothing else assumed but stable logs with ordered timestamps in one spelling, also when pages end inside records or among equal timestamps |
| LogPaging.StampedLog | internal/inventory/logs.go:176-197 | the events of a log whose lines all begin with timestamps are all stamped, long lines included |
| LogWitnesses.EarlierEventIsLost | internal/inventory/log_history.go:89-91 | for any timestamps in the wrong order: 1000 lines and an older one after them; the chain of pages ends without the older |
| LogWitnesses.OvertakenRecordIsLost | internal/inventory/logs.go:147-168 | a record begun on one stream, 1000 later lines on the other and then its end: the frames are in the order of their time, the events are not, and the chain of pages ends without the record |
| LogWitnesses.OtherSpellingIsRepeated | internal/inventory/log_history.go:101-105 | for any two spellings of one instant on two streams: 2001 lines whose pages go round in a circle, so no number of them is enough |
| LogWitnesses.PartialLineOnFullPage | internal/inventory/logs.go:100-105 | for any timestamp: eleven long records on one stream and an unfinished line on the other; the first page is full, and the beginning of the unfinished line lands on it, so it is no run of the log |
| LogWitnesses.InterruptedLogIsNeverPaged | internal/inventory/logs.go:100-105 | no number of pages of that log gives back its events |
| Zones.OccurrenceExists | internal/schedule/schedule.go:29-45 | every civil time has an intended occurrence, as section 3.3.5 of RFC 5545 defines it |
| Zones.OccurrenceIsUnique | internal/schedule/schedule.go:29-45 | and only one |
| Zones.OccurrencesIncrease | internal/schedule/schedule.go:29-45 | a civil time at least a day later occurs later, across any transitions |
| Zones.AtMostOneChange | internal/schedule/schedule.go:39 | two days contain at most one transition |
| Zones.LaterUnlessFold | internal/schedule/schedule.go:58-66 | the occurrence of a later wall time is after now if and only if no fold that has begun by now shows that time again |
| Zones.EarlierUnlessGap | internal/schedule/schedule.go:46-57 | the occurrence of an earlier wall time has come if and only if no gap skips it with a reading still ahead |
| Schedule.DailyAtIsTheOccurrence | internal/schedule/schedule.go:29-45 | whichever zone `time.Date` picks in a gap or a fold, the result is the intended occurrence: the first instant showing the time, or in a gap the reading with the offset before it |
| Schedule.DailyIncreases | internal/schedule/schedule.go:29-45 | strictly increasing in the civil date |
| Schedule.NeighbourDate | internal/schedule/schedule.go:50-62 | moving one day gives the neighbouring date in zones whose gaps stay clear of midnight |
| Schedule.NextIsLaterIff | internal/schedule/schedule.go:58-66 | in every zone, the next run is after now if and only if today's run is still to come, or adding a day reached a later date and no fold has begun by now that still shows that date's time of day again |
| Schedule.SlotHasComeIff | internal/schedule/schedule.go:46-57 | in every zone, the slot has come if and only if today's run has, or the day step reached an earlier date and no gap puts that date's run after now |
| Schedule.NextAtMidnightGap | internal/schedule/schedule.go:61-64 | at a gap that begins at midnight, in any zone, the next run is after now exactly for one of the two answers `time.Date` may give |
| Schedule.NextBehindGap | internal/schedule/schedule.go:61-64 | a zone and an answer of `time.Date` for which the next run is not after now |
| Schedule.SlotAheadOfNow | internal/schedule/schedule.go:49-52 | a zone and an answer of `time.Date` for which the slot lies after now |
| Schedule.NextAtMidnightFold | internal/schedule/schedule.go:61-64 | in a zone whose fold goes back over midnight the next run can lie before now, whatever `time.Date` answers |
| Schedule.SlotsBracketNowIff | internal/schedule/schedule.go:46-66 | in every zone, slot <= now < next are the occurrences of consecutive dates if and only if the day step that was needed reached the neighbouring date and, going back, no gap puts yesterday's run after now or, going forward, no fold puts tomorrow's before it |
| Schedule.NothingBetween | internal/schedule/schedule.go:46-66 | and then no occurrence of any date lies between them |
| Schedule.SlotsBracketNow | internal/schedule/schedule.go:46-66 | in zones whose folds and gaps stay clear of midnight this holds at every moment |
| Schedule.DueRowMovesOn | internal/schedule/schedule.go:112-121 | a due row gets as due time the later of its own and the latest occurrence not after now, and as next time the earliest occurrence after now, so it does not fire twice |
| FileJournal.Directory.Run | internal/managed/deployment_files.go:73-136 | one run of the program, interrupted anywhere: it refuses and writes nothing unless every file passes the check of the mode; otherwise each state passed through has a prefix of the journalled files at the target version |
| FileJournal.RestoreRecovers | internal/managed/deployment_files.go:73-136 | after any part of a commit and any number of interrupted restores, restore passes its check and a full run gives exactly the files from before |
| FileJournal.RestoreSeesForeignEdits | internal/managed/deployment_files.go:92-96 | after an interrupted commit and restores, and edits by somebody else to any files, restore passes its check if and only if no journalled file was edited to content of neither version |
| FileJournal.RestoreUnlessForeign | internal/managed/deployment_files.go:73-136 | in that situation any further restores, the last one complete, give back the files from before with only the edits outside the journal, if and only if no edit was foreign; otherwise every one of them refuses and nothing changes |
| FileJournal.RecoverAfterEdits | internal/managed/deployment_files.go:73-136 | the same for the program itself: commit, restore, edits, restore |
| FileJournal.PartialIsMixed | internal/managed/deployment_files.go:117-135 | an interrupted run leaves each journalled file at one of its two versions and touches no other file |
| FileJournal.FullIsTarget | internal/managed/deployment_files.go:117-135 | a full run leaves every journalled file at the target version, absent ones removed, and others unchanged |
| FileDeployment.Host.ProjectFiles | internal/managed/deployment_files.go:138-204 | success of the helper means the program ran to its end; its failure says nothing about how far it came |
| FileDeployment.Worker.CommitFiles | internal/managed/deployment.go:600-616 | the flag is durable before the first file changes, and every crash state keeps the files at the old state until the flag is saved; success means recorded committed with all files new; every record in the run tells the truth about the files if and only if the commit record did not take effect unheard and get followed by a restore that shows; when everything works it commits; it commits if and only if the flag was saved, the program ended, and both records were made, each heard to; with the flag unheard nothing follows; and a later failure before the record takes effect, handled while calls work, is recorded rolled back with the old files in place, or recovery_required if uncertain or without the old containers |
| FileDeployment.Worker.RecordCommit | internal/managed/deployment.go:609-613 | the same from the written files on |
| FileDeployment.CommittedThenRestored | internal/managed/deployment.go:600-616 | a run whose commit record takes effect unheard and which ends recorded as committed with the old files |
| FileDeployment.RestoreUndoesCommit | internal/managed/deployment.go:669-681 | a restore that comes as far as `n` files leaves all files new if and only if none of those differs between the versions |
| FileDeployment.Worker.Rollback | internal/managed/deployment.go:669-681 | nil means the files are exactly those from before; when the program runs they always are, and nil depends on the containers alone; a restore under a committed record keeps the record true exactly if it changes no file |
| FileDeployment.Worker.FinishFailure | internal/managed/deployment.go:383-409 | an uncertain failure leaves the files alone and is never recorded as rolled back; a record once made is never overwritten; otherwise, when everything works, the files are those from before and the record says whether the containers are back too |
| FileDeployment.Worker.Reconcile | internal/managed/deployment.go:734-776 | success means all journalled files are at the new version; files change only in a sync whose saved flag was unset, and then only from the complete old state, and no record becomes untrue; when everything works it succeeds exactly if all files are new already or this is such a sync |
| FileDeployment.WholeJob | internal/managed/deployment.go:600-776 | a sync lost at any step and any number of reconciliations, each lost at any step: in every world there ever was a full restore gives back the files from before, and every record is true unless the commit record took effect unheard and a restore that shows followed; a sync that is never lost and always answered commits, and after one that is lost at once a reconciliation that works reconciles |
| FileDeployment.FullRestore | internal/managed/deployment.go:676-680 | from every crash state of a commit a full restore gives back the files from before |
| Readiness.ExpectedServices | internal/managed/readiness.go:49-76 | the active services with at least one replica, with their counts, and which of them are one-shots |
| Readiness.WhatIsExpected | internal/managed/readiness.go:49-76 | which services these are: named active, or without profiles when none are named, with their replicas, else their scale, else one, if positive |
| Readiness.VerifyReadiness | internal/managed/readiness.go:78-170 | succeeds if and only if some poll closes a real window before any poll is fatal: every service at its exact count, each container a one-shot that exited 0 or seen ready with the same start time and restart count at every poll for at least the stable time |
| Readiness.WeighService | internal/managed/readiness.go:108-152 | after one service the maps still summarise all polls, and the verdict is about the history, not about the maps |
| Readiness.Weigh | internal/managed/readiness.go:115-151 | the same for one container; rejected exactly when its state is fatal |
| Readiness.StatesAreToldApart | internal/managed/readiness.go:119-141 | every container is in exactly one of the states that end the verification, count as done, count as ready, or are waited for |
| Readiness.WeighAll | internal/managed/readiness.go:99-152 | the same for a whole poll: it counts as ready exactly when it closes a real window |
| Readiness.StreakIsLongest | internal/managed/readiness.go:142-146 | the remembered start of readiness is the earliest poll of the unbroken streak |
| Readiness.ForgettingIsRight | internal/managed/readiness.go:153-158 | dropping unseen containers leaves the maps a true and complete summary for the next poll |
| Dotenv.Definition | internal/managed/configuration_files.go:730-775 | finds the first and last line of the last assignment of the key, multi-line quoted values counted as one |
| Dotenv.SetValue | internal/managed/configuration_files.go:714-728 | the edited file is the specified one |
| Dotenv.LocateIsLast | internal/managed/configuration_files.go:730-775 | what is found is a whole assignment of the key, every quote before it closes, and none of the key follows |
| Dotenv.LocateFindsNames | internal/managed/configuration_files.go:730-775 | something is found exactly when the key is assigned |
| Dotenv.ScanConcat | internal/managed/configuration_files.go:747-769 | where every quote closes, scanning goes on as from a fresh start |
| Dotenv.LiteralClosesAtItsEnd | internal/managed/deployment_files.go:55 | a written value closes at its last character and not before, and stays on one line, whatever it contains |
| Dotenv.EncodedAssigns | internal/managed/configuration_files.go:715 | the written line is one closed assignment of the key |
| DotenvReading.LiteralReadsBack | internal/managed/deployment_files.go:55 | a written value, read as double-quoted text with escapes and `$$`, is the value again, whatever it contains |
| DotenvReading.SetReadsBack | internal/managed/configuration_files.go:714-728 | after an edit under the exact condition the last assignment of the key is one line whose value, read so, is what was set, and every other key has the assignment it had |
| DotenvReading.AssignedForm | internal/managed/configuration_files.go:735-752 | a name, `=` or `:` and a value, exported or not: the line assigns the trimmed value to the name |
| DotenvReading.OtherForms | internal/managed/configuration_files.go:735-746 | blank lines, comments and lines without a separator assign nothing, and indentation does not matter |
| DotenvReading.ClosesIff | internal/managed/configuration_files.go:753-769 | a quoted value closes on a line if and only if its quote stands there behind an even number of backslashes |
| DotenvReading.QuoteTakes | internal/managed/configuration_files.go:753-769 | and otherwise takes lines up to the first on which it closes, or all |
| Dotenv.EditKeepsOtherLines | internal/managed/configuration_files.go:716-727 | every line outside the replaced assignment is kept; a new one comes last on its own line, after a missing final newline |
| Dotenv.EditIsExactIff | internal/managed/configuration_files.go:714-728 | scanning after the edit gives the old last-wins assignments updated at the key alone if and only if the key was assigned already or no quote is left open; and an edit opens no quote |
| Dotenv.LastEditWinsIff | internal/managed/configuration_files.go:714-728 | under exactly the same condition a later edit replaces an earlier one without trace, so repeating an edit changes nothing |
| Dotenv.OpenQuoteTakesKey | internal/managed/configuration_files.go:724-727 | with an open quote in the file a new key is swallowed by it |
| Cache.Reader.HandleEvent | internal/inventory/events.go:87-117 | which events change what: new generation, dropped entries, start time from the event, and whether the inventory changed |
| Cache.ActionsMean | internal/inventory/events.go:87-117 | which actions end, start or otherwise change a container |
| Cache.Reader.Prune | internal/inventory/metrics.go:67-94 | drops exactly the entries not running in the listing, if the generation still holds; returns the running containers without a start time |
| Cache.Reader.StoreSample | internal/inventory/metrics.go:111-116 | stores a sample only while the generation holds |
| Cache.Reader.StoreStart | internal/inventory/uptime.go:60-72 | stores a start time only while the generation holds and none is known |
| Cache.Reader.StoreInspected | internal/inventory/inventory.go:143-154 | stores a start time only while the generation holds |
| Cache.Reader.StoreShell | internal/inventory/terminal.go:37-44 | stores an answer only while the generation holds |
| Cache.Reader.CachedMetrics | internal/inventory/metrics.go:31-49 | one entry per cached sample or known start; nothing of an expired sample shows; a known start always gives a non-negative uptime |
| Cache.GenerationCounts | internal/inventory/events.go:101-102 | two moments of a run have the same generation exactly when no lifecycle event was handled between them |
| Cache.MetricsAreTheLastCleanRead | internal/inventory/metrics.go:54-116 | in every interleaving a cached sample is exactly the last one whose read saw no lifecycle event and that nothing dropped since |
| Cache.SamplesAreFresh | internal/inventory/metrics.go:111-116 | so its read began after every lifecycle event of its container |
| Cache.StartsAreTheLastCleanRead | internal/inventory/uptime.go:49-73 | in every interleaving a known start time is exactly the last one told by a start event or read without a lifecycle event in between, not dropped since |
| Cache.StartsAreFresh | internal/inventory/uptime.go:60-72 | so it came with the last start event of its container or from a read that began after every start, stop or death of it |
| Cache.ShellsAreFresh | internal/inventory/terminal.go:22-46 | a cached answer about a shell is from a probe that began after the last lifecycle event of its container |
| Notifier.Channel.Tell | internal/inventory/changes.go:26-35 | one subscriber, reading at any moment in between: the change joins what was told, and sending never finds the channel full |
| Notifier.Notifier.Notify | internal/inventory/changes.go:23-36 | every subscriber is told the change exactly once and loses nothing it had not read |
| Notifier.NothingIsLost | internal/inventory/changes.go:23-36 | from whatever moment a subscriber looks, what it receives and what waits say exactly what it was told since, no more and no less |
| Notifier.Notifier.Begin | internal/inventory/changes.go:63-72 | a new operation under a higher number than all before it, and everybody is told |
| Notifier.Notifier.End | internal/inventory/changes.go:73-81 | ends that operation alone; a target without operations is forgotten; ending twice is harmless |
| Notifier.Notifier.State | internal/inventory/changes.go:87-96 | the state of the oldest operation in progress on the target, whatever order the map is walked in |
| Notifier.StatesOfOperations | internal/inventory/changes.go:46-62 | which state each kind of operation shows |
| Notifier.Notifier.Apply | internal/inventory/changes.go:84-116 | every project and container of the snapshot shows the right operation |
| Notifier.ShowsNothingIff | internal/inventory/changes.go:97-115 | a project shows no operation exactly when neither it nor any of its containers has one whose state is shown |

## Left out

- Recreate.Worker.Execute: the fingerprint comparison, made at `internal/recreate/worker.go:235` and again at `:313`, appears once; image pulls, the platform checks and the schedule checks are one given verdict.
- Recreate.Worker.Verify: configuration, host configuration and mounts are one value that is compared as a whole; which fields `equivalent` and `normalizeHost` ignore, and how `creation` builds it, is not modelled.
- Recreate.Worker.Ready: restart policies, which start a container again without a call, are not modelled.
- Recreate.Worker.Rollback: journal entries are values in a sequence, so that entries are shared by reference is not captured.
- SelfUpdate.Worker.RunWorker: begins after the checks of `internal/selfupdate/worker.go:23-74`; the image tag is one call without an effect in the model, and panics are not modelled.
- SelfUpdate.Worker.RestoreDatabase: the SQLite log files that are deleted before the rename are part of the live database.
- Logs.EventWriter.Write: cancellation of the context is one more way in which the callback refuses.
- LogDecoding.DecodeLogEvents: frames arrive well formed; frame errors of `StdCopy` and read errors are not modelled.
- LogHistory.ReadLogPage: base64 and JSON encoding of the cursor, its 4096-byte limit, the time interval of the query and the mapping of invalid bytes to U+FFFD are not modelled; parsed timestamps are a given function of their text.
- Schedule.DueRowMovesOn: the date text of an occurrence, which keys its job, is left out.
- Schedule.SlotsBracketNow: seconds within a minute, years outside Go's range and the schedule store are left out; `Start`, `deferDue` and the running of jobs too.
- FileJournal.Directory.Run: links, ownership, permissions, directories and temporary files are not modelled; two failures of the file system inside one rename are not distinguished from a stop.
- FileDeployment.Worker.CommitFiles: the sync path of `deploy`; the first deployment, which has no previous version to return to, is left out, and so is everything about Compose itself, which is one flag.
- Readiness.VerifyReadiness: identities of containers are unique within a poll and keep their service; the sleep between polls is in the given clock readings; error messages are left out.
- Dotenv.SetValue: text is characters, not bytes, and what is printable is a given predicate; bytes that are not valid UTF-8, which `strconv.Quote` writes as `\x` escapes, are left out.
- Cache.Reader.HandleEvent: the generation does not wrap around after 2^64 events.
- Cache.Reader.CachedMetrics: seconds are whole numbers of nanoseconds divided, and the fields of a sample besides uptime are one value.
- Cache.MetricsAreTheLastCleanRead: the number of worker goroutines and their deadlines only restrict which interleavings happen, so they do not appear.
- Notifier.Notifier.Apply: projects and containers are values that are replaced in the snapshot, not updated in place.
- Restoring the containers of a deployment (`RestoreOperationRuntime`), Compose subprocesses, YAML, HTTP, MCP and WebSocket adapters, authentication, SQLite and the lock tables are foreign to these protocols.
- Configuration assessment, port overlap, removal plans, inventory grouping and the login limiter are mostly independent branches.
