# Locomotive video and metadata recording: a verified model

The repository records video and metadata on a locomotive onto two drives (the crash-hardened
memory CHM and the removable SSD) and serves them back. This project models its hardest parts and
proves what they promise.

**Metadata recorder and reader.** Message handlers copy typed records into a ten-slot ring queue;
one thread takes them out, decides when to start a new chunk file, mirrors each record to every
drive in use, and keeps an index of offset, time, type and length that it writes into the file when
it closes and publishes it. The collector finds the published files again by their names, scans
each index for a type and a time window, and fetches the payloads by offset. The main result is
`Pipeline.CollectedEndToEnd`: over every interleaving of handlers and recorder, what the collector
writes out, followed by the matching records still waiting, is exactly the matching accepted
records, in the order they were enqueued when the files are listed in the order they were
published. What it asks of the run, and what happens without it, is listed below. It is stated drive
by drive: what goes wrong on one drive takes nothing from the other.

| module | part |
|---|---|
| `ChunkNames` | chunk file names: printing and parsing |
| `RecorderState`, `Recorder` | the recorder as transition functions, and as the code that updates its fields in place |
| `RecorderSafety`, `RecorderPaths` | mirroring and frozen files; index bounds, hours and directories |
| `RecorderNames` | renaming over a published file: which published files survive |
| `RecorderDirs` | which directories are made on a drive, and what a drive without one publishes |
| `RecorderTimes` | when a step opens a file, when an idle round closes one, and the durations in names |
| `ChunkReader`, `RoundTrip`, `Collector` | reading a chunk; what is read is what was recorded; finding files by name |
| `RoundTripLimits`, `SoundRuns` | what each condition of the round trip is worth; runs that meet them all |
| `MetaQueue`, `Handoff`, `Pipeline` | the ring queue; ownership of payloads between the threads; the whole path |
| `TimeChange` | the shared time-change flag, tested and cleared in two critical sections |

**Camera supervision** (`SupervisionState`, `SupervisionSafety`, `SupervisionRuns`, `SupervisionModes`, `Supervisor`). One worker process
per camera is started, stopped and watched by message callbacks and a 1 Hz timer. Process spawning,
`waitpid` and camera probes are inputs of each event.

**Smaller cores.** `Segments` (the recordings list merges chunks into segments), `Manifest` (the
download manifest), `FileTree`, `Grooming` and `GroomedDirs` (deleting the oldest recordings of a drive),
`DiscreteInputs` and `EventControl` (change detection on three inputs, delayed actions per camera).

State that the program updates in place is a class (`Recorder`, `Queue`, `Supervisor`,
`EventControl`) whose methods equate the new state with a function of the old one; the theorems are
about those functions, over every run, and `Recorder.Record`, `Supervisor.Tick` and the two entry
points of `EventControl` promise them of the fields. What an operation decides is stated once more
without the functions it is defined by, on the raw inputs: the window of a request, the times at which
chunks open and close, each bit of a recording mode, which register bit is which input, which seconds
join two chunks, the names walks pass over and the directories a deletion takes along.

## Conditions of the round trip

`Pipeline.CollectedEndToEnd` asks the following. What concerns a step is a test on the state before
the step and on its inputs, and the results named here say what the step does when the test fails;
"exact" marks an if-and-only-if.

| condition | without it |
|---|---|
| every record has a time and a payload | `RoundTripLimits.WriteExact` (exact): the record cannot be read back; behind a record without a time nothing in its chunk can (`RoundTripLimits.ZeroTimeHides`) |
| no published file of the drive has the name a chunk is about to be published under | the older file is replaced: `RoundTripLimits.RotationExact`, `ChangeExact`, `TimeoutExact` and `StopExact` (all exact) for the history, `RecorderNames.SurvivesRun` (exact) for the file, `SoundRuns.SameSecondReplaces` for an input; `SoundRuns.NewSecondsAreSound` shows when it always holds |
| the drive has the directory of the hour, which is only made on drives in use when the hour changes | the chunk stays in staging: the same four results (all exact) for the history, `RecorderDirs.LatePublishesNothing` for the whole hour, `SoundRuns.LateDriveLoses` for a drive inserted within the hour; `Pipeline.CommandedHasDirectory` shows that a drive commanded on throughout always has it |
| the mode changes only at a positive measured duration | `RoundTripLimits.ChangeExact` (exact) for every drive that was in use; the records are missing behind the next one (`RoundTripLimits.UnsoundChangeLoses`), and their file never yields any of them (`RoundTripLimits.UnsoundChangeIsFinal`) |
| a chunk times out only when the time since it was opened does not wrap to zero | `RoundTripLimits.TimeoutExact` (exact) |
| the thread is stopped at a positive measured duration | `RoundTripLimits.StopExact` (exact); a record that has just opened a chunk fails it (`RoundTripLimits.FreshChunkUnsound`) |
| the first drive is not switched off behind its stream while the second is used | `RoundTripLimits.UnsoundTell` (exact) |
| the hour does not change while every drive is off | `RecorderPaths.StaleDirectory` (exact) |
| dates have four-digit years | `ChunkNames.TimeInPlace` (exact above year 9999): the parser looks for the time of day in the wrong place |
| the reader's `mktime` and `localtime` lead back to the same hour | `RecorderPaths.ReaderPathExact` (exact) |
| the queue has room, and an enqueue does not hit the slot being copied | `Handoff.ProduceExact` (exact), `Handoff.FullWakeLeaks` |
| the drive is configured and commanded on throughout | `Collector.CollectedIsHistory` says what is collected from any drive: the records handled while it was in use |
| `deltat` is not zero | `RoundTripLimits.NoDeltaRecordsNothing` |
| two copies are configured | `RoundTripLimits.FewerCopiesLose` (exact): one record on one drive |
| the header leaves room before the first record, and a chunk and its index hold at least one record | nothing is proved; these are compile-time constants of the program |

## Model

| member | source | states |
|---|---|---|
| Pipeline.CollectedEndToEnd | metacollector/src/metawriter.c:106-220 | For every interleaving of handlers and recorder and any order of the listing: what the collector writes out for a type and window, plus the matching records still waiting, are the matching accepted records, with no blank entry; listed in publication order, in enqueue order. Matching is said on the records: the kind asked for, and a time from start to end inclusive, any time when both bounds are 0, none when one is |
| Pipeline.EndToEnd | metarec/src/metaio.c:285-366 | The same when the published files of a drive are read in publication order: time, kind and payload of exactly those records handled that are asked for, in order |
| Pipeline.WrittenIsHandled | metarec/src/metaintf.c:85-100 | The recorder writes exactly the records the hand-over delivered, as they were when copied out of their slot |
| Pipeline.HistoryOfUsed | metarec/src/metaio.c:294-301 | A drive commanded on all along is in use for every record, so its history is all of them |
| Pipeline.CommandedHasDirectory | metarec/src/metachunk.c:59-89 | Such a drive has the directory its chunks go to at every moment |
| Collector.SearchAndWriteMetadata | metacollector/src/metawriter.c:106-220 | Skips names without `.data`, opens each file under the path rebuilt from its start time, and writes the selected records of the files that open, in listing order, with one blank entry per match that cannot be read; every record written has the kind asked for and lies in the window |
| Collector.CollectedIsHistory | metacollector/src/metawriter.c:123-134 | After a run that is sound for a drive, collecting from it gives exactly the records of the kind and in the window handled while it was in use, each as often as it was handled, and no blanks, each file found again only by its name, for any order of the listing; in publication order, in the order they were handled |
| Collector.NamesAreDistinct | metacollector/src/metawriter.c:123-134 | Published files of different paths that are filed in their hour's directory have different names, so no name leads to the wrong file |
| RoundTrip.ReadBackIsHistory | metacollector/src/metareader.c:196-317 | Reading the published chunks of a drive after a run that is sound for it, whatever becomes of the other drive, returns exactly the matching records handled while the drive was in use, in order, with timestamps and payloads |
| RoundTrip.RunSteady | metarec/src/metaio.c:285-366 | The invariant behind it holds after every such run: published items followed by those of the open chunk are the history of the drive, and index, offset and open files of both drives agree |
| RoundTrip.OffsetsTile | metarec/src/metaio.c:303-335 | In every such state entry k starts at the header size plus the lengths of the k earlier records, and the last one ends at `pos` and at the end of the open file |
| RoundTrip.TiledDisjoint | metarec/src/metaio.c:307-314 | The byte ranges of two index entries never overlap |
| RoundTripLimits.StopExact | metarec/src/metachunk.c:297-351 | Stopping with an open chunk publishes its drive's whole history if and only if the measured duration is positive, the drive has the directory and no published file has the name |
| RoundTripLimits.ChangeExact | metarec/src/metaio.c:203-211 | Following a new mode publishes the whole history of a drive that was in use, whether it stays in use or not, under exactly the same condition |
| RoundTripLimits.TimeoutExact | metarec/src/metaio.c:342-365 | An idle timeout does if and only if the time since the chunk was opened does not wrap to zero, the directory is there and the name is free |
| RoundTripLimits.RotationExact | metarec/src/metachunk.c:202-243 | A rotation keeps the whole history of a drive in use if and only if the directory of its old chunk is there and the name that is published under is free |
| RoundTripLimits.WriteExact | metarec/src/metaio.c:220-235 | A written record joins what a drive in use yields if and only if it has a time and a payload |
| RoundTripLimits.ZeroTimeHides | metacollector/src/metareader.c:93-118 | A chunk is read up to its first entry of time zero, and nothing behind it |
| RoundTripLimits.UnsoundChangeLoses | metarec/src/metaio.c:203-211 | After a mode change at duration zero and the next record, at least the records of the open chunk are missing from what was published, whether the drive stays in use or not |
| RoundTripLimits.UnsoundChangeIsFinal | metarec/src/metachunk.c:297-351 | After any later run and the last finalization, the file they were written to still yields nothing |
| RoundTripLimits.FreshChunkUnsound | metarec/src/metachunk.c:241-242 | A record that has just opened a chunk always leaves the duration at zero, so stopping or changing the mode right behind it loses it |
| SoundRuns.ConstantModeIsSound | metarec/src/metaio.c:285-366 | With the mode left as configured, every run of records with a time and a payload and of idle rounds, timeouts included, meets the conditions of the round trip, when chunks are opened in different seconds and no timeout falls on a wrap of the microsecond count to zero |
| SoundRuns.NewSecondsAreSound | metarec/src/metachunk.c:217-253 | In any mode the conditions on names and directories follow from the others when every chunk is opened in a second in which none was opened before and the drive, whenever in use, was in use at the last hour change |
| SoundRuns.DifferentAreNew | metarec/src/metachunk.c:245-253 | Records in pairwise different seconds open their chunks like that |
| SoundRuns.SameSecondReplaces | metarec/src/metachunk.c:222 | Chunks of one record, three records of one second a millisecond apart: the first published chunk is replaced by the second, and nothing that follows brings it back |
| SoundRuns.LateDriveLoses | metarec/src/metachunk.c:250-253 | A drive inserted within the hour the recorder started in: all records of that hour that asked for it were handled while it was in use, and no query on it returns any of them |
| SoundRuns.InsertedDriveLoses | metarec/src/metachunk.c:250-253 | For instance, four records of one hour, the second drive commanded on for the last two |
| RecorderDirs.RunDirs | metarec/src/metachunk.c:59-89 | For every run the directories of a drive are exactly those made in the steps that changed the hour while it was in use |
| RecorderDirs.UsedHasDirectory | metarec/src/metachunk.c:250-253 | A drive in use at the last hour change has the directory its chunks go to |
| RecorderDirs.LatePublishesNothing | metarec/src/metachunk.c:217-225 | A drive without that directory publishes nothing until the hour has changed: not in any run within the hour, not in the step that changes it, and not at the stop |
| RoundTripLimits.NoDeltaRecordsNothing | metarec/src/metachunk.c:183-292 | With `deltat` zero no file is ever opened or published |
| RoundTripLimits.UnsoundTell | metarec/src/metaio.c:329-334 | With the first drive switched off behind a closed stream, the offset scan gives the right offset if and only if `ftell` on that stream happens to answer it |
| ChunkReader.ReadFileFilters | metacollector/src/metareader.c:70-118 | Selecting in the index and then fetching equals fetching everything and filtering, for any file contents |
| ChunkReader.GetAllFilteredIndexRecords | metacollector/src/metareader.c:47-124 | The in-place scan packs, in order, exactly those entries before the first one without a time or an offset whose type is the one asked for and whose time lies from start to end, both bounds 0 meaning any time and one of them 0 none |
| ChunkReader.GetMetadataRecords | metacollector/src/metareader.c:196-317 | Delivers, in order, exactly those records the file holds that are of the type asked for and in the window, and counts the index matches |
| ChunkReader.FilteredExact | metacollector/src/metareader.c:93-118 | A request picks, in order, exactly the records of its type whose time lies from start to end inclusive; all of the type when both bounds are 0; none when one alone is |
| ChunkReader.ReadFileAnswers | metacollector/src/metareader.c:196-317 | What is delivered of any file is that, among all the file holds |
| Collector.HasDataExact | metacollector/src/metawriter.c:106-220 | A name passes the test if and only if `.data` stands somewhere in it |
| RecorderSafety.ReachableSafe | metarec/src/metaio.c:220-235 | Mirroring: in every reachable state the drives in use have equal open chunks and write through the stream they would finalize |
| RecorderSafety.RunFrozen | metarec/src/metachunk.c:297-351 | No write after finalize: a closed file keeps its index and bytes, whatever follows; a staging name opened again stands for a new file |
| RecorderSafety.FinalizeFrozen | metarec/src/metaio.c:214-217 | The last finalization keeps that too |
| RecorderNames.SurvivesStep | metarec/src/metachunk.c:214-222 | A published entry survives a step if and only if the step does not rename a chunk to its path |
| RecorderNames.SurvivesRun | metarec/src/metachunk.c:327 | Over whole runs: what is published stays published if and only if nothing is renamed to its path later |
| RecorderNames.ReachableNamed | metarec/src/metachunk.c:202-253 | In every reachable state no two published files of a drive have the same path, and no published file is still staged |
| RecorderPaths.IndexBounded | metarec/src/metaio.c:123-128 | The record count never exceeds the smaller of index capacity and chunk size |
| RecorderPaths.WriteIndexes | metarec/src/metaio.c:307-314 | The append guard is never false: every record written gets the next entry, with the offset it is written at |
| RecorderPaths.PublishedByHour | metarec/src/metachunk.c:217-253 | All records of a published chunk share the hour in its name, and the chunk lies in that hour's directory unless an hour changed while every drive was off |
| RecorderPaths.ReaderFindsFile | metacollector/src/metawriter.c:128-133 | The path the reader rebuilds from the file's start time is the one it was published under |
| RecorderPaths.ReaderPathExact | metacollector/src/metawriter.c:123-134 | It is the right path if and only if the reader's conversions of the parsed date lead to the same directory |
| RecorderPaths.StaleDirectory | metarec/src/metachunk.c:59-89 | At an hour change the directory follows if and only if some drive is in use |
| RecorderTimes.OpensExactly | metarec/src/metachunk.c:91-125 | A step opens a file on a drive if and only if it is a record, the drive is in use once the mode has been followed, and a session begins, the mode, year, month, day or hour has changed, index or chunk is full, or a time change is pending |
| RecorderTimes.ClockIsOpener | metarec/src/metachunk.c:255-275 | In every run the time the recorder measures from is that of the last record that opened a file |
| RecorderTimes.IdleWaits | metarec/src/metaio.c:342-365 | In every run, while fewer nanoseconds than the chunk size times 10^9 have passed since that record, an idle round leaves files, streams, staging and published files, index and session as they are |
| RecorderTimes.IdleTimesOut | metarec/src/metaio.c:342-365 | Once they have, and the microseconds since do not wrap to zero, an idle round with a stream ends the session, drops both streams and closes the open file of every drive in use with the records indexed |
| RecorderTimes.RotationNames | metarec/src/metachunk.c:193-221 | A chunk that a record replaces is published under the microseconds between the record that opened it and the one that replaces it, cut to 32 bits |
| Recorder.Recorder.constructor | metarec/src/metaio.c:270-283 | The recorder starts with nothing open, no session and an empty index |
| Recorder.Recorder.Record | metarec/src/metaio.c:285-368 | The thread's loop followed by its last finalization computes the specified run; when the run is sound for a drive, every query on it then answers exactly the matching records handled while it was in use |
| Recorder.Recorder.RecordOne | metarec/src/metaio.c:289-340 | One round with a record: follow the mode, rotate, index, write, rescan the offset |
| Recorder.Recorder.IdleRound | metarec/src/metaio.c:342-365 | One round without: refresh the duration, and close the chunk when the chunk size in seconds has passed since it was opened, as `RecorderTimes.IdleWaits` and `IdleTimesOut` say |
| Recorder.Recorder.IsDriveStatusUpdated | metarec/src/metaio.c:157-190 | Reports a change against the remembered mode, never the first time, and remembers the new one |
| Recorder.Recorder.UpdateDrivesInPlace | metarec/src/metaio.c:203-211 | Chunks are finalized before the drives follow the new mode |
| Recorder.Recorder.WriteMetadata | metarec/src/metaio.c:220-235 | The payload goes to every used location among the configured copies that has a stream |
| Recorder.Recorder.ScanOffset | metarec/src/metaio.c:329-334 | The first location with a stream answers the offset, used or not |
| Recorder.Recorder.IndexRecord | metarec/src/metaio.c:307-314 | The guarded append to the index |
| Recorder.Recorder.GetChunk | metarec/src/metachunk.c:167-295 | A rotation happens exactly when one is required, making the hour's directory on the drives in use; the result tells whether a file was opened |
| Recorder.Recorder.IsNewChunkRequired | metarec/src/metachunk.c:107-125 | New hour or session, full chunk, time change or drive update; the flag is cleared |
| Recorder.Recorder.FinalizeChunk | metarec/src/metachunk.c:297-351 | Closes the chunks in use and publishes those that have a directory to go to, unless the duration is zero, and resets the tracker in any case |
| MetaQueue.Enq | metarec/src/metaqueue.c:110-125 | Appends to the bounded FIFO, and drops when full |
| MetaQueue.Deq | metarec/src/metaqueue.c:127-148 | Answers the slot of the oldest element and removes it from the FIFO |
| MetaQueue.SlotStable | metarec/src/metaqueue.c:127-148 | A slot handed out by a dequeue that leaves c elements keeps its value under n further enqueues if and only if n is at most 9 - c |
| MetaQueue.Queue.constructor | metarec/src/metaqueue.c:79-98 | Starts empty |
| MetaQueue.Queue.Enqueue | metarec/src/metaqueue.c:110-125 | The in-place enqueue refines the FIFO |
| MetaQueue.Queue.Dequeue | metarec/src/metaqueue.c:127-148 | The in-place dequeue refines the FIFO |
| Handoff.ActsOwned | metarec/src/metaintf.c:36-68 | In every sound interleaving records are handled in the order accepted, none lost or repeated, and each payload block is in flight or has been freed exactly once |
| Handoff.ProduceExact | metarec/src/metaintf.c:36-55 | An enqueue adds its record behind everything in flight if and only if there is room and it does not hit the slot being copied |
| Handoff.FullWakeLeaks | metarec/src/metaqueue.c:41-59 | A wait for room that returns while the ring is full leaks the block |
| TimeChange.NoLostChange | metarec/src/metachunk.c:107-125 | In every interleaving, a message with offset zero behind one with a negative offset is followed by a rotation no later than the end of the first check that begins after it |
| TimeChange.EachRotationHasItsSetting | metarec/src/metaio.c:130-146 | There are never more rotations caused by time changes alone than settings |
| TimeChange.ChecksAreAtomic | metarec/src/ptc_meta_intf.c:83-92 | Linearizability: outside checks, flag, remembered offset and all answers are those of a run with atomic checks |
| TimeChange.RecorderChecks | metarec/src/metachunk.c:107-125 | An atomic check is what one round of the recorder does with its flag |
| ChunkNames.NameRoundTrip | recording_list/src/camera_recordings.c:91-153 | Parsing a published name recovers every date field and the whole duration, also beyond nine digits |
| ChunkNames.NameShape | metarec/src/metachunk.c:193-253 | A published name is `YYYYMMDD-HHMMSS.UUUUUUUUU.data`, character by character, for durations of at most nine digits |
| ChunkNames.NameOrder | recording_list/src/camera_recordings.c:116-153 | The two decoded integers order names chronologically |
| ChunkNames.TimeInPlace | recording_list/src/camera_recordings.c:116-153 | The time of day is where the parser looks for it if and only if the year has at most four digits |
| ChunkNames.HourDirInjective | metarec/src/metachunk.c:59-89 | Different hours have different directories |
| SupervisionSafety.RunInv | reagent/src/ptc_intf.c:2421-2447 | Over all runs: the counter is the number of cameras with a worker, no worker means no recording bits, audio implies video per drive, and the retry and restart counters stay in bounds |
| SupervisionSafety.StoppedInv | reagent/src/ptc_intf.c:2438-2440 | The guard on the decrement never hides an underflow |
| SupervisionSafety.OfflineOnSixthMiss | reagent/src/ptc_intf.c:932-1028 | Over all runs: lives stay in 1..6; an online camera goes offline exactly on its sixth miss in a row or when its worker is found dead, and comes back exactly on a sign of life |
| SupervisionRuns.RetryCountsFailures | reagent/src/ptc_intf.c:3008-3085 | Over all runs: the retry counter shared by the cameras of one name is the number of their failed spawns since the last success or refusal for CHM |
| SupervisionRuns.GivenUpExactly | reagent/src/ptc_intf.c:2975-2983 | Over all runs: a camera loses its assignment exactly when it is started with three such failures counted, and never regains it |
| SupervisionRuns.RestartedExactly | reagent/src/ptc_intf.c:1202-1215 | Over all runs: the watching loop starts a camera exactly when it is waiting and has waited thirteen turns since that loop last started it or saw it with a worker |
| SupervisionSafety.ShutdownUndoesReady | reagent/src/ptc_intf.c:2166-2192 | A shutdown right after a ready message leaves what a ready message for the remaining drives would have left, when every camera is online and not paused |
| SupervisionSafety.ShutdownUndoesReadyCamera | reagent/src/ptc_intf.c:1788-1823 | For one camera this holds if and only if it follows ready messages or its mode does not ask for the lost drives |
| SupervisionSafety.SeeIfRecording | reagent/src/ptc_intf.c:2384-2412 | A drive is reported as recording exactly when no camera commanded to record there fails to |
| SupervisionModes.StartExact | reagent/src/ptc_intf.c:2975-3089 | After a start that is not given up, each mode bit is given by essential, audio, the drives that are ready and the bit before: with the SSD ready its video is on whatever the mode was, CHM video exactly when the camera is essential or it was on before. A worker is spawned if and only if CHM is not asked for in vain, the camera is assigned and without one, and the fork succeeds; each status bit then is its mode bit, audio only beside video |
| SupervisionModes.PausedCameraRecords | reagent/src/ptc_intf.c:2598-2686 | For instance a paused camera with audio, told to record with both drives ready: its worker records video and audio on the SSD and is credited with it |
| SupervisionModes.ReadyExact | reagent/src/ptc_intf.c:1775-1825 | A ready message gives a camera online and not paused video on exactly the drives that are ready, with audio if it has it, and credits a worker with its mode |
| SupervisionModes.ShutdownReady | reagent/src/ptc_intf.c:2126-2165 | Which drives are still ready after a shutdown |
| SupervisionModes.ShutdownExact | reagent/src/ptc_intf.c:2166-2192 | A shutdown clears the bits of the drives that are not ready after it, in mode and status, and no other; an invalid one changes nothing |
| SupervisionModes.SettingsExact | reagent/src/ptc_intf.c:1486-1503 | Each bit of the mode after a settings message, from the two flags and the mode before |
| SupervisionModes.CommandIgnored | reagent/src/ptc_intf.c:2604-2668 | A command during a shutdown or for a camera that is unknown, offline or unassigned fails and changes nothing; one that asks for what the video bits already say succeeds and changes nothing |
| SupervisionModes.PauseExact | reagent/src/ptc_intf.c:2648-2653 | A recording camera that is paused asks for nothing, has no worker and no recording bits, and stays paused |
| SupervisionModes.RecordExact | reagent/src/ptc_intf.c:2654-2658 | A camera not recording is started, no longer paused, if and only if some drive is ready |
| SupervisionModes.ResetExact | reagent/src/ptc_intf.c:2570-2588 | A stream reset starts a camera that is not recording; one that is recording is paused and, if it had a worker, started again, and stays paused if it had none |
| SupervisionModes.WatchExact | reagent/src/ptc_intf.c:1186-1201 | A worker found dead leaves its camera offline, without recording bits and uncounted; a living one only clears the restart counter |
| SupervisionModes.OfflineExact | reagent/src/ptc_intf.c:932-1028 | In every reachable state a camera that goes offline while credited with recording loses its worker and those bits, and keeps its mode |
| SupervisionModes.OnlineExact | reagent/src/ptc_intf.c:932-1028 | A camera that comes back gets full lives; a start is tried if and only if it is commanded to record and its worker has died |
| SupervisionModes.OnlineSpawnsNothing | reagent/src/ptc_intf.c:932-1028 | That start never spawns, since the process id is still set: the restart is left to the watching loop |
| Supervisor.Supervisor.Tick | reagent/src/ptc_intf.c:1040-1218 | The reporting pass and the watching loop compute the specified events, camera by camera, and keep the invariant of the supervisor |
| Supervisor.Supervisor.Reflect | reagent/src/ptc_intf.c:932-1028 | Lives, online flag and worker after a report, as specified |
| Supervisor.Supervisor.WatchOne | reagent/src/ptc_intf.c:1186-1217 | A dead worker takes its camera offline; a waiting camera is counted and restarted |
| Supervisor.Supervisor.StartProcess | reagent/src/ptc_intf.c:2945-3089 | Give up, set the mode, check the drives, spawn, and credit the worker; `SupervisionModes.StartExact` says with which bits |
| Supervisor.Supervisor.StopProcess | reagent/src/ptc_intf.c:2882-2930 | Stops and uncounts the worker if there is one |
| Supervisor.Supervisor.RecordingJustStopped | reagent/src/ptc_intf.c:2421-2440 | No worker, no recording bits, one less in the counter |
| Supervisor.Supervisor.HandleRecordPause | reagent/src/ptc_intf.c:2598-2686 | Record and pause commands, ignored during shutdown |
| Supervisor.Supervisor.ResetCameraStream | reagent/src/ptc_intf.c:2570-2588 | Pause, and record again if that succeeded |
| Supervisor.Supervisor.ReadyMessage | reagent/src/ptc_intf.c:1775-1825 | Modes of cameras online and not paused are rebuilt from the ready drives, status bits from the modes of those with a worker |
| Supervisor.Supervisor.ShutdownMessage | reagent/src/ptc_intf.c:2126-2200 | Bits of drives not ready are cleared; an invalid request changes nothing |
| Supervisor.Supervisor.SettingsMessage | reagent/src/ptc_intf.c:1486-1503 | A settings message moves the mode only where it differs |
| Segments.PrintSegments | recording_list/src/camera_recordings.c:278-301 | The one-pass print gives one start and one end per maximal run. For chunks near each other: the start of its first chunk and the whole second its last one ends in; inside a run each chunk starts within a second of the end of the one before, either way, and between two segments there is more |
| Segments.RunsUnique | recording_list/src/camera_recordings.c:287-298 | The partition into maximal runs is unique |
| Segments.OneRunExact | recording_list/src/camera_recordings.c:287-298 | Consecutive chunks are printed in one segment if and only if the second starts at most one second, either way, from the whole second in which the first ends |
| Segments.SegmentsExact | recording_list/src/camera_recordings.c:278-301 | Start and end of every segment printed, in those terms |
| Segments.SegmentCovered | recording_list/src/camera_recordings.c:278-301 | Every second of a printed segment lies in a chunk of its run, whatever order the sort leaves equal starts in |
| Segments.ChunkInSegment | recording_list/src/camera_recordings.c:278-301 | Every chunk is in a printed segment and ends at most one second after it |
| Segments.CompareExact | recording_list/src/camera_recordings.c:78-83 | The comparison orders two chunks rightly if and only if their difference fits a 32-bit int |
| Segments.QsortSorts | recording_list/src/camera_recordings.c:278 | With differences that fit, what qsort leaves is sorted by start |
| Manifest.InsertChunkMetadata | reagent/src/ra_download.c:859-1024 | Result code and tokens in every case, with the tokens of a chunk whose copy fails already written |
| Manifest.VisitedBlocks | reagent/src/ra_download.c:933-1011 | Whatever resolves, the pass has written the blocks of the chunks that resolve, one per stretch between boundaries, and at most one block opened ahead |
| Manifest.ManifestIsBlocks | reagent/src/ra_download.c:933-1011 | When the last path resolves, the manifest is the well-formed list of those blocks |
| Manifest.BlocksExact | reagent/src/ra_download.c:937-1002 | Two chunks are in one block if and only if no gap lies between them on a chunk that resolves |
| Manifest.WellFormedExact | reagent/src/ra_download.c:933-1002 | The manifest is well-formed if and only if the last chunk resolves |
| Manifest.EntriesAreResolving | reagent/src/ra_download.c:937-978 | The entries are exactly the chunks that resolve, once each and in order |
| Manifest.UnresolvedGapMerges | reagent/src/ra_download.c:937-942 | So gaps on chunks that do not resolve are not seen: the runs on both sides share a block |
| Grooming.FindOldestFile | space_monitor/src/ra_space_monitor.c:186-262 | The recursive search computes the first oldest of the files it sees |
| Grooming.OldestIsLeast | space_monitor/src/ra_space_monitor.c:244-249 | No file seen that starts before 2^31-1 is older than the one found |
| GroomedDirs.FilesExact | space_monitor/src/ra_space_monitor.c:224-241 | A walk sees a file if and only if it is on the drive and no name on its path is `..`, `.`, `lost+found` or `staging`, nor `METADATA` for the duration count |
| GroomedDirs.DeletedExact | space_monitor/src/ra_space_monitor.c:242-249 | The file deleted is the first of the oldest in the order of the walk; nothing is deleted exactly when every file starts from 2^31-1 on |
| GroomedDirs.DeletedPrunes | space_monitor/src/ra_space_monitor.c:311-347 | With it exactly those directories disappear that are among the five above it, hold nothing but the way to it, and are not named VideoFootages, nor is one between |
| Grooming.ProcessDuration | space_monitor/src/ra_space_monitor.c:404-459 | The recursive sum over the files outside METADATA |
| Grooming.CountedIsTotal | space_monitor/src/ra_space_monitor.c:441-455 | The duration counted is that of the files the search sees, less those below METADATA |
| Grooming.DeleteOldestFile | space_monitor/src/ra_space_monitor.c:271-353 | Deletes the file found, then up to five empty directories above it |
| Grooming.PruneKeepsFiles | space_monitor/src/ra_space_monitor.c:311-347 | Pruning empty directories changes nothing that any walk sees, from anywhere |
| Grooming.DeletedConserves | space_monitor/src/ra_space_monitor.c:293-309 | A deletion removes exactly one file, and none that starts before 2^31-1 is older |
| Grooming.GroomHandler | space_monitor/src/ra_space_monitor.c:468-491 | When the counted files that start from 2^31-1 on are within the limit, terminates within it; deleted and kept files are the files there were; oldest first; before the last deletion the limit was exceeded |
| Grooming.GroomEndsExact | space_monitor/src/ra_space_monitor.c:483-490 | The loop ends if and only if the counted files that start from 2^31-1 on are within the limit |
| Grooming.LateFileStays | space_monitor/src/ra_space_monitor.c:246 | For instance, with a single file of 2039 it never ends |
| Grooming.SpaceHandler | space_monitor/src/ra_space_monitor.c:360-396 | The same for free space, for any sequence of readings: each deletion follows a reading below the threshold, and it ends on one that is not or with nothing left to delete; a first reading of exactly 1 percent counts as a failure |
| Grooming.ProgressExact | space_monitor/src/ra_space_monitor.c:483-490 | A round of the duration loop changes anything if and only if some file starts before 2^31-1 |
| DiscreteInputs.ReportsAreChanges | host_utils/ra_video_rec/event_control/event_control.c:415-461 | For every run: what is reported of a recorded input k is the k-th digit of the polls that count, without repetitions, and nothing is reported of an input that is not recorded |
| DiscreteInputs.ReplayTellsInput | host_utils/ra_video_rec/event_control/event_control.c:480-502 | For every run: the last report of a recorded input k is the k-th digit of the latest poll that counts, and there is one more report than changes of the bit |
| DiscreteInputs.BitIsOn | host_utils/ra_video_rec/event_control/event_control.c:450-457 | Input k, from 1 to 3, is the k-th binary digit of the register |
| DiscreteInputs.RecordedExact | host_utils/ra_video_rec/event_control/event_control.c:480-502 | An input is reported if and only if the first configured one with its number says so |
| DiscreteInputs.NewsMatches | host_utils/ra_video_rec/event_control/event_control.c:415-461 | The matches a poll makes for a camera are those of the inputs whose digit differs from the poll before, of all three at the first poll, in order and with the new digits |
| DiscreteInputs.PerformedIsFiring | host_utils/ra_video_rec/event_control/event_control.c:531-638 | For every run and camera: performed are exactly the matches that are immediate or whose timer expires before the next match, in order; pending is the last match if it was delayed |
| EventControl.EventControl.constructor | host_utils/ra_video_rec/event_control/event_control.c:170-238 | Nothing polled, no timer running |
| EventControl.EventControl.CheckForEvent | host_utils/ra_video_rec/event_control/event_control.c:415-461 | A poll computes the changed inputs and processes them; afterwards what was reported of every input and performed for every camera is what the polls and callbacks so far explain |
| EventControl.EventControl.CheckDigitalEvents | host_utils/ra_video_rec/event_control/event_control.c:480-502 | The first configured input with the number decides whether a message is sent |
| EventControl.EventControl.FindMatch | host_utils/ra_video_rec/event_control/event_control.c:561-573 | The first matching trigger of a camera that events control |
| EventControl.EventControl.TakeTurn | host_utils/ra_video_rec/event_control/event_control.c:594-630 | A match is saved, then delayed or performed at once, in either case superseding a running timer |
| EventControl.EventControl.ProcessInputs | host_utils/ra_video_rec/event_control/event_control.c:514-640 | Inputs in order, and for each the cameras in order |
| EventControl.EventControl.TimerExpired | host_utils/ra_video_rec/event_control/event_control.c:653-677 | The timer's camera performs what is saved for it; the same explanation holds afterwards |

The program's own documentation differs from its code in two places, and the model follows the
code. The comment above `see_if_recording` (reagent/src/ptc_intf.c:2374-2382) promises a drive is
reported when at least one camera records to it; the code reports a drive on which no commanded
camera fails, also when none is commanded. The comment at reagent/src/ptc_intf.c:1208-1211 speaks of
six cycles before a restart; the code waits thirteen.

## Left out

- metachunk.h and metadata_def.h are not part of this model: header size, index capacity and record layouts are parameters, and reader and writer agree on the capacity.
- Collector.CollectedIsHistory: the directory walk is assumed to list every published file once, because dir_walker is not part of this model; `mktime` and `localtime` are functions that lead every date the recorder prints back to the same hour.
- Recorder.Recorder.Record: a `rename` fails for lack of a directory and in no other way; a failed `fopen`, `fwrite` or `mkdir` is not modelled, and a staging name opened again gets a new file where the code truncates the old one, which nothing refers to any more. Files and directories that a drive already holds when the recorder starts are left out, so a rename replaces only files published by the same run and needs a directory made in it.
- Pipeline.EndToEnd: descriptors are handled one at a time; offsets, timestamps and counters are unbounded numbers, where the code has 32-bit fields.
- ChunkNames.NameRoundTrip: years outside 1000-9999, signs and white space before digits, and overflow in `atoi` are outside the names the recorder prints.
- The HMAC written into each chunk, shared-memory notifications, encryption, zip and the shell commands around downloads.
- metarec's ready and shutdown callbacks: the commanded mode is an input of each record.
- Segment times in the manifest: offsets read from chunk headers are left out, so a block's times are given by the chunks they come from.
- Camera names: the lookup of a camera by name is an input; names are compared as the folded twelve characters the code compares.
- SIGHUP reconfiguration of the supervisor, ONVIF probing, ARP lookups, metarec and space-monitor child processes, and the status messages sent after each change.
- Supervisor.Supervisor.SettingsMessage: message flags are 0 or 1, as they are sent.
- Grooming.GroomHandler: removing a file that was found succeeds; when it fails the code repeats the round without end. Directory reads and `stat` succeed, no directory holds a name twice, and durations are not negative.
- Grooming.SpaceHandler: the readings may be any numbers, but files that other programs add while it deletes are not modelled.
- Segments.PrintSegments: the directory walk that fills the chunk array, and `abs` of the most negative int, which the C standard leaves undefined.
- EventControl.EventControl.CheckForEvent: power-down, door-lock and drive-ready handling in the same callback, and what an action sends to the camera.
- Queue waits: whether a wait for room or data answers is an input; spurious wake-ups are the inputs that break its promise.
