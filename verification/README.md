# Verified model of the radio automation core

A Dafny model of the parts of the system where state, loops and concurrency meet, with proofs of what
they promise. Each module follows one component.

| module | models |
|---|---|
| `PcmWindows`, `PcmWindowsTheorems` | cutting a decoded byte stream into timed windows |
| `ActiveRuns` | active runs, their merging in place, trailing artifacts, the loudness percentile |
| `CuePlan` | cue, transition and end times of a track, whole or long |
| `AnalysisWorkers` | the two analysis workers with scheduling, superseding and shutdown |
| `ManualNext` | the serialised "next" requests of a station |
| `TrackStarted` | the track_started coordinator: de-duplication, retries, the bounded queue |
| `StudioConsole`, `StudioConsoleTheorems` | the streaming terminal of the studio page |
| `Annotate` | building and reading annotate descriptors |
| `RotatingLog` | the rotating protocol log |
| `QueueTable` | the play queue as a table of positions |
| `QueueCommit` | moving the song that started from the queue into the history |
| `AutoDj` | track picking, the rotation cursor, refills |
| `StationRegistry` | the daemon's station slots and client list |
| `LineFraming` | newline framing at both ends of the control socket |
| `ControlChannel` | requests, replies and reconnections over the control socket |
| `SchedulerTime` | clock times, URL durations and next runs of the scheduler |
| `Decimals` | decimal text and separators, shared by two of the above |

Code that changes state step by step is a class or a method with loops, proved equal to a function (or a
relation between two states); the theorems are about those functions and hold for every input, every
run, or every interleaving. Protocols are lists of atomic steps: a step is one section under a lock, or
one write that other threads can see. The classes `Station`, `Coordinator`, `Client` and `Daemon` carry
out the sections, and their methods are proved equal to the steps.

`dafny verify dfyconfig.toml` checks everything.

## Where the code does less than it seems

Each of these is proved, with the exact condition where there is one.

* A frame completed from two reads never closes a window. For reads of given lengths, some stream comes
  out with other windows or levels exactly when a read ends inside a frame that should close a window,
  save the very last frame when its window still starts where the previous one ended
  (`PcmWindowsTheorems.ReadLengthsAreHarmlessExactlyWhen`; silence with one loud frame is such a stream).
* A console chunk that ends between the two halves of a surrogate pair puts two cells instead of one
  (`StudioConsoleTheorems.ChunkEndIsHarmlessExactlyWhen`).
* Pruning does not look at the current log file, so the size bound holds afterwards exactly when that
  file was within it (`RotatingLog.PrunedIsInBounds`).
* Moving queue items to the front reports success exactly when some positive id is listed and the queue
  is not empty, even when none of the items is in it (`QueueTable.MoveReportsExactlyWhen`).
* A song that starts again after its own row was committed never commits that row; it takes the head of
  the queue exactly when it does not rule that out and neither track, path, base name nor metadata points
  at a row (`QueueCommit.SecondStartTakesTheHead`).
* With the artist or the title rule on, a refill may still pick two tracks of an artist, or title. It never
  does, in any rotation, exactly when it needs at most one row or no allowed track shares its artist, or
  title, with another track of any category (`AutoDj.RuleHoldsExactlyWhen`). For one rotation without norules
  slots, and refills of more rows than it has, it never does exactly when no two allowed tracks of its
  categories share theirs (`AutoDj.RuleHoldsInExactlyWhen`).
* When two removals of a station overlap, the second may find the slot cleared, and exactly then the daemon's
  totals disagree with its slots (`StationRegistry.TotalsAgreeExactlyWhen`); or it may take a station that
  nobody asked to remove (`StationRegistry.UnaskedStationIsRemoved` is such a run). From any reachable state,
  and without further overlaps, no such station goes exactly when for each slot no removal too many waits, or
  the daemon is shutting down and the slot holds no unmarked station
  (`StationRegistry.StationsAreSafeExactlyWhen`). The engine of a station in use is never freed, even then.
* The client checks its limit on a message after each chunk only. A message passes however it is chunked
  exactly when it is within the limit, and in some chunks exactly when it is less than a chunk beyond it
  (`LineFraming.LineIsAcceptedExactlyWhen`).
* The reader of a dropped connection fails requests that were registered after the drop, exactly when no
  later connection was opened before that reader ended (`ControlChannel.OldReaderSparesExactlyWhen`).
* A request that fails or times out drops whatever connection is in use: a newer one than its own exactly
  when one was opened since and is still in use (`ControlChannel.DropTakesANewerExactlyWhen`).

## Model

| member | source | states |
|---|---|---|
| PcmWindows.GridOf | native_engine/src/audio_analysis.c:177-183 | The window is 5 to 100 ms, and its width is the whole number of frames just below that time. |
| PcmWindows.DecodeRange | native_engine/src/audio_analysis.c:193-297 | For any reads: 4 * frames + left-over bytes = bytes read, no complete frame is lost, and the result is that of measuring the whole stream, given which frames the reads cut. |
| PcmWindows.ReadChunk | native_engine/src/audio_analysis.c:215-272 | One read continues the measurement of the whole stream: the carry is exactly the incomplete frame at the end. |
| PcmWindows.LateMeansCut | native_engine/src/audio_analysis.c:215-236 | The frames that cannot close a window are exactly the complete frames that some read ends inside of. |
| PcmWindowsTheorems.DecodedTimeline | native_engine/src/audio_analysis.c:250-296 | Whatever the reads, the windows are an ordered timeline from the start of the range to its duration. |
| PcmWindowsTheorems.AlignedReadsAreNeverLate | native_engine/src/audio_analysis.c:215-236 | Frame-aligned reads never complete a frame from the carry. |
| PcmWindowsTheorems.AlignedReadsAreCanonical | native_engine/src/audio_analysis.c:237-291 | Frame-aligned reads give windows that depend on the bytes alone: as many as ceil(frames / width), each starting at the previous end or exactly 1 ms before it, for every width. |
| PcmWindowsTheorems.UncutWindowIsFull | native_engine/src/audio_analysis.c:251-268 | A window closed on time ends there, has the level of exactly the frames of one width, and is never changed afterwards. |
| PcmWindowsTheorems.ReadsDoNotMatterExactlyWhen | native_engine/src/audio_analysis.c:215-291 | Every stream of n frames comes out, windows and levels, as if read at once if and only if no read ends inside a frame that closes a window, save a very last frame whose window still starts at the previous end. |
| PcmWindowsTheorems.ReadLengthsAreHarmlessExactlyWhen | native_engine/src/audio_analysis.c:193-297 | The same over all byte streams in reads of given lengths. |
| ActiveRuns.FirstSustained | native_engine/src/audio_analysis.c:327-344 | The least window that begins enough active windows in a row; 0 when there is none. |
| ActiveRuns.SustainedStart | native_engine/src/audio_analysis.c:327-344 | The one-pass counter finds that window. |
| ActiveRuns.CollectActiveRuns | native_engine/src/audio_analysis.c:350-388 | The scan collects the runs of the whole window list. |
| ActiveRuns.RunsAreExactlyTheMaximalIntervals | native_engine/src/audio_analysis.c:350-388 | An interval is collected if and only if it is a maximal active interval, and the runs are in order and apart. |
| ActiveRuns.MergeRuns | native_engine/src/audio_analysis.c:645-660 | The merge in the array itself leaves the groups at its front. |
| ActiveRuns.CutsAreTheGaps | native_engine/src/audio_analysis.c:648-658 | Two neighbouring runs are separated if and only if the gap between them exceeds the merge time. |
| ActiveRuns.GroupsSplitAtCuts | native_engine/src/audio_analysis.c:645-660 | The groups are the runs cut exactly at those gaps: each spans from its first run to its last. |
| ActiveRuns.DropTrailingArtifacts | native_engine/src/audio_analysis.c:665-679 | The chosen group is the last that is not both short and isolated, or the first; the ignored time is the total length of the dropped ones. |
| ActiveRuns.OrderedCounts | native_engine/src/audio_analysis.c:411-417 | In sorted values, at least t + 1 are at most the one at t, and at least count - t are at least it. |
| ActiveRuns.Percentile75 | native_engine/src/audio_analysis.c:396-419 | The reported loudness is an audible value with at least the nearest rank of values below or at it, and the rest above or at it. |
| CuePlan.FindEnding | native_engine/src/audio_analysis.c:642-686 | Collecting, merging in place and dropping artifacts finds the end of the audible part. |
| CuePlan.FindTrigger | native_engine/src/audio_analysis.c:710-720 | The backward search finds the transition point. |
| CuePlan.TriggerFollowsTheLastLoud | native_engine/src/audio_analysis.c:714-720 | The transition point is the start of the window after the last loud one, or the fallback when the last window itself is loud. |
| CuePlan.NoTriggerInQuiet | native_engine/src/audio_analysis.c:710-720 | Without a loud window the transition point is the fallback. |
| CuePlan.Deck.ApplyAnalysis | native_engine/src/audio_analysis.c:611-752 | The deck's whole new state after the analysis of a track. |
| CuePlan.Deck.ApplyLongTrackPartial | native_engine/src/audio_analysis.c:471-609 | The deck's whole new state after the analysis of head and tail samples. |
| CuePlan.Deck.ApplyLongTrackFallback | native_engine/src/audio_analysis.c:81-108 | The deck's whole new state after the fallback. |
| CuePlan.TimelineIsSteady | native_engine/src/audio_analysis.c:250-291 | Decoded windows have starts and ends that never fall, and no window is empty. |
| CuePlan.CrossfadedIsBounded | native_engine/src/audio_analysis.c:721-728 | Clamping keeps the transition inside the track, with a fade between min(minimum, track length) and the maximum. |
| CuePlan.SpanIsInside | native_engine/src/audio_analysis.c:688-702 | The played span is not empty and lies within the track. |
| CuePlan.AnalysisIsInOrder | native_engine/src/audio_analysis.c:642-741 | For every decodable window list and all settings: 0 <= play start <= transition <= end <= source end, play start < end, the fade is within its limits unless the short-track rule applies, and that rule applies exactly to tracks within its limit. |
| CuePlan.IgnoredTimeIsPositive | native_engine/src/audio_analysis.c:666-679 | The ignored artifact time is never negative. |
| CuePlan.FallbackIsInOrder | native_engine/src/audio_analysis.c:81-108 | Whatever the deck held, the fallback leaves ordered times and fades over the fallback time as far as the track allows. |
| CuePlan.LongTransitionIsInOrder | native_engine/src/audio_analysis.c:565-594 | The long-track transition is strictly inside the track, with the fade within its limits. |
| CuePlan.LongAnalysisIsInOrder | native_engine/src/audio_analysis.c:503-608 | The long-track path leaves ordered times for any samples; the order is strict and the fade limited unless it fell back. |
| AnalysisWorkers.CommitWritesExactlyWhenFresh | native_engine/src/audio_analysis.c:915-952 | In every interleaving a result is written if and only if nothing was scheduled or shut down since pick-up and the deck still holds that track; then the decode was not cancelled, and a success was prepared before it became visible. |
| AnalysisWorkers.CancelledDecodeIsSuperseded | native_engine/src/audio_analysis.c:197-206 | A cancelled decode never commits: it counts as superseded and leaves the decks alone. |
| AnalysisWorkers.OnlyCommitPublishes | native_engine/src/audio_analysis.c:936-952 | No step of a worker but the commit changes a deck, and a commit changes only its own. |
| AnalysisWorkers.EveryStartIsAccountedFor | native_engine/src/audio_analysis.c:827-951 | started = ready + failed + superseded + in progress, at every moment. |
| AnalysisWorkers.PickUpTakesTheLastSchedule | native_engine/src/audio_analysis.c:1012-1021 | What is picked up is the track scheduled last, once per schedule. |
| ManualNext.AtMostOneExecutes | player/orchestration.py:648-736 | In every interleaving at most one request executes, and queued plus executing never exceeds the limit. |
| ManualNext.BookIsBalanced | player/orchestration.py:757-831 | accepted = completed + dropped + queued + executing, as lists of requests. |
| ManualNext.RequestsStartInOrder | player/orchestration.py:663-671 | Requests start in the order in which they were accepted. |
| ManualNext.DropsAreKept | player/orchestration.py:710-714 | A dropped request stays dropped. |
| ManualNext.NothingRunsAfterAFailure | player/orchestration.py:699-715 | Nothing accepted before a failure was recorded, and not started by then, ever starts: it is dropped. |
| ManualNext.CommitWasMarkedAfterReservation | player/orchestration.py:544-552 | A committed request made its own reservation of its target, and a successful mark of that target came after it; an old mark never counts. |
| ManualNext.WaitSucceedsExactlyWhen | player/orchestration.py:359-373 | The wait succeeds if and only if the last mark since the reservation is a success of the target. |
| TrackStarted.PendingIsInFlight | audio_engine/lifecycle.py:317-341 | In every interleaving the pending sets are exactly the signatures and identities of the events in flight, and no two of those share one. |
| TrackStarted.AttemptsAreBounded | audio_engine/lifecycle.py:388-403 | No event is processed more than retries + 1 times. |
| TrackStarted.RepeatsAreSpaced | audio_engine/lifecycle.py:308-333 | A second success for a signature or queue identity belongs to an event admitted more than the time-to-live after the first. |
| TrackStarted.Coordinator.RemoveExpired | audio_engine/lifecycle.py:308-315 | Exactly the entries older than the time-to-live go. |
| StudioConsole.Console.ParseChunk | html/static/broadcaster.js:1610-1696 | The scan of a chunk with its look-ahead leaves the same screen as the automaton that reads one code unit at a time, whatever was carried over. |
| StudioConsole.Console.ApplySgr | html/static/broadcaster.js:1392-1453 | Style codes, with indexed and direct colours (section 8.3.117 of ECMA-48). |
| StudioConsole.ReplayPending | html/static/broadcaster.js:1610-1640 | Putting a carried-over sequence in front of the next chunk rebuilds the state it interrupted. |
| StudioConsole.FoldSurrogatePair | html/static/broadcaster.js:1610-1696 | A surrogate pair seen in one chunk is one cell. |
| StudioConsoleTheorems.CutIsInvisible | html/static/broadcaster.js:1610-1696 | Cutting a stream anywhere but inside a printed surrogate pair changes nothing: lines, cells, cursor, style, pending sequence. |
| StudioConsoleTheorems.CutPairTakesTwoCells | html/static/broadcaster.js:1610-1696 | A pair cut in two takes one column more. |
| StudioConsoleTheorems.ChunkEndIsHarmlessExactlyWhen | html/static/broadcaster.js:1610-1696 | A chunk end is harmless for every continuation if and only if it does not follow a printed first half of a pair. |
| StudioConsoleTheorems.AnyChunkingIsTheSame | html/static/broadcaster.js:1610-1696 | Feeding a stream in any pieces that keep pairs whole is feeding it at once. |
| StudioConsoleTheorems.ScrollBackIsBounded | html/static/broadcaster.js:1508-1515 | The console never keeps more than its limit of lines. |
| StudioConsoleTheorems.TrimmingKeepsTheNewestLines | html/static/broadcaster.js:1508-1526 | Trimming while writing shows the newest lines of what a longer console would show. |
| StudioConsoleTheorems.ParametersRoundTrip | html/static/broadcaster.js:1392-1400 | Parameters printed in decimal and joined by semicolons read back. |
| StudioConsoleTheorems.CodesRoundTrip | html/static/broadcaster.js:1392-1453 | The codes of a displayable style select it, from any style. |
| StudioConsoleTheorems.StyleRoundTrip | html/static/broadcaster.js:1572-1608 | Feeding the control sequence of a style puts exactly that style in force and changes nothing else. |
| StudioConsoleTheorems.ForwardThenBack | html/static/broadcaster.js:1597-1604 | Moving the cursor on and back by the same number changes nothing. |
| StudioConsoleTheorems.ColumnIsAbsolute | html/static/broadcaster.js:1593-1600 | Setting the column forgets the old one, and moving on from it adds up. |
| StudioConsoleTheorems.EraseBlanksItsSide | html/static/broadcaster.js:1579-1592 | Erasing blanks the columns from the cursor on, or up to and with it, or all, and leaves what is seen in the others. |
| StudioConsoleTheorems.CharacterIsSeenAtTheCursor | html/static/broadcaster.js:1554-1563 | A printable character is seen where the cursor was, in the style in force, and nowhere else. |
| Annotate.FindSeparator | audio_engine/protocol.py:489-507 | The scan finds the first colon outside quotes, or reports that there is none. |
| Annotate.ReadFields | audio_engine/protocol.py:508-534 | The fields found are those of the pattern, leftmost first, without overlap. |
| Annotate.ExtractIdentity | audio_engine/protocol.py:479-536 | The metadata and the path of a descriptor, with the plain path as the error result. |
| Annotate.EscapeIsCharwise | app.py:11597-11603 | The four replacements in a row act on each character by itself. |
| Annotate.UnescapeInvertsEscape | audio_engine/protocol.py:510-531 | Unescaping gives the value back, with line breaks as the spaces the writer made of them. |
| Annotate.FieldsOfJoin | audio_engine/protocol.py:508-534 | The pattern finds exactly the fields that were written, none inside a value. |
| Annotate.JoinPasses | audio_engine/protocol.py:491-504 | No colon of the written fields is taken for the separator. |
| Annotate.ReadingInvertsBuilding | app.py:11639-11647 | Reading a built descriptor gives back its metadata and its path, for any metadata and any path, up to outer white space of the path. |
| Annotate.LastFieldWins | audio_engine/protocol.py:533-534 | A key has the value of its last field, and only written keys are read. |
| RotatingLog.Logger.Prune | audio_engine/protocol.py:372-391 | Exactly the backups beyond the number or the size go. |
| RotatingLog.Logger.ShiftBackups | audio_engine/protocol.py:398-414 | Every backup moves up by one; the oldest goes. |
| RotatingLog.Logger.WriteLine | audio_engine/protocol.py:420-439 | Rotating when the line does not fit, then appending. |
| RotatingLog.WriteAppends | audio_engine/protocol.py:393-435 | A write adds its line at the end and loses exactly the oldest backup when it rotates, nothing otherwise. |
| RotatingLog.DiskIsASuffix | audio_engine/protocol.py:393-435 | After any run of writes, backups and current file are a contiguous suffix of all lines. |
| RotatingLog.FilesAreFew | audio_engine/protocol.py:393-418 | At most backup count + 1 files exist. |
| RotatingLog.FilesFit | audio_engine/protocol.py:393-435 | With a backup, every file is within the limit if every line is. |
| RotatingLog.PrunedIsInBounds | audio_engine/protocol.py:372-391 | After pruning the backups are within number and size; the size bound holds for all files if and only if the current one meets it. |
| RotatingLog.WithoutBackupsNothingIsLost | audio_engine/protocol.py:393-397 | Without backups the log never rotates and one file holds every line. |
| QueueTable.OrderIsUnique | storage/playback_repository.py:413-416 | A table has exactly one order by position and id. |
| QueueTable.OrderExists | storage/playback_repository.py:413-416 | Every table has one. |
| QueueTable.Store.EnqueueTracks | storage/playback_repository.py:306-358 | New rows go beyond the highest, or before the lowest position; their ids are returned in the order of the tracks. |
| QueueTable.Store.Reorder | storage/playback_repository.py:360-396 | The distinct positive ids are renumbered in order; the number of rows hit is returned. |
| QueueTable.Store.MoveToFront | storage/playback_repository.py:398-420 | The listed ids and then the rest are renumbered: a reorder by that list for any queue read before, and the move when that is still the order. |
| QueueTable.Store.RemoveItems | storage/playback_repository.py:422-450 | The listed rows go; their number is returned. |
| QueueTable.AppendRefines | storage/playback_repository.py:342-351 | Adding at the end appends to the list. |
| QueueTable.PrependRefines | storage/playback_repository.py:330-341 | Adding in front prepends in the given order, although the rows are inserted last to first. |
| QueueTable.MoveRefines | storage/playback_repository.py:398-420 | Moving to the front gives the listed rows that exist, then the rest as they stood. |
| QueueTable.RemoveRefines | storage/playback_repository.py:422-450 | Removing is a filter of the list. |
| QueueTable.TableRefinesQueue | storage/playback_repository.py:306-450 | For every sequence of operations (add, reorder, move to the front, remove) the tables show lists that the list operations lead through: items, tracks and next id. |
| QueueTable.ShowsOneQueue | storage/playback_repository.py:413-416 | A table shows one list only. |
| QueueTable.ReorderKeepsTheRest | storage/playback_repository.py:360-396 | A partial reorder puts the listed rows in the listed order and keeps the order of the others. |
| QueueTable.MoveReportsExactlyWhen | storage/playback_repository.py:410-420 | A move reports success exactly when a positive id is listed and the queue is not empty. |
| QueueTable.AbsentItemsAreMoved | storage/playback_repository.py:398-420 | A move of items that are not in a non-empty queue reports success and leaves the list as it was. |
| QueueTable.MoveMayMoveNothing | storage/playback_repository.py:398-420 | It is so as soon as one track has been added to an empty queue. |
| QueueCommit.BaseName | storage/playback_repository.py:666-672 | The part of a path after its last slash. |
| QueueCommit.MetadataMatchesExactlyWhen | storage/playback_repository.py:676-688 | The two tests match exactly when everything the song states is what the track has. |
| QueueCommit.FirstHolding | storage/playback_repository.py:645-659 | The first row that the evidence holds of. |
| QueueCommit.OnlyHolding | storage/playback_repository.py:661-674 | The row that the evidence holds of, when there is exactly one. |
| QueueCommit.Choose | storage/playback_repository.py:628-692 | The row that the strongest useful evidence points at, or else the head, or nothing. |
| QueueCommit.ChoiceIsUnique | storage/playback_repository.py:645-692 | The evidence order determines the choice. |
| QueueCommit.Ledger.CommitStartedTrack | storage/playback_repository.py:694-807 | The transaction is a step of the model, for any database. |
| QueueCommit.CommitMovesOneRow | storage/playback_repository.py:752-789 | A commit changes nothing, or takes out exactly one row, writes one history row and counts one play, all of one track. |
| QueueCommit.CommitsExactlyWhen | storage/playback_repository.py:730-765 | A commit succeeds if and only if the queue has a row and some evidence points at one or the head may be taken. |
| QueueCommit.EveryOperationIsAnEdit | storage/playback_repository.py:306-450 | No operation on the queue, reordering included, brings back a row: new rows have fresh ids. |
| QueueCommit.EachRowIsCommittedOnce | storage/playback_repository.py:694-807 | In every run no queue row enters the history twice. |
| QueueCommit.RepeatCheckNeverApplies | storage/playback_repository.py:751-765 | With fresh ids the check for a repeated commit never applies. |
| QueueCommit.HistoryIsTheCommits | storage/playback_repository.py:767-780 | The history grows by exactly the commits of the run, in order, and every track's play count by its plays among them. |
| QueueCommit.SecondStartTakesTheHead | storage/playback_repository.py:628-765 | A song whose own row was committed, starting again, never commits that row; it falls back on the head if and only if there is one, the song allows it and no other evidence points at a row, and then the head is committed. |
| QueueCommit.SecondStartMayTakeTheHead | storage/playback_repository.py:628-765 | A run, for any two tracks, in which a song starts twice and the second start takes the other row. |
| AutoDj.ReadHistory | autodj/service.py:204-217 | The loop collects exactly what repeats within each rule's time. |
| AutoDj.PickTrack | autodj/service.py:147-240 | Sound and complete for any shuffle: a pick is allowed by the rules, and there is none only when every candidate is blocked; a norules slot repeats only when nothing else is left. |
| AutoDj.TrySlots | autodj/service.py:285-313 | The refill loop tries slot after slot, with earlier picks excluded, until enough is picked or the tries are used up. |
| AutoDj.ShortRefillIsExhausted | autodj/service.py:285-313 | A refill falls short only when no slot of the rotation has anything left to pick: the limit on the tries never cuts one short. |
| AutoDj.NoRulesSlotFillsTheQueue | autodj/service.py:285-313 | One norules slot with a track makes every refill complete. |
| AutoDj.RepeatsExactlyWhenNothingElse | autodj/service.py:156-230 | A slot can give a track that is queued or picked already if and only if it is a norules slot whose category has tracks but none other left. |
| AutoDj.RefillRepeatsOnlyThen | autodj/service.py:285-313 | A track comes twice in one refill only from such a slot. |
| AutoDj.RuleHoldsExactlyWhen | autodj/service.py:194-313 | With the artist or the title rule on, no refill of the queue, in any rotation, lets a ruled slot repeat an artist, or title, of an earlier pick if and only if it needs at most one row or no allowed track shares its artist, or title, with another track of any category. |
| AutoDj.RuleIsSafeExactlyWhen | autodj/service.py:194-313 | Over all libraries and queues either rule holds if and only if at most one row is needed. |
| AutoDj.RuleHoldsInExactlyWhen | autodj/service.py:194-313 | In one rotation without norules slots, wherever it starts, the rule holds if no two allowed tracks of its categories share their artist, or title; for refills of more rows than the rotation has, if and only if. |
| AutoDj.SignatureTells | autodj/service.py:94-104 | Only equal rotations have equal signatures. |
| AutoDj.Service.FillOnce | autodj/service.py:250-336 | One refill is a step of the model. |
| AutoDj.QueueStaysBounded | autodj/service.py:279-291 | Over any interleaving of refills and removals the queue never exceeds max(first length, setting). |
| AutoDj.RefillsContinueTheRoundRobin | storage/playback_repository.py:214-246 | The slots tried in successive refills are one unbroken round robin, although the stored cursor is never reduced. |
| AutoDj.FruitlessRefillKeepsThePlace | autodj/service.py:291-323 | A refill that finds nothing leaves queue and place as they were. |
| AutoDj.RefillReachesTheSetting | autodj/service.py:279-336 | After a refill the queue has the set length or more unless nothing can be picked any more. |
| StationRegistry.RunIsSound | native_engine/src/daemon.c:152-243 | In every interleaving: keys in use distinct, engines unshared and live, each count equal to the references held, free slots zero. |
| StationRegistry.NoHolderIsLeftBehind | native_engine/src/daemon.c:323-346 | Nobody holds a station whose engine is freed, even with overlapping removals. |
| StationRegistry.KeysAreDistinct | native_engine/src/daemon.c:152-159 | A search by key finds a station's only slot. |
| StationRegistry.NoEngineLeaks | native_engine/src/daemon.c:323-346 | Every engine made is freed or belongs to a station in use. |
| StationRegistry.RemovingOnlyDrains | native_engine/src/daemon.c:225-230 | The count of a slot being removed only falls until it is cleared. |
| StationRegistry.TotalsAgreeExactlyWhen | native_engine/src/daemon.c:334-340 | In use = created - removed if and only if no removal finished on a slot already cleared. |
| StationRegistry.RemovalsTakeWhatTheyMarked | native_engine/src/daemon.c:323-346 | In a run without overlapping removals the totals agree, a removal takes only a station marked for it, and one removal waits for each slot being removed, none for the others. |
| StationRegistry.MarkedSlotsAreAwaited | native_engine/src/daemon.c:326-336 | In every run, overlapping removals or not, some removal waits for each slot being removed. |
| StationRegistry.RemovalsFindTheirMarkExactlyWhen | native_engine/src/daemon.c:323-346 | Whatever has happened before: over all continuations without further overlaps every removal finds its mark if and only if no two removals wait for one slot, nor any for a slot that is not being removed. |
| StationRegistry.StationsAreSafeExactlyWhen | native_engine/src/daemon.c:161-235 | Over all those continuations no station in use goes without a mark if and only if for each slot no removal too many waits, or the daemon is shutting down, so that it makes no station, and the slot holds none that is not marked. |
| StationRegistry.TwoRemovalsWait | native_engine/src/daemon.c:327-336 | Two removals of one station both wait for its slot. |
| StationRegistry.SecondRemovalFindsNothing | native_engine/src/daemon.c:334-340 | When the first removal has cleared the slot, the second can go on and count a removal of nothing. |
| StationRegistry.SecondRemovalTakesANewStation | native_engine/src/daemon.c:334-340 | When another station has been made in the cleared slot and is idle, the second removal can clear that one. |
| StationRegistry.UnaskedStationIsRemoved | native_engine/src/daemon.c:323-346 | A run from the start, for any two keys, in which only the first is asked to be removed and the station of the other is removed. |
| StationRegistry.SwapRemovedIsRemoved | native_engine/src/daemon.c:421-427 | Moving the last entry into the gap removes exactly one entry and keeps the others distinct. |
| StationRegistry.Daemon.FindStation | native_engine/src/daemon.c:152-159 | The loop over the slots. |
| StationRegistry.Daemon.DisconnectClient | native_engine/src/daemon.c:417-430 | Exactly that client leaves the list. |
| LineFraming.PiecesOfJoin | audio_engine/native_engine.py:415-424 | Cutting at newlines gives back the lines that were joined, and the rest. |
| LineFraming.JoinOfPieces | audio_engine/native_engine.py:415-424 | Every stream is the join of its pieces. |
| LineFraming.FitsExactlyWhen | native_engine/src/main.c:130-139 | The byte loop meets a message too large if and only if some message of the stream is. |
| LineFraming.Connection.Receive | native_engine/src/main.c:121-140 | One chunk at the daemon: the messages it completes are handled in order, and the client is kept exactly as long as no message of the stream so far is too large and the handling of none has failed. |
| LineFraming.FindNewline | audio_engine/native_engine.py:416-417 | The first newline of the buffer. |
| LineFraming.Reader.ReadChunk | audio_engine/native_engine.py:410-424 | One chunk at the client: the messages it completes are decoded, the rest is kept, and it fails exactly when the rest is too long. |
| LineFraming.DaemonHandlesTheStream | native_engine/src/main.c:114-141 | However the stream is chunked, the daemon handles the messages of the whole. |
| LineFraming.ClientDecodesTheStream | audio_engine/native_engine.py:406-424 | However the stream is chunked, the client decodes the messages of the whole. |
| LineFraming.LinesArrive | audio_engine/native_engine.py:568-570 | Lines written as either side writes them arrive at either end unchanged, in any chunks, the empty ones dropped. |
| LineFraming.ClientAcceptsWithinTheLimit | audio_engine/native_engine.py:417-421 | Messages within the limit never make the client give up. |
| LineFraming.ClientLimitIsOffByOneChunk | audio_engine/native_engine.py:411-421 | In any stream, a client that does not give up has accepted no message as long as the limit and a chunk. |
| LineFraming.LineIsAcceptedExactlyWhen | audio_engine/native_engine.py:406-424 | A lone message passes in every delivery if and only if it is within the limit, and in some delivery if and only if it is less than a chunk beyond it. |
| ControlChannel.RunIsSound | audio_engine/native_engine.py:513-605 | In every interleaving a request is in one place (registered, owed, told) and whoever waits is in one. |
| ControlChannel.ReturnsItsOwnReply | audio_engine/native_engine.py:457-470 | A request that returns has a reply with its own id that was received while it was registered. |
| ControlChannel.NoReplyReachesTwo | audio_engine/native_engine.py:457-470 | No reply reaches two requests. |
| ControlChannel.ToldForGood | audio_engine/native_engine.py:162-168 | What a request was told never changes. |
| ControlChannel.ToldOnce | audio_engine/native_engine.py:162-168 | A request is completed at most once, by a reply or by a failure. |
| ControlChannel.LateRepliesAreDropped | audio_engine/native_engine.py:465-470 | A second reply, or one to a request that gave up, changes nothing. |
| ControlChannel.NothingLeftPending | audio_engine/native_engine.py:571-597 | Nothing stays registered for a request that is over. |
| ControlChannel.ConnectionIsLostExactlyWhen | audio_engine/native_engine.py:170-198 | A connection is lost if and only if its own reader ends, a request drops it, or the client is closed; a reader of an older one changes nothing. |
| ControlChannel.ConnectionsAreNeverReused | audio_engine/native_engine.py:390-396 | A new connection has a generation never used before. |
| ControlChannel.ReaderOwesExactlyWhen | audio_engine/native_engine.py:170-189 | A reader that ends with an error owes a failure of all registered requests if and only if no later connection was ever opened; otherwise it changes nothing. |
| ControlChannel.FailuresAreAccountedFor | audio_engine/native_engine.py:162-189 | In every run, failures carried out + failures owed = disconnections that owe one. |
| ControlChannel.DisconnectedExactlyWhen | audio_engine/native_engine.py:357-396 | The generation stands still after a disconnection exactly as long as no connection is opened. |
| ControlChannel.OldReaderSparesExactlyWhen | audio_engine/native_engine.py:170-189 | A request registered while disconnected is spared by the old reader if and only if a later connection was opened before that reader ended; if not, a failure is owed until it takes the request, if still registered. |
| ControlChannel.OldReaderMayFailANewRequest | audio_engine/native_engine.py:170-189 | A run in which the old reader ends before another connection is opened. |
| ControlChannel.DropTakesANewerExactlyWhen | audio_engine/native_engine.py:546-597 | A request that has failed or timed out drops its own connection if and only if that was in use all along, and a newer one if and only if one opened since is in use; either way a failure of all registered requests is owed until it takes them. |
| ControlChannel.DropMayTakeANewer | audio_engine/native_engine.py:585-597 | A run in which a request that timed out drops the connection of another. |
| ControlChannel.InUseSince | audio_engine/native_engine.py:357-396 | A connection is in use that was not at an earlier moment if and only if it was opened since and kept. |
| Decimals.ValueOfText | html/static/scheduler.js:1220-1227 | A printed number reads back. |
| SchedulerTime.NormalizePrints | html/static/scheduler.js:597-603 | The normal form is the time printed afresh. |
| SchedulerTime.ClockRoundTrip | html/static/scheduler.js:597-603 | A printed clock time reads back. |
| SchedulerTime.NormalFormOfTimes | html/static/scheduler.js:597-603 | The normal form keeps the time, is its own normal form, and is equal for two texts exactly when they name the same time. |
| SchedulerTime.DurationRoundTripExactlyWhen | html/static/scheduler.js:1220-1236 | A duration survives printing and parsing if and only if it is a positive safe integer, or the -1 of no end. |
| SchedulerTime.CanonicalTextExactlyWhen | html/static/scheduler.js:1229-1236 | Printing what was parsed gives the text back if and only if its hours have two digits or no leading zero. |
| SchedulerTime.PadOfDigits | html/static/scheduler.js:1226-1226 | Padding gives back a digit string exactly when it has two digits or no leading zero. |
| SchedulerTime.RunsAreApart | html/static/scheduler.js:1362-1380 | Two runs of a rule are at least a day, or a week, apart. |
| SchedulerTime.NextDaily | html/static/scheduler.js:1391-1399 | The least instant after now at the time of day. |
| SchedulerTime.NextWeekly | html/static/scheduler.js:1362-1380 | The least instant after now at the time of day and the day of the week. |
| SchedulerTime.ParseRule | html/static/scheduler.js:1382-1406 | Only valid rules are read. |
| SchedulerTime.ComputeNextRun | html/static/scheduler.js:1382-1406 | The next run of a rule's text, none for other texts; a date counts while it is ahead. |
| SchedulerTime.RuleRoundTrip | html/static/scheduler.js:1390-1405 | A written rule reads back. |

## Left out

- Audio levels: dBFS values are arbitrary reals in `ActiveRuns` and `CuePlan`. In `PcmWindows` a level is
  the exact peak and any function of the exact sum of squares and the number of samples; log10, rounding,
  non-finite values and the floating-point sum are not modelled.
- Decoder errors, allocation failure and the cap on the number of windows: decoding is modelled for
  streams that end normally. Cancelling a decode is a step of `AnalysisWorkers`, not of `DecodeRange`.
- 64-bit wrap-around of the generation and frame counters.
- `CuePlan` takes the window times of `PcmWindows`, with any levels.
- Progress of any kind: no theorem says that a request, a retry or a removal is eventually served. The
  blocking `put` of a retry is a step that waits for room.
- Failures raised by trace callbacks in the manual-next worker, and the handoff plan between reservation
  and wait (`PlayerHandoffService.direct_handoff`), which a step with any result stands for.
- `EngineLifecycleIdentityRegistry`, the next-load set and the other events of the lifecycle coordinator.
- The document nodes of the console, style classes, and parameters so large that they are no longer exact
  as floating-point numbers; the progress clock and queue dragging of the same page.
- Conversion of annotate fields to numbers and flags, and metadata that is not text.
- The records of the log beside their size: identity, heartbeats, summaries; files written by others; file
  operations that fail, which the log passes over (`audio_engine/protocol.py:400-414`).
- SQLite: a transaction is one atomic step. `move_queue_items_to_front` reads the queue before it takes the
  lock; when the queue changes in between, the move is the reorder by what was read.
- `enqueue_track_items` reads the highest position outside a transaction; refills are modelled with the
  queue to themselves.
- Resolving paths and guessing artist and title from file names: their results are inputs of `QueueCommit`
  and `AutoDj`. Times of the history are numbers there, not text.
- QueueCommit.HistoryIsTheCommits: tracks may be added but not deleted during a run, and only commits change
  play counts.
- AutoDj.RuleHoldsInExactlyWhen: for a rotation with norules slots, which may use up a track in between, and
  for refills of fewer rows, the condition is stated over all rotations only (`AutoDj.RuleHoldsExactlyWhen`).
- Random choice in `AutoDj`: any outcome is allowed, fairness is not considered.
- Stopping the whole daemon (`wb_daemon_destroy`), which clears slots without counting them as removed.
- What the daemon does with a message: which messages fail to be handled is an input of `LineFraming`.
- The text of messages and errors on the control socket, JSON itself, and a message with a zero byte,
  which the daemon would cut there.
- The identity of a waiting request's record: its fields are kept in maps from request ids.
- The reconnect delay and starting the daemon: whether a connection can be opened is an input.
- Daylight saving and the calendar: days have 24 hours, and the instant of a one-shot date is an input of
  `SchedulerTime.ComputeNextRun`.
- Sockets, processes, signals, DSP, encoders, page layout and polling.
