# Pingularity: verified models of its bookkeeping

Pingularity watches an internet connection: it probes targets, debounces the
results into outages, measures what it could not watch, keeps a panel about the
connection, logs to a ring that survives restarts, and mails digests. This
project models the parts of it whose correctness rests on arithmetic, order or
interleaving, and proves what those parts promise.

## How the models are built

Code that updates fields in place is a class whose methods are proved against a
function on values (`View() == Step(old(View()), …)`). Everything else is proved
about those functions: what each step keeps, and what therefore holds after every
run. Protocols between goroutines or processes are systems of atomic steps, one
for each critical section or system call, with any number of participants; a
step that is not enabled changes nothing, so every sequence of steps is a run.
Clock readings, the store's answers, probe results and the settings in force are
inputs of a step, so a statement for all runs is a statement for all of them.

| file | subject |
|---|---|
| `Clock.dfy` | an instant as a wall reading and a monotonic one, and the two roundings to seconds |
| `Debounce.dfy` | the up/down debounce with the speedtest hold, against a plain debounce and against the trace itself |
| `Outage.dfy` | one iteration of the monitor's loop on values: accumulators, held gaps, pauses, transitions |
| `OutageLaws.dfy` | the ledger of an outage, kept by every iteration |
| `OutageWrites.dfy` | what retries and new writes deliver, in the store's answers |
| `OutageBooks.dfy` | what one iteration measures and books, from its clock readings |
| `OutageTotals.dfy`, `OutageMeter.dfy`, `OutageUnwatched.dfy` | the exact values of the paused and the frozen total, and the unwatched time they stand for |
| `OutageStamps.dfy` | the second, the length and the fate of every event |
| `OutageLog.dfy` | the event log: stamping, and every recovered pair against its ledger |
| `OutageExact.dfy` | when a pair is exactly wide enough, and how little it is widened on a well-behaved host |
| `OutageRace.dfy` | the run in which a pair falls short |
| `OutageConservation.dfy` | conservation of events and gaps, isolation of outages from each other's late writes |
| `ReadModel.dfy` | the store's reading of an outage: merge, subtract the pauses, trim to the observed length |
| `Monitor.dfy` | the monitor and its loop in place, proved against `Outage.dfy` |
| `LoopTrace.dfy` | the loop's link state is the debounce of the loop's own trace, so the debounce's laws are the loop's |
| `Degraded.dfy` | the degraded-latency latch and the lock-free re-arm beside it |
| `ExitCache.dfy` | the single-flight exit traceroute cache |
| `Refresh.dfy` | overlapping panel refreshes and their generations |
| `LogText.dfy`, `LogRing.dfy`, `LogSnapshot.dfy` | the log ring, its readers, its file, and the skipping of saves |
| `Settings.dfy`, `SettingsLaws.dfy`, `SettingsReads.dfy`, `SettingsSaves.dfy`, `SettingsRuns.dfy`, `SettingsUndone.dfy` | the overlay of stored rows on defaults, migrations, form saves, and when a restart undoes one |
| `Digest.dfy` | the digest's watermark and retried windows |
| `SecretKey.dfy` | agreement of concurrent first starts on one key |

## Where a promise does not hold as written

The code is modelled as it stands. Six promises turn out to need a condition;
each has a run that breaks the promise, and the condition under which it holds.

1. *A recovered pair is at least as wide as its duration and its pause rows.*
   The loop reads the probing gate twice in one iteration, at the resume edge
   (monitor.go:605) and at the switch (monitor.go:621). If it opens in between, a
   round runs while the pause is still open, and a recovery confirmed by it is
   stamped before the pause is folded: `OutageRace.RoundInsideAnOpenPauseFallsShort`
   stores 331 seconds that have to hold 331 observed and 300 paused.
   `OutageExact.PairHoldsItsRows` proves the promise for every run in which no
   round runs in that window; `OutageLog.RunKeepsLog` bounds the shortfall in
   every run by the pause time not yet folded; `OutageExact.WidthIsExact` gives
   the stored width itself and the exact condition on the two accumulators.
2. *Each digest begins where the last one ended.* A stored watermark in the
   future counts as unset, and if arming then fails to overwrite it, it comes
   back to life when the clock passes it and outranks what was delivered
   meanwhile (`Digest.FutureStoreSkipsAStretch`). The exact condition is
   `Digest.FirstAttemptIsSeamlessIff`; the promise over whole runs, with the
   store not in the future at the start, is
   `Digest.UndisturbedWindowsAreContiguous`.
3. *Every process that returns a key returns the same one.* A process that reads
   the key file does not sync its directory, so a power loss between the maker's
   link and its directory sync can take away a key already in use
   (`SecretKey.AReaderMayBeEarly`). On Windows a directory cannot be flushed at
   all, and every key made there stays so exposed
   (`SecretKey.WithoutAFlushNothingIsDurable`). `SecretKey.EveryoneReturnsTheSameKey` proves
   the promise for every run without that one event, and
   `SecretKey.AnOrphanedKeyIsReplaced` shows that after any such event another
   key can be returned.
4. *A save survives a restart.* `SettingsSaves.SaveReadsBackIff` is the exact
   condition, for every table, default and patch: four guards on the table and on
   the rows the save stores. `SettingsRuns.EveryRunStaysInStep` carries it over
   whole runs. Rows this code wrote meet no guard once a load has recorded its
   migrations (`SettingsRuns.OwnRowsStayAligned`); until then a schedule saved as
   off can come back on (`SettingsUndone.LostMigrationUndoesOff`, and exactly when:
   `SettingsUndone.LatencyRelapsesIff`, `SettingsUndone.SpeedRelapsesIff`). An
   imported switch that is on without a window comes back the same way, migrations
   recorded or not (`SettingsUndone.ImportedSwitchComesBack`).
5. *iperf3 no longer follows Ookla.* Only once the split marker, or a row of
   iperf3's own, is stored: exactly then, for every table and every default
   (`SettingsLaws.DirectionIsItsOwnIff`, `SettingsLaws.RetriesAreTheirOwnIff`). A
   first load that cannot write the marker leaves the leak in place
   (`SettingsUndone.LostMarkerLeaks`).
6. *A restart keeps the log.* The file is read back under a bound on its bytes
   that was set for the text alone, and its encoding is longer than the text: a
   ring whose text and line ends exceed the bound loses lines
   (`LogSnapshot.FullRingLosesItsOldest`, and such a ring,
   `LogSnapshot.AFullRing`). `LogSnapshot.RestartLosesNothingIff` is the exact
   condition.

## Model

Methods that are one step of a loop or a composition below are proved against
their functions in the same way and have no row of their own.

| member | source | states |
|---|---|---|
| Clock.CeilSecondsIsLeast | internal/monitor/monitor.go:1111-1129 | rounding up yields the least whole number of seconds that covers a duration, negative ones included |
| Clock.FloorPlusCeilCovers | internal/monitor/monitor.go:1821-1835 | one accumulator rounded down and the other rounded up still cover the whole seconds the two cover together |
| Debounce.StreakIsTheTrace | internal/monitor/monitor.go:151-174 | after any trace the streak and the failing run's bookkeeping are functions of the failed rounds since the last success or gap |
| Debounce.DownIffUnheldRounds | internal/monitor/monitor.go:1669-1716 | an outage is confirmed if and only if the link was up and the failed rounds since the last success or gap, less those held for a speedtest, reach down-after; nothing before a gap counts |
| Debounce.UpIffGoodRounds | internal/monitor/monitor.go:1718-1734 | a recovery is confirmed if and only if the link was down and the successful rounds since the last failure or gap reach up-after; it is dated that round, and no other round moves the state's date |
| Debounce.DownDate | internal/monitor/monitor.go:169-174 | the date of a confirmed outage is the first round at which its run reached the down-after in force |
| Debounce.HoldDeadline | internal/monitor/monitor.go:140-165 | once down-after failed rounds lie two minutes or more past the run's first, the link is down even if every round overlapped a test |
| Debounce.OnlineSinceStartOrSuccess | internal/monitor/monitor.go:1669-1734 | while the link is up, its recorded start is the machine's start or a round that succeeded |
| Debounce.DownFollowsTheLastRecovery | internal/monitor/monitor.go:1717-1733 | on the monotonic clock a back-dated outage still begins after the recovery, or start, before it |
| Debounce.HeldRefinesPlain | internal/monitor/monitor.go:140-174 | the debounce with the hold is down only when the one without it is, on every trace and with down-after and up-after changing between rounds |
| Debounce.DueIsThePlainStart | internal/monitor/monitor.go:169-174 | if the plain machine was up when the failing run began, the run's date is the plain machine's own start |
| Debounce.HeldDateAgreesWithPlain | internal/monitor/monitor.go:140-174 | a recorded start is a round at which the plain machine was already down, and its own start whenever that machine was up when the run began |
| LoopTrace.LoopRunsTheDebounce | internal/monitor/monitor.go:558-697 | the loop's link state is the debounce of the trace of its rounds and gaps, where pauses, skipped rounds and unobserved stretches are gaps |
| LoopTrace.LoopDownFollowsTheLastRecovery | internal/monitor/monitor.go:1717-1733 | in the loop, with rounds stamped in order on the monotonic clock, a back-dated outage begins after the recovery, or start, before it |
| LoopTrace.LoopHoldDeadline | internal/monitor/monitor.go:140-165 | in the loop, down-after failed rounds two minutes or more past the run's first take the link down even if every one overlapped a test |
| LoopTrace.LoopUpIffGoodRounds | internal/monitor/monitor.go:1718-1734 | in the loop, a link that is down comes up with a round if and only if the successful rounds at the end of the loop's trace reach up-after, and from that round |
| LoopTrace.LoopDownIffUnheldRounds | internal/monitor/monitor.go:1669-1716 | in the loop, a link that is up goes down with a round if and only if the unheld failed rounds at the end of the loop's trace reach down-after |
| OutageWrites.FlushStoresWhatLanded | internal/monitor/monitor.go:1899-1921 | a flush stores exactly the pending events whose writes were answered well before the first failure, in order, and leaves the rest pending, in order |
| OutageWrites.EmitStoresOrQueues | internal/monitor/monitor.go:1846-1891 | a new event is stored if its write landed and otherwise waits last, the oldest giving way only at the cap of 64 |
| OutageWrites.RetryFilesEveryAnswer | internal/monitor/monitor.go:925-936 | a retry keeps held exactly the rows whose write failed, in order, and files every other as stored or refused, as answered |
| OutageWrites.OfferFilesTheAnswer | internal/monitor/monitor.go:913-1010 | a new row is filed as answered; one whose write failed is held last, the oldest evicted only at the cap of 64 |
| OutageBooks.SleptIsTheGap | internal/monitor/monitor.go:716-726 | a stretch counts as unobserved if and only if both wall readings are plausible and lie more than the wait and ten minutes apart |
| OutageBooks.FlushBooks | internal/monitor/monitor.go:471-549 | a flush books one row if and only if its slice is due, any positive span at the resume edge and five minutes at a checkpoint, and the next slice starts where it ended |
| OutageBooks.GapBooks | internal/monitor/monitor.go:773-837 | a sleep books one row with its exact correction, unless an open pause owns the stretch |
| OutageBooks.TickBooks | internal/monitor/monitor.go:558-697 | one iteration, from its clock readings: exactly which rows it books, whether the link then counts as paused and from when, and the fields the next sleep is judged by |
| OutageBooks.TickFilesItsRows | internal/monitor/monitor.go:563-619 | one iteration retries every held row, then offers the sleep's and the ended pause's, each filed as the store answered |
| OutageBooks.TickFilesItsCheckpoint | internal/monitor/monitor.go:621-662 | and after that offers only a checkpoint's slice |
| OutageTotals.RefusalMovesTheAnchor | internal/monitor/monitor.go:1048-1072 | a refused slice of the open pause takes its seconds off the pause's front, and no other refusal does |
| OutageTotals.EvictKeepsPaused | internal/monitor/monitor.go:1028-1047 | an evicted suspend row takes exactly its own correction out of the paused total |
| OutageTotals.EvictKeepsFrozen | internal/monitor/monitor.go:1028-1047 | and out of the frozen total exactly what it froze, but for the clamp at zero, worth no more than the slices fell short by |
| OutageMeter.EveryRunShowsItsMeter | internal/monitor/monitor.go:860-903 | in every run the paused total is the resumed pauses' monotonic length plus what the suspend rows stored or held give back, the frozen total what slices' rows exceed their monotonic time by plus what those rows froze, and the anchor the open pause's start past its refused slices |
| OutageMeter.EveryRoundFindsItsMeter | internal/monitor/monitor.go:1154-1170 | and so it is in the state every iteration's round finds |
| OutageUnwatched.BookedDeductionsAreTheSleeps | internal/monitor/monitor.go:1101-1109 | the corrections booked for an open outage add up to what the monotonic clock counted of its sleeps |
| OutageUnwatched.DeductionsAreConserved | internal/monitor/monitor.go:1028-1047 | every booked correction is on a stored or held row, or went with a refused or evicted one |
| OutageUnwatched.PausedTotalIsTheUnwatchedTime | internal/monitor/monitor.go:1154-1170 | in every run the paused total is at most the outage's unwatched time, from clock readings alone, and exactly that when none of its rows was refused or evicted |
| OutageUnwatched.BootBooks | internal/monitor/monitor.go:430-463 | before its first iteration a run books the stretch the process was down, if that passed two minutes, and nothing else |
| OutageStamps.EverySecondIsItsDate | internal/monitor/monitor.go:1782-1844 | every event of every run is stored at its date's own second, pushed past the event before it as little as order, and for an up its length and the frozen total, require |
| OutageStamps.BootSecondIsItsDate | internal/monitor/monitor.go:414-427 | a first event keeps its date's second unless the seed has reached it |
| OutageStamps.EveryLengthIsTheWatchedTime | internal/monitor/monitor.go:1742-1781 | every recorded length is the whole seconds from the outage's date to the recovery's, less those of a time that is at most what went unwatched and exactly that when no row was lost |
| OutageStamps.TickWritesItsEvents | internal/monitor/monitor.go:1846-1921 | one iteration, from the store's answers: which pending events are stored and which wait, and one new event exactly when the link changed |
| OutageStamps.EveryRecoveryIsDescribed | internal/monitor/monitor.go:1742-1842 | the rows, length and episodes a recovery is judged by are those stored or held, on the clock and on the meter when its round ran |
| OutageLaws.SettleKeepsLedger | internal/monitor/monitor.go:968-1072 | taking a held record off the queue, stored or refused, keeps the ledger of the open outage |
| OutageLaws.EvictKeepsLedger | internal/monitor/monitor.go:913-922 | evicting the oldest record at the cap takes its correction back and keeps the ledger |
| OutageLaws.BookGapKeepsLedger | internal/monitor/monitor.go:773-837 | a measured suspend gap splits its row exactly between the paused and the frozen total |
| OutageLaws.FlushPauseKeepsLedger | internal/monitor/monitor.go:471-549 | a slice of an open pause adds to the rows no more than to the frozen total and the stretch still to fold |
| OutageLaws.TransitionKeepsLedger | internal/monitor/monitor.go:1742-1844 | a transition opens an incarnation whose ledger is empty |
| OutageLaws.RunKeepsLedger | internal/monitor/monitor.go:379-698 | in every run the frozen total, the paused total and the open pause cover the rows booked for the open outage, stored or queued, up to pause time that had no anchor |
| OutageLaws.RecoveryIsCovered | internal/monitor/monitor.go:1742-1842 | a recovery stamped on such a state holds its duration and its rows, short at most by what no accumulator had yet |
| OutageLog.EventIsWellStamped | internal/monitor/monitor.go:1782-1844 | the event a transition emits continues a well-stamped log |
| OutageLog.RunKeepsLog | internal/monitor/monitor.go:1742-1844 | over every run and whatever the wall clock does: events alternate, an up is stamped no earlier than its down, a down strictly later than what precedes it or the seed, and every recovered pair is covered |
| OutageExact.CalmRunKeepsAnchored | internal/monitor/monitor.go:605-657 | if no round runs inside an open pause, every pause of an open outage is anchored and no recovery has unfolded pause time |
| OutageExact.PairHoldsItsRows | internal/monitor/monitor.go:1742-1842 | in every calm run each recovery of recorded length above zero is stored at least its duration plus all its pause rows after its down |
| OutageExact.RecoveryReadsBackExactly | internal/store/store.go:3902-3951 | so the store's reading of the pair, less those rows, is exactly the recorded duration |
| OutageExact.WidthIsExact | internal/monitor/monitor.go:1800-1842 | the stored width is the larger of the wall's own and elapsed plus frozen seconds, and holds duration and rows if and only if the accumulators hold the rows or the wall was wide enough |
| OutageExact.AlignedGapIsFractional | internal/monitor/monitor.go:1101-1109 | on agreeing clocks a suspend gap freezes less than a second |
| OutageExact.AlignedSlice | internal/monitor/monitor.go:860-903 | on agreeing clocks a slice adds the difference of its endpoints' fractions, so the slices of one pause telescope |
| OutageExact.WidenIsOneSecondPerEpisode | internal/monitor/monitor.go:1111-1129 | on an awake host with an unstepped clock a recovery is stamped at most one second past the elapsed time per pause episode or unobserved gap, however many slices each pause was written as |
| OutageRace.RoundInsideAnOpenPauseFallsShort | internal/monitor/monitor.go:605-662 | a concrete valid run whose stored pair is narrower than its duration and rows |
| OutageConservation.RunKeepsEverything | internal/monitor/monitor.go:1881-1921 | over every run each transition is exactly one of stored, pending and dropped at the cap, each measured gap exactly one of stored, held, refused and evicted, and neither queue exceeds its cap; which of them is the store's answer, by OutageStamps.TickWritesItsEvents and OutageBooks.TickFilesItsRows |
| OutageConservation.GenerationsGrow | internal/monitor/monitor.go:1742-1760 | the generation of an outage never goes back |
| OutageConservation.LateRefusalIsIsolated | internal/monitor/monitor.go:1028-1072 | a record of an earlier outage that is refused or evicted later leaves the newer outage's accumulators and pause anchor as they were |
| OutageConservation.PausedGapCoversHeldDeductions | internal/monitor/monitor.go:1028-1047 | the paused total never falls below the deductions still held, so no revert is ever clipped |
| ReadModel.MergeSpans | internal/store/store.go:4067-4083 | the loop computes the merge |
| ReadModel.MergeShape | internal/store/store.go:4067-4083 | merged spans are separated, in order and no wider in total than what was merged |
| ReadModel.MergeCovers | internal/store/store.go:4067-4083 | a second is covered after the merge if and only if it was before |
| ReadModel.GapsAreTheComplement | internal/store/store.go:3902-3951 | the stretches left are exactly the seconds of the pair in no pause |
| ReadModel.GapsAreOrdered | internal/store/store.go:3902-3951 | those stretches are non-empty, disjoint and in order |
| ReadModel.TrimTail | internal/store/store.go:3902-3951 | the loop computes the trim |
| ReadModel.TrimTotal | internal/store/store.go:3902-3951 | trimming leaves the smaller of the total and the observed length |
| ReadModel.TrimKeepsThePrefix | internal/store/store.go:3902-3951 | trimming keeps the earliest seconds |
| ReadModel.ObservedOutageSpans | internal/store/store.go:3902-3951 | the method computes merge, complement and trim |
| ReadModel.ObservedIsTheLeadingWatchedTime | internal/store/store.go:3902-3951 | what is read back are the first watched seconds of the pair |
| ReadModel.WidePairReadsBackExactly | internal/store/store.go:3902-3951 | a pair at least as wide as its pauses and its recorded length reads back as exactly that length |
| MonitorLoop.FamilyState.AdvanceFamily | internal/monitor/monitor.go:1598-1656 | a family's state machine is the same debounce as the link's |
| MonitorLoop.Monitor.RetryHeldGaps | internal/monitor/monitor.go:925-936 | the loop retries every held record once, in order, and keeps those that failed |
| MonitorLoop.Monitor.FlushPendingEvents | internal/monitor/monitor.go:1899-1921 | the loop stores pending events from the head and stops at the first failure |
| MonitorLoop.Monitor.Transition | internal/monitor/monitor.go:1742-1874 | a transition in place is the specified one, whole state included |
| MonitorLoop.Monitor.StartRun | internal/monitor/monitor.go:379-463 | the seed, the process-down gap and the immediate first round |
| MonitorLoop.Monitor.Iteration | internal/monitor/monitor.go:558-697 | one iteration in place is the specified step, so the laws of runs hold of the object |
| Degraded.EveryInterleavingIsSound | internal/monitor/monitor.go:1453-1543 | over every interleaving of rounds with late, repeated and reordered reports, ids are handed out once each, a finished report for the live dispatch is in the slot, and each dispatch of an episode but the last was handed back exactly once |
| Degraded.RedispatchIffLiveBounced | internal/monitor/monitor.go:1453-1543 | a confirmed degraded round of a served episode dispatches again if and only if a report for the live dispatch has completed |
| Degraded.DispatchesIff | internal/monitor/monitor.go:1453-1495 | for every interleaving and every round, read off the steps: it dispatches if and only if it is at least the second reading over the threshold of its episode, there is a hook, and nothing was dispatched in the episode or a report for the newest dispatch has come back |
| Degraded.TheNextEpisodeIsServed | internal/monitor/monitor.go:1453-1503 | a reading not over the threshold, an outage or a disabled threshold ends the episode, and the second reading over it afterwards dispatches, whatever is reported meanwhile |
| Degraded.EpisodeCountsItsBounces | internal/monitor/monitor.go:1453-1543 | an episode dispatches once plus once per bounce, and each bounce named the dispatch live at the time |
| ExitCacheProtocol.EveryInterleavingIsSound | internal/netinfo/exit.go:553-723 | for any number of callers and busts: one trace in flight, no write after a bust since the claim, no cached exit older than the last change of address, and a caller served from cache gets nothing or its own target's exit |
| ExitCacheProtocol.ForeignExitsAreExplained | internal/netinfo/exit.go:640-723 | an exit for another target reaches a caller only past a bust, a cancelled trace or its own giving up |
| ExitCacheProtocol.FindingIsServed | internal/netinfo/exit.go:566-700 | a finished trace's exit is served for its target for ten minutes, an empty finding for one, and any other target is traced anew |
| ExitCacheProtocol.FailuresAreRetried | internal/netinfo/exit.go:566-700 | after failures in a row an exit for the target stays and is retried every ten minutes; without one the first two are retried after a minute and later ones after ten |
| ExitCacheProtocol.NothingElseIsWritten | internal/netinfo/exit.go:665-690 | a trace that was overtaken or cut short changes nothing but that the next may start |
| ExitCacheProtocol.BustsForceATrace | internal/netinfo/netinfo.go:273-297 | after either bust nobody is served from the cache until a trace claimed since has ended, and only a changed network takes the row away |
| ExitCacheProtocol.TheTracerReturnsItsExit | internal/netinfo/exit.go:640-723 | in every interleaving a caller whose trace nothing overtook returns what it found, and leaves it in the cache |
| ExitCacheProtocol.LookingResolves | internal/netinfo/exit.go:566-610 | in every interleaving a caller that looks is served a fresh cache, waits for a trace under way, or claims one |
| RefreshProtocol.EveryInterleavingIsSound | internal/netinfo/netinfo.go:227-311 | the published generation never goes back, no refresh publishes, folds or busts after a later-started one has claimed, and an exit patch lands only in its own refresh's snapshot |
| RefreshProtocol.PublishingOutranksEveryClaim | internal/netinfo/netinfo.go:371-381 | a refresh publishes if and only if nothing started after it has claimed |
| RefreshProtocol.FoldsIff | internal/netinfo/netinfo.go:744-761 | a refresh folds its sighting if and only if nothing started after it has claimed |
| RefreshProtocol.LandingShows | internal/netinfo/netinfo.go:241-261 | the snapshot it then publishes has its own address, and carries the exit row over unless the address changed since it began |
| RefreshProtocol.BustsIff | internal/netinfo/netinfo.go:273-297 | it busts the exit cache if and only if it still is the newest and the address changed since it began |
| RefreshProtocol.PatchesIff | internal/netinfo/netinfo.go:298-311 | it patches the exit it traced in if and only if it still is the newest |
| RefreshProtocol.KnownAddressIsTheNewestPublished | internal/netinfo/netinfo.go:203-210 | a refresh compares its address with the newest published one, past any IPv6-only snapshot |
| RefreshProtocol.MissRunOfEveryInterleaving | internal/netinfo/netinfo.go:744-765 | in every interleaving, the time IPv4 is said to be missing starts at a folded miss after which no fold saw it answer, and spans no two misses further apart than the run gap while the panel still had an address; no run is kept once IPv4 answers |
| LogText.WriteLines | internal/logbuf/logbuf.go:452-470 | the streaming loop writes the snapshot's text |
| LogText.NothingIsFabricated | internal/logbuf/logbuf.go:577-625 | whatever the file's bytes and wherever the bounded read cuts them, the entries loaded are the newest entries of its whole lines |
| LogText.TrimmingLosesNothing | internal/logbuf/logbuf.go:606-609 | trimming trailing newlines drops no entry |
| LogText.PlainLinesLoad | internal/logbuf/logbuf.go:606-620 | a snapshot in the older format loads line by line, each line as both of its forms |
| LogText.CutKeepsWholeLines | internal/logbuf/logbuf.go:592-601 | the text after the first newline of a cut snapshot is a snapshot of its later entries |
| LogText.LinesCutIsTight | internal/logbuf/logbuf.go:592-601 | the cut costs exactly the lines that begin at or before it |
| LogText.LinesLostIsTight | internal/logbuf/logbuf.go:577-601 | the byte bound costs a line if and only if the file exceeds it, and no line that fits whole with room to spare |
| LogText.SaveThenRead | internal/logbuf/logbuf.go:452-625 | loading a save yields the saved entries less the cut-off and the over-long ones |
| LogRing.ExcessIsLeast | internal/logbuf/logbuf.go:153-172 | eviction stops as soon as both ceilings are met or one line is left |
| LogRing.Evicted | internal/logbuf/logbuf.go:153-172 | what eviction leaves is a suffix of the log within the ceilings |
| LogRing.Ring.Append | internal/logbuf/logbuf.go:140-147 | the lines are the log from the evicted count on, before and after |
| LogRing.Ring.Trim | internal/logbuf/logbuf.go:153-172 | eviction in place: byte count exact, survivors compacted, vacated slots blanked |
| LogRing.Ring.Release | internal/logbuf/logbuf.go:153-158 | the counting loop finds the least eviction and keeps the byte count exact |
| LogRing.Ring.Clear | internal/logbuf/logbuf.go:238-263 | the sequence climbs past the cleared lines and the epoch changes |
| LogRing.Ring.LoadFile | internal/logbuf/logbuf.go:544-625 | a load of a regular file appends the entries of the bounded read and evicts once; a missing file is no error, a link, device or unreadable one is, and neither changes the ring |
| LogRing.Ring.Tail | internal/logbuf/logbuf.go:197-205 | the newest lines, at most the limit, and the cursor after them |
| LogRing.Ring.Since | internal/logbuf/logbuf.go:219-235 | the oldest lines from the cursor on, at most the limit, and the cursor after them |
| LogRing.EveryReaderIsFaithful | internal/web/web.go:5578-5590 | a reader that joins with Tail and polls with returned cursors, between any appends, evictions, loads and wipes, gets each line of its view at most once and in order and misses exactly those gone before the poll that told it |
| LogRing.WritesKeepTheMost | internal/logbuf/logbuf.go:140-172 | a write keeps the longest run of newest lines within both ceilings, and the newest line whatever its size |
| LogRing.ClearLetsGo | internal/logbuf/logbuf.go:238-263 | Clear empties the ring, keeps the sequence climbing and changes the epoch |
| LogRing.PollDelivers | internal/logbuf/logbuf.go:207-235 | a poll delivers the oldest unread lines, exactly as many as its limit allows |
| LogRing.PollReportsTheGap | internal/logbuf/logbuf.go:207-218 | and reports as missed exactly the lines between its cursor and the oldest left |
| LogRing.PollsCatchUp | internal/logbuf/logbuf.go:210-213 | every poll of a positive limit closes the gap by that much until nothing is unread |
| LogRing.JoiningShowsTheNewest | internal/logbuf/logbuf.go:194-205 | joining shows exactly the newest lines the limit allows and leaves nothing unread |
| LogSnapshot.TokenNamesTheContents | internal/logbuf/logbuf.go:291-299 | two moments of a ring with one epoch and one end hold identical lines |
| LogSnapshot.EveryInterleavingIsSound | internal/logbuf/logbuf.go:276-523 | with appends racing saves that may fail anywhere, an untouched file is a whole snapshot and the memo describes the last successful save |
| LogSnapshot.SkippingLosesNothing | internal/logbuf/logbuf.go:338-340 | a skipped save leaves on disk exactly what it would have written, unless a stranger replaced the file |
| LogSnapshot.SavesLand | internal/logbuf/logbuf.go:276-523 | a save that is not skipped and meets no fault puts the ring's snapshot in place, touches no other file and leaves the ring idle |
| LogSnapshot.FailedSavesChangeNothing | internal/logbuf/logbuf.go:437-523 | a save that fails before its rename changes no file, and one that fails after leaves the memo as it was |
| LogSnapshot.IdleSavesAreSkipped | internal/logbuf/logbuf.go:338-340 | a save of an unchanged ring to an untouched path is skipped |
| LogSnapshot.DamageIsRepairedIff | internal/logbuf/logbuf.go:80-98 | whatever a stranger does to an idle ring's file, the next save puts the snapshot back, unless he left another file of its very size and mode |
| LogSnapshot.RestartKeepsTheNewest | internal/logbuf/logbuf.go:544-625 | a fresh ring loaded from a save holds a suffix of the saved lines that are short enough |
| LogSnapshot.RestartLosesNothingIff | internal/logbuf/logbuf.go:461-625 | a restart loses nothing if and only if the file fits the byte bound and no line is over-long |
| LogSnapshot.FullRingLosesItsOldest | internal/logbuf/logbuf.go:577-601 | a ring whose text and line ends exceed the byte bound set for the text alone loses lines at a restart |
| LogSnapshot.AFullRing | internal/logbuf/logbuf.go:140-172 | such a ring exists at any byte bound |
| Settings.Controller.Reload | internal/settings/settings.go:1154-1200 | values are live before migrations are recorded and stay live if that fails |
| Settings.Controller.CollectDiff | internal/settings/settings.go:2088-2110 | the loop picks exactly the form keys the save establishes |
| Settings.Controller.Update | internal/settings/settings.go:2042-2117 | refused before the first load, void when the store fails, otherwise stored and applied |
| SettingsLaws.NormalizeTwice | internal/settings/settings.go:2932-3069 | normalizing modelled fields twice changes nothing |
| SettingsReads.SubmittedNumbers | internal/settings/settings.go:1877-1957 | every submitted number takes effect as the nearest in its range, and every other keeps its value |
| SettingsReads.SubmittedChoices | internal/settings/settings.go:1877-1957 | every submitted choice takes effect, or its fallback if it is none of the choices |
| SettingsReads.SubmittedSchedules | internal/settings/settings.go:3053-3320 | a submitted schedule has at most twelve windows, each bounded, and is never on without one |
| SettingsReads.RetiredBestOfLoads | internal/settings/settings.go:1002-1012 | without a count, the retired switch loads as three servers or one |
| SettingsReads.CountBeatsTheSwitch | internal/settings/settings.go:1002-1012 | with a count the switch is not read |
| SettingsReads.RetiredWindowLoads | internal/settings/settings.go:3112-3129 | without a row of windows, the retired single window is the schedule's |
| SettingsReads.MasterSwitchLoads | internal/settings/settings.go:3105-3111 | without a switch of its own, a schedule with a window follows the retired master switch |
| SettingsReads.SecondsLoad | internal/settings/settings.go:3445-3457 | a negative row of seconds is ignored, any other bounded |
| SettingsReads.NothingRetiredNothingRecorded | internal/settings/settings.go:1441-1485 | a marked table with no retired row has nothing recorded, a new one only the marker |
| SettingsReads.FlagFieldIsStoredIff | internal/settings/settings.go:2091-2109 | a submitted value of a field a flag can move, not stored before, is stored if and only if it differs from the value the program ships with, or from the running one |
| SettingsReads.OtherFieldIsStoredIff | internal/settings/settings.go:2091-2109 | and of any other field if and only if it differs from the default, or from the running value |
| SettingsLaws.NormalizedDefaultsLoadTheSame | internal/settings/settings.go:813-842 | a start, which overlays the defaults as given, and a reload, which overlays the normalized ones, load the same values |
| SettingsLaws.MigrationKeepsTheMeaning | internal/settings/settings.go:1441-1485 | loading a table with its migrations recorded gives the values loaded without, whatever the rows |
| SettingsLaws.MigrationIgnoresTheDefaults | internal/settings/settings.go:1427-1440 | what a load records does not depend on its defaults, so a load under any others reads what it would have read from the old table |
| SettingsLaws.MigrationIsOneShot | internal/settings/settings.go:1441-1485 | a table with its migrations recorded has none left |
| SettingsLaws.SplitPairIsItsOwn | internal/settings/settings.go:1019-1058 | of two tables with the marker, the iperf3 pair depends on its own two rows only |
| SettingsLaws.OoklaNoLongerLeaks | internal/settings/settings.go:1246-1249 | after one recorded load no change to Ookla's direction or retries moves the iperf3 pair |
| SettingsLaws.DirectionIsItsOwnIff | internal/settings/settings.go:1019-1043 | for every table and every default, Ookla's direction cannot move iperf3's if and only if the marker or iperf3's own row is stored |
| SettingsLaws.RetriesAreTheirOwnIff | internal/settings/settings.go:1050-1058 | Ookla's retries cannot move iperf3's if and only if the marker, or an iperf3 row that reads as a count, is stored |
| SettingsSaves.SaveReadsBackIff | internal/settings/settings.go:2057-2117 | for every table, default and patch, a restart reads back the values a save left running if and only if none of four guards on the table and the stored rows holds |
| SettingsSaves.RelapseTurnsTheScheduleOn | internal/settings/settings.go:3053-3058 | a schedule whose guard holds is saved as off and comes back on, over the windows just saved |
| SettingsRuns.SaveStaysInStepIff | internal/settings/settings.go:1753-1793 | a stored save of a process whose restart would read its values back stays so if and only if no guard holds |
| SettingsRuns.EveryRunStaysInStep | internal/settings/settings.go:2057-2117 | from any table, over every run of starts, reloads and saves that the store may fail, a restart reads the running values back unless a save met a guard |
| SettingsRuns.OwnRowsStayAligned | internal/settings/settings.go:1402-1440 | from a table of rows this code wrote, if the migrations are already recorded or the first load to succeed records them, no save meets a guard and every stored form key holds its running value |
| SettingsRuns.RetiredRowsAreSpent | internal/settings/settings.go:1402-1425 | once a load recorded its migrations, dropping the retired schedule rows from a table this code wrote changes no schedule |
| SettingsRuns.SubmittedSurvives | internal/settings/settings.go:2057-2117 | in any run from any table whose saves meet no guard, a submitted value survives a restart under the same flags and under none |
| SettingsRuns.UntouchedStaysUnstored | internal/settings/settings.go:2082-2110 | from any table, an unsubmitted key enters the store if and only if the save emptied the windows of a schedule that was on |
| SettingsUndone.LatencyRelapsesIff | internal/settings/settings.go:1407-1418 | with rows of this code's own, a saved latency schedule is undone by a restart if and only if the retired switch says on and was never migrated, there was no window, and the save adds one while the schedule stays off and its switch is not submitted against a shipped on |
| SettingsUndone.SpeedRelapsesIff | internal/settings/settings.go:1407-1418 | the same of the speed test schedule |
| SettingsUndone.ImportedSwitchComesBack | internal/settings/settings.go:3053-3058 | a run: an imported switch that is on without a window comes back on after a save that leaves it off |
| SettingsUndone.LostMigrationUndoesOff | internal/settings/settings.go:1407-1418 | a run: the first load's migrations are not recorded, and a schedule saved as off is on after a restart |
| SettingsUndone.LostMarkerLeaks | internal/settings/settings.go:1209-1249 | a run: the first load cannot write the marker, and a save of Ookla's direction changes iperf3's at the next load |
| Digest.Manager.Tick | internal/digest/digest.go:116-214 | one poll in place is the specified step, with what it delivers |
| Digest.WindowsNeverOverlap | internal/digest/digest.go:116-214 | in one process with a nondecreasing clock delivered windows never overlap, whatever fails |
| Digest.FirstAttemptIsSeamlessIff | internal/digest/digest.go:184-196 | the first attempt after a delivery begins where it ended if and only if it is not late and the store is not ahead of memory |
| Digest.FreshWindowLength | internal/digest/digest.go:184-196 | a first attempt covers at least a day, or a week, and at most half an hour more, exactly a day or a week when it is late |
| Digest.DeliversIff | internal/digest/digest.go:164-213 | after a delivery, unless the store is ahead, a poll delivers if and only if the cadence is on, a webhook takes it, and a day, or a week, has passed since that delivery's end |
| Digest.FirstPoll | internal/digest/digest.go:164-186 | a new process goes by the stored watermark if that is usable, and otherwise arms for a period from now |
| Digest.BlindPollWaits | internal/digest/digest.go:165-175 | a poll that cannot read the store and remembers nothing changes nothing |
| Digest.IdlePollForgetsTheRetry | internal/digest/digest.go:133-150 | with the cadence off or no webhook only the retried window is forgotten |
| Digest.DueWindowIsKeptOrClosed | internal/digest/digest.go:189-213 | a failed send keeps the window and both watermarks, a successful one moves both to this poll |
| Digest.SteppedBackClockArms | internal/digest/digest.go:151-163 | a clock that stepped back behind everything remembered arms anew from now |
| Digest.RetriesKeepTheStart | internal/digest/digest.go:197-207 | no failed send, read or write moves the start of a retried window |
| Digest.StoreStaysBehind | internal/digest/digest.go:164-179 | a store not in the future at the start never gets ahead of memory |
| Digest.UndisturbedWindowsAreContiguous | internal/digest/digest.go:116-214 | with the cadence on, a webhook set and no late first attempt, each window begins where the last ended |
| Digest.FutureStoreSkipsAStretch | internal/digest/digest.go:450-468 | a run in which a future watermark makes a stretch go unreported |
| Digest.RestartsOverlapBelowASecond | internal/digest/digest.go:470-474 | across restarts, with every write landing, consecutive windows share less than a second |
| SecretKey.AdvanceIsGood | internal/secret/secret.go:131-216 | any one system call of one process leaves the key's name sound and other processes and their files alone |
| SecretKey.StepKeepsFinal | internal/secret/secret.go:131-216 | the key's name never changes file or bytes, and only a power loss before it is durable takes it away |
| SecretKey.EveryInterleavingIsSound | internal/secret/secret.go:131-216 | for any number of processes, faults, deaths and power losses the key's name is absent or leads to a complete key on disk, or to the file that was there before |
| SecretKey.EveryoneReturnsTheSameKey | internal/secret/secret.go:131-216 | every key ever returned is 32 bytes and the one in the file, unless a power loss took a key already returned |
| SecretKey.TheKeyIsForever | internal/secret/secret.go:207-216 | once its name is durable, or while no power is lost, the key file stays and keeps its bytes |
| SecretKey.EveryProcessGetsTheKey | internal/secret/secret.go:131-216 | from every reachable state without a key file of another size, a process that runs on alone without a fault returns, with the key in the file |
| SecretKey.TheLoserReturnsTheWinners | internal/secret/secret.go:195-206 | a process refused the name drops its temporary and returns the winner's key |
| SecretKey.AnotherSizeIsRefused | internal/secret/secret.go:132-136 | a key file of another size is an error and is left alone |
| SecretKey.NothingIsStrewn | internal/secret/secret.go:165-207 | with nobody killed, every fault included, no ended process leaves its temporary behind |
| SecretKey.AnOrphanedKeyIsReplaced | internal/secret/secret.go:131-216 | after any power loss that took a returned key, the next process to run alone returns any other |
| SecretKey.AReaderMayBeEarly | internal/secret/secret.go:131-152 | such a state is two processes away from an empty directory |
| SecretKey.WithoutAFlushNothingIsDurable | internal/secret/secret.go:218-236 | where a directory cannot be flushed, a key made there never becomes durable, so the power loss exception covers every key returned |

## Left out

- Network and operating system work: probing, DNS, traceroute sockets, HTTP, service managers, file permissions. They are calls into code the model cannot see; their outcomes are inputs.
- SQLite and the store's write path: a write lands, fails having written nothing, or is refused. Of the read side only the reading of one outage is modelled.
- Metrics, logging, message rendering and callbacks' bodies, and the speedtest trigger labels a failing run carries for its statistics.
- JSON, decimal and random-key internals: encoders and decoders are parameters that undo each other; text that is not valid UTF-8, which JSON replaces, is outside that.
- Floating point: durations are integer nanoseconds, thresholds of the degraded latch are reals. Saturation of Go's durations and wrap-around of 64-bit counters are not modelled.
- The zero time is `None`: a Go time that is zero by accident of arithmetic is not distinguished from an unset one.
- First-flip bookkeeping of address families, the family quorum and the liveness line.
- Monitor: the loop's goroutine is one object; readers of its status under the mutex, and the cancellation of its context, are not modelled.
- Settings: fourteen of the form's fields stand for all of them, chosen so that every rule between rows occurs. Free-form strings, thresholds in floating point, server lists with their sealed passwords, fractions of a second in a duration, and the birth marker are not modelled.
- Settings' locks: a save or a load is one step, since the writer lock is held across it; the store's write of several rows is atomic.
- Settings.Controller.Update: has fourteen form fields, and neither the refusal of passwords that look sealed nor the merge of blank ones.
- Settings.Controller.CollectDiff: has fourteen form fields, and not the sealed server list, whose baseline is the running one.
- Settings.Controller.Reload: leaves out the re-sealing of old plaintext passwords and its error.
- SettingsLaws.NormalizeTwice: is about the modelled fields only; free-form strings are trimmed and then cut, which is not idempotent.
- SettingsSaves.SaveReadsBackIff: is about the modelled fields only.
- MonitorLoop.Monitor.ResetStreaks: resets the link's streaks; the families and the degraded latch, which the same gap resets, are objects of their own.
- OutageExact.PairHoldsItsRows: is proved one way for whole runs, since a run that is not calm may still be wide enough by the wall's own step; the condition at the moment of the stamp, exact both ways, is OutageExact.WidthIsExact.
- Log snapshots: a save is a sequence of steps of a protocol and not one method, because lines are logged between them; its writing loop and the load are methods. Removal of a failed save's temporary file is not modelled, nor are the errors of the skip's re-securing, which change nothing.
- Log ring: epochs are numbers that grow, for names that never repeat. Cursors past a wipe are clamped as the code does, but the client that notices the epoch is not modelled.
- The key file's protocol is steps of any number of processes and not one method, because other processes act between its system calls. A file of the wrong size is an error, as in the code; permissions are not modelled beyond their failure not withholding a key. On Windows the directory's flush is modelled as one whose failure is tolerated; what the file system then does for the name is not.
- Digest: the clock is one nondecreasing reading; a suspend, in which Go's wall and monotonic readings part, is not modelled. What a summary says is not modelled.
- Exit tracing: what a trace finds, the boundary between networks and the labels of hops are inputs.
- Refreshes: the panel's other fields, its cadence and its retries are not modelled, nor any claim that a displayed exit belongs to the current network, which the code does not make.
- Pruning, import and export of the database.
