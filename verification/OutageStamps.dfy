/**
 The events an iteration records, without the functions that compute them: when
 there is one, the second it is stored at, its recorded length, and which events
 reach the store.
 */
module OutageStamps {
  import opened Wrappers
  import opened Clock
  import opened Debounce
  import opened Outage
  import opened OutageLaws
  import opened OutageLog
  import opened OutageWrites
  import opened OutageBooks
  import opened OutageTotals
  import opened OutageMeter
  import opened OutageUnwatched

  // ------------------------------------------------------------ one event

  /** Monotonic time from the start of the link's state to `at`. */
  function Lasted(s: State, at: Instant): int {
    Positive(at.mono - s.link.since.mono)
  }

  /**
   The second an event is stored at, `own` being its date's, `last` that of the
   event before it and `width` what an up of some length has to be past its down.
   A first event, and any dated past the one before it, keeps its own second.
   */
  predicate DatedAs(e: EventRow, own: int, last: Option<int>, width: int) {
    e.wall ==
      if last.None? then own
      else if !e.up then Larger(own, last.value + 1)
      else if e.duration <= 0 then Larger(own, last.value)
      else Larger(Larger(own, last.value), last.value + width)
  }

  lemma StampedSecond(s: State, at: Instant)
    ensures DatedAs(EventOf(s, at), at.wall / NS, s.lastEventWall, Seconds(Lasted(s, at)) + CeilSeconds(s.frozenGap))
    ensures EventOf(s, at).up <==> !s.link.online
  {
  }

  /** The recorded length: none for a down, and for an up its whole seconds less those of the paused total, or none. */
  lemma RecordedLength(s: State, at: Instant)
    requires 0 <= s.pausedGap
    ensures EventOf(s, at).duration
            == if s.link.online then -1 else Positive(Seconds(Lasted(s, at)) - Seconds(s.pausedGap))
  {
  }

  // ------------------------------------------------------------ one round

  /** What a completed round does to the events: one is emitted exactly when the link's state changes, dated by the new state's start. */
  lemma RoundEmits(r: State, p: Probing)
    ensures var u := ApplyRound(r, p); var q := FlushPendingEvents(r, p.retries);
            if u.link.online == r.link.online then EventQueues(u) == EventQueues(q)
            else
              p.result.Some?
              && EventQueues(u) == EventQueues(EmitEvent(q, EventOf(q, u.link.since), p.ok))
              && u.lastEventWall == Some(EventOf(q, u.link.since).wall)
  {
    FlushEventsFrame(r, p.retries);
    if p.result.Some? {
      DebounceRoundEmits(FlushPendingEvents(r, p.retries), p.result.value, p.ok);
    }
  }

  datatype Queue = Queue(pending: seq<EventRow>, emitted: seq<EventRow>, stored: seq<EventRow>, dropped: seq<EventRow>)

  function EventQueues(s: State): Queue {
    Queue(s.pendingEvents, s.past.emitted, s.past.storedEvents, s.past.droppedEvents)
  }

  lemma DebounceRoundEmits(q: State, r: Round, ok: bool)
    ensures var u := DebounceRound(q, r, ok);
            if u.link.online == q.link.online then EventQueues(u) == EventQueues(q)
            else EventQueues(u) == EventQueues(EmitEvent(q, EventOf(q, u.link.since), ok))
                 && u.lastEventWall == Some(EventOf(q, u.link.since).wall)
  {
    var f := q.(link := Fold(q.link, r));
    if Flip(f.link, r).Some? {
      FoldKeepsTheEvent(q, r, Flip(f.link, r).value);
    }
  }

  lemma FoldKeepsTheEvent(q: State, r: Round, at: Instant)
    ensures EventOf(q.(link := Fold(q.link, r)), at) == EventOf(q, at)
  {
  }

  // ------------------------------------------------------ one iteration

  lemma OfferKeepsQueues(s: State, p: PendingGap, o: Outcome)
    ensures EventQueues(Offer(s, p, o)) == EventQueues(s) && Offer(s, p, o).lastEventWall == s.lastEventWall
  {
  }

  lemma {:induction false} RetryKeepsQueues(s: State, todo: seq<PendingGap>, os: seq<Outcome>)
    ensures EventQueues(RetryFrom(s, todo, os)) == EventQueues(s) && RetryFrom(s, todo, os).lastEventWall == s.lastEventWall
    decreases |todo|
  {
    if todo != [] {
      RetryKeepsQueues(if Next(os).Failed? then s.(held := s.held + [todo[0]]) else Settle(s, todo[0], Next(os)), todo[1..], Rest(os));
    }
  }

  lemma FlushPauseKeepsQueues(s: State, end: Instant, force: bool, o: Outcome)
    ensures EventQueues(FlushPause(s, end, force, o)) == EventQueues(s) && FlushPause(s, end, force, o).lastEventWall == s.lastEventWall
  {
    if s.pauseSpanStart.Some? {
      var start := s.pauseSpanStart.value;
      var p := PauseRecord(s, start, PauseSpan(start, end));
      OfferKeepsQueues(CreditPause(s, p, end.Sub(start)), p, o);
    }
  }

  /** The queues after a flush answered by `oks`, written with nothing but the answers. */
  function Flushed(q: Queue, oks: seq<bool>): Queue {
    var k := Smaller(|q.pending|, Landed(oks));
    q.(pending := q.pending[k..], stored := q.stored + q.pending[..k])
  }

  /** And after a new event whose own write was answered by `ok`. */
  function Recorded(q: Queue, e: EventRow, ok: bool): Queue {
    if ok then q.(emitted := q.emitted + [e], stored := q.stored + [e])
    else if |q.pending| < 64 then q.(emitted := q.emitted + [e], pending := q.pending + [e])
    else q.(emitted := q.emitted + [e], pending := q.pending[1..] + [e], dropped := q.dropped + [q.pending[0]])
  }

  lemma FlushIsFlushed(s: State, oks: seq<bool>)
    ensures EventQueues(FlushPendingEvents(s, oks)) == Flushed(EventQueues(s), oks)
  {
    FlushStoresWhatLanded(s, oks);
  }

  lemma EmitIsRecorded(s: State, e: EventRow, ok: bool)
    ensures EventQueues(EmitEvent(s, e, ok)) == Recorded(EventQueues(s), e, ok)
  {
    EmitStoresOrQueues(s, e, ok);
  }

  lemma RetriesOfATick(s: State, t: Tick)
    ensures var f := FlushPendingEvents(RetryHeldGaps(s, t.gaps), t.events);
            EventQueues(f) == Flushed(EventQueues(s), t.events) && f.lastEventWall == s.lastEventWall
  {
    RetryKeepsQueues(s.(held := []), s.held, t.gaps);
    FlushIsFlushed(RetryHeldGaps(s, t.gaps), t.events);
    FlushEventsFrame(RetryHeldGaps(s, t.gaps), t.events);
  }

  lemma GapKeepsQueues(f: State, now: Instant, o: Outcome)
    ensures var b := BookUnobservedGap(f, now, o).0; EventQueues(b) == EventQueues(f) && b.lastEventWall == f.lastEventWall
  {
    var gap := UnobservedGap(f.lastWall, now, f.lastWait + SUSPEND_GAP_SLACK);
    var p := GapRecord(f, gap, now.Sub(f.lastWall));
    OfferKeepsQueues(CreditGap(f, p), p, o);
  }

  lemma ResumeKeepsQueues(c: State, t: Tick)
    ensures EventQueues(ResumeEdge(c, t)) == EventQueues(c) && ResumeEdge(c, t).lastEventWall == c.lastEventWall
  {
    FlushPauseKeepsQueues(c, t.flushAt, true, t.flush);
  }

  lemma BeforeRoundQueues(s: State, t: Tick)
    ensures EventQueues(BeforeRound(s, t)) == Flushed(EventQueues(s), t.events)
    ensures BeforeRound(s, t).lastEventWall == s.lastEventWall
  {
    RetriesOfATick(s, t);
    GapKeepsQueues(FlushPendingEvents(RetryHeldGaps(s, t.gaps), t.events), t.now, t.gap);
    ResumeKeepsQueues(CheckGap(s, t), t);
  }

  /**
   What an iteration does to the events, in the store's answers: the retries
   before the gap check, the round's own retries, and one event exactly when the
   link changed, written or queued as its write was answered.
   */
  lemma TickWritesItsEvents(s: State, t: Tick)
    requires Ledger(s, []) && ValidTick(s, t)
    ensures var u, q := Iterate(s, t), Flushed(EventQueues(s), t.events);
            if !t.openAtSwitch || t.round.None? then EventQueues(u) == q && u.link.online == s.link.online
            else
              var p := Flushed(q, t.round.value.retries);
              if u.link.online == s.link.online then EventQueues(u) == p
              else RecordsItsLast(EventQueues(u), p, t.round.value.ok)
  {
    var r := BeforeRound(s, t);
    BeforeRoundQueues(s, t);
    LinkBeforeRound(s, t);
    FlushPauseKeepsQueues(r, t.pausedNow, false, t.checkpoint);
    FlushPauseFrame(r, t.pausedNow, false, t.checkpoint);
    if t.openAtSwitch && t.round.Some? {
      RoundOfATick(r.(lastWait := 0), t.round.value);
    }
  }

  predicate RecordsItsLast(u: Queue, q: Queue, ok: bool) {
    |u.emitted| > 0 && u == Recorded(q, u.emitted[|u.emitted|-1], ok)
  }

  lemma RecordedLast(q: Queue, e: EventRow, ok: bool)
    ensures RecordsItsLast(Recorded(q, e, ok), q, ok)
  {
  }

  lemma RoundOfATick(r: State, p: Probing)
    ensures var u, q := ApplyRound(r, p), Flushed(EventQueues(r), p.retries);
            if u.link.online == r.link.online then EventQueues(u) == q else RecordsItsLast(EventQueues(u), q, p.ok)
  {
    RoundEmits(r, p);
    FlushIsFlushed(r, p.retries);
    var f := FlushPendingEvents(r, p.retries);
    var e := EventOf(f, ApplyRound(r, p).link.since);
    EmitIsRecorded(f, e, p.ok);
    RecordedLast(EventQueues(f), e, p.ok);
  }

  // ------------------------------------------------------------ whole runs

  /** The event an iteration that changes the link emits, from the state its round finds. */
  lemma ChangeEmits(s: State, t: Tick)
    requires Ledger(s, []) && ValidTick(s, t) && Iterate(s, t).link.online != s.link.online
    ensures var u, r := Iterate(s, t), BeforeRound(s, t);
            && u.past.emitted == s.past.emitted + [EventOf(r, u.link.since)]
            && r.lastEventWall == s.lastEventWall && r.link.since == s.link.since && r.link.online == s.link.online
  {
    var r := BeforeRound(s, t);
    BeforeRoundQueues(s, t);
    LinkBeforeRound(s, t);
    CheckGapBooks(s, t);
    FlushPauseFrame(CheckGap(s, t), t.flushAt, true, t.flush);
    FlushPauseFrame(r, t.pausedNow, false, t.checkpoint);
    if t.openAtSwitch && t.round.Some? {
      RoundEvent(r.(lastWait := 0), t.round.value);
      WaitIsNoPartOfIt(r, Iterate(s, t).link.since);
    }
  }

  lemma WaitIsNoPartOfIt(r: State, at: Instant)
    ensures EventOf(r.(lastWait := 0), at) == EventOf(r, at)
  {
  }

  lemma RoundEvent(r: State, p: Probing)
    requires ApplyRound(r, p).link.online != r.link.online
    ensures ApplyRound(r, p).past.emitted == r.past.emitted + [EventOf(r, ApplyRound(r, p).link.since)]
  {
    RoundEmits(r, p);
    FlushEventsFrame(r, p.retries);
    var f := FlushPendingEvents(r, p.retries);
    EmitStoresOrQueues(f, EventOf(f, ApplyRound(r, p).link.since), p.ok);
    FlushIsNoPartOfIt(r, f, ApplyRound(r, p).link.since);
  }

  lemma FlushIsNoPartOfIt(r: State, f: State, at: Instant)
    requires f == r.(pendingEvents := f.pendingEvents, past := r.past.(storedEvents := f.past.storedEvents))
    ensures EventOf(f, at) == EventOf(r, at)
  {
  }

  /** Exactly one event was added, of the new state, and it is dated by the new state's start. */
  predicate OneDatedEvent(s: State, u: State, last: Option<int>, frozen: int) {
    var n := |s.past.emitted|;
    && |u.past.emitted| == n + 1 && u.past.emitted[..n] == s.past.emitted && (u.past.emitted[n].up <==> u.link.online)
    && DatedAs(u.past.emitted[n], u.link.since.wall / NS, last,
               Seconds(Positive(u.link.since.mono - s.link.since.mono)) + CeilSeconds(frozen))
  }

  lemma ChangeIsDated(s: State, t: Tick)
    requires Ledger(s, []) && ValidTick(s, t) && Iterate(s, t).link.online != s.link.online
    ensures OneDatedEvent(s, Iterate(s, t), s.lastEventWall, BeforeRound(s, t).frozenGap)
  {
    ChangeEmits(s, t);
    StampedSecond(BeforeRound(s, t), Iterate(s, t).link.since);
  }

  lemma LastIsTheLogs(b: Boot, ts: seq<Tick>)
    requires ValidRun(b, ts)
    ensures RunTicks(b, ts).lastEventWall == LastWall(RunTicks(b, ts).past.emitted, b.seed)
  {
    RunKeepsLog(b, ts);
  }

  /**
   The stored second of every event of every run, from its date alone: the second
   of the confirming round, or of the round a held outage began at, pushed past
   the event before it as far as DatedAs says and no further.
   */
  lemma EverySecondIsItsDate(b: Boot, ts: seq<Tick>, t: Tick)
    requires ValidRun(b, ts) && ValidTick(RunTicks(b, ts), t)
    requires Iterate(RunTicks(b, ts), t).link.online != RunTicks(b, ts).link.online
    ensures var s := RunTicks(b, ts);
            OneDatedEvent(s, Iterate(s, t), LastWall(s.past.emitted, b.seed), BeforeRound(s, t).frozenGap)
  {
    RunKeepsLedger(b, ts);
    LastIsTheLogs(b, ts);
    ChangeIsDated(RunTicks(b, ts), t);
  }

  lemma RoundIsDated(r: State, p: Probing)
    requires ApplyRound(r, p).link.online != r.link.online && r.link.online && r.past.emitted == []
    ensures var u := ApplyRound(r, p);
            u.past.emitted == [EventRow(if r.lastEventWall.Some? then Larger(u.link.since.wall / NS, r.lastEventWall.value + 1)
                                        else u.link.since.wall / NS, false, -1)]
  {
    RoundEvent(r, p);
    StampedSecond(r, ApplyRound(r, p).link.since);
  }

  lemma QuietRoundEmitsNothing(r: State, p: Probing)
    requires ApplyRound(r, p).link.online == r.link.online
    ensures ApplyRound(r, p).past.emitted == r.past.emitted
  {
    RoundEmits(r, p);
    FlushEventsFrame(r, p.retries);
  }

  /** A run's first event, when the very first round takes the link down. */
  lemma BootSecondIsItsDate(b: Boot)
    ensures var s := Begin(b);
            if s.link.online then s.past.emitted == []
            else
              var own := s.link.since.wall / NS;
              s.past.emitted == [EventRow(if b.seed.Some? then Larger(own, b.seed.value + 1) else own, false, -1)]
  {
    var s := FreshState(b);
    if b.downSince.Some? && b.wall.wall - b.downSince.value.wall > STARTUP_GAP_MIN {
      OfferKeepsQueues(s, StartupGap(b), b.gap);
      OfferFrame(s, StartupGap(b), b.gap);
      s := Offer(s, StartupGap(b), b.gap);
    }
    assert EventQueues(s) == Queue([], [], [], []) && s.lastEventWall == b.seed && s.link == Start(b.at);
    if b.round.Some? {
      if ApplyRound(s, b.round.value).link.online {
        QuietRoundEmitsNothing(s, b.round.value);
      } else {
        RoundIsDated(s, b.round.value);
      }
    }
  }

  /** The one event added has this recorded length. */
  predicate OneLength(s: State, u: State, unwatched: int) {
    && |u.past.emitted| == |s.past.emitted| + 1
    && u.past.emitted[|s.past.emitted|].duration
       == Positive(Seconds(Positive(u.link.since.mono - s.link.since.mono)) - Seconds(unwatched))
  }

  lemma ChangeIsMeasured(s: State, t: Tick)
    requires Ledger(s, []) && ValidTick(s, t) && !s.link.online && Iterate(s, t).link.online && 0 <= BeforeRound(s, t).pausedGap
    ensures OneLength(s, Iterate(s, t), BeforeRound(s, t).pausedGap)
  {
    ChangeEmits(s, t);
    RecordedLength(BeforeRound(s, t), Iterate(s, t).link.since);
  }

  /**
   The recorded length of every outage of every run, from clock readings: the
   whole seconds from its date to the recovery's, less the whole seconds of a
   time that is at most what went unwatched, and is that when no row was lost.
   */
  lemma EveryLengthIsTheWatchedTime(b: Boot, ts: seq<Tick>, t: Tick) returns (unwatched: int)
    requires ValidRun(b, ts) && ValidTick(RunTicks(b, ts), t)
    requires !RunTicks(b, ts).link.online && Iterate(RunTicks(b, ts), t).link.online
    ensures var s := RunTicks(b, ts); var w := UnwatchedAtRound(UnwatchedOf(b, ts), s, t);
            && OneLength(s, Iterate(s, t), unwatched)
            && 0 <= unwatched <= w.pauses + w.sleeps
            && (Clean(BeforeRound(s, t)) ==> unwatched == w.pauses + w.sleeps)
  {
    RunKeepsLedger(b, ts);
    TotalsAtRound(b, ts, t);
    PausedTotalNonNegative(b, ts, t);
    ChangeIsMeasured(RunTicks(b, ts), t);
    unwatched := BeforeRound(RunTicks(b, ts), t).pausedGap;
  }

  lemma PausedTotalNonNegative(b: Boot, ts: seq<Tick>, t: Tick)
    requires ValidRun(b, ts) && ValidTick(RunTicks(b, ts), t) && !RunTicks(b, ts).link.online
    ensures 0 <= BeforeRound(RunTicks(b, ts), t).pausedGap
  {
    var s := RunTicks(b, ts);
    RunKeepsLedger(b, ts);
    LinkBeforeRound(s, t);
    var r := BeforeRound(s, t);
    DeductionsNonNegative(r.held, r.outageGen);
  }

  // ------------------------------------------- what a recovery describes

  /** The recovery noted with an up, from the state its round found: its rows, its length on the clock, and its episodes. */
  predicate OneRecovery(s: State, u: State, r: State, episodes: nat) {
    var n := |s.past.recoveries|;
    && |u.past.recoveries| == n + 1 && u.past.recoveries[..n] == s.past.recoveries
    && var v := u.past.recoveries[n];
    && v.rows == RowSeconds(r.past.stored, s.outageGen) + RowSeconds(r.held, s.outageGen)
    && v.at == u.link.since && v.elapsed == Positive(u.link.since.mono - s.link.since.mono) && v.charges == episodes
  }

  lemma RoundNotes(r: State, p: Probing)
    requires !r.link.online && ApplyRound(r, p).link.online && r.lastEventWall.Some?
    ensures ApplyRound(r, p).past.recoveries == r.past.recoveries + [RecoveryOf(r, ApplyRound(r, p).link.since)]
  {
    FlushEventsFrame(r, p.retries);
    var f := FlushPendingEvents(r, p.retries);
    var g := f.(link := Fold(f.link, p.result.value));
    NotedAlike(r, g, ApplyRound(r, p).link.since);
  }

  lemma NotedAlike(r: State, g: State, at: Instant)
    requires r.lastEventWall.Some? && g.lastEventWall == r.lastEventWall && g.link.online == r.link.online && g.link.since == r.link.since
    requires g.pausedGap == r.pausedGap && g.frozenGap == r.frozenGap && g.outageGen == r.outageGen && g.held == r.held
    requires g.downPausedAt == r.downPausedAt && g.pauseSpanStart == r.pauseSpanStart
    requires g.past.stored == r.past.stored && g.past.loose == r.past.loose && g.past.charges == r.past.charges
    ensures RecoveryOf(g, at) == RecoveryOf(r, at)
  {
  }

  lemma BeforeRoundKeepsRecoveries(s: State, t: Tick)
    ensures BeforeRound(s, t).past.recoveries == s.past.recoveries && BeforeRound(s, t).lastEventWall == s.lastEventWall
  {
    CheckGapLeavesEvents(s, t);
    QuietStepsLeaveEvents(CheckGap(s, t), t);
  }

  /** The state the round finds goes by the link and the events the iteration began with. */
  lemma LinkAndEventsBeforeRound(s: State, t: Tick)
    requires Ledger(s, []) && ValidTick(s, t)
    ensures var r := BeforeRound(s, t);
            && r.link.online == s.link.online && r.link.since == s.link.since && r.outageGen == s.outageGen
            && r.past.recoveries == s.past.recoveries && r.lastEventWall == s.lastEventWall
  {
    LinkBeforeRound(s, t);
    CheckGapBooks(s, t);
    FlushPauseFrame(CheckGap(s, t), t.flushAt, true, t.flush);
    BeforeRoundKeepsRecoveries(s, t);
  }

  lemma OnlyARoundRecovers(r: State, t: Tick)
    requires !r.link.online && !t.openAtSwitch
    ensures !PausedBranch(r, t.pausedNow, t.checkpoint).link.online
  {
    FlushPauseFrame(r, t.pausedNow, false, t.checkpoint);
  }

  lemma ChangeNotes(s: State, t: Tick)
    requires Ledger(s, []) && ValidTick(s, t) && !s.link.online && Iterate(s, t).link.online && s.lastEventWall.Some?
    ensures OneRecovery(s, Iterate(s, t), BeforeRound(s, t), BeforeRound(s, t).past.charges)
  {
    var r := BeforeRound(s, t);
    LinkAndEventsBeforeRound(s, t);
    if !t.openAtSwitch {
      OnlyARoundRecovers(r, t);
    }
    var q := r.(lastWait := 0);
    NotedAlike(r, q, Iterate(s, t).link.since);
    RoundNotes(q, t.round.value);
  }

  /** Of every run: a recovery's rows are those stored or held when its round ran, and its episodes the meter's. */
  lemma EveryRecoveryIsDescribed(b: Boot, ts: seq<Tick>, t: Tick)
    requires ValidRun(b, ts) && ValidTick(RunTicks(b, ts), t)
    requires !RunTicks(b, ts).link.online && Iterate(RunTicks(b, ts), t).link.online
    ensures var s := RunTicks(b, ts);
            OneRecovery(s, Iterate(s, t), BeforeRound(s, t), AtRound(MeterOf(b, ts), s, t).episodes)
  {
    RunKeepsLedger(b, ts);
    EveryRoundFindsItsMeter(b, ts, t);
    DownHasBeenStamped(b, ts);
    ChangeNotes(RunTicks(b, ts), t);
  }

  lemma DownHasBeenStamped(b: Boot, ts: seq<Tick>)
    requires ValidRun(b, ts) && !RunTicks(b, ts).link.online
    ensures RunTicks(b, ts).lastEventWall.Some?
  {
    RunKeepsLog(b, ts);
  }
}
