/**
 What the loop measures, read off its clock readings: the rows one iteration
 books, when the link counts as paused, and the exact value of the two totals
 an outage's recorded length and width are computed from.
 */
module OutageBooks {
  import opened Wrappers
  import opened Clock
  import opened Debounce
  import opened Outage
  import opened OutageLaws
  import opened OutageWrites

  // ------------------------------------------------- what is measured

  /** A wall reading from 2023 on. */
  predicate Plausible(i: Instant) {
    i.wall >= 1672531200 * NS
  }

  function Larger(a: int, b: int): int {
    if a < b then b else a
  }

  function WallSeconds(from: Instant, to: Instant): int {
    to.wall / NS - from.wall / NS
  }

  /** The loop was last awake at `s.lastWall`, to run again within `s.lastWait`: more than ten minutes over that went unobserved. */
  predicate Slept(s: State, now: Instant) {
    Plausible(s.lastWall) && Plausible(now) && WallSeconds(s.lastWall, now) > Seconds(s.lastWait + 600 * NS)
  }

  lemma SleptIsTheGap(s: State, now: Instant)
    ensures UnobservedGap(s.lastWall, now, s.lastWait + SUSPEND_GAP_SLACK) == (if Slept(s, now) then WallSeconds(s.lastWall, now) else 0)
    ensures 0 <= s.lastWait && Slept(s, now) ==> WallSeconds(s.lastWall, now) > 600
  {
  }

  /** The row of an unobserved stretch: in an outage, what the monotonic clock counted of it is given back, and the rest was frozen. */
  function GapRow(s: State, now: Instant): PendingGap {
    var gap, counted := WallSeconds(s.lastWall, now), now.mono - s.lastWall.mono;
    if s.link.online then PendingGap(s.lastWall, gap, 0, 0, 0, false)
    else
      var back := if counted < 0 then 0 else if counted > gap * NS then gap * NS else counted;
      PendingGap(s.lastWall, gap, back, gap * NS - back, s.outageGen, false)
  }

  /** The span of a pause slice: its wall seconds, or its monotonic time where that is longer. */
  function SliceSpan(from: Instant, to: Instant): int {
    Larger(WallSeconds(from, to) * NS, to.mono - from.mono)
  }

  predicate SliceDue(s: State, end: Instant, least: int) {
    && s.pauseSpanStart.Some? && Plausible(s.pauseSpanStart.value) && Plausible(end)
    && SliceSpan(s.pauseSpanStart.value, end) >= least
  }

  function SliceRow(s: State, end: Instant): PendingGap
    requires s.pauseSpanStart.Some?
  {
    PendingGap(s.pauseSpanStart.value, SliceSpan(s.pauseSpanStart.value, end) / NS, 0, 0, s.outageGen, true)
  }

  /** Where the next slice starts: at this slice's end, or where an implausible clock left it. */
  function SpanAfter(s: State, end: Instant, least: int): Option<Instant> {
    if s.pauseSpanStart.None? then None
    else if SliceDue(s, end, least) || !Plausible(s.pauseSpanStart.value) || !Plausible(end) then Some(end)
    else s.pauseSpanStart
  }

  lemma OfferBooks(s: State, p: PendingGap, o: Outcome)
    ensures var t := Offer(s, p, o);
            t.past.booked == s.past.booked + [p] && t.pauseSpanStart == s.pauseSpanStart && t.lastWait == s.lastWait
  {
    OfferFilesTheAnswer(s, p, o);
    OfferFrame(s, p, o);
  }

  /** A flush books one row when a slice is due: at the resume edge any positive span, at a checkpoint five minutes. */
  lemma FlushBooks(s: State, end: Instant, force: bool, o: Outcome)
    ensures var t, least := FlushPause(s, end, force, o), if force then 1 else 300 * NS;
            && t.past.booked == s.past.booked + (if SliceDue(s, end, least) then [SliceRow(s, end)] else [])
            && t.pauseSpanStart == SpanAfter(s, end, least)
  {
    assert s.past.booked + [] == s.past.booked;
    if s.pauseSpanStart.Some? {
      var start := s.pauseSpanStart.value;
      var span := PauseSpan(start, end);
      assert span == SliceSpan(start, end);
      var p := PauseRecord(s, start, span);
      OfferBooks(CreditPause(s, p, end.Sub(start)), p, o);
    }
  }

  /** A sleep books one row, unless an open pause already owns the stretch. */
  lemma GapBooks(s: State, now: Instant, o: Outcome)
    requires 0 <= s.lastWait
    ensures var t := BookUnobservedGap(s, now, o);
            && t.1 == Slept(s, now)
            && t.0.past.booked == s.past.booked + (if Slept(s, now) && s.pauseSpanStart.None? then [GapRow(s, now)] else [])
            && t.0.pauseSpanStart == s.pauseSpanStart && t.0.link == s.link && t.0.paused == s.paused
            && t.0.outageGen == s.outageGen
  {
    SleptIsTheGap(s, now);
    assert s.past.booked + [] == s.past.booked;
    BookGapFrame(s, now, o);
    if Slept(s, now) && s.pauseSpanStart.None? && WallSeconds(s.lastWall, now) != 0 {
      var p := GapRecord(s, WallSeconds(s.lastWall, now), now.Sub(s.lastWall));
      assert p == GapRow(s, now);
      OfferBooks(CreditGap(s, p), p, o);
    }
  }

  // ------------------------------------------------- one iteration's rows

  lemma CheckGapBooks(s: State, t: Tick)
    requires 0 <= s.lastWait
    ensures var c := CheckGap(s, t);
            && c.past.booked == s.past.booked + (if Slept(s, t.now) && s.pauseSpanStart.None? then [GapRow(s, t.now)] else [])
            && c.pauseSpanStart == s.pauseSpanStart && c.paused == s.paused && c.outageGen == s.outageGen
            && c.link == (if Slept(s, t.now) then ResetStreaks(s.link) else s.link) && c.lastWall == t.now
  {
    var f := FlushPendingEvents(RetryHeldGaps(s, t.gaps), t.events);
    RetriesBookNothing(s, t.gaps, t.events);
    GapBooks(f, t.now, t.gap);
    assert Slept(f, t.now) == Slept(s, t.now) && GapRow(f, t.now) == GapRow(s, t.now);
  }

  lemma RetriesBookNothing(s: State, gaps: seq<Outcome>, events: seq<bool>)
    ensures var f := FlushPendingEvents(RetryHeldGaps(s, gaps), events);
            && f.past.booked == s.past.booked && f.pauseSpanStart == s.pauseSpanStart && f.paused == s.paused
            && f.outageGen == s.outageGen && f.link == s.link && f.lastWall == s.lastWall && f.lastWait == s.lastWait
  {
    RetryFilesEveryAnswer(s, gaps);
    RetryFrame(s.(held := []), s.held, gaps);
    RetryLeavesWait(s.(held := []), s.held, gaps);
    FlushEventsFrame(RetryHeldGaps(s, gaps), events);
  }

  lemma {:induction false} RetryLeavesWait(s: State, todo: seq<PendingGap>, os: seq<Outcome>)
    ensures RetryFrom(s, todo, os).lastWait == s.lastWait && RetryFrom(s, todo, os).pauseSpanStart == s.pauseSpanStart
    decreases |todo|
  {
    if todo != [] {
      RetryLeavesWait(if Next(os).Failed? then s.(held := s.held + [todo[0]]) else Settle(s, todo[0], Next(os)), todo[1..], Rest(os));
    }
  }

  /** Does the pause end at this iteration's resume edge? */
  predicate Resumes(s: State, t: Tick) {
    s.paused && t.openAtResume
  }

  predicate StillPaused(s: State, t: Tick) {
    s.paused && !t.openAtResume && !t.openAtSwitch
  }

  /** The rows one iteration books: the sleep before it, the last slice of a pause that ends, a checkpoint of one that goes on. */
  function TickRows(s: State, t: Tick): seq<PendingGap> {
    (if Slept(s, t.now) && s.pauseSpanStart.None? then [GapRow(s, t.now)] else [])
    + (if Resumes(s, t) && SliceDue(s, t.flushAt, 1) then [SliceRow(s, t.flushAt)] else [])
    + (if StillPaused(s, t) && SliceDue(s, t.pausedNow, 300 * NS) then [SliceRow(s, t.pausedNow)] else [])
  }

  /** Where the open pause's next slice starts after one iteration. */
  function TickSpan(s: State, t: Tick): Option<Instant> {
    if Resumes(s, t) then if t.openAtSwitch then None else Some(t.pausedNow)
    else if t.openAtSwitch then s.pauseSpanStart
    else if s.paused then SpanAfter(s, t.pausedNow, 300 * NS)
    else Some(t.pausedNow)
  }

  lemma ResumeBooks(c: State, t: Tick)
    ensures var r := ResumeEdge(c, t);
            && r.past.booked == c.past.booked + (if Resumes(c, t) && SliceDue(c, t.flushAt, 1) then [SliceRow(c, t.flushAt)] else [])
            && r.pauseSpanStart == (if Resumes(c, t) then None else c.pauseSpanStart)
            && r.paused == (c.paused && !t.openAtResume)
  {
    FlushBooks(c, t.flushAt, true, t.flush);
    if !Resumes(c, t) {
      assert c.past.booked + [] == c.past.booked;
    }
  }

  lemma FlushPauseFrame(s: State, end: Instant, force: bool, o: Outcome)
    ensures var t := FlushPause(s, end, force, o);
            t.link == s.link && t.paused == s.paused && t.outageGen == s.outageGen && t.lastWall == s.lastWall && t.past.charges == s.past.charges
  {
    if s.pauseSpanStart.Some? {
      var start := s.pauseSpanStart.value;
      var p := PauseRecord(s, start, PauseSpan(start, end));
      OfferFrame(CreditPause(s, p, end.Sub(start)), p, o);
    }
  }

  lemma PausedBooks(r: State, now: Instant, o: Outcome)
    ensures var u := PausedBranch(r, now, o);
            && u.past.booked == r.past.booked + (if r.paused && SliceDue(r, now, 300 * NS) then [SliceRow(r, now)] else [])
            && u.pauseSpanStart == (if r.paused then SpanAfter(r, now, 300 * NS) else Some(now))
            && u.paused && u.lastWait == 30 * NS && u.lastWall == r.lastWall && u.outageGen == r.outageGen
  {
    FlushBooks(r, now, false, o);
    FlushPauseFrame(r, now, false, o);
    if !r.paused {
      assert r.past.booked + [] == r.past.booked;
    }
  }

  lemma RoundBooks(r: State, p: Probing)
    ensures var u := ApplyRound(r, p);
            && u.past.booked == r.past.booked && u.pauseSpanStart == r.pauseSpanStart && u.paused == r.paused
            && u.lastWait == r.lastWait && u.lastWall == r.lastWall
            && u.held == r.held && u.past.stored == r.past.stored && u.past.refused == r.past.refused && u.past.evicted == r.past.evicted
  {
    FlushEventsFrame(r, p.retries);
  }

  /**
   One iteration, read off its clock readings: the rows it books, whether the
   link then counts as paused and from when its next slice runs, and the two
   fields the next iteration's sleep is judged by.
   */
  lemma TickBooks(s: State, t: Tick)
    requires 0 <= s.lastWait && (s.pauseSpanStart.Some? ==> s.paused)
    ensures var u := Iterate(s, t);
            && u.past.booked == s.past.booked + TickRows(s, t)
            && u.pauseSpanStart == TickSpan(s, t)
            && u.paused == (!t.openAtSwitch || (s.paused && !t.openAtResume))
            && u.lastWall == t.now
            && u.lastWait == if !t.openAtSwitch then 30 * NS else if t.round.Some? then 0 else t.wait
  {
    var c := CheckGap(s, t);
    var r := ResumeEdge(c, t);
    CheckGapBooks(s, t);
    assert SliceDue(c, t.flushAt, 1) == SliceDue(s, t.flushAt, 1);
    ResumeBooks(c, t);
    FlushPauseFrame(c, t.flushAt, true, t.flush);
    PausedBooks(r, t.pausedNow, t.checkpoint);
    if t.round.Some? {
      RoundBooks(r.(lastWait := 0), t.round.value);
    }
    RowsInOrder(s.past.booked,
                if Slept(s, t.now) && s.pauseSpanStart.None? then [GapRow(s, t.now)] else [],
                if Resumes(s, t) && SliceDue(s, t.flushAt, 1) then [SliceRow(s, t.flushAt)] else [],
                if StillPaused(s, t) && SliceDue(s, t.pausedNow, 300 * NS) then [SliceRow(s, t.pausedNow)] else []);
  }

  lemma RowsInOrder<T>(a: seq<T>, b: seq<T>, c: seq<T>, d: seq<T>)
    ensures a + b + c + d == a + (b + c + d) && (d == [] ==> a + b + c == a + (b + c + d))
  {
  }

  // ---------------------------------------------- where those rows end up

  /** A new row filed under its answer; one whose write failed waits last, the oldest giving way at 64. */
  function Offered(q: Queues, p: PendingGap, o: Outcome): Queues {
    var b := q.(booked := q.booked + [p]);
    match o
    case Stored => b.(stored := b.stored + [p])
    case Refused => b.(refused := b.refused + [p])
    case Failed =>
      if |q.held| < 64 then b.(held := b.held + [p])
      else b.(held := b.held[1..] + [p], evicted := b.evicted + [b.held[0]])
  }

  function OfferedIf(q: Queues, due: bool, p: PendingGap, o: Outcome): Queues {
    if due then Offered(q, p, o) else q
  }

  lemma OfferIsOffered(s: State, p: PendingGap, o: Outcome)
    ensures QueuesOf(Offer(s, p, o)) == Offered(QueuesOf(s), p, o)
  {
    OfferFilesTheAnswer(s, p, o);
  }

  /** Every held row filed under its answer. */
  function Retried(q: Queues, os: seq<Outcome>): Queues {
    AllFiled(q.(held := []), q.held, os)
  }

  lemma FlushFiles(s: State, end: Instant, force: bool, o: Outcome)
    ensures var due := SliceDue(s, end, if force then 1 else 300 * NS);
            QueuesOf(FlushPause(s, end, force, o)) == if due then Offered(QueuesOf(s), SliceRow(s, end), o) else QueuesOf(s)
  {
    if s.pauseSpanStart.Some? {
      var start := s.pauseSpanStart.value;
      var span := PauseSpan(start, end);
      assert span == SliceSpan(start, end);
      var p := PauseRecord(s, start, span);
      OfferIsOffered(CreditPause(s, p, end.Sub(start)), p, o);
    }
  }

  lemma CheckGapFiles(s: State, t: Tick)
    requires 0 <= s.lastWait
    ensures QueuesOf(CheckGap(s, t))
            == OfferedIf(Retried(QueuesOf(s), t.gaps), Slept(s, t.now) && s.pauseSpanStart.None?, GapRow(s, t.now), t.gap)
  {
    var h := RetryHeldGaps(s, t.gaps);
    RetryFromQueues(s.(held := []), s.held, t.gaps);
    FlushEventsFrame(h, t.events);
    RetriesBookNothing(s, t.gaps, t.events);
    GapFiles(FlushPendingEvents(h, t.events), t.now, t.gap);
  }

  lemma GapFiles(f: State, now: Instant, o: Outcome)
    requires 0 <= f.lastWait
    ensures QueuesOf(BookUnobservedGap(f, now, o).0)
            == OfferedIf(QueuesOf(f), Slept(f, now) && f.pauseSpanStart.None?, GapRow(f, now), o)
  {
    SleptIsTheGap(f, now);
    if Slept(f, now) && f.pauseSpanStart.None? {
      var p := GapRecord(f, WallSeconds(f.lastWall, now), now.Sub(f.lastWall));
      assert p == GapRow(f, now);
      OfferIsOffered(CreditGap(f, p), p, o);
    }
  }

  /** Up to an iteration's round: the held rows are retried, then the sleep and the ended pause's last slice are offered, each filed as answered. */
  lemma TickFilesItsRows(s: State, t: Tick)
    requires 0 <= s.lastWait
    ensures QueuesOf(ResumeEdge(CheckGap(s, t), t))
            == OfferedIf(OfferedIf(Retried(QueuesOf(s), t.gaps), Slept(s, t.now) && s.pauseSpanStart.None?, GapRow(s, t.now), t.gap),
                         Resumes(s, t) && SliceDue(s, t.flushAt, 1),
                         if s.pauseSpanStart.Some? then SliceRow(s, t.flushAt) else GapRow(s, t.now), t.flush)
  {
    CheckGapFiles(s, t);
    CheckGapBooks(s, t);
    FlushFiles(CheckGap(s, t), t.flushAt, true, t.flush);
  }

  /** After it, a checkpoint's slice is offered, and a round files nothing. */
  lemma TickFilesItsCheckpoint(s: State, t: Tick)
    requires 0 <= s.lastWait
    ensures var r := ResumeEdge(CheckGap(s, t), t);
            QueuesOf(Iterate(s, t))
            == OfferedIf(QueuesOf(r), StillPaused(s, t) && SliceDue(s, t.pausedNow, 300 * NS),
                         if s.pauseSpanStart.Some? then SliceRow(s, t.pausedNow) else GapRow(s, t.now), t.checkpoint)
  {
    var r := ResumeEdge(CheckGap(s, t), t);
    CheckGapBooks(s, t);
    ResumeBooks(CheckGap(s, t), t);
    FlushPauseFrame(CheckGap(s, t), t.flushAt, true, t.flush);
    FlushFiles(r, t.pausedNow, false, t.checkpoint);
    if t.round.Some? {
      RoundFilesNothing(r.(lastWait := 0), t.round.value);
    }
  }

  lemma RoundFilesNothing(r: State, p: Probing)
    ensures QueuesOf(ApplyRound(r, p)) == QueuesOf(r)
  {
    RoundBooks(r, p);
  }
}
