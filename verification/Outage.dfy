/**
 What one iteration of the monitor's loop does to its outage bookkeeping, as
 functions on values. The class Monitor performs the same steps in place and is
 proved against these functions; OutageLaws proves what every run of them keeps.
 */
module Outage {
  import opened Wrappers
  import opened Clock
  import opened Debounce

  const PAUSE_CHECKPOINT := 300 * NS
  const STARTUP_GAP_MIN := 120 * NS
  const SUSPEND_GAP_SLACK := 600 * NS
  const SCHEDULE_RECHECK := 30 * NS
  const PLAUSIBLE_WALL_EPOCH := 1672531200
  const MAX_HELD_GAPS := 64
  const MAX_PENDING_EVENTS := 64

  /** The store's answer to one write: it landed, it may be tried again, or it never will. */
  datatype Outcome = Stored | Failed | Refused

  /** A measured unobserved stretch; it never changes once built. */
  datatype PendingGap = PendingGap(start: Instant, secs: int, deduct: int, frozen: int, gen: nat, pause: bool)

  /** A transition as the events table holds it; a down carries no duration. */
  datatype EventRow = EventRow(wall: int, up: bool, duration: int)

  /**
   A recovery, with what was known when it was stamped: the pair's two stored
   seconds, the recorded length, the seconds of pause rows booked into the
   outage, the pause time those rows hold that no accumulator had yet, the
   monotonic length, and the pause episodes and suspend gaps of the outage.
   */
  datatype Recovery = Recovery(down: int, up: int, duration: int, rows: int, unfolded: int,
                               at: Instant, elapsed: int, charges: nat)

  /**
   What happened so far, kept beside the state so that laws can speak of it.
   `loose` is monotonic pause time booked into the open outage with no pause
   anchor to fold it; `charges` counts the pause episodes and suspend gaps that
   touched the open outage.
   */
  datatype History = History(
    emitted: seq<EventRow>, storedEvents: seq<EventRow>, droppedEvents: seq<EventRow>,
    booked: seq<PendingGap>, stored: seq<PendingGap>, refused: seq<PendingGap>, evicted: seq<PendingGap>,
    loose: int, charges: nat, recoveries: seq<Recovery>)

  datatype State = State(
    link: Link, lastEventWall: Option<int>, pendingEvents: seq<EventRow>,
    downPausedAt: Option<Instant>, pausedGap: int, frozenGap: int, outageGen: nat,
    held: seq<PendingGap>, paused: bool, pauseSpanStart: Option<Instant>,
    lastWall: Instant, lastWait: int, past: History)

  function Next(os: seq<Outcome>): Outcome {
    if os == [] then Failed else os[0]
  }

  function Rest<T>(os: seq<T>): seq<T> {
    if os == [] then [] else os[1..]
  }

  // ---------------------------------------------------------- held gaps

  /** Takes both halves of a suspend gap's correction back, within its own incarnation only. */
  function RevertGapDeduction(s: State, p: PendingGap): State {
    if (p.deduct <= 0 && p.frozen <= 0) || p.gen != s.outageGen then s
    else s.(pausedGap := if s.pausedGap > p.deduct then s.pausedGap - p.deduct else 0,
            frozenGap := if s.frozenGap > p.frozen then s.frozenGap - p.frozen else 0)
  }

  /** Moves the open pause's anchor past a span that will never have a row. */
  function DropRefusedPauseDeduction(s: State, p: PendingGap): State {
    if s.downPausedAt.Some? && p.gen == s.outageGen && !p.start.Before(s.downPausedAt.value) then
      s.(downPausedAt := Some(s.downPausedAt.value.Add(p.secs * NS)))
    else s
  }

  /** What an attempted write settles; a failed one settles nothing and is the caller's to keep. */
  function Settle(s: State, p: PendingGap, o: Outcome): State {
    match o
    case Failed => s
    case Stored => s.(past := s.past.(stored := s.past.stored + [p]))
    case Refused =>
      var s := if p.pause then DropRefusedPauseDeduction(s, p) else RevertGapDeduction(s, p);
      s.(past := s.past.(refused := s.past.refused + [p]))
  }

  function AppendHeldGap(s: State, p: PendingGap): State {
    var s := if |s.held| >= MAX_HELD_GAPS then
               var r := RevertGapDeduction(s, s.held[0]);
               r.(held := r.held[1..], past := r.past.(evicted := r.past.evicted + [s.held[0]]))
             else s;
    s.(held := s.held + [p])
  }

  /** The first write of a freshly measured gap, and the queueing of it if that fails. */
  function Offer(s: State, p: PendingGap, o: Outcome): State {
    var s := s.(past := s.past.(booked := s.past.booked + [p]));
    if o.Failed? then AppendHeldGap(s, p) else Settle(s, p, o)
  }

  function RetryFrom(s: State, todo: seq<PendingGap>, os: seq<Outcome>): State
    decreases |todo|
  {
    if todo == [] then s
    else
      var s := if Next(os).Failed? then s.(held := s.held + [todo[0]]) else Settle(s, todo[0], Next(os));
      RetryFrom(s, todo[1..], Rest(os))
  }

  function RetryHeldGaps(s: State, os: seq<Outcome>): State {
    RetryFrom(s.(held := []), s.held, os)
  }

  // -------------------------------------------------- measuring a gap

  /** Wall seconds between two checkpoints that cannot have been observed, or 0. */
  function UnobservedGap(prev: Instant, now: Instant, threshold: int): int {
    if prev.Unix() < PLAUSIBLE_WALL_EPOCH || now.Unix() < PLAUSIBLE_WALL_EPOCH then 0
    else
      var gap := now.Unix() - prev.Unix();
      if gap <= Seconds(threshold) then 0 else gap
  }

  /** How much of a gap the monotonic clock counted, and an open outage must give back. */
  function UnobservedInOutage(wallGap: int, monoGap: int): int {
    if monoGap <= 0 then 0 else if monoGap > wallGap then wallGap else monoGap
  }

  /** The record of a suspend gap; only inside an outage does it carry a correction. */
  function GapRecord(s: State, gap: int, monoAdvance: int): PendingGap {
    if s.link.online then PendingGap(s.lastWall, gap, 0, 0, 0, false)
    else
      var deduct := UnobservedInOutage(gap * NS, monoAdvance);
      PendingGap(s.lastWall, gap, deduct, gap * NS - deduct, s.outageGen, false)
  }

  function CreditGap(s: State, p: PendingGap): State {
    if s.link.online then s
    else s.(pausedGap := s.pausedGap + p.deduct, frozenGap := s.frozenGap + p.frozen,
            past := s.past.(charges := s.past.charges + 1))
  }

  function BookUnobservedGap(s: State, now: Instant, o: Outcome): (State, bool) {
    var gap := UnobservedGap(s.lastWall, now, s.lastWait + SUSPEND_GAP_SLACK);
    if gap == 0 then (s, false)
    else if s.pauseSpanStart.Some? then (s, true)
    else
      var p := GapRecord(s, gap, now.Sub(s.lastWall));
      (Offer(CreditGap(s, p), p, o), true)
  }

  function PauseRecord(s: State, start: Instant, span: int): PendingGap {
    PendingGap(start, Seconds(span), 0, 0, s.outageGen, true)
  }

  /** The row may hold seconds the monotonic clock did not see; the widen has to know. */
  function CreditPause(s: State, p: PendingGap, mono: int): State {
    if s.link.online then s
    else s.(frozenGap := s.frozenGap + p.secs * NS - mono,
            past := s.past.(loose := s.past.loose + if s.downPausedAt.Some? then 0 else mono))
  }

  function BookPauseSpan(s: State, start: Instant, span: int, mono: int, o: Outcome): State {
    var p := PauseRecord(s, start, span);
    Offer(CreditPause(s, p, mono), p, o)
  }

  /** A slice of an open pause: the row is booked and the anchor moves to its end. */
  function TakeSlice(s: State, start: Instant, end: Instant, span: int, o: Outcome): State {
    BookPauseSpan(s, start, span, end.Sub(start), o).(pauseSpanStart := Some(end))
  }

  /** The wall span a row claims, floored at the monotonic time that provably passed. */
  function PauseSpan(start: Instant, end: Instant): int {
    var wall := (end.Unix() - start.Unix()) * NS;
    if end.Sub(start) > wall then end.Sub(start) else wall
  }

  function FlushPause(s: State, end: Instant, force: bool, o: Outcome): State {
    if s.pauseSpanStart.None? then s
    else
      var start := s.pauseSpanStart.value;
      var span := PauseSpan(start, end);
      if start.Unix() < PLAUSIBLE_WALL_EPOCH || end.Unix() < PLAUSIBLE_WALL_EPOCH then
        s.(pauseSpanStart := Some(end))
      else if span <= 0 || (!force && span < PAUSE_CHECKPOINT) then s
      else TakeSlice(s, start, end, span, o)
  }

  function NotePause(s: State, now: Instant): State {
    if !s.link.online && s.downPausedAt.None? then s.(downPausedAt := Some(now)) else s
  }

  function NoteResume(s: State, now: Instant): State {
    if s.downPausedAt.None? then s
    else
      var d := now.Sub(s.downPausedAt.value);
      s.(pausedGap := if d > 0 then s.pausedGap + d else s.pausedGap, downPausedAt := None)
  }

  // ------------------------------------------------------- transitions

  function Elapsed(s: State, at: Instant): int {
    if at.Sub(s.link.since) < 0 then 0 else at.Sub(s.link.since)
  }

  /** The recorded length: for a recovery the unwatched paused time is left out. */
  function DurationOf(s: State, at: Instant): int {
    var duration := Seconds(Elapsed(s, at));
    var gap := Seconds(s.pausedGap);
    if s.link.online || gap <= 0 then duration
    else if duration - gap < 0 then 0
    else duration - gap
  }

  /** The second the event is stored at. */
  function EventWall(s: State, at: Instant): int {
    var goesUp := !s.link.online;
    if s.lastEventWall.None? then at.Unix()
    else
      var last := s.lastEventWall.value;
      var wall := if at.Unix() < last then last else at.Unix();
      var wall := if !goesUp && wall == last then last + 1 else wall;
      var width := Seconds(Elapsed(s, at)) + CeilSeconds(s.frozenGap);
      if goesUp && DurationOf(s, at) > 0 && wall - last < width then last + width else wall
  }

  function EventOf(s: State, at: Instant): EventRow {
    EventRow(EventWall(s, at), !s.link.online, if s.link.online then -1 else DurationOf(s, at))
  }

  function BufferPendingEvent(s: State, e: EventRow): State {
    var s := if |s.pendingEvents| >= MAX_PENDING_EVENTS then
               s.(pendingEvents := s.pendingEvents[1..],
                  past := s.past.(droppedEvents := s.past.droppedEvents + [s.pendingEvents[0]]))
             else s;
    s.(pendingEvents := s.pendingEvents + [e])
  }

  function EmitEvent(s: State, e: EventRow, ok: bool): State {
    var s := s.(past := s.past.(emitted := s.past.emitted + [e]));
    if ok then s.(past := s.past.(storedEvents := s.past.storedEvents + [e])) else BufferPendingEvent(s, e)
  }

  /** Seconds of the rows booked into incarnation `gen`. */
  function RowSeconds(ps: seq<PendingGap>, gen: nat): int {
    if ps == [] then 0 else (if ps[0].gen == gen then ps[0].secs else 0) + RowSeconds(ps[1..], gen)
  }

  /** The stretch of an open pause that its resume has yet to fold. */
  function OpenPause(s: State): int {
    if s.downPausedAt.Some? && s.pauseSpanStart.Some? then s.pauseSpanStart.value.Sub(s.downPausedAt.value) else 0
  }

  function RecoveryOf(s: State, at: Instant): Recovery
    requires s.lastEventWall.Some?
  {
    Recovery(s.lastEventWall.value, EventWall(s, at), DurationOf(s, at),
             RowSeconds(s.past.stored, s.outageGen) + RowSeconds(s.held, s.outageGen),
             OpenPause(s) + s.past.loose, at, Elapsed(s, at), s.past.charges)
  }

  function RecoveriesAfter(s: State, at: Instant): seq<Recovery> {
    s.past.recoveries + if !s.link.online && s.lastEventWall.Some? then [RecoveryOf(s, at)] else []
  }

  /** The other state takes over at `at`, with a fresh incarnation of the two accumulators. */
  function TurnOver(s: State, at: Instant, wall: int, recoveries: seq<Recovery>): State {
    s.(lastEventWall := Some(wall), outageGen := s.outageGen + 1,
       downPausedAt := None, pausedGap := 0, frozenGap := 0,
       link := s.link.(online := !s.link.online, since := at),
       past := s.past.(loose := 0, charges := if s.pauseSpanStart.Some? then 1 else 0, recoveries := recoveries))
  }

  /** A confirmed state change dated `at`: stamp it, turn over, store or buffer it. */
  function Transition(s: State, at: Instant, ok: bool): State {
    EmitEvent(TurnOver(s, at, EventWall(s, at), RecoveriesAfter(s, at)), EventOf(s, at), ok)
  }

  function FlushPendingEvents(s: State, oks: seq<bool>): State
    decreases |s.pendingEvents|
  {
    if s.pendingEvents == [] || oks == [] || !oks[0] then s
    else
      var e := s.pendingEvents[0];
      FlushPendingEvents(s.(pendingEvents := s.pendingEvents[1..],
                            past := s.past.(storedEvents := s.past.storedEvents + [e])), oks[1..])
  }

  // -------------------------------------------------- the loop

  /** A probe round: retries first, then either nothing measured, or a result to debounce. */
  datatype Probing = Probing(retries: seq<bool>, result: Option<Round>, ok: bool)

  /** A completed round: count it, and record the change it confirms, if any. */
  function DebounceRound(s: State, r: Round, ok: bool): State {
    var f := s.(link := Fold(s.link, r));
    var flip := Flip(f.link, r);
    if flip.Some? then Transition(f, flip.value, ok) else f
  }

  function ApplyRound(s: State, p: Probing): State {
    var s := FlushPendingEvents(s, p.retries);
    if p.result.None? then s.(link := ResetStreaks(s.link)) else DebounceRound(s, p.result.value, p.ok)
  }

  /**
   Everything one iteration reads from outside: clock readings in the order
   they are taken, the store's answers, the two readings of the probing gate,
   the round if one is due, and the wait armed otherwise.
   */
  datatype Tick = Tick(
    now: Instant, gaps: seq<Outcome>, events: seq<bool>, gap: Outcome,
    openAtResume: bool, flushAt: Instant, flush: Outcome, resumeAt: Instant,
    openAtSwitch: bool, pausedNow: Instant, checkpoint: Outcome,
    round: Option<Probing>, wait: int)

  /** The iteration up to and including the wall-gap check. */
  function CheckGap(s: State, t: Tick): State {
    var s := FlushPendingEvents(RetryHeldGaps(s, t.gaps), t.events);
    var (b, booked) := BookUnobservedGap(s, t.now, t.gap);
    b.(link := if booked then ResetStreaks(b.link) else b.link, lastWall := t.now)
  }

  function ResumeEdge(s: State, t: Tick): State {
    if s.paused && t.openAtResume then
      NoteResume(FlushPause(s, t.flushAt, true, t.flush).(pauseSpanStart := None, paused := false), t.resumeAt)
    else s
  }

  function PausedBranch(s: State, now: Instant, o: Outcome): State {
    var s := if s.paused then FlushPause(s, now, false, o)
             else NotePause(s.(paused := true, pauseSpanStart := Some(now),
                               past := s.past.(charges := s.past.charges + 1)), now);
    s.(link := ResetStreaks(s.link), lastWait := SCHEDULE_RECHECK)
  }

  function Iterate(s: State, t: Tick): State {
    var s := ResumeEdge(CheckGap(s, t), t);
    if !t.openAtSwitch then PausedBranch(s, t.pausedNow, t.checkpoint)
    else if t.round.Some? then ApplyRound(s.(lastWait := 0), t.round.value)
    else s.(lastWait := t.wait)
  }

  /** Run's start: the seeded event clock, the process-down gap, and the immediate first round. */
  datatype Boot = Boot(at: Instant, seed: Option<int>, downSince: Option<Instant>, wall: Instant, gap: Outcome,
                       round: Option<Probing>, lastWall: Instant, interval: int)

  function FreshState(b: Boot): State {
    State(Start(b.at), b.seed, [], None, 0, 0, 0, [], false, None, b.at, 0,
          History([], [], [], [], [], [], [], 0, 0, []))
  }

  /**
   The stretch the process was down. Its start comes from the database and has
   no monotonic reading; none is ever consulted, since incarnation 0 is online.
   */
  function StartupGap(b: Boot): PendingGap
    requires b.downSince.Some?
  {
    PendingGap(b.downSince.value, Seconds(b.wall.wall - b.downSince.value.wall), 0, 0, 0, true)
  }

  function Begin(b: Boot): State {
    var s := FreshState(b);
    var s := if b.downSince.Some? && b.wall.wall - b.downSince.value.wall > STARTUP_GAP_MIN
             then Offer(s, StartupGap(b), b.gap) else s;
    var s := if b.round.Some? then ApplyRound(s, b.round.value) else s;
    s.(lastWall := b.lastWall, lastWait := b.interval)
  }

  function RunTicks(b: Boot, ts: seq<Tick>): State {
    if ts == [] then Begin(b) else Iterate(RunTicks(b, ts[..|ts|-1]), ts[|ts|-1])
  }

  // The monotonic clock never goes back; nothing is asked of the wall clock.

  predicate ValidProbing(p: Option<Probing>) {
    p.Some? && p.value.result.Some? ==> p.value.result.value.Valid()
  }

  predicate ValidBoot(b: Boot) {
    0 < b.interval && ValidProbing(b.round)
  }

  predicate ValidTick(s: State, t: Tick) {
    && s.lastWall.mono <= t.now.mono <= t.flushAt.mono <= t.resumeAt.mono <= t.pausedNow.mono
    && (s.pauseSpanStart.Some? ==> s.pauseSpanStart.value.mono <= t.now.mono)
    && (t.round.None? ==> 0 < t.wait)
    && ValidProbing(t.round)
  }

  predicate ValidRun(b: Boot, ts: seq<Tick>) {
    if ts == [] then ValidBoot(b)
    else ValidRun(b, ts[..|ts|-1]) && ValidTick(RunTicks(b, ts[..|ts|-1]), ts[|ts|-1])
  }
}
