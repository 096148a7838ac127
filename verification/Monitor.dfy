/**
 The monitor and its loop, updated in place: the fields of the Go struct, the
 variables Run keeps between iterations, and one method per Go function. Every
 method is proved against its step in Outage, so the laws proved there for runs
 of those steps are laws of this object.
 */
module MonitorLoop {
  import opened Wrappers
  import opened Clock
  import Debounce
  import opened Outage

  /** The debounced state of one address family. */
  class FamilyState {
    var online: bool
    var since: Instant
    var okStreak: nat
    var badStreak: nat
    var run: Debounce.FailRun

    ghost function View(): Debounce.Link
      reads this
    {
      Debounce.Link(online, since, okStreak, badStreak, run)
    }

    constructor (at: Instant)
      ensures View() == Debounce.Start(at)
    {
      online, since, okStreak, badStreak, run := true, at, 0, 0, Debounce.NO_RUN;
    }

    method CountRound(r: Debounce.Round)
      modifies this
      ensures View() == Debounce.Fold(old(View()), r)
    {
      if r.ok {
        okStreak := okStreak + 1;
        badStreak := 0;
        run := Debounce.NO_RUN;
      } else {
        badStreak := badStreak + 1;
        okStreak := 0;
        run := run.Fail(r.ts, badStreak, r.downAfter, r.during);
      }
    }

    method AdvanceFamily(r: Debounce.Round)
      modifies this
      ensures View() == Debounce.Advance(old(View()), r)
    {
      CountRound(r);
      if !online && okStreak >= r.upAfter {
        online, since := true, r.ts;
      } else if online && run.Counted(badStreak) >= r.downAfter {
        online, since := false, run.Dated(r.ts);
      }
    }
  }

  class Monitor {
    var online: bool
    var since: Instant
    var okStreak: nat
    var badStreak: nat
    var run: Debounce.FailRun
    var lastEventWall: Option<int>
    var pendingEvents: seq<EventRow>
    var downPausedAt: Option<Instant>
    var pausedGap: int
    var frozenGap: int
    var outageGen: nat

    // Variables of Run.
    var held: seq<PendingGap>
    var paused: bool
    var pauseSpanStart: Option<Instant>
    var lastWall: Instant
    var lastInterval: int

    ghost var past: History

    ghost function View(): State
      reads this
    {
      State(Debounce.Link(online, since, okStreak, badStreak, run), lastEventWall, pendingEvents,
            downPausedAt, pausedGap, frozenGap, outageGen, held, paused, pauseSpanStart, lastWall, lastInterval, past)
    }

    method ResetStreaks()
      modifies this
      ensures View() == old(View()).(link := Debounce.ResetStreaks(old(View().link)))
    {
      okStreak, badStreak, run := 0, 0, Debounce.NO_RUN;
    }

    // ------------------------------------------------------ held gaps

    method RevertGapDeduction(p: PendingGap)
      modifies this
      ensures View() == Outage.RevertGapDeduction(old(View()), p)
    {
      if p.deduct <= 0 && p.frozen <= 0 {
        return;
      }
      if p.gen != outageGen {
        return;
      }
      pausedGap := if pausedGap > p.deduct then pausedGap - p.deduct else 0;
      frozenGap := if frozenGap > p.frozen then frozenGap - p.frozen else 0;
    }

    method DropRefusedPauseDeduction(p: PendingGap)
      modifies this
      ensures View() == Outage.DropRefusedPauseDeduction(old(View()), p)
    {
      if downPausedAt.Some? && p.gen == outageGen && !p.start.Before(downPausedAt.value) {
        downPausedAt := Some(downPausedAt.value.Add(p.secs * NS));
      }
    }

    /** Attempts one write; true hands the record back to be tried again. */
    method FlushGap(p: PendingGap, o: Outcome) returns (again: bool)
      modifies this
      ensures View() == Settle(old(View()), p, o) && again == o.Failed?
    {
      match o
      case Failed => again := true;
      case Refused =>
        if p.pause {
          DropRefusedPauseDeduction(p);
        } else {
          RevertGapDeduction(p);
        }
        past := past.(refused := past.refused + [p]);
        again := false;
      case Stored =>
        past := past.(stored := past.stored + [p]);
        again := false;
    }

    method AppendHeldGap(p: PendingGap)
      modifies this
      ensures View() == Outage.AppendHeldGap(old(View()), p)
    {
      if |held| >= MAX_HELD_GAPS {
        RevertGapDeduction(held[0]);
        past := past.(evicted := past.evicted + [held[0]]);
        held := held[1..];
      }
      held := held + [p];
    }

    /** The first attempt at a freshly measured gap. */
    method OfferGap(p: PendingGap, o: Outcome)
      modifies this
      ensures View() == Offer(old(View()), p, o)
    {
      past := past.(booked := past.booked + [p]);
      var again := FlushGap(p, o);
      if again {
        AppendHeldGap(p);
      }
    }

    method RetryHeldGaps(os: seq<Outcome>)
      modifies this
      ensures View() == Outage.RetryHeldGaps(old(View()), os)
    {
      var todo, answers, i := held, os, 0;
      held := [];
      while i < |todo|
        invariant 0 <= i <= |todo|
        invariant RetryFrom(View(), todo[i..], answers) == Outage.RetryHeldGaps(old(View()), os)
      {
        assert todo[i..][1..] == todo[i+1..];
        var again := FlushGap(todo[i], Next(answers));
        if again {
          held := held + [todo[i]];
        }
        answers, i := Rest(answers), i + 1;
      }
    }

    // ------------------------------------------------ measuring a gap

    method BookUnobservedGap(now: Instant, o: Outcome) returns (booked: bool)
      modifies this
      ensures (View(), booked) == Outage.BookUnobservedGap(old(View()), now, o)
    {
      var gap := UnobservedGap(lastWall, now, lastInterval + SUSPEND_GAP_SLACK);
      if gap == 0 {
        return false;
      }
      if pauseSpanStart.Some? {
        return true;
      }
      var p := MeasureGap(now, gap);
      OfferGap(p, o);
      return true;
    }

    method MeasureGap(now: Instant, gap: int) returns (p: PendingGap)
      modifies this
      ensures p == GapRecord(old(View()), gap, now.Sub(old(lastWall)))
      ensures View() == CreditGap(old(View()), p)
    {
      p := PendingGap(lastWall, gap, 0, 0, 0, false);
      if !online {
        var deduct := UnobservedInOutage(gap * NS, now.Sub(lastWall));
        p := p.(gen := outageGen, deduct := deduct, frozen := gap * NS - deduct);
        pausedGap := pausedGap + p.deduct;
        frozenGap := frozenGap + p.frozen;
        past := past.(charges := past.charges + 1);
      }
    }

    method MeasureSlice(start: Instant, span: int, mono: int) returns (p: PendingGap)
      modifies this
      ensures p == PauseRecord(old(View()), start, span)
      ensures View() == CreditPause(old(View()), p, mono)
    {
      p := PendingGap(start, Seconds(span), 0, 0, outageGen, true);
      if !online {
        frozenGap := frozenGap + p.secs * NS - mono;
        past := past.(loose := past.loose + if downPausedAt.Some? then 0 else mono);
      }
    }

    method BookPauseSpan(start: Instant, span: int, mono: int, o: Outcome)
      modifies this
      ensures View() == Outage.BookPauseSpan(old(View()), start, span, mono, o)
    {
      var p := MeasureSlice(start, span, mono);
      OfferGap(p, o);
    }

    method TakeSlice(start: Instant, end: Instant, span: int, o: Outcome)
      modifies this
      ensures View() == Outage.TakeSlice(old(View()), start, end, span, o)
    {
      BookPauseSpan(start, span, end.Sub(start), o);
      pauseSpanStart := Some(end);
    }

    method FlushPause(end: Instant, force: bool, o: Outcome)
      modifies this
      ensures View() == Outage.FlushPause(old(View()), end, force, o)
    {
      if pauseSpanStart.None? {
        return;
      }
      var start := pauseSpanStart.value;
      if start.Unix() < PLAUSIBLE_WALL_EPOCH || end.Unix() < PLAUSIBLE_WALL_EPOCH {
        pauseSpanStart := Some(end);
        return;
      }
      var span := (end.Unix() - start.Unix()) * NS;
      if end.Sub(start) > span {
        span := end.Sub(start);
      }
      if span <= 0 || (!force && span < PAUSE_CHECKPOINT) {
        return;
      }
      TakeSlice(start, end, span, o);
    }

    method NotePause(now: Instant)
      modifies this
      ensures View() == Outage.NotePause(old(View()), now)
    {
      if !online && downPausedAt.None? {
        downPausedAt := Some(now);
      }
    }

    method NoteResume(now: Instant)
      modifies this
      ensures View() == Outage.NoteResume(old(View()), now)
    {
      if downPausedAt.Some? {
        var d := now.Sub(downPausedAt.value);
        if d > 0 {
          pausedGap := pausedGap + d;
        }
        downPausedAt := None;
      }
    }

    // -------------------------------------------------- transitions

    method BufferPendingEvent(e: EventRow)
      modifies this
      ensures View() == Outage.BufferPendingEvent(old(View()), e)
    {
      if |pendingEvents| >= MAX_PENDING_EVENTS {
        past := past.(droppedEvents := past.droppedEvents + [pendingEvents[0]]);
        pendingEvents := pendingEvents[1..];
      }
      pendingEvents := pendingEvents + [e];
    }

    method FlushPendingEvents(oks: seq<bool>)
      modifies this
      ensures View() == Outage.FlushPendingEvents(old(View()), oks)
    {
      var i := 0;
      while pendingEvents != [] && i < |oks| && oks[i]
        invariant 0 <= i <= |oks|
        invariant Outage.FlushPendingEvents(View(), oks[i..]) == Outage.FlushPendingEvents(old(View()), oks)
        decreases |pendingEvents|
      {
        assert oks[i..][1..] == oks[i+1..];
        past := past.(storedEvents := past.storedEvents + [pendingEvents[0]]);
        pendingEvents := pendingEvents[1..];
        i := i + 1;
      }
    }

    /** The recorded length of the state that ends at `at`. */
    method Duration(elapsed: int, goesUp: bool) returns (duration: int)
      ensures duration == if goesUp && Seconds(pausedGap) > 0
                          then if Seconds(elapsed) < Seconds(pausedGap) then 0 else Seconds(elapsed) - Seconds(pausedGap)
                          else Seconds(elapsed)
    {
      duration := Seconds(elapsed);
      if goesUp {
        var gap := Seconds(pausedGap);
        if gap > 0 {
          duration := duration - gap;
          if duration < 0 {
            duration := 0;
          }
        }
      }
    }

    /** The event a change dated `at` is stored as: clamped in order, and widened for an up. */
    method Stamp(goesUp: bool, at: Instant) returns (e: EventRow)
      requires goesUp == !online
      ensures e == EventOf(View(), at)
    {
      var elapsed := at.Sub(since);
      if elapsed < 0 {
        elapsed := 0;
      }
      var duration := Duration(elapsed, goesUp);
      var wall := at.Unix();
      if lastEventWall.Some? {
        var last := lastEventWall.value;
        if wall < last {
          wall := last;
        }
        if !goesUp && wall == last {
          wall := last + 1;
        }
        if goesUp && duration > 0 {
          var width := Seconds(elapsed) + CeilSeconds(frozenGap);
          if wall - last < width {
            wall := last + width;
          }
        }
      }
      return EventRow(wall, goesUp, if goesUp then duration else -1);
    }

    method EmitEvent(e: EventRow, ok: bool)
      modifies this
      ensures View() == Outage.EmitEvent(old(View()), e, ok)
    {
      past := past.(emitted := past.emitted + [e]);
      if ok {
        past := past.(storedEvents := past.storedEvents + [e]);
      } else {
        BufferPendingEvent(e);
      }
    }

    method OpenIncarnation(wall: int)
      modifies this`lastEventWall, this`outageGen, this`downPausedAt, this`pausedGap, this`frozenGap
      ensures View() == old(View()).(lastEventWall := Some(wall), outageGen := old(outageGen) + 1,
                                     downPausedAt := None, pausedGap := 0, frozenGap := 0)
    {
      lastEventWall := Some(wall);
      outageGen := outageGen + 1;
      downPausedAt, pausedGap, frozenGap := None, 0, 0;
    }

    method TurnOver(at: Instant, wall: int, ghost recoveries: seq<Recovery>)
      modifies this
      ensures View() == Outage.TurnOver(old(View()), at, wall, recoveries)
    {
      OpenIncarnation(wall);
      past := past.(loose := 0, charges := if pauseSpanStart.Some? then 1 else 0, recoveries := recoveries);
      online, since := !online, at;
    }

    method Transition(goesUp: bool, at: Instant, ok: bool)
      requires goesUp == !online
      modifies this
      ensures View() == Outage.Transition(old(View()), at, ok)
    {
      var e := Stamp(goesUp, at);
      TurnOver(at, e.wall, RecoveriesAfter(View(), at));
      EmitEvent(e, ok);
    }

    method CountRound(r: Debounce.Round)
      modifies this
      ensures View() == old(View()).(link := Debounce.Fold(old(View().link), r))
    {
      if r.ok {
        okStreak := okStreak + 1;
        badStreak := 0;
        run := Debounce.NO_RUN;
      } else {
        badStreak := badStreak + 1;
        okStreak := 0;
        run := run.Fail(r.ts, badStreak, r.downAfter, r.during);
      }
    }

    method Advance(r: Debounce.Round, ok: bool)
      modifies this
      ensures View() == DebounceRound(old(View()), r, ok)
    {
      CountRound(r);
      if !online && okStreak >= r.upAfter {
        Transition(true, r.ts, ok);
      } else if online && run.Counted(badStreak) >= r.downAfter {
        Transition(false, run.Dated(r.ts), ok);
      }
    }

    /** A round without a result was skipped, or cancelled while it was out. */
    method Round(p: Probing)
      modifies this
      ensures View() == ApplyRound(old(View()), p)
    {
      FlushPendingEvents(p.retries);
      if p.result.None? {
        ResetStreaks();
      } else {
        Advance(p.result.value, p.ok);
      }
    }

    // ------------------------------------------------------ the loop

    constructor (b: Boot)
      ensures View() == FreshState(b)
    {
      online, since, okStreak, badStreak, run := true, b.at, 0, 0, Debounce.NO_RUN;
      lastEventWall, pendingEvents := b.seed, [];
      downPausedAt, pausedGap, frozenGap, outageGen := None, 0, 0, 0;
      held, paused, pauseSpanStart, lastWall, lastInterval := [], false, None, b.at, 0;
      past := History([], [], [], [], [], [], [], 0, 0, []);
    }

    /** Run up to its loop: the process-down gap, and the immediate first round. */
    method StartRun(b: Boot)
      requires View() == FreshState(b)
      modifies this
      ensures View() == Begin(b)
    {
      if b.downSince.Some? {
        var gap := b.wall.wall - b.downSince.value.wall;
        if gap > STARTUP_GAP_MIN {
          OfferGap(PendingGap(b.downSince.value, Seconds(gap), 0, 0, outageGen, true), b.gap);
        }
      }
      if b.round.Some? {
        Round(b.round.value);
      }
      lastWall, lastInterval := b.lastWall, b.interval;
    }

    method Iteration(t: Tick)
      modifies this
      ensures View() == Iterate(old(View()), t)
    {
      WallGapCheck(t);
      Resume(t);
      if !t.openAtSwitch {
        PausedPass(t.pausedNow, t.checkpoint);
      } else if t.round.Some? {
        lastInterval := 0;
        Round(t.round.value);
      } else {
        lastInterval := t.wait;
      }
    }

    method WallGapCheck(t: Tick)
      modifies this
      ensures View() == CheckGap(old(View()), t)
    {
      RetryHeldGaps(t.gaps);
      FlushPendingEvents(t.events);
      var booked := BookUnobservedGap(t.now, t.gap);
      if booked {
        ResetStreaks();
      }
      lastWall := t.now;
    }

    method Resume(t: Tick)
      modifies this
      ensures View() == ResumeEdge(old(View()), t)
    {
      if paused && t.openAtResume {
        FlushPause(t.flushAt, true, t.flush);
        pauseSpanStart := None;
        paused := false;
        NoteResume(t.resumeAt);
      }
    }

    method PausedPass(now: Instant, o: Outcome)
      modifies this
      ensures View() == PausedBranch(old(View()), now, o)
    {
      if !paused {
        paused := true;
        pauseSpanStart := Some(now);
        past := past.(charges := past.charges + 1);
        NotePause(now);
      } else {
        FlushPause(now, false, o);
      }
      ResetStreaks();
      lastInterval := SCHEDULE_RECHECK;
    }
  }
}
