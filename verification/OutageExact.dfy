/**
 When the stored pair of an outage is exactly as wide as it has to be: never too
 narrow unless a round ran inside an open pause, and never wider than one second
 per pause episode or suspend gap on a host whose clocks agree.
 */
module OutageExact {
  import opened Wrappers
  import opened Clock
  import opened Debounce
  import opened Outage
  import opened OutageLaws
  import opened OutageLog
  import ReadModel

  // ----------------------------------------- no round inside an open pause

  /**
   The gate is read twice in one iteration, at the resume edge and at the
   switch. A tick is calm unless it opened between the two readings and a
   round was due, which lets the round run with the pause still open.
   */
  predicate Calm(s: State, t: Tick) {
    s.paused && t.openAtSwitch && t.round.Some? ==> t.openAtResume
  }

  predicate CalmRun(b: Boot, ts: seq<Tick>) {
    ts == [] || (CalmRun(b, ts[..|ts|-1]) && Calm(RunTicks(b, ts[..|ts|-1]), ts[|ts|-1]))
  }

  /** Every pause of the open outage has its anchor, so every slice of it will be folded. */
  ghost predicate Anchored(s: State) {
    && s.past.loose == 0
    && (s.paused <==> s.pauseSpanStart.Some?)
    && (s.downPausedAt.Some? ==> s.paused)
    && (s.paused && !s.link.online ==> s.downPausedAt.Some?)
    && forall r :: r in s.past.recoveries ==> r.unfolded == 0
  }

  /** The fields Anchored speaks of. */
  datatype PausePart = PausePart(online: bool, paused: bool, open: bool, anchored: bool, loose: int, recoveries: seq<Recovery>)

  function PauseOf(s: State): PausePart {
    PausePart(s.link.online, s.paused, s.pauseSpanStart.Some?, s.downPausedAt.Some?, s.past.loose, s.past.recoveries)
  }

  lemma OfferLeavesPausePart(s: State, p: PendingGap, o: Outcome)
    ensures PauseOf(Offer(s, p, o)) == PauseOf(s)
  {
  }

  lemma {:induction false} RetryLeavesPausePart(s: State, todo: seq<PendingGap>, os: seq<Outcome>)
    ensures PauseOf(RetryFrom(s, todo, os)) == PauseOf(s)
    decreases |todo|
  {
    if todo != [] {
      var n := if Next(os).Failed? then s.(held := s.held + [todo[0]]) else Settle(s, todo[0], Next(os));
      RetryLeavesPausePart(n, todo[1..], Rest(os));
    }
  }

  lemma CheckGapLeavesPausePart(s: State, t: Tick)
    ensures PauseOf(CheckGap(s, t)) == PauseOf(s)
  {
    RetryLeavesPausePart(s.(held := []), s.held, t.gaps);
    FlushEventsFrame(RetryHeldGaps(s, t.gaps), t.events);
    var f := FlushPendingEvents(RetryHeldGaps(s, t.gaps), t.events);
    var gap := UnobservedGap(f.lastWall, t.now, f.lastWait + SUSPEND_GAP_SLACK);
    if gap != 0 && f.pauseSpanStart.None? {
      var p := GapRecord(f, gap, t.now.Sub(f.lastWall));
      OfferLeavesPausePart(CreditGap(f, p), p, t.gap);
    }
  }

  lemma FlushPauseKeepsAnchored(s: State, end: Instant, force: bool, o: Outcome)
    requires s.pauseSpanStart.Some? ==> s.link.online || s.downPausedAt.Some?
    ensures PauseOf(FlushPause(s, end, force, o)) == PauseOf(s)
  {
    if s.pauseSpanStart.Some? {
      var start := s.pauseSpanStart.value;
      var p := PauseRecord(s, start, PauseSpan(start, end));
      OfferLeavesPausePart(CreditPause(s, p, end.Sub(start)), p, o);
    }
  }

  lemma RoundKeepsAnchored(s: State, p: Probing)
    requires Anchored(s) && !s.paused && (!s.link.online ==> s.lastEventWall.Some?)
    ensures Anchored(ApplyRound(s, p))
  {
    FlushEventsFrame(s, p.retries);
    var f := FlushPendingEvents(s, p.retries);
    if p.result.Some? {
      var g := f.(link := Fold(f.link, p.result.value));
      if Flip(g.link, p.result.value).Some? {
        TransitionEvents(g, Flip(g.link, p.result.value).value, p.ok);
      }
    }
  }

  lemma IterateKeepsAnchored(s: State, t: Tick)
    requires Anchored(s) && Calm(s, t) && (!s.link.online ==> s.lastEventWall.Some?)
    ensures Anchored(Iterate(s, t))
  {
    CheckGapLeavesPausePart(s, t);
    CheckGapLeavesEvents(s, t);
    var c := CheckGap(s, t);
    FlushPauseKeepsAnchored(c, t.flushAt, true, t.flush);
    QuietStepsLeaveEvents(c, t);
    var r := ResumeEdge(c, t);
    assert Anchored(r);
    if !t.openAtSwitch {
      FlushPauseKeepsAnchored(r, t.pausedNow, false, t.checkpoint);
    } else if t.round.Some? {
      RoundKeepsAnchored(r.(lastWait := 0), t.round.value);
    }
  }

  lemma BootKeepsAnchored(b: Boot)
    ensures Anchored(Begin(b))
  {
    var s := FreshState(b);
    if b.downSince.Some? && b.wall.wall - b.downSince.value.wall > STARTUP_GAP_MIN {
      OfferLeavesPausePart(s, StartupGap(b), b.gap);
      s := Offer(s, StartupGap(b), b.gap);
    }
    if b.round.Some? {
      RoundKeepsAnchored(s, b.round.value);
    }
  }

  lemma {:induction false} CalmRunKeepsAnchored(b: Boot, ts: seq<Tick>)
    requires ValidRun(b, ts) && CalmRun(b, ts)
    ensures Anchored(RunTicks(b, ts))
  {
    if ts == [] {
      BootKeepsAnchored(b);
    } else {
      CalmRunKeepsAnchored(b, ts[..|ts|-1]);
      RunKeepsLog(b, ts[..|ts|-1]);
      IterateKeepsAnchored(RunTicks(b, ts[..|ts|-1]), ts[|ts|-1]);
    }
  }

  /**
   In every calm run, whatever the clocks, suspends, refusals, evictions and
   failed writes: each recovery of recorded length above zero is stored with
   its duration plus all the pause seconds booked for that outage.
   */
  lemma PairHoldsItsRows(b: Boot, ts: seq<Tick>, k: nat)
    requires ValidRun(b, ts) && CalmRun(b, ts)
    requires k < |RunTicks(b, ts).past.recoveries| && RunTicks(b, ts).past.recoveries[k].duration > 0
    ensures var s := RunTicks(b, ts); var r := s.past.recoveries[k];
            && 2*k + 1 < |s.past.emitted|
            && s.past.emitted[2*k+1].wall - s.past.emitted[2*k].wall >= s.past.emitted[2*k+1].duration + r.rows
  {
    RunKeepsLog(b, ts);
    CalmRunKeepsAnchored(b, ts);
    var s := RunTicks(b, ts);
    assert s.past.recoveries[k] in s.past.recoveries;
    assert Covered(s.past.recoveries[k]);
  }

  /**
   So every recovery reads back whole: subtracting any rows that amount to no
   more than the outage's own, the read model reports exactly its duration_s.
   */
  lemma RecoveryReadsBackExactly(b: Boot, ts: seq<Tick>, k: nat, pauses: seq<ReadModel.Span>)
    requires ValidRun(b, ts) && CalmRun(b, ts)
    requires k < |RunTicks(b, ts).past.recoveries| && RunTicks(b, ts).past.recoveries[k].duration > 0
    requires ReadModel.Proper(pauses) && ReadModel.SortedByStart(pauses)
    requires ReadModel.Total(pauses) <= RunTicks(b, ts).past.recoveries[k].rows
    ensures var s := RunTicks(b, ts);
            && 2*k + 1 < |s.past.emitted|
            && ReadModel.Total(ReadModel.Observed(pauses, s.past.emitted[2*k].wall, s.past.emitted[2*k+1].wall,
                                                  s.past.emitted[2*k+1].duration)) == s.past.emitted[2*k+1].duration
  {
    PairHoldsItsRows(b, ts, k);
    RunKeepsLog(b, ts);
    var s := RunTicks(b, ts);
    ReadModel.WidePairReadsBackExactly(pauses, s.past.emitted[2*k].wall, s.past.emitted[2*k+1].wall,
                                       s.past.emitted[2*k+1].duration);
  }

  function Larger(a: int, b: int): int {
    if a < b then b else a
  }

  /**
   Calm or not: the stored width is the larger of the wall's own and the elapsed
   seconds plus the frozen total, so it holds the duration and the rows if and
   only if the two accumulators hold the rows or the wall alone was wide enough.
   */
  lemma WidthIsExact(s: State, at: Instant)
    requires Ledger(s, []) && !s.link.online && s.lastEventWall.Some? && DurationOf(s, at) > 0
    ensures var r := RecoveryOf(s, at);
            && r.up - r.down == Larger(0, Larger(at.Unix() - r.down, Seconds(Elapsed(s, at)) + CeilSeconds(s.frozenGap)))
            && (r.up - r.down >= r.duration + r.rows <==>
                  CeilSeconds(s.frozenGap) + Seconds(s.pausedGap) >= r.rows || at.Unix() - r.down >= r.duration + r.rows)
  {
    DeductionsNonNegative(s.held, s.outageGen);
    RowsNonNegative(s.past.stored, s.outageGen);
    RowsNonNegative(s.held, s.outageGen);
  }

  lemma {:induction false} RowsNonNegative(ps: seq<PendingGap>, gen: nat)
    requires forall p :: p in ps ==> Wf(p)
    ensures RowSeconds(ps, gen) >= 0
  {
    if ps != [] {
      assert ps[0] in ps;
      RowsNonNegative(ps[1..], gen);
    }
  }

  // ------------------------------------------------- agreeing clocks

  /** An awake host with an unstepped clock: wall and monotonic differ by a constant. */
  predicate Aligned(i: Instant, c: int) {
    i.wall == i.mono + c
  }

  predicate AlignedTick(t: Tick, c: int) {
    Aligned(t.now, c) && Aligned(t.flushAt, c) && Aligned(t.pausedNow, c)
  }

  predicate AlignedRun(b: Boot, ts: seq<Tick>, c: int) {
    if ts == [] then Aligned(b.lastWall, c) else AlignedRun(b, ts[..|ts|-1], c) && AlignedTick(ts[|ts|-1], c)
  }

  /** What the rows of an outage may exceed their monotonic cover by. */
  ghost predicate Bounded(frozenGap: int, charges: nat, open: Option<Instant>) {
    match open
    case None => frozenGap <= charges * NS
    case Some(at) =>
      && charges >= 1
      && if at.Unix() < PLAUSIBLE_WALL_EPOCH then frozenGap <= (charges - 1) * NS
         else frozenGap + at.wall % NS <= charges * NS
  }

  /** A recovery is stamped at most one second past the elapsed time per episode or gap. */
  ghost predicate Narrow(r: Recovery) {
    || r.up <= r.at.Unix() || r.up <= r.down
    || r.up <= r.down + Seconds(r.elapsed) + r.charges
  }

  ghost predicate Tight(s: State, c: int) {
    && Bounded(s.frozenGap, s.past.charges, s.pauseSpanStart)
    && Aligned(s.lastWall, c)
    && (s.pauseSpanStart.Some? ==> Aligned(s.pauseSpanStart.value, c))
    && forall r :: r in s.past.recoveries ==> Narrow(r)
  }

  /** Tight but for the loop's own checkpoint, which a run sets only once Begin is over. */
  ghost predicate TightBooks(s: State, c: int) {
    && Bounded(s.frozenGap, s.past.charges, s.pauseSpanStart)
    && (s.pauseSpanStart.Some? ==> Aligned(s.pauseSpanStart.value, c))
    && forall r :: r in s.past.recoveries ==> Narrow(r)
  }

  datatype FrozenPart = FrozenPart(frozen: int, charges: nat, open: Option<Instant>, recoveries: seq<Recovery>)

  function FrozenOf(s: State): FrozenPart {
    FrozenPart(s.frozenGap, s.past.charges, s.pauseSpanStart, s.past.recoveries)
  }

  /** Settling or evicting a record only ever lowers the frozen total, or leaves it at most zero. */
  ghost predicate Lowered(a: FrozenPart, b: FrozenPart) {
    a.(frozen := b.frozen) == b && (b.frozen <= a.frozen || b.frozen <= 0)
  }

  lemma SettleLowers(s: State, p: PendingGap, o: Outcome)
    requires Wf(p)
    ensures Lowered(FrozenOf(s), FrozenOf(Settle(s, p, o)))
  {
  }

  lemma OfferLowers(s: State, p: PendingGap, o: Outcome)
    requires Wf(p) && Known(s.held, s.outageGen)
    ensures Lowered(FrozenOf(s), FrozenOf(Offer(s, p, o)))
  {
    if s.held != [] {
      assert s.held[0] in s.held;
    }
  }

  lemma {:induction false} RetryLowers(s: State, todo: seq<PendingGap>, os: seq<Outcome>)
    requires forall p :: p in todo ==> Wf(p)
    ensures Lowered(FrozenOf(s), FrozenOf(RetryFrom(s, todo, os)))
    decreases |todo|
  {
    if todo != [] {
      assert todo[0] in todo;
      SettleLowers(s, todo[0], Next(os));
      var n := if Next(os).Failed? then s.(held := s.held + [todo[0]]) else Settle(s, todo[0], Next(os));
      RetryLowers(n, todo[1..], Rest(os));
    }
  }

  lemma LoweredStaysBounded(a: FrozenPart, b: FrozenPart)
    requires Lowered(a, b) && Bounded(a.frozen, a.charges, a.open)
    ensures Bounded(b.frozen, b.charges, b.open)
  {
  }

  /** A suspend gap on aligned clocks is under one second of rounding. */
  lemma AlignedGapIsFractional(s: State, gap: int, now: Instant, c: int)
    requires Aligned(s.lastWall, c) && Aligned(now, c) && gap == now.Unix() - s.lastWall.Unix() && gap > 0
    ensures GapRecord(s, gap, now.Sub(s.lastWall)).frozen <= NS
  {
  }

  lemma CheckGapKeepsTight(s: State, t: Tick, c: int)
    requires Tight(s, c) && Ledger(s, []) && AlignedTick(t, c) && s.lastWall.mono <= t.now.mono
    ensures Tight(CheckGap(s, t), c)
  {
    RetryHeldKeepsLedger(s, t.gaps);
    RetryLowers(s.(held := []), s.held, t.gaps);
    RetryFrame(s.(held := []), s.held, t.gaps);
    var r := RetryHeldGaps(s, t.gaps);
    LoweredStaysBounded(FrozenOf(s), FrozenOf(r));
    FlushEventsFrame(r, t.events);
    var f := FlushPendingEvents(r, t.events);
    assert FrozenOf(f) == FrozenOf(r) && Known(f.held, f.outageGen);
    var gap := UnobservedGap(f.lastWall, t.now, f.lastWait + SUSPEND_GAP_SLACK);
    if gap != 0 && f.pauseSpanStart.None? {
      var p := GapRecord(f, gap, t.now.Sub(f.lastWall));
      assert Wf(p);
      AlignedGapIsFractional(f, gap, t.now, c);
      OfferLowers(CreditGap(f, p), p, t.gap);
      LoweredStaysBounded(FrozenOf(CreditGap(f, p)), FrozenOf(Offer(CreditGap(f, p), p, t.gap)));
    }
  }

  /** On aligned clocks a slice adds exactly the difference of its endpoints' fractions. */
  lemma AlignedSlice(start: Instant, end: Instant, c: int)
    requires Aligned(start, c) && Aligned(end, c) && start.mono <= end.mono
    ensures Seconds(PauseSpan(start, end)) * NS - end.Sub(start) == start.wall % NS - end.wall % NS
  {
  }

  lemma FlushPauseKeepsTight(s: State, end: Instant, force: bool, o: Outcome, c: int)
    requires TightBooks(s, c) && Ledger(s, []) && Aligned(end, c)
    requires s.pauseSpanStart.Some? ==> s.pauseSpanStart.value.mono <= end.mono
    ensures TightBooks(FlushPause(s, end, force, o), c)
  {
    if s.pauseSpanStart.Some? {
      var start := s.pauseSpanStart.value;
      var span := PauseSpan(start, end);
      AlignedSlice(start, end, c);
      if start.Unix() >= PLAUSIBLE_WALL_EPOCH && 0 < span && (force || span >= PAUSE_CHECKPOINT) {
        var p := PauseRecord(s, start, span);
        var cr := CreditPause(s, p, end.Sub(start));
        OfferLowers(cr.(pauseSpanStart := Some(end)), p, o);
        OfferLeavesAnchor(cr, p, o, Some(end));
        LoweredStaysBounded(FrozenOf(cr.(pauseSpanStart := Some(end))), FrozenOf(TakeSlice(s, start, end, span, o)));
      }
    }
  }

  lemma BoundedWidens(frozenGap: int, charges: nat, open: Option<Instant>)
    requires Bounded(frozenGap, charges, open)
    ensures CeilSeconds(frozenGap) <= charges
  {
    CeilSecondsIsLeast(frozenGap, charges);
  }

  lemma TransitionKeepsTight(s: State, at: Instant, ok: bool, c: int)
    requires TightBooks(s, c) && (!s.link.online ==> s.lastEventWall.Some?)
    ensures TightBooks(Transition(s, at, ok), c)
  {
    TransitionEvents(s, at, ok);
    BoundedWidens(s.frozenGap, s.past.charges, s.pauseSpanStart);
  }

  lemma RoundKeepsTight(s: State, p: Probing, c: int)
    requires TightBooks(s, c) && (!s.link.online ==> s.lastEventWall.Some?)
    ensures TightBooks(ApplyRound(s, p), c) && ApplyRound(s, p).lastWall == s.lastWall
  {
    FlushEventsFrame(s, p.retries);
    var f := FlushPendingEvents(s, p.retries);
    if p.result.Some? {
      var g := f.(link := Fold(f.link, p.result.value));
      if Flip(g.link, p.result.value).Some? {
        TransitionKeepsTight(g, Flip(g.link, p.result.value).value, p.ok, c);
      }
    }
  }

  lemma ResumeKeepsTight(g: State, t: Tick, c: int)
    requires Tight(g, c) && Ledger(g, []) && AlignedTick(t, c) && g.lastWall == t.now
    requires g.pauseSpanStart.Some? ==> g.pauseSpanStart.value.mono <= t.flushAt.mono
    ensures TightBooks(ResumeEdge(g, t), c) && ResumeEdge(g, t).lastWall == t.now
  {
    FlushPauseKeepsTight(g, t.flushAt, true, t.flush, c);
    FlushPauseLeavesClock(g, t.flushAt, true, t.flush);
    BoundedClosed(FlushPause(g, t.flushAt, true, t.flush));
  }

  lemma BoundedClosed(s: State)
    requires Bounded(s.frozenGap, s.past.charges, s.pauseSpanStart)
    ensures Bounded(s.frozenGap, s.past.charges, None)
  {
  }

  lemma PausedKeepsTight(r: State, now: Instant, o: Outcome, c: int)
    requires TightBooks(r, c) && Ledger(r, []) && Aligned(now, c) && Aligned(r.lastWall, c)
    requires r.pauseSpanStart.Some? ==> r.pauseSpanStart.value.mono <= now.mono
    ensures Tight(PausedBranch(r, now, o), c)
  {
    if r.paused {
      FlushPauseKeepsTight(r, now, false, o, c);
      FlushPauseLeavesClock(r, now, false, o);
    } else {
      OpeningIsBounded(r.frozenGap, r.past.charges, now);
    }
  }

  lemma IterateKeepsTight(s: State, t: Tick, c: int)
    requires Tight(s, c) && Ledger(s, []) && ValidTick(s, t) && AlignedTick(t, c)
    requires !s.link.online ==> s.lastEventWall.Some?
    ensures Tight(Iterate(s, t), c)
  {
    CheckGapKeepsTight(s, t, c);
    CheckGapKeepsLedger(s, t);
    CheckGapLeavesEvents(s, t);
    var g := CheckGap(s, t);
    ResumeKeepsTight(g, t, c);
    ResumeKeepsLedger(g, t);
    QuietStepsLeaveEvents(g, t);
    var r := ResumeEdge(g, t);
    if !t.openAtSwitch {
      PausedKeepsTight(r, t.pausedNow, t.checkpoint, c);
    } else if t.round.Some? {
      RoundKeepsTight(r.(lastWait := 0), t.round.value, c);
    }
  }

  lemma FlushPauseLeavesClock(s: State, end: Instant, force: bool, o: Outcome)
    ensures FlushPause(s, end, force, o).lastWall == s.lastWall
  {
    if s.pauseSpanStart.Some? {
      var start := s.pauseSpanStart.value;
      var p := PauseRecord(s, start, PauseSpan(start, end));
      OfferFrame(CreditPause(s, p, end.Sub(start)), p, o);
    }
  }

  lemma OpeningIsBounded(frozenGap: int, charges: nat, at: Instant)
    requires Bounded(frozenGap, charges, None)
    ensures Bounded(frozenGap, charges + 1, Some(at))
  {
  }

  lemma BootKeepsTight(b: Boot, c: int)
    requires ValidBoot(b) && Aligned(b.lastWall, c)
    ensures Tight(Begin(b), c)
  {
    var s := FreshState(b);
    if b.downSince.Some? && b.wall.wall - b.downSince.value.wall > STARTUP_GAP_MIN {
      OfferLowers(s, StartupGap(b), b.gap);
      LoweredStaysBounded(FrozenOf(s), FrozenOf(Offer(s, StartupGap(b), b.gap)));
      OfferLeavesEvents(s, StartupGap(b), b.gap);
      s := Offer(s, StartupGap(b), b.gap);
    }
    assert TightBooks(s, c);
    if b.round.Some? {
      RoundKeepsTight(s, b.round.value, c);
    }
  }

  /**
   On a host that stays awake with an unstepped clock, a recovery is stamped no
   later than its own second, its down's second, or the monotonic elapsed time
   plus one second per pause episode or unobserved gap of the outage, however
   many checkpoint slices each pause was written as.
   */
  lemma {:induction false} WidenIsOneSecondPerEpisode(b: Boot, ts: seq<Tick>, c: int)
    requires ValidRun(b, ts) && AlignedRun(b, ts, c)
    ensures Tight(RunTicks(b, ts), c)
  {
    if ts == [] {
      BootKeepsTight(b, c);
    } else {
      WidenIsOneSecondPerEpisode(b, ts[..|ts|-1], c);
      RunKeepsLedger(b, ts[..|ts|-1]);
      RunKeepsLog(b, ts[..|ts|-1]);
      IterateKeepsTight(RunTicks(b, ts[..|ts|-1]), ts[|ts|-1], c);
    }
  }
}
