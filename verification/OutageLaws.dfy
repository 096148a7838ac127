/**
 The ledger of an outage, which every run of the monitor's loop keeps whatever
 the clocks, the store and the probing gate do: the accumulators cover the rows.
 */
module OutageLaws {
  import opened Wrappers
  import opened Clock
  import opened Debounce
  import opened Outage

  // ------------------------------------------------------------ sums

  /** Deductions of incarnation `gen` that the records still carry. */
  function Deductions(ps: seq<PendingGap>, gen: nat): int {
    if ps == [] then 0 else (if ps[0].gen == gen then ps[0].deduct else 0) + Deductions(ps[1..], gen)
  }

  lemma {:induction false} SumsConcat(a: seq<PendingGap>, b: seq<PendingGap>, gen: nat)
    ensures RowSeconds(a + b, gen) == RowSeconds(a, gen) + RowSeconds(b, gen)
    ensures Deductions(a + b, gen) == Deductions(a, gen) + Deductions(b, gen)
  {
    if a == [] {
      assert a + b == b;
    } else {
      assert (a + b)[1..] == a[1..] + b;
      SumsConcat(a[1..], b, gen);
    }
  }

  lemma SumsSnoc(a: seq<PendingGap>, p: PendingGap, gen: nat)
    ensures RowSeconds(a + [p], gen) == RowSeconds(a, gen) + if p.gen == gen then p.secs else 0
    ensures Deductions(a + [p], gen) == Deductions(a, gen) + if p.gen == gen then p.deduct else 0
  {
    SumsConcat(a, [p], gen);
  }

  lemma SumsOfOne(p: PendingGap, gen: nat)
    ensures RowSeconds([p], gen) == if p.gen == gen then p.secs else 0
    ensures Deductions([p], gen) == if p.gen == gen then p.deduct else 0
  {
    assert [p][1..] == [];
  }

  lemma {:induction false} SumsOfOlder(ps: seq<PendingGap>, gen: nat)
    requires forall p :: p in ps ==> p.gen < gen
    ensures RowSeconds(ps, gen) == 0 && Deductions(ps, gen) == 0
  {
    if ps != [] {
      assert ps[0] in ps;
      SumsOfOlder(ps[1..], gen);
    }
  }

  lemma {:induction false} DeductionsNonNegative(ps: seq<PendingGap>, gen: nat)
    requires forall p :: p in ps ==> Wf(p)
    ensures Deductions(ps, gen) >= 0
  {
    if ps != [] {
      assert ps[0] in ps;
      DeductionsNonNegative(ps[1..], gen);
    }
  }

  // ------------------------------------------------------------ the ledger

  /** Odd incarnations are outages; a suspend row of one is split exactly between its two halves. */
  predicate Wf(p: PendingGap) {
    && 0 <= p.deduct && 0 <= p.frozen && 0 <= p.secs
    && (p.pause || p.gen % 2 == 0 ==> p.deduct == 0 && p.frozen == 0)
    && (!p.pause && p.gen % 2 == 1 ==> p.deduct + p.frozen == p.secs * NS)
  }

  /** Rows booked into the open outage: stored, queued, or taken off the queue for a retry. */
  function Rows(s: State, todo: seq<PendingGap>): int {
    RowSeconds(s.past.stored, s.outageGen) + RowSeconds(s.held, s.outageGen) + RowSeconds(todo, s.outageGen)
  }

  ghost predicate Known(ps: seq<PendingGap>, gen: nat) {
    forall p :: p in ps ==> Wf(p) && p.gen <= gen
  }

  ghost predicate Shape(s: State) {
    && (s.link.online <==> s.outageGen % 2 == 0)
    && (s.link.online ==> s.downPausedAt.None? && s.pausedGap == 0 && s.frozenGap == 0 && s.past.loose == 0)
    && (s.downPausedAt.Some? ==> s.pauseSpanStart.Some?)
    && (s.pauseSpanStart.Some? ==> s.paused)
    && 0 <= s.lastWait
  }

  /**
   The ledger: what the two accumulators hold, plus what the open pause will
   fold, plus what had no anchor to fold, covers every row booked.
   */
  ghost predicate Ledger(s: State, todo: seq<PendingGap>) {
    && Shape(s)
    && Known(s.past.stored, s.outageGen) && Known(s.held, s.outageGen) && Known(todo, s.outageGen)
    && (!s.link.online ==>
          && s.pausedGap >= Deductions(s.held, s.outageGen) + Deductions(todo, s.outageGen)
          && s.pausedGap + s.frozenGap + OpenPause(s) + s.past.loose >= Rows(s, todo) * NS)
  }

  lemma TakeOne(s: State, p: PendingGap, todo: seq<PendingGap>)
    requires Ledger(s, [p] + todo)
    ensures Wf(p) && p.gen <= s.outageGen && Known(todo, s.outageGen)
    ensures RowSeconds([p] + todo, s.outageGen) == RowSeconds([p], s.outageGen) + RowSeconds(todo, s.outageGen)
    ensures Deductions([p] + todo, s.outageGen) == Deductions([p], s.outageGen) + Deductions(todo, s.outageGen)
    ensures RowSeconds([p], s.outageGen) == if p.gen == s.outageGen then p.secs else 0
    ensures Deductions([p], s.outageGen) == if p.gen == s.outageGen then p.deduct else 0
    ensures Deductions(s.held, s.outageGen) >= 0 && Deductions(todo, s.outageGen) >= 0
  {
    SumsConcat([p], todo, s.outageGen);
    SumsOfOne(p, s.outageGen);
    assert p in [p] + todo;
    assert forall q :: q in todo ==> q in [p] + todo;
    DeductionsNonNegative(s.held, s.outageGen);
    DeductionsNonNegative(todo, s.outageGen);
  }

  lemma SettleKeepsLedger(s: State, p: PendingGap, todo: seq<PendingGap>, o: Outcome)
    requires Ledger(s, [p] + todo) && !o.Failed?
    ensures Ledger(Settle(s, p, o), todo)
  {
    TakeOne(s, p, todo);
    if o.Stored? {
      SumsSnoc(s.past.stored, p, s.outageGen);
    }
  }

  lemma KeepKeepsLedger(s: State, p: PendingGap, todo: seq<PendingGap>)
    requires Ledger(s, [p] + todo)
    ensures Ledger(s.(held := s.held + [p]), todo)
  {
    TakeOne(s, p, todo);
    SumsSnoc(s.held, p, s.outageGen);
  }

  lemma EvictKeepsLedger(s: State, todo: seq<PendingGap>)
    requires Ledger(s, todo) && s.held != []
    ensures var r := RevertGapDeduction(s, s.held[0]);
            Ledger(r.(held := r.held[1..], past := r.past.(evicted := r.past.evicted + [s.held[0]])), todo)
  {
    assert s.held == [s.held[0]] + s.held[1..];
    assert s.held[0] in s.held;
    assert forall q :: q in s.held[1..] ==> q in s.held;
    DeductionsNonNegative(s.held[1..], s.outageGen);
    DeductionsNonNegative(todo, s.outageGen);
  }

  lemma OfferKeepsLedger(s: State, p: PendingGap, o: Outcome)
    requires Ledger(s, [p])
    ensures Ledger(Offer(s, p, o), [])
  {
    assert [p] + [] == [p];
    var b := s.(past := s.past.(booked := s.past.booked + [p]));
    assert Ledger(b, [p]);
    if !o.Failed? {
      SettleKeepsLedger(b, p, [], o);
    } else if |s.held| >= MAX_HELD_GAPS {
      EvictKeepsLedger(b, [p]);
      var r := RevertGapDeduction(b, b.held[0]);
      KeepKeepsLedger(r.(held := r.held[1..], past := r.past.(evicted := r.past.evicted + [b.held[0]])), p, []);
    } else {
      KeepKeepsLedger(b, p, []);
    }
  }

  lemma {:induction false} RetryKeepsLedger(s: State, todo: seq<PendingGap>, os: seq<Outcome>)
    requires Ledger(s, todo)
    ensures Ledger(RetryFrom(s, todo, os), [])
    decreases |todo|
  {
    if todo != [] {
      assert todo == [todo[0]] + todo[1..];
      if Next(os).Failed? {
        KeepKeepsLedger(s, todo[0], todo[1..]);
        RetryKeepsLedger(s.(held := s.held + [todo[0]]), todo[1..], Rest(os));
      } else {
        SettleKeepsLedger(s, todo[0], todo[1..], Next(os));
        RetryKeepsLedger(Settle(s, todo[0], Next(os)), todo[1..], Rest(os));
      }
    }
  }

  lemma RetryHeldKeepsLedger(s: State, os: seq<Outcome>)
    requires Ledger(s, [])
    ensures Ledger(RetryHeldGaps(s, os), [])
  {
    RetryKeepsLedger(s.(held := []), s.held, os);
  }

  lemma {:induction false} FlushEventsFrame(s: State, oks: seq<bool>)
    ensures var t := FlushPendingEvents(s, oks);
            t == s.(pendingEvents := t.pendingEvents, past := s.past.(storedEvents := t.past.storedEvents))
    decreases |s.pendingEvents|
  {
    if s.pendingEvents != [] && oks != [] && oks[0] {
      FlushEventsFrame(s.(pendingEvents := s.pendingEvents[1..],
                          past := s.past.(storedEvents := s.past.storedEvents + [s.pendingEvents[0]])), oks[1..]);
    }
  }

  lemma BookGapKeepsLedger(s: State, now: Instant, o: Outcome)
    requires Ledger(s, []) && s.lastWall.mono <= now.mono
    ensures Ledger(BookUnobservedGap(s, now, o).0, [])
  {
    var gap := UnobservedGap(s.lastWall, now, s.lastWait + SUSPEND_GAP_SLACK);
    if gap != 0 && s.pauseSpanStart.None? {
      var p := GapRecord(s, gap, now.Sub(s.lastWall));
      SumsOfOne(p, s.outageGen);
      assert Ledger(CreditGap(s, p), [p]);
      OfferKeepsLedger(CreditGap(s, p), p, o);
    }
  }

  lemma SettleLeavesAnchor(s: State, p: PendingGap, o: Outcome, anchor: Option<Instant>)
    ensures Settle(s, p, o).(pauseSpanStart := anchor) == Settle(s.(pauseSpanStart := anchor), p, o)
  {
  }

  lemma AppendLeavesAnchor(s: State, p: PendingGap, anchor: Option<Instant>)
    ensures AppendHeldGap(s, p).(pauseSpanStart := anchor) == AppendHeldGap(s.(pauseSpanStart := anchor), p)
  {
  }

  lemma OfferLeavesAnchor(s: State, p: PendingGap, o: Outcome, anchor: Option<Instant>)
    ensures Offer(s, p, o).(pauseSpanStart := anchor) == Offer(s.(pauseSpanStart := anchor), p, o)
  {
    var b := s.(past := s.past.(booked := s.past.booked + [p]));
    SettleLeavesAnchor(b, p, o, anchor);
    AppendLeavesAnchor(b, p, anchor);
  }

  lemma SettleFrame(s: State, p: PendingGap, o: Outcome)
    ensures var t := Settle(s, p, o);
            && t.link == s.link && t.paused == s.paused && t.pauseSpanStart == s.pauseSpanStart
            && t.lastWall == s.lastWall && t.past.loose == s.past.loose
            && t.outageGen == s.outageGen && t.past.charges == s.past.charges
  {
  }

  lemma OfferFrame(s: State, p: PendingGap, o: Outcome)
    ensures var t := Offer(s, p, o);
            && t.link == s.link && t.paused == s.paused && t.pauseSpanStart == s.pauseSpanStart
            && t.lastWall == s.lastWall && t.past.loose == s.past.loose
            && t.outageGen == s.outageGen && t.past.charges == s.past.charges
  {
    SettleFrame(s.(past := s.past.(booked := s.past.booked + [p])), p, o);
  }

  lemma SliceKeepsLedger(s: State, end: Instant, span: int, o: Outcome)
    requires Ledger(s, []) && s.pauseSpanStart.Some? && s.pauseSpanStart.value.mono <= end.mono && 0 <= span
    ensures var t := TakeSlice(s, s.pauseSpanStart.value, end, span, o);
            Ledger(t, []) && t.paused == s.paused && t.pauseSpanStart == Some(end)
  {
    var start := s.pauseSpanStart.value;
    var p := PauseRecord(s, start, span);
    var c := CreditPause(s, p, end.Sub(start));
    SumsOfOne(p, s.outageGen);
    assert Ledger(c.(pauseSpanStart := Some(end)), [p]);
    OfferKeepsLedger(c.(pauseSpanStart := Some(end)), p, o);
    OfferLeavesAnchor(c, p, o, Some(end));
    OfferFrame(c, p, o);
  }

  lemma FlushPauseKeepsLedger(s: State, end: Instant, force: bool, o: Outcome)
    requires Ledger(s, [])
    requires s.pauseSpanStart.Some? ==> s.pauseSpanStart.value.mono <= end.mono
    ensures var t := FlushPause(s, end, force, o);
            && Ledger(t, []) && t.paused == s.paused
            && (t.pauseSpanStart.Some? <==> s.pauseSpanStart.Some?)
            && (t.pauseSpanStart.Some? ==> t.pauseSpanStart.value.mono <= end.mono)
  {
    if s.pauseSpanStart.Some? {
      var start := s.pauseSpanStart.value;
      if 0 < PauseSpan(start, end) {
        SliceKeepsLedger(s, end, PauseSpan(start, end), o);
      }
      assert Ledger(s.(pauseSpanStart := Some(end)), []);
    }
  }

  lemma CheckGapKeepsLedger(s: State, t: Tick)
    requires Ledger(s, []) && s.lastWall.mono <= t.now.mono
    ensures Ledger(CheckGap(s, t), [])
    ensures CheckGap(s, t).pauseSpanStart == s.pauseSpanStart
  {
    RetryHeldKeepsLedger(s, t.gaps);
    RetryFrame(s.(held := []), s.held, t.gaps);
    var r := RetryHeldGaps(s, t.gaps);
    FlushEventsFrame(r, t.events);
    var f := FlushPendingEvents(r, t.events);
    assert Ledger(f, []);
    BookGapKeepsLedger(f, t.now, t.gap);
    BookGapFrame(f, t.now, t.gap);
  }

  lemma {:induction false} RetryFrame(s: State, todo: seq<PendingGap>, os: seq<Outcome>)
    ensures var t := RetryFrom(s, todo, os);
            && t.link == s.link && t.paused == s.paused && t.pauseSpanStart == s.pauseSpanStart
            && t.lastWall == s.lastWall && t.past.loose == s.past.loose
            && t.outageGen == s.outageGen && t.past.charges == s.past.charges
    decreases |todo|
  {
    if todo != [] {
      SettleFrame(s, todo[0], Next(os));
      var n := if Next(os).Failed? then s.(held := s.held + [todo[0]]) else Settle(s, todo[0], Next(os));
      RetryFrame(n, todo[1..], Rest(os));
    }
  }

  lemma BookGapFrame(s: State, now: Instant, o: Outcome)
    ensures var t := BookUnobservedGap(s, now, o).0;
            && t.link == s.link && t.paused == s.paused && t.pauseSpanStart == s.pauseSpanStart
            && t.past.loose == s.past.loose && t.outageGen == s.outageGen
  {
    var gap := UnobservedGap(s.lastWall, now, s.lastWait + SUSPEND_GAP_SLACK);
    var p := GapRecord(s, gap, now.Sub(s.lastWall));
    OfferFrame(CreditGap(s, p), p, o);
  }

  lemma ResumeKeepsLedger(s: State, t: Tick)
    requires Ledger(s, []) && t.flushAt.mono <= t.resumeAt.mono
    requires s.pauseSpanStart.Some? ==> s.pauseSpanStart.value.mono <= t.flushAt.mono
    ensures Ledger(ResumeEdge(s, t), [])
    ensures s.paused && t.openAtResume ==> !ResumeEdge(s, t).paused && ResumeEdge(s, t).pauseSpanStart.None?
  {
    if s.paused && t.openAtResume {
      FlushPauseKeepsLedger(s, t.flushAt, true, t.flush);
    }
  }

  lemma PausedKeepsLedger(s: State, now: Instant, o: Outcome)
    requires Ledger(s, [])
    requires s.pauseSpanStart.Some? ==> s.pauseSpanStart.value.mono <= now.mono
    ensures Ledger(PausedBranch(s, now, o), [])
  {
    if s.paused {
      FlushPauseKeepsLedger(s, now, false, o);
    }
  }

  lemma TransitionKeepsLedger(s: State, at: Instant, ok: bool)
    requires Ledger(s, [])
    ensures Ledger(Transition(s, at, ok), [])
  {
    SumsOfOlder(s.past.stored, s.outageGen + 1);
    SumsOfOlder(s.held, s.outageGen + 1);
  }

  lemma RoundKeepsLedger(s: State, p: Probing)
    requires Ledger(s, [])
    ensures Ledger(ApplyRound(s, p), [])
  {
    FlushEventsFrame(s, p.retries);
    var f := FlushPendingEvents(s, p.retries);
    if p.result.Some? {
      var g := f.(link := Fold(f.link, p.result.value));
      assert Ledger(g, []);
      if Flip(g.link, p.result.value).Some? {
        TransitionKeepsLedger(g, Flip(g.link, p.result.value).value, p.ok);
      }
    }
  }

  lemma IterateKeepsLedger(s: State, t: Tick)
    requires Ledger(s, []) && ValidTick(s, t)
    ensures Ledger(Iterate(s, t), [])
  {
    CheckGapKeepsLedger(s, t);
    var c := CheckGap(s, t);
    ResumeKeepsLedger(c, t);
    var r := ResumeEdge(c, t);
    if !t.openAtSwitch {
      PausedKeepsLedger(r, t.pausedNow, t.checkpoint);
    } else if t.round.Some? {
      RoundKeepsLedger(r.(lastWait := 0), t.round.value);
    }
  }

  lemma BootKeepsLedger(b: Boot)
    requires ValidBoot(b)
    ensures Ledger(Begin(b), [])
  {
    var s := FreshState(b);
    assert Ledger(s, []);
    if b.downSince.Some? && b.wall.wall - b.downSince.value.wall > STARTUP_GAP_MIN {
      assert Ledger(s, [StartupGap(b)]);
      OfferKeepsLedger(s, StartupGap(b), b.gap);
      s := Offer(s, StartupGap(b), b.gap);
    }
    if b.round.Some? {
      RoundKeepsLedger(s, b.round.value);
    }
  }

  /** Every run keeps the ledger. */
  lemma {:induction false} RunKeepsLedger(b: Boot, ts: seq<Tick>)
    requires ValidRun(b, ts)
    ensures Ledger(RunTicks(b, ts), [])
  {
    if ts == [] {
      BootKeepsLedger(b);
    } else {
      RunKeepsLedger(b, ts[..|ts|-1]);
      IterateKeepsLedger(RunTicks(b, ts[..|ts|-1]), ts[|ts|-1]);
    }
  }

  // --------------------------------------------- what a recovery stores

  /** The recovery a transition records is covered, up to what no accumulator had yet. */
  ghost predicate Covered(r: Recovery) {
    r.duration > 0 ==> r.up - r.down + CeilSeconds(r.unfolded) >= r.duration + r.rows
  }

  lemma RecoveryIsCovered(s: State, at: Instant)
    requires Ledger(s, []) && !s.link.online && s.lastEventWall.Some?
    ensures Covered(RecoveryOf(s, at))
  {
    DeductionsNonNegative(s.held, s.outageGen);
    var r := RecoveryOf(s, at);
    FloorPlusCeilCovers(s.pausedGap, s.frozenGap, r.rows, r.unfolded);
  }
}
