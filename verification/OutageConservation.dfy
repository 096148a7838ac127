/**
 Nothing measured is lost silently: every transition and every gap is where the
 log says it is, and a correction taken back late never reaches another outage.
 */
module OutageConservation {
  import opened Wrappers
  import opened Clock
  import opened Debounce
  import opened Outage
  import opened OutageLaws

  datatype EventStore = EventStore(emitted: seq<EventRow>, stored: seq<EventRow>, pending: seq<EventRow>, dropped: seq<EventRow>) {

    /** Every transition is stored once, waiting, or dropped at the cap, and never in two of those. */
    ghost predicate Kept() {
      && multiset(emitted) == multiset(stored) + multiset(pending) + multiset(dropped)
      && |pending| <= MAX_PENDING_EVENTS
    }
  }

  function EventsIn(s: State): EventStore {
    EventStore(s.past.emitted, s.past.storedEvents, s.pendingEvents, s.past.droppedEvents)
  }

  datatype GapStore = GapStore(booked: seq<PendingGap>, stored: seq<PendingGap>, refused: seq<PendingGap>,
                               evicted: seq<PendingGap>, held: seq<PendingGap>) {

    /** Every measured gap is stored, refused, evicted, queued, or just off the queue for a retry. */
    ghost predicate Kept(todo: seq<PendingGap>) {
      && multiset(booked) == multiset(stored) + multiset(refused) + multiset(evicted) + multiset(held) + multiset(todo)
      && |held| + |todo| <= MAX_HELD_GAPS
    }
  }

  function GapsIn(s: State): GapStore {
    GapStore(s.past.booked, s.past.stored, s.past.refused, s.past.evicted, s.held)
  }

  ghost predicate Kept(s: State) {
    EventsIn(s).Kept() && GapsIn(s).Kept([])
  }

  lemma HeadAndTail<T>(s: seq<T>)
    requires s != []
    ensures multiset(s) == multiset{s[0]} + multiset(s[1..])
  {
    assert s == [s[0]] + s[1..];
  }

  // ------------------------------------------------------- the two stores

  lemma EmitKeeps(x: EventStore, e: EventRow)
    requires x.Kept()
    ensures var y := x.(emitted := x.emitted + [e]);
            && y.(stored := y.stored + [e]).Kept()
            && (|x.pending| < MAX_PENDING_EVENTS ==> y.(pending := y.pending + [e]).Kept())
            && (x.pending != [] ==> y.(pending := y.pending[1..] + [e], dropped := y.dropped + [y.pending[0]]).Kept())
  {
    if x.pending != [] {
      HeadAndTail(x.pending);
    }
  }

  lemma FlushKeeps(x: EventStore)
    requires x.Kept() && x.pending != []
    ensures x.(pending := x.pending[1..], stored := x.stored + [x.pending[0]]).Kept()
  {
    HeadAndTail(x.pending);
  }

  lemma SettleKeeps(g: GapStore, todo: seq<PendingGap>)
    requires g.Kept(todo) && todo != []
    ensures var p := todo[0];
            && g.(stored := g.stored + [p]).Kept(todo[1..])
            && g.(refused := g.refused + [p]).Kept(todo[1..])
            && g.(held := g.held + [p]).Kept(todo[1..])
  {
    HeadAndTail(todo);
  }

  lemma OfferKeeps(g: GapStore, p: PendingGap)
    requires g.Kept([])
    ensures var b := g.(booked := g.booked + [p]);
            && b.(stored := b.stored + [p]).Kept([])
            && b.(refused := b.refused + [p]).Kept([])
            && (|g.held| < MAX_HELD_GAPS ==> b.(held := b.held + [p]).Kept([]))
  {
  }

  lemma EvictKeeps(g: GapStore, p: PendingGap)
    requires g.Kept([]) && g.held != []
    ensures GapStore(g.booked + [p], g.stored, g.refused, g.evicted + [g.held[0]], g.held[1..] + [p]).Kept([])
  {
    HeadAndTail(g.held);
  }

  // ------------------------------------------------------- the steps

  lemma EmitMoves(s: State, e: EventRow, ok: bool)
    ensures GapsIn(EmitEvent(s, e, ok)) == GapsIn(s)
    ensures var x, y := EventsIn(s), EventsIn(EmitEvent(s, e, ok)); var z := x.(emitted := x.emitted + [e]);
            y == if ok then z.(stored := z.stored + [e])
                 else if |x.pending| >= MAX_PENDING_EVENTS then z.(pending := z.pending[1..] + [e], dropped := z.dropped + [z.pending[0]])
                 else z.(pending := z.pending + [e])
  {
  }

  lemma {:induction false} FlushKept(s: State, oks: seq<bool>)
    requires EventsIn(s).Kept()
    ensures EventsIn(FlushPendingEvents(s, oks)).Kept()
    ensures GapsIn(FlushPendingEvents(s, oks)) == GapsIn(s)
    decreases |s.pendingEvents|
  {
    if s.pendingEvents != [] && oks != [] && oks[0] {
      FlushKeeps(EventsIn(s));
      FlushKept(s.(pendingEvents := s.pendingEvents[1..],
                   past := s.past.(storedEvents := s.past.storedEvents + [s.pendingEvents[0]])), oks[1..]);
    }
  }

  lemma TransitionMoves(s: State, at: Instant, ok: bool)
    ensures GapsIn(Transition(s, at, ok)) == GapsIn(s)
    ensures EventsIn(Transition(s, at, ok)) == EventsIn(EmitEvent(s, EventOf(s, at), ok))
  {
  }

  lemma SettleMoves(s: State, p: PendingGap, o: Outcome)
    ensures EventsIn(Settle(s, p, o)) == EventsIn(s)
    ensures var g := GapsIn(s);
            GapsIn(Settle(s, p, o)) == match o
                                       case Failed => g
                                       case Stored => g.(stored := g.stored + [p])
                                       case Refused => g.(refused := g.refused + [p])
  {
  }

  lemma OfferMoves(s: State, p: PendingGap, o: Outcome)
    ensures EventsIn(Offer(s, p, o)) == EventsIn(s)
    ensures var g := GapsIn(s).(booked := s.past.booked + [p]);
            GapsIn(Offer(s, p, o)) == match o
                                      case Stored => g.(stored := g.stored + [p])
                                      case Refused => g.(refused := g.refused + [p])
                                      case Failed => if |s.held| >= MAX_HELD_GAPS
                                                     then g.(held := g.held[1..] + [p], evicted := g.evicted + [g.held[0]])
                                                     else g.(held := g.held + [p])
  {
  }

  lemma OfferKept(s: State, p: PendingGap, o: Outcome)
    requires Kept(s)
    ensures Kept(Offer(s, p, o))
  {
    OfferMoves(s, p, o);
    OfferKeeps(GapsIn(s), p);
    if s.held != [] {
      EvictKeeps(GapsIn(s), p);
    }
  }

  lemma {:induction false} RetryKept(s: State, todo: seq<PendingGap>, os: seq<Outcome>)
    requires GapsIn(s).Kept(todo)
    ensures GapsIn(RetryFrom(s, todo, os)).Kept([]) && EventsIn(RetryFrom(s, todo, os)) == EventsIn(s)
    decreases |todo|
  {
    if todo != [] {
      SettleMoves(s, todo[0], Next(os));
      SettleKeeps(GapsIn(s), todo);
      var n := if Next(os).Failed? then s.(held := s.held + [todo[0]]) else Settle(s, todo[0], Next(os));
      RetryKept(n, todo[1..], Rest(os));
    }
  }

  lemma RetryHeldKept(s: State, os: seq<Outcome>)
    requires Kept(s)
    ensures Kept(RetryHeldGaps(s, os))
  {
    RetryKept(s.(held := []), s.held, os);
  }

  lemma SameStores(s: State, t: State)
    requires Kept(s) && EventsIn(t) == EventsIn(s) && GapsIn(t) == GapsIn(s)
    ensures Kept(t)
  {
  }

  lemma BookGapKept(f: State, now: Instant, o: Outcome)
    requires Kept(f)
    ensures Kept(BookUnobservedGap(f, now, o).0)
  {
    var gap := UnobservedGap(f.lastWall, now, f.lastWait + SUSPEND_GAP_SLACK);
    if gap != 0 && f.pauseSpanStart.None? {
      var p := GapRecord(f, gap, now.Sub(f.lastWall));
      SameStores(f, CreditGap(f, p));
      OfferKept(CreditGap(f, p), p, o);
    }
  }

  lemma CheckGapKept(s: State, t: Tick)
    requires Kept(s)
    ensures Kept(CheckGap(s, t))
  {
    RetryHeldKept(s, t.gaps);
    FlushKept(RetryHeldGaps(s, t.gaps), t.events);
    var f := FlushPendingEvents(RetryHeldGaps(s, t.gaps), t.events);
    BookGapKept(f, t.now, t.gap);
    SameStores(BookUnobservedGap(f, t.now, t.gap).0, CheckGap(s, t));
  }

  lemma FlushPauseKept(s: State, end: Instant, force: bool, o: Outcome)
    requires Kept(s)
    ensures Kept(FlushPause(s, end, force, o))
  {
    if s.pauseSpanStart.Some? {
      var start := s.pauseSpanStart.value;
      var p := PauseRecord(s, start, PauseSpan(start, end));
      var c := CreditPause(s, p, end.Sub(start));
      SameStores(s, c);
      OfferKept(c, p, o);
      SameStores(Offer(c, p, o), TakeSlice(s, start, end, PauseSpan(start, end), o));
      SameStores(s, s.(pauseSpanStart := Some(end)));
    }
  }

  lemma RoundKept(s: State, p: Probing)
    requires Kept(s)
    ensures Kept(ApplyRound(s, p))
  {
    FlushKept(s, p.retries);
    var f := FlushPendingEvents(s, p.retries);
    if p.result.Some? {
      var g := f.(link := Fold(f.link, p.result.value));
      var flip := Flip(g.link, p.result.value);
      if flip.Some? {
        TransitionMoves(g, flip.value, p.ok);
        EmitMoves(g, EventOf(g, flip.value), p.ok);
        EmitKeeps(EventsIn(g), EventOf(g, flip.value));
      }
    }
  }

  lemma ResumeKept(c: State, t: Tick)
    requires Kept(c)
    ensures Kept(ResumeEdge(c, t))
  {
    if c.paused && t.openAtResume {
      FlushPauseKept(c, t.flushAt, true, t.flush);
      SameStores(FlushPause(c, t.flushAt, true, t.flush), ResumeEdge(c, t));
    }
  }

  lemma PausedKept(r: State, now: Instant, o: Outcome)
    requires Kept(r)
    ensures Kept(PausedBranch(r, now, o))
  {
    FlushPauseKept(r, now, false, o);
    SameStores(if r.paused then FlushPause(r, now, false, o) else r, PausedBranch(r, now, o));
  }

  lemma IterateKept(s: State, t: Tick)
    requires Kept(s)
    ensures Kept(Iterate(s, t))
  {
    CheckGapKept(s, t);
    ResumeKept(CheckGap(s, t), t);
    var r := ResumeEdge(CheckGap(s, t), t);
    if !t.openAtSwitch {
      PausedKept(r, t.pausedNow, t.checkpoint);
    } else if t.round.Some? {
      SameStores(r, r.(lastWait := 0));
      RoundKept(r.(lastWait := 0), t.round.value);
    } else {
      SameStores(r, r.(lastWait := t.wait));
    }
  }

  /**
   Over every run: each transition is in exactly one of stored, waiting and
   dropped, verbatim; each measured gap is in exactly one of stored, queued,
   refused and evicted; and neither queue outgrows its cap.
   */
  lemma {:induction false} RunKeepsEverything(b: Boot, ts: seq<Tick>)
    ensures Kept(RunTicks(b, ts))
  {
    if ts == [] {
      var s := FreshState(b);
      if b.downSince.Some? && b.wall.wall - b.downSince.value.wall > STARTUP_GAP_MIN {
        OfferKept(s, StartupGap(b), b.gap);
        s := Offer(s, StartupGap(b), b.gap);
      }
      if b.round.Some? {
        RoundKept(s, b.round.value);
        s := ApplyRound(s, b.round.value);
      }
      SameStores(s, Begin(b));
    } else {
      RunKeepsEverything(b, ts[..|ts|-1]);
      IterateKept(RunTicks(b, ts[..|ts|-1]), ts[|ts|-1]);
    }
  }

  // ------------------------------------------------------------ isolation

  lemma {:induction false} GenerationsGrow(b: Boot, ts: seq<Tick>, more: seq<Tick>)
    requires ValidRun(b, ts + more)
    ensures ValidRun(b, ts) && RunTicks(b, ts).outageGen <= RunTicks(b, ts + more).outageGen
  {
    if more == [] {
      assert ts + more == ts;
    } else {
      var all := ts + more;
      assert all[..|all|-1] == ts + more[..|more|-1];
      GenerationsGrow(b, ts, more[..|more|-1]);
      var s, t := RunTicks(b, all[..|all|-1]), all[|all|-1];
      IterateGrows(s, t);
    }
  }

  lemma CheckGapLeavesGen(s: State, t: Tick)
    ensures CheckGap(s, t).outageGen == s.outageGen
  {
    RetryFrame(s.(held := []), s.held, t.gaps);
    FlushEventsFrame(RetryHeldGaps(s, t.gaps), t.events);
    BookGapFrame(FlushPendingEvents(RetryHeldGaps(s, t.gaps), t.events), t.now, t.gap);
  }

  lemma FlushPauseLeavesGen(s: State, end: Instant, force: bool, o: Outcome)
    ensures FlushPause(s, end, force, o).outageGen == s.outageGen
  {
    if s.pauseSpanStart.Some? {
      var start := s.pauseSpanStart.value;
      var p := PauseRecord(s, start, PauseSpan(start, end));
      OfferFrame(CreditPause(s, p, end.Sub(start)), p, o);
    }
  }

  lemma ResumeLeavesGen(s: State, t: Tick)
    ensures ResumeEdge(s, t).outageGen == s.outageGen
  {
    FlushPauseLeavesGen(s, t.flushAt, true, t.flush);
  }

  lemma IterateGrows(s: State, t: Tick)
    ensures Iterate(s, t).outageGen >= s.outageGen
  {
    CheckGapLeavesGen(s, t);
    ResumeLeavesGen(CheckGap(s, t), t);
    var r := ResumeEdge(CheckGap(s, t), t);
    FlushPauseLeavesGen(r, t.pausedNow, false, t.checkpoint);
    if t.openAtSwitch && t.round.Some? {
      FlushEventsFrame(r.(lastWait := 0), t.round.value.retries);
    }
  }

  /**
   A gap booked before a later transition cannot touch what that transition
   opened: refusing it, or evicting it, leaves the newer outage's two
   accumulators and its pause anchor exactly as they were.
   */
  lemma LateRefusalIsIsolated(b: Boot, ts: seq<Tick>, more: seq<Tick>, p: PendingGap)
    requires ValidRun(b, ts + more) && p in RunTicks(b, ts).held
    requires RunTicks(b, ts).outageGen != RunTicks(b, ts + more).outageGen
    ensures var s := RunTicks(b, ts + more);
            forall t :: t == Settle(s, p, Refused) || t == RevertGapDeduction(s, p) ==>
              t.pausedGap == s.pausedGap && t.frozenGap == s.frozenGap && t.downPausedAt == s.downPausedAt
  {
    GenerationsGrow(b, ts, more);
    RunKeepsLedger(b, ts);
  }

  /** The paused total never falls below what queued records may still take back. */
  lemma PausedGapCoversHeldDeductions(b: Boot, ts: seq<Tick>)
    requires ValidRun(b, ts) && !RunTicks(b, ts).link.online
    ensures var s := RunTicks(b, ts); s.pausedGap >= Deductions(s.held, s.outageGen) >= 0
  {
    RunKeepsLedger(b, ts);
    DeductionsNonNegative(RunTicks(b, ts).held, RunTicks(b, ts).outageGen);
  }
}
