/**
 The event log every run of the loop leaves: well stamped whatever the wall
 clock did, and every recovered pair covered by the ledger it was stamped on.
 */
module OutageLog {
  import opened Wrappers
  import opened Clock
  import opened Debounce
  import opened Outage
  import opened OutageLaws

  // ------------------------------------------------------------ stamping

  /** Down and up alternate; an up is not before its down, a down is strictly after what precedes it. */
  predicate StampedAt(es: seq<EventRow>, i: nat, seed: Option<int>)
    requires i < |es|
  {
    && (es[i].up <==> i % 2 == 1)
    && (es[i].up ==> es[i - 1].wall <= es[i].wall)
    && (!es[i].up && i > 0 ==> es[i - 1].wall < es[i].wall)
    && (i == 0 && seed.Some? ==> seed.value < es[0].wall)
  }

  ghost predicate WellStamped(es: seq<EventRow>, seed: Option<int>) {
    forall i :: 0 <= i < |es| ==> StampedAt(es, i, seed)
  }

  function LastWall(es: seq<EventRow>, seed: Option<int>): Option<int> {
    if es == [] then seed else Some(es[|es|-1].wall)
  }

  /** The k-th recovery describes the k-th pair of the log. */
  ghost predicate Described(rs: seq<Recovery>, es: seq<EventRow>) {
    && |rs| == |es| / 2
    && forall k {:trigger rs[k]} :: 0 <= k < |rs| ==>
         && Covered(rs[k])
         && rs[k].down == es[2*k].wall && rs[k].up == es[2*k+1].wall && rs[k].duration == es[2*k+1].duration
  }

  /** The part of the state that only transitions touch. */
  datatype EventPart = EventPart(online: bool, last: Option<int>, emitted: seq<EventRow>, recoveries: seq<Recovery>)

  function EventsOf(s: State): EventPart {
    EventPart(s.link.online, s.lastEventWall, s.past.emitted, s.past.recoveries)
  }

  ghost predicate SoundLog(p: EventPart, seed: Option<int>) {
    && WellStamped(p.emitted, seed)
    && p.last == LastWall(p.emitted, seed)
    && (p.online <==> |p.emitted| % 2 == 0)
    && Described(p.recoveries, p.emitted)
  }

  ghost predicate EventLog(s: State, seed: Option<int>) {
    SoundLog(EventsOf(s), seed)
  }

  lemma OfferLeavesEvents(s: State, p: PendingGap, o: Outcome)
    ensures EventsOf(Offer(s, p, o)) == EventsOf(s)
  {
  }

  lemma {:induction false} RetryLeavesEvents(s: State, todo: seq<PendingGap>, os: seq<Outcome>)
    ensures EventsOf(RetryFrom(s, todo, os)) == EventsOf(s)
    decreases |todo|
  {
    if todo != [] {
      var n := if Next(os).Failed? then s.(held := s.held + [todo[0]]) else Settle(s, todo[0], Next(os));
      RetryLeavesEvents(n, todo[1..], Rest(os));
    }
  }

  lemma FlushPauseLeavesEvents(s: State, end: Instant, force: bool, o: Outcome)
    ensures EventsOf(FlushPause(s, end, force, o)) == EventsOf(s)
  {
    if s.pauseSpanStart.Some? {
      var start := s.pauseSpanStart.value;
      var p := PauseRecord(s, start, PauseSpan(start, end));
      OfferLeavesEvents(CreditPause(s, p, end.Sub(start)), p, o);
    }
  }

  lemma CheckGapLeavesEvents(s: State, t: Tick)
    ensures EventsOf(CheckGap(s, t)) == EventsOf(s)
  {
    RetryLeavesEvents(s.(held := []), s.held, t.gaps);
    FlushEventsFrame(RetryHeldGaps(s, t.gaps), t.events);
    var f := FlushPendingEvents(RetryHeldGaps(s, t.gaps), t.events);
    var gap := UnobservedGap(f.lastWall, t.now, f.lastWait + SUSPEND_GAP_SLACK);
    if gap != 0 && f.pauseSpanStart.None? {
      var p := GapRecord(f, gap, t.now.Sub(f.lastWall));
      OfferLeavesEvents(CreditGap(f, p), p, t.gap);
    }
  }

  lemma EventLogByPart(s: State, t: State, seed: Option<int>)
    requires EventLog(s, seed) && EventsOf(t) == EventsOf(s)
    ensures EventLog(t, seed)
  {
  }

  lemma EventIsWellStamped(es: seq<EventRow>, e: EventRow, seed: Option<int>)
    requires WellStamped(es, seed)
    requires e.up <==> |es| % 2 == 1
    requires var last := LastWall(es, seed); last.Some? ==> if e.up then last.value <= e.wall else last.value < e.wall
    ensures WellStamped(es + [e], seed)
  {
    forall i | 0 <= i < |es + [e]| ensures StampedAt(es + [e], i, seed) {
      if i < |es| {
        assert StampedAt(es, i, seed);
      }
    }
  }

  lemma EventAfterLast(s: State, at: Instant)
    ensures var e := EventOf(s, at); var last := s.lastEventWall;
            && (e.up <==> !s.link.online)
            && (last.Some? ==> if e.up then last.value <= e.wall else last.value < e.wall)
  {
    if s.lastEventWall.Some? && !s.link.online {
      var width := Seconds(Elapsed(s, at)) + CeilSeconds(s.frozenGap);
      assert width + s.lastEventWall.value == s.lastEventWall.value + width;
    }
  }

  lemma DescribedSnoc(rs: seq<Recovery>, es: seq<EventRow>, e: EventRow)
    requires Described(rs, es)
    ensures !e.up && |es| % 2 == 0 ==> Described(rs, es + [e])
    ensures forall r: Recovery :: e.up && |es| % 2 == 1 && Covered(r) && r.down == es[|es|-1].wall && r.up == e.wall && r.duration == e.duration
                        ==> Described(rs + [r], es + [e])
  {
    forall r: Recovery | e.up && |es| % 2 == 1 && Covered(r) && r.down == es[|es|-1].wall && r.up == e.wall && r.duration == e.duration
      ensures Described(rs + [r], es + [e])
    {
      assert 2 * |rs| == |es| - 1;
    }
  }

  lemma TransitionEvents(s: State, at: Instant, ok: bool)
    requires !s.link.online ==> s.lastEventWall.Some?
    ensures var t, e := EventsOf(Transition(s, at, ok)), EventOf(s, at);
            t == EventPart(!s.link.online, Some(e.wall), s.past.emitted + [e],
                           s.past.recoveries + if e.up then [RecoveryOf(s, at)] else [])
  {
  }

  lemma TransitionKeepsLog(s: State, at: Instant, ok: bool, seed: Option<int>)
    requires EventLog(s, seed) && Ledger(s, [])
    ensures EventLog(Transition(s, at, ok), seed)
  {
    var e, p := EventOf(s, at), EventsOf(s);
    EventAfterLast(s, at);
    TransitionEvents(s, at, ok);
    DescribedSnoc(p.recoveries, p.emitted, e);
    var rs := if e.up then [RecoveryOf(s, at)] else [];
    if e.up {
      RecoveryIsCovered(s, at);
    } else {
      assert p.recoveries + [] == p.recoveries;
    }
    EventIsWellStamped(p.emitted, e, seed);
  }

  lemma RoundKeepsLog(s: State, p: Probing, seed: Option<int>)
    requires EventLog(s, seed) && Ledger(s, [])
    ensures EventLog(ApplyRound(s, p), seed)
  {
    FlushEventsFrame(s, p.retries);
    var f := FlushPendingEvents(s, p.retries);
    EventLogByPart(s, f, seed);
    if p.result.None? {
      EventLogByPart(f, f.(link := ResetStreaks(f.link)), seed);
    } else {
      var g := f.(link := Fold(f.link, p.result.value));
      assert Ledger(g, []);
      EventLogByPart(f, g, seed);
      if Flip(g.link, p.result.value).Some? {
        TransitionKeepsLog(g, Flip(g.link, p.result.value).value, p.ok, seed);
      }
    }
  }

  lemma QuietStepsLeaveEvents(s: State, t: Tick)
    ensures EventsOf(ResumeEdge(s, t)) == EventsOf(s)
    ensures EventsOf(PausedBranch(s, t.pausedNow, t.checkpoint)) == EventsOf(s)
  {
    FlushPauseLeavesEvents(s, t.flushAt, true, t.flush);
    FlushPauseLeavesEvents(s, t.pausedNow, false, t.checkpoint);
  }

  lemma SwitchKeepsLog(r: State, t: Tick, seed: Option<int>)
    requires EventLog(r, seed) && Ledger(r, []) && t.openAtSwitch && (t.round.None? ==> 0 < t.wait)
    ensures t.round.None? ==> EventLog(r.(lastWait := t.wait), seed)
    ensures t.round.Some? ==> EventLog(ApplyRound(r.(lastWait := 0), t.round.value), seed)
  {
    EventLogByPart(r, r.(lastWait := t.wait), seed);
    if t.round.Some? {
      EventLogByPart(r, r.(lastWait := 0), seed);
      RoundKeepsLog(r.(lastWait := 0), t.round.value, seed);
    }
  }

  lemma IterateKeepsLog(s: State, t: Tick, seed: Option<int>)
    requires EventLog(s, seed) && Ledger(s, []) && ValidTick(s, t)
    ensures EventLog(Iterate(s, t), seed)
  {
    CheckGapLeavesEvents(s, t);
    CheckGapKeepsLedger(s, t);
    var c := CheckGap(s, t);
    EventLogByPart(s, c, seed);
    ResumeKeepsLedger(c, t);
    QuietStepsLeaveEvents(c, t);
    var r := ResumeEdge(c, t);
    EventLogByPart(c, r, seed);
    if t.openAtSwitch {
      SwitchKeepsLog(r, t, seed);
    } else {
      QuietStepsLeaveEvents(r, t);
      EventLogByPart(r, PausedBranch(r, t.pausedNow, t.checkpoint), seed);
    }
  }

  lemma BootKeepsLog(b: Boot)
    requires ValidBoot(b)
    ensures EventLog(Begin(b), b.seed)
  {
    var s := FreshState(b);
    if b.downSince.Some? && b.wall.wall - b.downSince.value.wall > STARTUP_GAP_MIN {
      OfferLeavesEvents(s, StartupGap(b), b.gap);
      OfferKeepsStartupLedger(b);
      EventLogByPart(s, Offer(s, StartupGap(b), b.gap), b.seed);
      s := Offer(s, StartupGap(b), b.gap);
    }
    if b.round.Some? {
      RoundKeepsLog(s, b.round.value, b.seed);
    }
  }

  lemma OfferKeepsStartupLedger(b: Boot)
    requires b.downSince.Some? && b.wall.wall - b.downSince.value.wall > STARTUP_GAP_MIN
    ensures Ledger(Offer(FreshState(b), StartupGap(b), b.gap), [])
  {
    assert Ledger(FreshState(b), [StartupGap(b)]);
    OfferKeepsLedger(FreshState(b), StartupGap(b), b.gap);
  }

  /**
   The event log over every run: any pauses, checkpoints, suspends, settings,
   store failures and wall-clock steps. Each recovered pair holds its recorded
   length plus every pause row booked for the outage, short only by the pause
   time that was still unfolded when the recovery was confirmed.
   */
  lemma {:induction false} RunKeepsLog(b: Boot, ts: seq<Tick>)
    requires ValidRun(b, ts)
    ensures EventLog(RunTicks(b, ts), b.seed)
  {
    if ts == [] {
      BootKeepsLog(b);
    } else {
      RunKeepsLog(b, ts[..|ts|-1]);
      RunKeepsLedger(b, ts[..|ts|-1]);
      IterateKeepsLog(RunTicks(b, ts[..|ts|-1]), ts[|ts|-1], b.seed);
    }
  }
}
