/**
 The link state the loop keeps is the debounce run over the trace the loop
 makes: every pause, skipped or cancelled round and unobserved gap is a break in
 that trace, so no confirmation combines rounds from both sides of one.
 */
module LoopTrace {
  import opened Wrappers
  import opened Clock
  import opened Debounce
  import opened Outage
  import opened OutageLaws

  function ProbingEvent(p: Probing): Event {
    if p.result.None? then Gap else Probe(p.result.value)
  }

  /** The wall-gap check saw an unobserved stretch. */
  predicate SawGap(s: State, t: Tick) {
    UnobservedGap(s.lastWall, t.now, s.lastWait + SUSPEND_GAP_SLACK) != 0
  }

  function TickEvents(s: State, t: Tick): seq<Event> {
    (if SawGap(s, t) then [Gap] else [])
    + if !t.openAtSwitch then [Gap]
      else if t.round.Some? then [ProbingEvent(t.round.value)]
      else []
  }

  function TraceOf(b: Boot, ts: seq<Tick>): seq<Event> {
    if ts == [] then if b.round.Some? then [ProbingEvent(b.round.value)] else []
    else TraceOf(b, ts[..|ts|-1]) + TickEvents(RunTicks(b, ts[..|ts|-1]), ts[|ts|-1])
  }

  lemma {:induction false} RunExtends(at: Instant, es: seq<Event>, more: seq<Event>, l: Link)
    requires Run(at, es) == l
    ensures |more| == 0 ==> Run(at, es + more) == l
    ensures |more| == 1 ==> Run(at, es + more) == Apply(l, more[0])
    ensures |more| == 2 ==> Run(at, es + more) == Apply(Apply(l, more[0]), more[1])
  {
    var all := es + more;
    if |more| == 0 {
      assert all == es;
    } else if |more| == 1 {
      assert all[..|all|-1] == es;
    } else if |more| == 2 {
      assert all[..|all|-1] == es + more[..1];
      RunExtends(at, es, more[..1], l);
    }
  }

  lemma DebounceRoundLink(s: State, r: Round, ok: bool)
    ensures DebounceRound(s, r, ok).link == Advance(s.link, r)
  {
  }

  lemma RoundLink(s: State, p: Probing)
    ensures ApplyRound(s, p).link == Apply(s.link, ProbingEvent(p))
  {
    FlushEventsFrame(s, p.retries);
    if p.result.Some? {
      DebounceRoundLink(FlushPendingEvents(s, p.retries), p.result.value, p.ok);
    }
  }

  lemma {:induction false} RetryLeavesWait(s: State, todo: seq<PendingGap>, os: seq<Outcome>)
    ensures RetryFrom(s, todo, os).lastWait == s.lastWait
    decreases |todo|
  {
    if todo != [] {
      var n := if Next(os).Failed? then s.(held := s.held + [todo[0]]) else Settle(s, todo[0], Next(os));
      RetryLeavesWait(n, todo[1..], Rest(os));
    }
  }

  lemma CheckGapLink(s: State, t: Tick)
    ensures CheckGap(s, t).link == if SawGap(s, t) then ResetStreaks(s.link) else s.link
  {
    RetryFrame(s.(held := []), s.held, t.gaps);
    RetryLeavesWait(s.(held := []), s.held, t.gaps);
    FlushEventsFrame(RetryHeldGaps(s, t.gaps), t.events);
    BookGapFrame(FlushPendingEvents(RetryHeldGaps(s, t.gaps), t.events), t.now, t.gap);
  }

  lemma FlushPauseLink(s: State, end: Instant, force: bool, o: Outcome)
    ensures FlushPause(s, end, force, o).link == s.link
  {
    if s.pauseSpanStart.Some? {
      var start := s.pauseSpanStart.value;
      var p := PauseRecord(s, start, PauseSpan(start, end));
      OfferFrame(CreditPause(s, p, end.Sub(start)), p, o);
    }
  }

  lemma IterateLink(s: State, t: Tick)
    ensures var es, l := TickEvents(s, t), Iterate(s, t).link;
            && |es| <= 2
            && (|es| == 0 ==> l == s.link)
            && (|es| == 1 ==> l == Apply(s.link, es[0]))
            && (|es| == 2 ==> l == Apply(Apply(s.link, es[0]), es[1]))
  {
    CheckGapLink(s, t);
    var c := CheckGap(s, t);
    FlushPauseLink(c, t.flushAt, true, t.flush);
    var r := ResumeEdge(c, t);
    assert r.link == c.link;
    FlushPauseLink(r, t.pausedNow, false, t.checkpoint);
    if t.openAtSwitch && t.round.Some? {
      RoundLink(r.(lastWait := 0), t.round.value);
    }
  }

  /** The loop's link state is the debounce over the loop's trace. */
  lemma {:induction false} LoopRunsTheDebounce(b: Boot, ts: seq<Tick>)
    ensures RunTicks(b, ts).link == Run(b.at, TraceOf(b, ts))
  {
    if ts == [] {
      var s := if b.downSince.Some? && b.wall.wall - b.downSince.value.wall > STARTUP_GAP_MIN
               then Offer(FreshState(b), StartupGap(b), b.gap) else FreshState(b);
      OfferFrame(FreshState(b), if b.downSince.Some? then StartupGap(b) else PendingGap(b.at, 0, 0, 0, 0, true), b.gap);
      assert s.link == Start(b.at) == Run(b.at, []);
      if b.round.Some? {
        RoundLink(s, b.round.value);
        RunExtends(b.at, [], [ProbingEvent(b.round.value)], s.link);
        assert [] + [ProbingEvent(b.round.value)] == [ProbingEvent(b.round.value)];
      }
    } else {
      var pre, t := ts[..|ts|-1], ts[|ts|-1];
      LoopRunsTheDebounce(b, pre);
      IterateLink(RunTicks(b, pre), t);
      RunExtends(b.at, TraceOf(b, pre), TickEvents(RunTicks(b, pre), t), RunTicks(b, pre).link);
    }
  }

  // --------------------------------------- the debounce's laws, of the loop

  /** The loop, exactly: with its trace ending in a round, the link is down before it and up after it by the good rounds alone. */
  lemma LoopUpIffGoodRounds(b: Boot, ts: seq<Tick>, es: seq<Event>, r: Round)
    requires TraceOf(b, ts) == es + [Probe(r)] && r.Valid() && !Run(b.at, es).online
    ensures RunTicks(b, ts).link.online <==> r.ok && |TrailingGood(TraceOf(b, ts))| >= r.upAfter
    ensures RunTicks(b, ts).link.online ==> RunTicks(b, ts).link.since == r.ts
  {
    LoopRunsTheDebounce(b, ts);
    assert (es + [Probe(r)])[..|es|] == es;
    UpIffGoodRounds(b.at, es, r);
  }

  /** And down by the unheld failed rounds alone. */
  lemma LoopDownIffUnheldRounds(b: Boot, ts: seq<Tick>, es: seq<Event>, r: Round)
    requires TraceOf(b, ts) == es + [Probe(r)] && ValidTrace(es) && r.Valid() && Run(b.at, es).online
    ensures !RunTicks(b, ts).link.online <==>
              !r.ok && |TrailingBad(TraceOf(b, ts))| - HeldCount(TrailingBad(TraceOf(b, ts))) >= r.downAfter
  {
    LoopRunsTheDebounce(b, ts);
    assert (es + [Probe(r)])[..|es|] == es;
    DownIffUnheldRounds(b.at, es, r);
  }

  /** An iteration that takes the link down ends its trace with the round that confirmed it. */
  lemma DownEndsItsTrace(b: Boot, ts: seq<Tick>, t: Tick) returns (es: seq<Event>, r: Round)
    requires RunTicks(b, ts).link.online && !RunTicks(b, ts + [t]).link.online
    ensures TraceOf(b, ts + [t]) == es + [Probe(r)]
    ensures Run(b.at, es).online && Run(b.at, es).since == RunTicks(b, ts).link.since
    ensures Advance(Run(b.at, es), r) == RunTicks(b, ts + [t]).link
  {
    var s, pre := RunTicks(b, ts), TraceOf(b, ts);
    assert (ts + [t])[..|ts|] == ts;
    var more := TickEvents(s, t);
    LoopRunsTheDebounce(b, ts);
    IterateLink(s, t);
    var gap := if SawGap(s, t) then [Gap] else [];
    RunExtends(b.at, pre, gap, s.link);
    es, r := pre + gap, more[|more|-1].r;
    assert more == gap + [Probe(r)];
    assert TraceOf(b, ts + [t]) == pre + (gap + [Probe(r)]) == es + [Probe(r)];
    LoopRunsTheDebounce(b, ts + [t]);
    assert (es + [Probe(r)])[..|es|] == es;
  }

  /** Rounds stamped in order on the monotonic clock: the loop's back-dated downs still fall after the recovery, or the start, before them. */
  lemma LoopDownFollowsTheLastRecovery(b: Boot, ts: seq<Tick>, t: Tick)
    requires ValidTrace(TraceOf(b, ts + [t])) && Ordered(b.at, TraceOf(b, ts + [t]))
    requires RunTicks(b, ts).link.online && !RunTicks(b, ts + [t]).link.online
    ensures RunTicks(b, ts).link.since.Before(RunTicks(b, ts + [t]).link.since)
  {
    var es, r := DownEndsItsTrace(b, ts, t);
    assert forall e :: e in es ==> e in es + [Probe(r)];
    assert Probe(r) in es + [Probe(r)];
    DownFollowsTheLastRecovery(b.at, es, r);
  }

  /** Nor does the hold keep the loop's link up past down-after late failed rounds, even if every one overlapped a test. */
  lemma LoopHoldDeadline(b: Boot, ts: seq<Tick>, es: seq<Event>, r: Round)
    requires TraceOf(b, ts) == es + [Probe(r)] && ValidTrace(es + [Probe(r)])
    requires !r.ok && LateCount(TrailingBad(es + [Probe(r)])) >= r.downAfter
    ensures !RunTicks(b, ts).link.online
  {
    LoopRunsTheDebounce(b, ts);
    assert (es + [Probe(r)])[..|es|] == es;
    assert forall e :: e in es ==> e in es + [Probe(r)];
    assert Probe(r) in es + [Probe(r)];
    HoldDeadline(b.at, es, r);
  }
}
