/**
 A meter of the open outage that reads only clocks and rows: which pauses were
 resumed and how long they lasted, what each slice's row claimed over its
 monotonic time, how many pauses and sleeps there were. The monitor's two totals
 and its pause anchor are what this meter shows, in every run.
 */
module OutageMeter {
  import opened Wrappers
  import opened Clock
  import opened Debounce
  import opened Outage
  import opened OutageLaws
  import opened OutageWrites
  import opened OutageBooks
  import opened OutageTotals

  datatype Meter = Meter(open: Option<Opened>, folded: int, residue: int, slack: int, episodes: nat)

  const ZERO := Meter(None, 0, 0, 0, 0)

  function Positive(d: int): int {
    if d > 0 then d else 0
  }

  /** A sleep between iterations, unless an open pause owns the stretch. */
  function AfterSleep(m: Meter, s: State, t: Tick): Meter {
    if Slept(s, t.now) && s.pauseSpanStart.None? then m.(episodes := m.episodes + 1) else m
  }

  /** A slice whose row claims `row.secs` for the monotonic time up to `end`. */
  function AfterSlice(m: Meter, row: PendingGap, end: Instant): Meter {
    var over := row.secs * NS - (end.mono - row.start.mono);
    m.(residue := m.residue + over, slack := m.slack + Positive(-over))
  }

  function AfterFlush(m: Meter, s: State, end: Instant, least: int): Meter {
    if SliceDue(s, end, least) then AfterSlice(m, SliceRow(s, end), end) else m
  }

  /** A pause that ends: its length, from where its refused slices left its start to the reading taken as it ended. */
  function AfterResume(m: Meter, c: State, t: Tick): Meter {
    if !Resumes(c, t) then m
    else
      var refused := ResumeEdge(c, t).past.refused;
      var long := match m.open
        case Some(o) => Positive(t.resumeAt.mono - Moved(o.at, From(refused, o.from), c.outageGen).mono)
        case None => 0;
      AfterFlush(m, c, t.flushAt, 1).(folded := m.folded + long, open := None)
  }

  /** A pause that begins or goes on. */
  function AfterPause(m: Meter, r: State, t: Tick): Meter {
    if t.openAtSwitch then m
    else if r.paused then AfterFlush(m, r, t.pausedNow, 300 * NS)
    else m.(open := if m.open.None? then Some(Opened(t.pausedNow, |r.past.refused|)) else m.open, episodes := m.episodes + 1)
  }

  /** The meter as an iteration's round finds it. */
  function AtRound(m: Meter, s: State, t: Tick): Meter {
    AfterResume(AfterSleep(m, s, t), CheckGap(s, t), t)
  }

  /** The state an iteration's round, or its pause, finds. */
  function BeforeRound(s: State, t: Tick): State {
    ResumeEdge(CheckGap(s, t), t)
  }

  function MeterOf(b: Boot, ts: seq<Tick>): Meter {
    if ts == [] then ZERO
    else
      var s, t := RunTicks(b, ts[..|ts|-1]), ts[|ts|-1];
      if Iterate(s, t).link.online then ZERO
      // A round that took the link down starts a new outage; only one inside an open pause finds an episode there.
      else if s.link.online then ZERO.(episodes := if s.paused && !t.openAtResume then 1 else 0)
      else AfterPause(AtRound(MeterOf(b, ts[..|ts|-1]), s, t), BeforeRound(s, t), t)
  }

  /** The totals are what the meter shows. */
  predicate Shows(s: State, m: Meter) {
    && PausedIs(s, m.folded, []) && FrozenIs(s, m.residue, m.slack, []) && AnchorIs(s, m.open)
    && s.past.charges == m.episodes
  }

  // -------------------------------------------------------- phase by phase

  lemma RetryKeepsShows(s: State, gaps: seq<Outcome>, events: seq<bool>, m: Meter)
    requires Ledger(s, []) && Shows(s, m)
    ensures var f := FlushPendingEvents(RetryHeldGaps(s, gaps), events);
            Ledger(f, []) && Shows(f, m)
  {
    var h := s.(held := []);
    assert Ledger(h, s.held) && PausedIs(h, m.folded, s.held) && FrozenIs(h, m.residue, m.slack, s.held) && AnchorIs(h, m.open);
    RetryKeepsLedger(h, s.held, gaps);
    RetryKeepsPaused(h, s.held, gaps, m.folded);
    RetryKeepsFrozen(h, s.held, gaps, m.residue, m.slack);
    RetryKeepsAnchor(h, s.held, gaps, m.open);
    RetryFrame(h, s.held, gaps);
    FlushEventsFrame(RetryHeldGaps(s, gaps), events);
  }

  lemma OneMoreRow(s: State, p: PendingGap)
    ensures GivenBack(s, [p]) == GivenBack(s, []) + if p.gen == s.outageGen then p.deduct else 0
    ensures Froze(s, [p]) == Froze(s, []) + if p.gen == s.outageGen then p.frozen else 0
  {
    SumsOfOne(p, s.outageGen);
    FrozensOfOne(p, s.outageGen);
  }

  lemma OfferShows(s: State, p: PendingGap, o: Outcome, m: Meter)
    requires Ledger(s, [p]) && AnchorIs(s, m.open) && s.past.charges == m.episodes
    requires PausedIs(s, m.folded, [p]) && FrozenIs(s, m.residue, m.slack, [p])
    ensures Shows(Offer(s, p, o), m)
  {
    OfferKeepsPaused(s, p, o, m.folded);
    OfferKeepsFrozen(s, p, o, m.residue, m.slack);
    OfferKeepsAnchor(s, p, o, m.open);
    OfferFrame(s, p, o);
  }

  lemma GapShows(s: State, now: Instant, o: Outcome, m: Meter)
    requires Ledger(s, []) && !s.link.online && s.lastWall.mono <= now.mono && Shows(s, m)
    ensures Shows(BookUnobservedGap(s, now, o).0,
                  if Slept(s, now) && s.pauseSpanStart.None? then m.(episodes := m.episodes + 1) else m)
  {
    SleptIsTheGap(s, now);
    if Slept(s, now) && s.pauseSpanStart.None? {
      var p := GapRecord(s, WallSeconds(s.lastWall, now), now.Sub(s.lastWall));
      var c := CreditGap(s, p);
      SumsOfOne(p, s.outageGen);
      assert Ledger(c, [p]);
      OneMoreRow(s, p);
      OneMoreRow(c, p);
      OfferShows(c, p, o, m.(episodes := m.episodes + 1));
    }
  }

  lemma CheckGapShows(s: State, t: Tick, m: Meter)
    requires Ledger(s, []) && !s.link.online && s.lastWall.mono <= t.now.mono && Shows(s, m)
    ensures Shows(CheckGap(s, t), AfterSleep(m, s, t))
  {
    var f := FlushPendingEvents(RetryHeldGaps(s, t.gaps), t.events);
    RetryKeepsShows(s, t.gaps, t.events, m);
    RetriesBookNothing(s, t.gaps, t.events);
    GapShows(f, t.now, t.gap, m);
  }

  lemma SliceShows(s: State, end: Instant, o: Outcome, m: Meter)
    requires Ledger(s, []) && !s.link.online && Shows(s, m)
    requires s.pauseSpanStart.Some? && s.pauseSpanStart.value.mono <= end.mono && 0 < SliceSpan(s.pauseSpanStart.value, end)
    ensures Shows(TakeSlice(s, s.pauseSpanStart.value, end, SliceSpan(s.pauseSpanStart.value, end), o), AfterSlice(m, SliceRow(s, end), end))
  {
    var start := s.pauseSpanStart.value;
    var p := PauseRecord(s, start, SliceSpan(start, end));
    assert p == SliceRow(s, end);
    var c := CreditPause(s, p, end.Sub(start)).(pauseSpanStart := Some(end));
    SumsOfOne(p, s.outageGen);
    assert Ledger(c, [p]);
    OneMoreRow(s, p);
    OneMoreRow(c, p);
    OfferShows(c, p, o, AfterSlice(m, p, end));
    OfferLeavesAnchor(CreditPause(s, p, end.Sub(start)), p, o, Some(end));
  }

  lemma FlushShows(s: State, end: Instant, force: bool, o: Outcome, m: Meter)
    requires Ledger(s, []) && !s.link.online && Shows(s, m)
    requires s.pauseSpanStart.Some? ==> s.pauseSpanStart.value.mono <= end.mono
    ensures Shows(FlushPause(s, end, force, o), AfterFlush(m, s, end, if force then 1 else 300 * NS))
  {
    if s.pauseSpanStart.Some? {
      assert PauseSpan(s.pauseSpanStart.value, end) == SliceSpan(s.pauseSpanStart.value, end);
      if SliceDue(s, end, if force then 1 else 300 * NS) {
        SliceShows(s, end, o, m);
      }
    }
  }

  lemma ResumeShows(c: State, t: Tick, m: Meter)
    requires Ledger(c, []) && !c.link.online && Shows(c, m)
    requires c.pauseSpanStart.Some? ==> c.pauseSpanStart.value.mono <= t.flushAt.mono
    ensures Shows(ResumeEdge(c, t), AfterResume(m, c, t))
  {
    if Resumes(c, t) {
      FlushShows(c, t.flushAt, true, t.flush, m);
      FlushPauseFrame(c, t.flushAt, true, t.flush);
    }
  }

  lemma PausedShows(r: State, t: Tick, m: Meter)
    requires Ledger(r, []) && !r.link.online && Shows(r, m) && !t.openAtSwitch
    requires r.pauseSpanStart.Some? ==> r.pauseSpanStart.value.mono <= t.pausedNow.mono
    ensures Shows(PausedBranch(r, t.pausedNow, t.checkpoint), AfterPause(m, r, t))
  {
    FlushShows(r, t.pausedNow, false, t.checkpoint, m);
    FlushPauseFrame(r, t.pausedNow, false, t.checkpoint);
    if !r.paused {
      assert From(r.past.refused, |r.past.refused|) == [];
    }
  }

  lemma ShowsByPart(s: State, t: State, m: Meter)
    requires Shows(s, m)
    requires t.pausedGap == s.pausedGap && t.frozenGap == s.frozenGap && t.downPausedAt == s.downPausedAt && t.outageGen == s.outageGen
    requires t.held == s.held && t.past.stored == s.past.stored && t.past.refused == s.past.refused && t.past.charges == s.past.charges
    ensures Shows(t, m)
  {
  }

  /** A round that does not change the link's state leaves the totals alone. */
  lemma SteadyRoundShows(r: State, p: Probing, m: Meter)
    requires Shows(r, m) && ApplyRound(r, p).link.online == r.link.online
    ensures Shows(ApplyRound(r, p), m)
  {
    FlushEventsFrame(r, p.retries);
    ShowsByPart(r, ApplyRound(r, p), m);
  }

  lemma TransitionOpens(g: State, at: Instant, ok: bool)
    requires Ledger(g, []) && g.link.online
    ensures Shows(Transition(g, at, ok), ZERO.(episodes := if g.pauseSpanStart.Some? then 1 else 0))
  {
    var gen := g.outageGen + 1;
    SumsOfOlder(g.past.stored, gen);
    SumsOfOlder(g.held, gen);
    FrozensOfOlder(g.past.stored, gen);
    FrozensOfOlder(g.held, gen);
  }

  /** A round that takes the link down opens an outage whose totals are zero. */
  lemma NewOutageShows(r: State, p: Probing)
    requires Ledger(r, []) && r.link.online && !ApplyRound(r, p).link.online
    ensures Shows(ApplyRound(r, p), ZERO.(episodes := if r.pauseSpanStart.Some? then 1 else 0))
  {
    FlushEventsFrame(r, p.retries);
    var f := FlushPendingEvents(r, p.retries);
    var g := f.(link := Fold(f.link, p.result.value));
    assert Ledger(g, []);
    TransitionOpens(g, Flip(g.link, p.result.value).value, p.ok);
  }

  lemma LinkBeforeRound(s: State, t: Tick)
    requires Ledger(s, []) && ValidTick(s, t)
    ensures var c, r := CheckGap(s, t), BeforeRound(s, t);
            && Ledger(c, []) && Ledger(r, []) && c.link.online == s.link.online && r.link.online == s.link.online
            && c.paused == s.paused && c.pauseSpanStart == s.pauseSpanStart && c.outageGen == s.outageGen && r.outageGen == s.outageGen
            && (r.pauseSpanStart.Some? ==> s.paused && !t.openAtResume && r.pauseSpanStart.value.mono <= t.pausedNow.mono)
  {
    CheckGapKeepsLedger(s, t);
    CheckGapBooks(s, t);
    ResumeKeepsLedger(CheckGap(s, t), t);
    ResumeBooks(CheckGap(s, t), t);
    FlushPauseFrame(CheckGap(s, t), t.flushAt, true, t.flush);
  }

  /** Up to the round, an iteration's meter shows the totals. */
  lemma ShowsAtRound(s: State, t: Tick, m: Meter)
    requires Ledger(s, []) && ValidTick(s, t) && !s.link.online && Shows(s, m)
    ensures Shows(BeforeRound(s, t), AtRound(m, s, t))
  {
    LinkBeforeRound(s, t);
    CheckGapShows(s, t, m);
    ResumeShows(CheckGap(s, t), t, AfterSleep(m, s, t));
  }

  lemma IterateShows(s: State, t: Tick, m: Meter)
    requires Ledger(s, []) && ValidTick(s, t) && !s.link.online && Shows(s, m) && !Iterate(s, t).link.online
    ensures Shows(Iterate(s, t), AfterPause(AtRound(m, s, t), BeforeRound(s, t), t))
  {
    ShowsAtRound(s, t, m);
    LinkBeforeRound(s, t);
    var r := BeforeRound(s, t);
    if !t.openAtSwitch {
      PausedShows(r, t, AtRound(m, s, t));
    } else if t.round.Some? {
      SteadyRoundShows(r.(lastWait := 0), t.round.value, AtRound(m, s, t));
    }
  }

  lemma IterateOpens(s: State, t: Tick)
    requires Ledger(s, []) && ValidTick(s, t) && s.link.online && !Iterate(s, t).link.online
    requires s.paused <==> s.pauseSpanStart.Some?
    ensures Shows(Iterate(s, t), ZERO.(episodes := if s.paused && !t.openAtResume then 1 else 0))
  {
    LinkBeforeRound(s, t);
    var r := BeforeRound(s, t);
    FlushPauseFrame(r, t.pausedNow, false, t.checkpoint);
    CheckGapBooks(s, t);
    ResumeBooks(CheckGap(s, t), t);
    NewOutageShows(r.(lastWait := 0), t.round.value);
  }

  // ------------------------------------------------------------ whole runs

  /** The link counts as paused exactly while a span is open, and says so from the two gate readings alone. */
  lemma {:induction false} PausedHasItsSpan(b: Boot, ts: seq<Tick>)
    requires ValidRun(b, ts)
    ensures RunTicks(b, ts).paused <==> RunTicks(b, ts).pauseSpanStart.Some?
  {
    if ts == [] {
      BootIsNotPaused(b);
    } else {
      PausedHasItsSpan(b, ts[..|ts|-1]);
      RunKeepsLedger(b, ts[..|ts|-1]);
      TickBooks(RunTicks(b, ts[..|ts|-1]), ts[|ts|-1]);
    }
  }

  lemma BootIsNotPaused(b: Boot)
    ensures !Begin(b).paused && Begin(b).pauseSpanStart.None?
  {
    var s := FreshState(b);
    if b.downSince.Some? {
      OfferFrame(s, StartupGap(b), b.gap);
      if b.wall.wall - b.downSince.value.wall > STARTUP_GAP_MIN {
        s := Offer(s, StartupGap(b), b.gap);
      }
    }
    if b.round.Some? {
      RoundBooks(s, b.round.value);
    }
  }

  /** A first round may take the link down before any pause: the meter starts at zero. */
  lemma BootShows(b: Boot)
    requires ValidBoot(b) && !Begin(b).link.online
    ensures Shows(Begin(b), ZERO)
  {
    var s := FreshState(b);
    if b.downSince.Some? && b.wall.wall - b.downSince.value.wall > STARTUP_GAP_MIN {
      assert Ledger(FreshState(b), [StartupGap(b)]);
      OfferKeepsLedger(s, StartupGap(b), b.gap);
      OfferFrame(s, StartupGap(b), b.gap);
      s := Offer(s, StartupGap(b), b.gap);
    }
    NewOutageShows(s, b.round.value);
    ShowsByPart(ApplyRound(s, b.round.value), Begin(b), ZERO);
  }

  /**
   In every run, whatever the clocks, the store and the gate do: the totals and
   the anchor of an open outage are exactly what the meter shows.
   */
  lemma {:induction false} EveryRunShowsItsMeter(b: Boot, ts: seq<Tick>)
    requires ValidRun(b, ts) && !RunTicks(b, ts).link.online
    ensures Shows(RunTicks(b, ts), MeterOf(b, ts))
  {
    if ts == [] {
      BootShows(b);
    } else {
      var pre, t := ts[..|ts|-1], ts[|ts|-1];
      RunKeepsLedger(b, pre);
      if RunTicks(b, pre).link.online {
        PausedHasItsSpan(b, pre);
        IterateOpens(RunTicks(b, pre), t);
      } else {
        EveryRunShowsItsMeter(b, pre);
        IterateShows(RunTicks(b, pre), t, MeterOf(b, pre));
      }
    }
  }

  /** And so does the state every iteration's round finds. */
  lemma EveryRoundFindsItsMeter(b: Boot, ts: seq<Tick>, t: Tick)
    requires ValidRun(b, ts) && ValidTick(RunTicks(b, ts), t) && !RunTicks(b, ts).link.online
    ensures Shows(BeforeRound(RunTicks(b, ts), t), AtRound(MeterOf(b, ts), RunTicks(b, ts), t))
  {
    RunKeepsLedger(b, ts);
    EveryRunShowsItsMeter(b, ts);
    ShowsAtRound(RunTicks(b, ts), t, MeterOf(b, ts));
  }
}
