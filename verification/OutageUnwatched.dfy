/**
 The unwatched time of an outage, from clock readings alone: the length of every
 pause resumed in it and what the monotonic clock counted of every sleep. The
 paused total never exceeds it, and equals it when none of the outage's rows was
 refused or evicted.
 */
module OutageUnwatched {
  import opened Wrappers
  import opened Clock
  import opened Debounce
  import opened Outage
  import opened OutageLaws
  import opened OutageWrites
  import opened OutageBooks
  import opened OutageTotals
  import opened OutageMeter
  import OutageConservation

  /** The open pause's first reading, and the two kinds of unwatched time so far. */
  datatype Unwatched = Unwatched(open: Option<Instant>, pauses: int, sleeps: int)

  const WATCHED := Unwatched(None, 0, 0)

  function UnwatchedAtRound(w: Unwatched, s: State, t: Tick): Unwatched {
    var w := if Slept(s, t.now) && s.pauseSpanStart.None? then w.(sleeps := w.sleeps + GapRow(s, t.now).deduct) else w;
    if !Resumes(s, t) then w
    else if w.open.None? then w
    else w.(open := None, pauses := w.pauses + Positive(t.resumeAt.mono - w.open.value.mono))
  }

  function UnwatchedOf(b: Boot, ts: seq<Tick>): Unwatched {
    if ts == [] then WATCHED
    else
      var s, t := RunTicks(b, ts[..|ts|-1]), ts[|ts|-1];
      if s.link.online || Iterate(s, t).link.online then WATCHED
      else UnwatchedAfterPause(UnwatchedAtRound(UnwatchedOf(b, ts[..|ts|-1]), s, t), s, t)
  }

  /** A pause begins when the gate is shut and it was not before. */
  function UnwatchedAfterPause(w: Unwatched, s: State, t: Tick): Unwatched {
    if !t.openAtSwitch && !(s.paused && !t.openAtResume) && w.open.None? then w.(open := Some(t.pausedNow)) else w
  }

  // ------------------------------------------------------ sums over bags

  lemma WithoutOne(rest: seq<PendingGap>, pre: seq<PendingGap>, x: PendingGap, post: seq<PendingGap>)
    requires multiset([x] + rest) == multiset(pre + ([x] + post))
    ensures multiset(rest) == multiset(pre + post)
  {
    assert multiset([x] + rest) == multiset{x} + multiset(rest);
    assert multiset([x] + post) == multiset{x} + multiset(post);
    assert multiset(rest) == multiset([x] + rest) - multiset{x};
    assert multiset(pre + post) == multiset(pre + ([x] + post)) - multiset{x};
  }

  lemma {:induction false} SameDeductions(a: seq<PendingGap>, b: seq<PendingGap>, gen: nat)
    requires multiset(a) == multiset(b)
    ensures Deductions(a, gen) == Deductions(b, gen)
    decreases |a|
  {
    if a == [] {
      assert |b| == |multiset(b)| == 0;
    } else {
      var x, rest := a[0], a[1..];
      assert a == [x] + rest;
      assert x in multiset(b);
      var i :| 0 <= i < |b| && b[i] == x;
      SplitAt(b, i);
      var pre, post := b[..i], b[i+1..];
      WithoutOne(rest, pre, x, post);
      SameDeductions(rest, pre + post, gen);
      SumsConcat(pre, post, gen);
      SumsConcat(pre, [x] + post, gen);
      SumsConcat([x], post, gen);
    }
  }

  lemma SplitAt(b: seq<PendingGap>, i: nat)
    requires i < |b|
    ensures b == b[..i] + ([b[i]] + b[i+1..])
  {
  }

  /** Every row's correction is still on the books, or was taken back with the row. */
  lemma DeductionsAreConserved(s: State, gen: nat)
    requires OutageConservation.Kept(s)
    ensures var p := s.past;
            Deductions(p.booked, gen) == Deductions(p.stored, gen) + Deductions(s.held, gen)
                                         + Deductions(p.refused, gen) + Deductions(p.evicted, gen)
  {
    var p := s.past;
    assert multiset(p.booked) == multiset(p.stored + s.held + p.refused + p.evicted);
    SameDeductions(p.booked, p.stored + s.held + p.refused + p.evicted, gen);
    SumsConcat(p.stored + s.held + p.refused, p.evicted, gen);
    SumsConcat(p.stored + s.held, p.refused, gen);
    SumsConcat(p.stored, s.held, gen);
  }

  // ------------------------------------------------------ the booked rows

  predicate BookedKnown(s: State) {
    forall p :: p in s.past.booked ==> Wf(p) && p.gen <= s.outageGen
  }

  lemma TickRowsKnown(s: State, t: Tick)
    requires Ledger(s, []) && ValidTick(s, t)
    ensures forall p :: p in TickRows(s, t) ==> Wf(p) && p.gen <= s.outageGen
  {
    SleptIsTheGap(s, t.now);
  }

  lemma GenNeverFalls(s: State, t: Tick)
    ensures Iterate(s, t).outageGen >= s.outageGen
  {
    OutageConservation.IterateGrows(s, t);
  }

  lemma {:induction false} BookedAreKnown(b: Boot, ts: seq<Tick>)
    requires ValidRun(b, ts)
    ensures BookedKnown(RunTicks(b, ts))
  {
    if ts == [] {
      BootBooks(b);
    } else {
      var s, t := RunTicks(b, ts[..|ts|-1]), ts[|ts|-1];
      BookedAreKnown(b, ts[..|ts|-1]);
      RunKeepsLedger(b, ts[..|ts|-1]);
      TickBooks(s, t);
      TickRowsKnown(s, t);
      GenNeverFalls(s, t);
    }
  }

  /** Before its first iteration the loop has booked at most the stretch the process was down, when that passed two minutes. */
  lemma BootBooks(b: Boot)
    ensures var s := Begin(b);
            s.past.booked == if b.downSince.Some? && b.wall.wall - b.downSince.value.wall > 120 * NS
                             then [PendingGap(b.downSince.value, Seconds(b.wall.wall - b.downSince.value.wall), 0, 0, 0, true)] else []
    ensures Begin(b).lastWall == b.lastWall && Begin(b).lastWait == b.interval
  {
    var s := FreshState(b);
    if b.downSince.Some? {
      OfferBooks(s, StartupGap(b), b.gap);
      if b.wall.wall - b.downSince.value.wall > STARTUP_GAP_MIN {
        s := Offer(s, StartupGap(b), b.gap);
      }
    }
    if b.round.Some? {
      RoundBooks(s, b.round.value);
    }
  }

  lemma SleptRowDeducts(s: State, t: Tick)
    requires Ledger(s, []) && ValidTick(s, t) && !s.link.online
    ensures Deductions(TickRows(s, t), s.outageGen)
            == if Slept(s, t.now) && s.pauseSpanStart.None? then GapRow(s, t.now).deduct else 0
  {
    var a := if Slept(s, t.now) && s.pauseSpanStart.None? then [GapRow(s, t.now)] else [];
    var b := if Resumes(s, t) && SliceDue(s, t.flushAt, 1) then [SliceRow(s, t.flushAt)] else [];
    var c := if StillPaused(s, t) && SliceDue(s, t.pausedNow, 300 * NS) then [SliceRow(s, t.pausedNow)] else [];
    SumsConcat(a + b, c, s.outageGen);
    SumsConcat(a, b, s.outageGen);
    SumsOfOne(GapRow(s, t.now), s.outageGen);
    if s.pauseSpanStart.Some? {
      SumsOfOne(SliceRow(s, t.flushAt), s.outageGen);
      SumsOfOne(SliceRow(s, t.pausedNow), s.outageGen);
    }
  }

  lemma SameOutageSameGen(s: State, t: Tick)
    requires Ledger(s, []) && ValidTick(s, t) && !s.link.online && !Iterate(s, t).link.online
    ensures Iterate(s, t).outageGen == s.outageGen
  {
    LinkBeforeRound(s, t);
    var r := BeforeRound(s, t);
    FlushPauseFrame(r, t.pausedNow, false, t.checkpoint);
    if t.openAtSwitch && t.round.Some? {
      FlushEventsFrame(r.(lastWait := 0), t.round.value.retries);
    }
  }

  lemma NewOutageNewGen(s: State, t: Tick)
    requires Ledger(s, []) && ValidTick(s, t) && s.link.online && !Iterate(s, t).link.online
    ensures Iterate(s, t).outageGen == s.outageGen + 1
  {
    LinkBeforeRound(s, t);
    var r := BeforeRound(s, t);
    FlushPauseFrame(r, t.pausedNow, false, t.checkpoint);
    if t.openAtSwitch && t.round.Some? {
      FlushEventsFrame(r.(lastWait := 0), t.round.value.retries);
    }
  }

  function SleepCredit(s: State, t: Tick): int {
    if Slept(s, t.now) && s.pauseSpanStart.None? then GapRow(s, t.now).deduct else 0
  }

  lemma BookedStep(s: State, t: Tick)
    requires Ledger(s, []) && ValidTick(s, t) && BookedKnown(s) && !Iterate(s, t).link.online
    ensures var u := Iterate(s, t);
            Deductions(u.past.booked, u.outageGen)
            == if s.link.online then 0 else Deductions(s.past.booked, s.outageGen) + SleepCredit(s, t)
  {
    TickBooks(s, t);
    if s.link.online {
      TickRowsKnown(s, t);
      NewOutageNewGen(s, t);
      SumsOfOlder(s.past.booked + TickRows(s, t), s.outageGen + 1);
    } else {
      SameOutageSameGen(s, t);
      SleptRowDeducts(s, t);
      SumsConcat(s.past.booked, TickRows(s, t), s.outageGen);
    }
  }

  lemma BootDeducts(b: Boot)
    ensures Deductions(Begin(b).past.booked, Begin(b).outageGen) == 0
  {
    BootBooks(b);
    var s := Begin(b);
    if s.past.booked != [] {
      SumsOfOne(s.past.booked[0], s.outageGen);
    }
  }

  /** The corrections booked for the open outage are what the clock counted of its sleeps. */
  lemma {:induction false} BookedDeductionsAreTheSleeps(b: Boot, ts: seq<Tick>)
    requires ValidRun(b, ts) && !RunTicks(b, ts).link.online
    ensures Deductions(RunTicks(b, ts).past.booked, RunTicks(b, ts).outageGen) == UnwatchedOf(b, ts).sleeps
  {
    if ts == [] {
      BootDeducts(b);
    } else {
      var pre := ts[..|ts|-1];
      RunKeepsLedger(b, pre);
      BookedAreKnown(b, pre);
      BookedStep(RunTicks(b, pre), ts[|ts|-1]);
      if !RunTicks(b, pre).link.online {
        BookedDeductionsAreTheSleeps(b, pre);
      }
    }
  }

  // -------------------------------------------------- meter and clock time

  /** The clock-only reading next to the meter: as far along, and never behind. */
  predicate Bounds(w: Unwatched, m: Meter) {
    && m.folded <= w.pauses
    && (w.open.Some? <==> m.open.Some?) && (w.open.Some? ==> w.open.value == m.open.value.at)
  }

  lemma {:induction false} MovedOnlyForward(at: Instant, refused: seq<PendingGap>, gen: nat)
    requires forall p :: p in refused ==> Wf(p)
    ensures at.mono <= Moved(at, refused, gen).mono
  {
    if refused != [] {
      MovedOnlyForward(at, refused[..|refused|-1], gen);
      assert refused[|refused|-1] in refused;
    }
  }

  lemma {:induction false} UntouchedIsUnmoved(at: Instant, refused: seq<PendingGap>, gen: nat)
    requires forall p :: p in refused ==> p.gen != gen
    ensures Moved(at, refused, gen) == at
  {
    if refused != [] {
      UntouchedIsUnmoved(at, refused[..|refused|-1], gen);
      assert refused[|refused|-1] in refused;
    }
  }

  /** No row of the open outage was lost: refused by the store, or evicted from the queue. */
  predicate Clean(s: State) {
    && (forall p :: p in s.past.refused ==> p.gen != s.outageGen)
    && (forall p :: p in s.past.evicted ==> p.gen != s.outageGen)
  }

  lemma {:induction false} NoneOfGen(ps: seq<PendingGap>, gen: nat)
    requires forall p :: p in ps ==> p.gen != gen
    ensures Deductions(ps, gen) == 0
  {
    if ps != [] {
      assert ps[0] in ps;
      NoneOfGen(ps[1..], gen);
    }
  }

  lemma LostWereBooked(s: State)
    requires OutageConservation.Kept(s) && BookedKnown(s)
    ensures forall p :: p in s.past.refused || p in s.past.evicted ==> Wf(p)
  {
    forall p | p in s.past.refused || p in s.past.evicted ensures Wf(p) {
      assert p in multiset(s.past.booked);
    }
  }

  /** From a meter that shows the paused total to the clock time it stands for. */
  lemma PausedAgainstUnwatched(s: State, w: Unwatched, m: Meter)
    requires OutageConservation.Kept(s) && BookedKnown(s) && PausedIs(s, m.folded, []) && m.folded <= w.pauses
    requires Deductions(s.past.booked, s.outageGen) == w.sleeps
    ensures s.pausedGap <= w.pauses + w.sleeps
    ensures Clean(s) && m.folded == w.pauses ==> s.pausedGap == w.pauses + w.sleeps
  {
    DeductionsAreConserved(s, s.outageGen);
    LostWereBooked(s);
    DeductionsNonNegative(s.past.refused, s.outageGen);
    DeductionsNonNegative(s.past.evicted, s.outageGen);
    if Clean(s) {
      NoneOfGen(s.past.refused, s.outageGen);
      NoneOfGen(s.past.evicted, s.outageGen);
    }
  }

  // ---------------------------------------------- records only accumulate

  predicate Grows(s: State, t: State) {
    s.past.refused <= t.past.refused && s.past.evicted <= t.past.evicted
  }

  lemma OfferGrows(s: State, p: PendingGap, o: Outcome)
    ensures Grows(s, Offer(s, p, o))
  {
    OfferFilesTheAnswer(s, p, o);
  }

  lemma CheckGapGrows(s: State, t: Tick)
    ensures Grows(s, CheckGap(s, t))
  {
    RetryFilesEveryAnswer(s, t.gaps);
    FlushEventsFrame(RetryHeldGaps(s, t.gaps), t.events);
    var f := FlushPendingEvents(RetryHeldGaps(s, t.gaps), t.events);
    assert Grows(s, f);
    var gap := UnobservedGap(f.lastWall, t.now, f.lastWait + SUSPEND_GAP_SLACK);
    if gap != 0 && f.pauseSpanStart.None? {
      var p := GapRecord(f, gap, t.now.Sub(f.lastWall));
      OfferGrows(CreditGap(f, p), p, t.gap);
    }
  }

  lemma FlushPauseGrows(s: State, end: Instant, force: bool, o: Outcome)
    ensures Grows(s, FlushPause(s, end, force, o))
  {
    if s.pauseSpanStart.Some? {
      var start := s.pauseSpanStart.value;
      var p := PauseRecord(s, start, PauseSpan(start, end));
      OfferGrows(CreditPause(s, p, end.Sub(start)), p, o);
    }
  }

  lemma BeforeRoundGrows(s: State, t: Tick)
    ensures Grows(s, BeforeRound(s, t))
  {
    CheckGapGrows(s, t);
    FlushPauseGrows(CheckGap(s, t), t.flushAt, true, t.flush);
  }

  lemma AfterRoundGrows(s: State, t: Tick)
    ensures Grows(BeforeRound(s, t), Iterate(s, t))
  {
    var r := BeforeRound(s, t);
    FlushPauseGrows(r, t.pausedNow, false, t.checkpoint);
    if t.openAtSwitch && t.round.Some? {
      RoundBooks(r.(lastWait := 0), t.round.value);
    }
  }

  lemma BeforeRoundIsKept(s: State, t: Tick)
    requires OutageConservation.Kept(s)
    ensures OutageConservation.Kept(BeforeRound(s, t))
  {
    OutageConservation.CheckGapKept(s, t);
    OutageConservation.ResumeKept(CheckGap(s, t), t);
  }

  lemma BeforeRoundRows(s: State, t: Tick)
    requires Ledger(s, []) && ValidTick(s, t)
    ensures var a := if Slept(s, t.now) && s.pauseSpanStart.None? then [GapRow(s, t.now)] else [];
            var b := if Resumes(s, t) && SliceDue(s, t.flushAt, 1) then [SliceRow(s, t.flushAt)] else [];
            BeforeRound(s, t).past.booked == s.past.booked + a + b
  {
    CheckGapBooks(s, t);
    ResumeBooks(CheckGap(s, t), t);
  }

  lemma BeforeRoundIsKnown(s: State, t: Tick)
    requires Ledger(s, []) && ValidTick(s, t) && BookedKnown(s)
    ensures BookedKnown(BeforeRound(s, t))
  {
    BeforeRoundRows(s, t);
    LinkBeforeRound(s, t);
    SleptIsTheGap(s, t.now);
  }

  lemma BeforeRoundDeducts(s: State, t: Tick)
    requires Ledger(s, []) && ValidTick(s, t) && !s.link.online
    ensures Deductions(BeforeRound(s, t).past.booked, s.outageGen) == Deductions(s.past.booked, s.outageGen) + SleepCredit(s, t)
  {
    BeforeRoundRows(s, t);
    var a := if Slept(s, t.now) && s.pauseSpanStart.None? then [GapRow(s, t.now)] else [];
    var b := if Resumes(s, t) && SliceDue(s, t.flushAt, 1) then [SliceRow(s, t.flushAt)] else [];
    SumsConcat(s.past.booked + a, b, s.outageGen);
    SumsConcat(s.past.booked, a, s.outageGen);
    SumsOfOne(GapRow(s, t.now), s.outageGen);
    if s.pauseSpanStart.Some? {
      SumsOfOne(SliceRow(s, t.flushAt), s.outageGen);
    }
  }

  // ------------------------------------------------------------ whole runs

  /** Both readings advance together through an iteration up to its round. */
  lemma BoundsAtRound(s: State, t: Tick, w: Unwatched, m: Meter)
    requires Ledger(s, []) && ValidTick(s, t) && !s.link.online && Bounds(w, m)
    requires OutageConservation.Kept(s) && BookedKnown(s)
    ensures Bounds(UnwatchedAtRound(w, s, t), AtRound(m, s, t))
    ensures w.pauses == m.folded && Clean(BeforeRound(s, t)) ==> UnwatchedAtRound(w, s, t).pauses == AtRound(m, s, t).folded
  {
    LinkBeforeRound(s, t);
    var r := BeforeRound(s, t);
    BeforeRoundIsKept(s, t);
    BeforeRoundIsKnown(s, t);
    LostWereBooked(r);
    if w.open.Some? {
      var o := m.open.value;
      assert forall p :: p in From(r.past.refused, o.from) ==> p in r.past.refused;
      MovedOnlyForward(o.at, From(r.past.refused, o.from), s.outageGen);
      if Clean(r) {
        UntouchedIsUnmoved(o.at, From(r.past.refused, o.from), s.outageGen);
      }
    }
  }

  lemma TotalsBeforeRound(s: State, t: Tick, w: Unwatched, m: Meter)
    requires Ledger(s, []) && ValidTick(s, t) && !s.link.online && Shows(s, m) && Bounds(w, m)
    requires OutageConservation.Kept(s) && BookedKnown(s) && (Clean(s) ==> w.pauses == m.folded)
    requires Deductions(s.past.booked, s.outageGen) == w.sleeps
    ensures var r, v := BeforeRound(s, t), UnwatchedAtRound(w, s, t);
            && r.pausedGap <= v.pauses + v.sleeps
            && (Clean(r) ==> r.pausedGap == v.pauses + v.sleeps)
  {
    ShowsAtRound(s, t, m);
    BeforeRoundIsKept(s, t);
    BeforeRoundIsKnown(s, t);
    BeforeRoundDeducts(s, t);
    LinkBeforeRound(s, t);
    BoundsAtRound(s, t, w, m);
    BeforeRoundGrows(s, t);
    PausedAgainstUnwatched(BeforeRound(s, t), UnwatchedAtRound(w, s, t), AtRound(m, s, t));
  }

  /** The state before an iteration's round, and the clock reading it goes by. */
  lemma TotalsAtRound(b: Boot, ts: seq<Tick>, t: Tick)
    requires ValidRun(b, ts) && ValidTick(RunTicks(b, ts), t) && !RunTicks(b, ts).link.online
    ensures var s := RunTicks(b, ts); var r, w := BeforeRound(s, t), UnwatchedAtRound(UnwatchedOf(b, ts), s, t);
            && r.pausedGap <= w.pauses + w.sleeps
            && (Clean(r) ==> r.pausedGap == w.pauses + w.sleeps)
  {
    RunKeepsLedger(b, ts);
    EveryRunShowsItsMeter(b, ts);
    OutageConservation.RunKeepsEverything(b, ts);
    BookedAreKnown(b, ts);
    BookedDeductionsAreTheSleeps(b, ts);
    UnwatchedBoundsTheMeter(b, ts);
    TotalsBeforeRound(RunTicks(b, ts), t, UnwatchedOf(b, ts), MeterOf(b, ts));
  }

  lemma CleanEarlier(s: State, t: Tick)
    requires Ledger(s, []) && ValidTick(s, t) && !s.link.online && !Iterate(s, t).link.online && Clean(Iterate(s, t))
    ensures Clean(BeforeRound(s, t)) && Clean(s)
  {
    BeforeRoundGrows(s, t);
    AfterRoundGrows(s, t);
    SameOutageSameGen(s, t);
    LinkBeforeRound(s, t);
  }

  lemma BoundsStep(s: State, t: Tick, w: Unwatched, m: Meter)
    requires Ledger(s, []) && ValidTick(s, t) && !s.link.online && !Iterate(s, t).link.online && Bounds(w, m)
    requires OutageConservation.Kept(s) && BookedKnown(s) && (Clean(s) ==> w.pauses == m.folded)
    ensures var v := UnwatchedAfterPause(UnwatchedAtRound(w, s, t), s, t);
            var n := AfterPause(AtRound(m, s, t), BeforeRound(s, t), t);
            Bounds(v, n) && (Clean(Iterate(s, t)) ==> v.pauses == n.folded)
  {
    BoundsAtRound(s, t, w, m);
    BoundsAfterPause(s, t, UnwatchedAtRound(w, s, t), AtRound(m, s, t));
    if Clean(Iterate(s, t)) {
      CleanEarlier(s, t);
    }
  }

  lemma {:induction false} UnwatchedBoundsTheMeter(b: Boot, ts: seq<Tick>)
    requires ValidRun(b, ts) && !RunTicks(b, ts).link.online
    ensures Bounds(UnwatchedOf(b, ts), MeterOf(b, ts))
    ensures Clean(RunTicks(b, ts)) ==> UnwatchedOf(b, ts).pauses == MeterOf(b, ts).folded
  {
    if ts != [] && !RunTicks(b, ts[..|ts|-1]).link.online {
      var pre := ts[..|ts|-1];
      UnwatchedBoundsTheMeter(b, pre);
      RunKeepsLedger(b, pre);
      OutageConservation.RunKeepsEverything(b, pre);
      BookedAreKnown(b, pre);
      BoundsStep(RunTicks(b, pre), ts[|ts|-1], UnwatchedOf(b, pre), MeterOf(b, pre));
    }
  }

  lemma BoundsAfterPause(s: State, t: Tick, w: Unwatched, m: Meter)
    requires Ledger(s, []) && ValidTick(s, t) && Bounds(w, m)
    ensures var v := UnwatchedAfterPause(w, s, t);
            var n := AfterPause(m, BeforeRound(s, t), t);
            Bounds(v, n) && n.folded == m.folded && v.pauses == w.pauses
  {
    LinkBeforeRound(s, t);
    CheckGapBooks(s, t);
    ResumeBooks(CheckGap(s, t), t);
  }

  /**
   In every run the paused total of an open outage is at most its unwatched time:
   the pauses it saw end and what the monotonic clock counted of its sleeps. When
   none of its rows was refused or evicted it is that time exactly.
   */
  lemma PausedTotalIsTheUnwatchedTime(b: Boot, ts: seq<Tick>)
    requires ValidRun(b, ts) && !RunTicks(b, ts).link.online
    ensures var s, w := RunTicks(b, ts), UnwatchedOf(b, ts);
            && s.pausedGap <= w.pauses + w.sleeps
            && (Clean(s) ==> s.pausedGap == w.pauses + w.sleeps)
  {
    OutageConservation.RunKeepsEverything(b, ts);
    BookedAreKnown(b, ts);
    EveryRunShowsItsMeter(b, ts);
    BookedDeductionsAreTheSleeps(b, ts);
    UnwatchedBoundsTheMeter(b, ts);
    PausedAgainstUnwatched(RunTicks(b, ts), UnwatchedOf(b, ts), MeterOf(b, ts));
  }
}
