/**
 The one way an outage's pair comes out too narrow: the probing gate opens
 between its two readings in one iteration, a due round runs inside the open
 pause, and the recovery it confirms is stamped before the pause is folded.
 */
module OutageRace {
  import opened Wrappers
  import opened Clock
  import opened Debounce
  import opened Outage

  /** `x` seconds into the example, on agreeing clocks. */
  function At(x: int): Instant {
    Instant((1700000000 + x) * NS, x * NS)
  }

  function RoundAt(x: int, up: bool): Probing {
    Probing([], Some(Round(At(x), up, false, 1, 1)), true)
  }

  function TickAt(x: int, openAtSwitch: bool, round: Option<Probing>): Tick {
    Tick(At(x), [], [], Stored, false, At(x), Stored, At(x), openAtSwitch, At(x), Stored, round, 5 * NS)
  }

  const BOOT := Boot(At(0), None, None, At(0), Stored, Some(RoundAt(0, false)), At(0), 5 * NS)
  const OPENS := TickAt(1, false, None)
  const CHECKPOINTS := TickAt(301, false, None)
  const RECOVERS := TickAt(331, true, Some(RoundAt(331, true)))

  function AfterDown(): State {
    Begin(BOOT)
  }

  /** The first round of a fresh monitor, failing with down-after one. */
  lemma FirstRoundFails(s: State)
    requires s.link == Start(At(0)) && s.lastEventWall.None? && s.pauseSpanStart.None? && s.past.recoveries == []
    ensures var r := Round(At(0), false, false, 1, 1);
            var t := s.(link := Fold(s.link, r));
            DebounceRound(s, r, true) == EmitEvent(TurnOver(t, At(0), 1700000000, []), EventRow(1700000000, false, -1), true)
  {
    var r := Round(At(0), false, false, 1, 1);
    var t := s.(link := Fold(s.link, r));
    assert Flip(t.link, r) == Some(At(0));
    assert EventWall(t, At(0)) == 1700000000;
  }

  lemma BeginIsItsRound(b: Boot, r: Round)
    requires b.downSince.None? && b.round == Some(Probing([], Some(r), true))
    ensures Begin(b) == DebounceRound(FreshState(b), r, true).(lastWall := b.lastWall, lastWait := b.interval)
  {
    assert FlushPendingEvents(FreshState(b), []) == FreshState(b);
  }

  lemma DownIsRecorded()
    ensures var s := AfterDown();
            && !s.link.online && s.link.since == At(0) && s.lastEventWall == Some(1700000000) && s.pendingEvents == []
            && s.held == [] && !s.paused && s.pauseSpanStart.None? && s.lastWall == At(0) && s.lastWait == 5 * NS
            && s.pausedGap == 0 && s.frozenGap == 0 && s.outageGen == 1 && s.past.recoveries == [] && s.past.stored == []
            && s.past.loose == 0 && s.downPausedAt.None?
            && s.past.emitted == [EventRow(1700000000, false, -1)]
  {
    FirstRoundFails(FreshState(BOOT));
    BeginIsItsRound(BOOT, Round(At(0), false, false, 1, 1));
  }

  lemma PauseOpens(s: State)
    requires !s.link.online && s.held == [] && s.pendingEvents == [] && !s.paused && s.pauseSpanStart.None?
    requires s.lastWall == At(0) && s.lastWait == 5 * NS && s.downPausedAt.None?
    ensures Iterate(s, OPENS)
            == s.(paused := true, pauseSpanStart := Some(At(1)), downPausedAt := Some(At(1)),
                  lastWall := At(1), lastWait := SCHEDULE_RECHECK, link := ResetStreaks(s.link),
                  past := s.past.(charges := s.past.charges + 1))
  {
    assert RetryHeldGaps(s, []) == s;
    assert FlushPendingEvents(s, []) == s;
    assert CheckGap(s, OPENS) == s.(lastWall := At(1));
  }

  lemma RowIsBooked(s: State)
    requires !s.link.online && s.held == [] && s.pendingEvents == [] && s.past.stored == [] && s.outageGen == 1
    requires s.paused && s.pauseSpanStart == Some(At(1)) && s.downPausedAt == Some(At(1))
    requires s.lastWall == At(1) && s.lastWait == SCHEDULE_RECHECK && s.frozenGap == 0 && s.past.loose == 0
    ensures var t := Iterate(s, CHECKPOINTS); var p := PendingGap(At(1), 300, 0, 0, 1, true);
            t == s.(pauseSpanStart := Some(At(301)), lastWall := At(301), link := ResetStreaks(s.link),
                    past := s.past.(booked := s.past.booked + [p], stored := [p]))
  {
    assert RetryHeldGaps(s, []) == s;
    assert FlushPendingEvents(s, []) == s;
    assert CheckGap(s, CHECKPOINTS) == s.(lastWall := At(301));
  }

  lemma RecoveryFallsShort(s: State)
    requires !s.link.online && s.held == [] && s.pendingEvents == [] && s.outageGen == 1
    requires s.past.stored == [PendingGap(At(1), 300, 0, 0, 1, true)] && s.past.recoveries == []
    requires s.paused && s.pauseSpanStart == Some(At(301)) && s.downPausedAt == Some(At(1)) && s.past.loose == 0
    requires s.lastWall == At(301) && s.lastWait == SCHEDULE_RECHECK && s.frozenGap == 0 && s.pausedGap == 0
    requires s.link.since == At(0) && s.link.okStreak == 0 && s.lastEventWall == Some(1700000000)
    ensures var rs := Iterate(s, RECOVERS).past.recoveries;
            && |rs| == 1 && rs[0].duration == 331 && rs[0].rows == 300 && rs[0].up - rs[0].down == 331
  {
    assert RetryHeldGaps(s, []) == s;
    assert FlushPendingEvents(s, []) == s;
    var c := CheckGap(s, RECOVERS);
    assert c == s.(lastWall := At(331));
    var g := c.(lastWait := 0);
    assert FlushPendingEvents(g, []) == g;
    var f := g.(link := Fold(g.link, RECOVERS.round.value.result.value));
    assert Flip(f.link, RECOVERS.round.value.result.value) == Some(At(331));
    assert s.past.stored[1..] == [];
    assert RowSeconds(f.past.stored, 1) == 300;
  }

  lemma RunUnrolls(b: Boot, t1: Tick, t2: Tick, t3: Tick)
    ensures RunTicks(b, [t1, t2, t3]) == Iterate(Iterate(Iterate(Begin(b), t1), t2), t3)
    ensures ValidRun(b, [t1, t2, t3])
            <==> ValidBoot(b) && ValidTick(Begin(b), t1) && ValidTick(Iterate(Begin(b), t1), t2)
                 && ValidTick(Iterate(Iterate(Begin(b), t1), t2), t3)
  {
    var ts := [t1, t2, t3];
    assert ts[..2] == [t1, t2] && [t1, t2][..1] == [t1] && [t1][..0] == [];
    assert RunTicks(b, []) == Begin(b) && (ValidRun(b, []) <==> ValidBoot(b));
    assert RunTicks(b, [t1]) == Iterate(Begin(b), t1);
    assert ValidRun(b, [t1]) <==> ValidBoot(b) && ValidTick(Begin(b), t1);
    assert RunTicks(b, [t1, t2]) == Iterate(Iterate(Begin(b), t1), t2);
    assert ValidRun(b, [t1, t2]) <==> ValidRun(b, [t1]) && ValidTick(Iterate(Begin(b), t1), t2);
  }

  lemma TicksAreValid(s0: State, s1: State, s2: State)
    requires s0.lastWall == At(0) && s0.pauseSpanStart.None?
    requires s1.lastWall == At(1) && s1.pauseSpanStart == Some(At(1))
    requires s2.lastWall == At(301) && s2.pauseSpanStart == Some(At(301))
    ensures ValidBoot(BOOT) && ValidTick(s0, OPENS) && ValidTick(s1, CHECKPOINTS) && ValidTick(s2, RECOVERS)
  {
  }

  /**
   A run in which the stored pair holds 331 seconds and has to hold 331
   observed plus 300 paused: the guarantee needs the run to be calm.
   */
  lemma RoundInsideAnOpenPauseFallsShort()
    ensures var ts := [OPENS, CHECKPOINTS, RECOVERS];
            && ValidRun(BOOT, ts)
            && var rs := RunTicks(BOOT, ts).past.recoveries;
               |rs| == 1 && 0 < rs[0].duration && rs[0].up - rs[0].down < rs[0].duration + rs[0].rows
  {
    var s0 := AfterDown();
    DownIsRecorded();
    PauseOpens(s0);
    var s1 := Iterate(s0, OPENS);
    RowIsBooked(s1);
    var s2 := Iterate(s1, CHECKPOINTS);
    RecoveryFallsShort(s2);
    TicksAreValid(s0, s1, s2);
    RunUnrolls(BOOT, OPENS, CHECKPOINTS, RECOVERS);
  }
}
