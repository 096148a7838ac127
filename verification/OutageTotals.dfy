/**
 The two totals of an open outage, exactly. In every run the paused total is the
 monotonic length of the pauses resumed so far plus what the suspend rows still
 stored or held give back; the frozen total is what the slices' rows exceed their
 monotonic time by, plus what those suspend rows froze.
 */
module OutageTotals {
  import opened Wrappers
  import opened Clock
  import opened Debounce
  import opened Outage
  import opened OutageLaws
  import opened OutageWrites
  import opened OutageBooks

  function Frozens(ps: seq<PendingGap>, gen: nat): int {
    if ps == [] then 0 else Frozens(ps[..|ps|-1], gen) + if ps[|ps|-1].gen == gen then ps[|ps|-1].frozen else 0
  }

  lemma {:induction false} FrozensConcat(a: seq<PendingGap>, b: seq<PendingGap>, gen: nat)
    ensures Frozens(a + b, gen) == Frozens(a, gen) + Frozens(b, gen)
  {
    if b == [] {
      assert a + b == a;
    } else {
      assert (a + b)[..|a + b| - 1] == a + b[..|b|-1];
      FrozensConcat(a, b[..|b|-1], gen);
    }
  }

  lemma FrozensOfOne(p: PendingGap, gen: nat)
    ensures Frozens([p], gen) == if p.gen == gen then p.frozen else 0
  {
    assert [p][..0] == [];
  }

  lemma {:induction false} FrozensOfOlder(ps: seq<PendingGap>, gen: nat)
    requires forall p :: p in ps ==> p.gen < gen
    ensures Frozens(ps, gen) == 0
  {
    if ps != [] {
      assert ps[|ps|-1] in ps;
      FrozensOfOlder(ps[..|ps|-1], gen);
    }
  }

  lemma {:induction false} FrozensNonNegative(ps: seq<PendingGap>, gen: nat)
    requires forall p :: p in ps ==> Wf(p)
    ensures Frozens(ps, gen) >= 0
  {
    if ps != [] {
      assert ps[|ps|-1] in ps;
      FrozensNonNegative(ps[..|ps|-1], gen);
    }
  }

  // ---------------------------------------------------- the pause anchor

  /** A pause begun at `at` while the outage was open, when the store had refused `from` records. */
  datatype Opened = Opened(at: Instant, from: nat)

  /** A refused slice of this pause takes its seconds off the front; any other record leaves the start alone. */
  function MovedBy(at: Instant, p: PendingGap, gen: nat): Instant {
    if p.pause && p.gen == gen && at.mono <= p.start.mono then Instant(at.wall + p.secs * NS, at.mono + p.secs * NS) else at
  }

  /** Where a pause's unwatched time starts once these records were refused, in that order. */
  function Moved(at: Instant, refused: seq<PendingGap>, gen: nat): Instant {
    if refused == [] then at else MovedBy(Moved(at, refused[..|refused|-1], gen), refused[|refused|-1], gen)
  }

  lemma MovedSnoc(at: Instant, refused: seq<PendingGap>, p: PendingGap, gen: nat)
    ensures Moved(at, refused + [p], gen) == MovedBy(Moved(at, refused, gen), p, gen)
  {
    assert (refused + [p])[..|refused|] == refused;
  }

  function From<T>(xs: seq<T>, n: nat): seq<T> {
    if n <= |xs| then xs[n..] else []
  }

  predicate AnchorIs(s: State, open: Option<Opened>) {
    match open
    case None => s.downPausedAt.None?
    case Some(o) => o.from <= |s.past.refused| && s.downPausedAt == Some(Moved(o.at, From(s.past.refused, o.from), s.outageGen))
  }

  lemma RefusalMovesTheAnchor(s: State, p: PendingGap)
    ensures var t := Settle(s, p, Refused);
            && t.past.refused == s.past.refused + [p] && t.outageGen == s.outageGen
            && t.downPausedAt == if s.downPausedAt.None? then None else Some(MovedBy(s.downPausedAt.value, p, s.outageGen))
  {
  }

  lemma SettleKeepsAnchor(s: State, p: PendingGap, o: Outcome, open: Option<Opened>)
    requires AnchorIs(s, open) && Wf(p)
    ensures AnchorIs(Settle(s, p, o), open)
  {
    if o.Refused? {
      RefusalMovesTheAnchor(s, p);
      if open.Some? {
        var n, rs := open.value.from, s.past.refused;
        assert From(rs + [p], n) == From(rs, n) + [p];
        MovedSnoc(open.value.at, From(rs, n), p, s.outageGen);
      }
    }
  }

  lemma AppendKeepsAnchor(s: State, p: PendingGap, open: Option<Opened>)
    requires AnchorIs(s, open)
    ensures AnchorIs(AppendHeldGap(s, p), open)
  {
  }

  lemma OfferKeepsAnchor(s: State, p: PendingGap, o: Outcome, open: Option<Opened>)
    requires AnchorIs(s, open) && Wf(p)
    ensures AnchorIs(Offer(s, p, o), open)
  {
    var b := s.(past := s.past.(booked := s.past.booked + [p]));
    AppendKeepsAnchor(b, p, open);
    SettleKeepsAnchor(b, p, o, open);
  }

  lemma {:induction false} RetryKeepsAnchor(s: State, todo: seq<PendingGap>, os: seq<Outcome>, open: Option<Opened>)
    requires AnchorIs(s, open) && forall p :: p in todo ==> Wf(p)
    ensures AnchorIs(RetryFrom(s, todo, os), open)
    decreases |todo|
  {
    if todo != [] {
      SettleKeepsAnchor(s, todo[0], Next(os), open);
      RetryKeepsAnchor(if Next(os).Failed? then s.(held := s.held + [todo[0]]) else Settle(s, todo[0], Next(os)), todo[1..], Rest(os), open);
    }
  }

  // ---------------------------------------------------- the paused total

  /** What the suspend rows of incarnation `gen` still on the books give back. */
  function GivenBack(s: State, todo: seq<PendingGap>): int {
    Deductions(s.past.stored, s.outageGen) + Deductions(s.held, s.outageGen) + Deductions(todo, s.outageGen)
  }

  predicate PausedIs(s: State, folded: int, todo: seq<PendingGap>) {
    0 <= folded && s.pausedGap == folded + GivenBack(s, todo)
  }

  lemma GivenBackNonNegative(s: State, todo: seq<PendingGap>)
    requires Ledger(s, todo)
    ensures Deductions(s.past.stored, s.outageGen) >= 0 && Deductions(s.held, s.outageGen) >= 0 && Deductions(todo, s.outageGen) >= 0
  {
    DeductionsNonNegative(s.past.stored, s.outageGen);
    DeductionsNonNegative(s.held, s.outageGen);
    DeductionsNonNegative(todo, s.outageGen);
  }

  lemma SettleKeepsPaused(s: State, p: PendingGap, todo: seq<PendingGap>, o: Outcome, folded: int)
    requires Ledger(s, [p] + todo) && !o.Failed? && PausedIs(s, folded, [p] + todo)
    ensures PausedIs(Settle(s, p, o), folded, todo)
  {
    TakeOne(s, p, todo);
    GivenBackNonNegative(s, [p] + todo);
    SumsSnoc(s.past.stored, p, s.outageGen);
  }

  lemma KeepKeepsPaused(s: State, p: PendingGap, todo: seq<PendingGap>, folded: int)
    requires Ledger(s, [p] + todo) && PausedIs(s, folded, [p] + todo)
    ensures PausedIs(s.(held := s.held + [p]), folded, todo)
  {
    TakeOne(s, p, todo);
    SumsSnoc(s.held, p, s.outageGen);
  }

  /** The oldest held record, evicted. */
  function Evict(s: State): State
    requires s.held != []
  {
    var r := RevertGapDeduction(s, s.held[0]);
    r.(held := r.held[1..], past := r.past.(evicted := r.past.evicted + [s.held[0]]))
  }

  lemma EvictKeepsPaused(s: State, todo: seq<PendingGap>, folded: int)
    requires Ledger(s, todo) && s.held != [] && PausedIs(s, folded, todo)
    ensures PausedIs(Evict(s), folded, todo)
  {
    var p, rest := s.held[0], s.held[1..];
    assert s.held == [p] + rest && p in s.held;
    SumsConcat([p], rest, s.outageGen);
    SumsOfOne(p, s.outageGen);
    GivenBackNonNegative(s, todo);
    assert forall q :: q in rest ==> q in s.held;
    DeductionsNonNegative(rest, s.outageGen);
  }

  lemma OfferKeepsPaused(s: State, p: PendingGap, o: Outcome, folded: int)
    requires Ledger(s, [p]) && PausedIs(s, folded, [p])
    ensures PausedIs(Offer(s, p, o), folded, [])
  {
    assert [p] + [] == [p];
    var b := s.(past := s.past.(booked := s.past.booked + [p]));
    assert Ledger(b, [p]) && PausedIs(b, folded, [p]);
    if !o.Failed? {
      SettleKeepsPaused(b, p, [], o, folded);
    } else if |s.held| >= MAX_HELD_GAPS {
      EvictKeepsLedger(b, [p]);
      EvictKeepsPaused(b, [p], folded);
      KeepKeepsPaused(Evict(b), p, [], folded);
    } else {
      KeepKeepsPaused(b, p, [], folded);
    }
  }

  lemma {:induction false} RetryKeepsPaused(s: State, todo: seq<PendingGap>, os: seq<Outcome>, folded: int)
    requires Ledger(s, todo) && PausedIs(s, folded, todo)
    ensures PausedIs(RetryFrom(s, todo, os), folded, [])
    decreases |todo|
  {
    if todo != [] {
      var p, rest := todo[0], todo[1..];
      assert todo == [p] + rest;
      if Next(os).Failed? {
        KeepKeepsLedger(s, p, rest);
        KeepKeepsPaused(s, p, rest, folded);
        RetryKeepsPaused(s.(held := s.held + [p]), rest, Rest(os), folded);
      } else {
        SettleKeepsLedger(s, p, rest, Next(os));
        SettleKeepsPaused(s, p, rest, Next(os), folded);
        RetryKeepsPaused(Settle(s, p, Next(os)), rest, Rest(os), folded);
      }
    }
  }

  // ---------------------------------------------------- the frozen total

  function Froze(s: State, todo: seq<PendingGap>): int {
    Frozens(s.past.stored, s.outageGen) + Frozens(s.held, s.outageGen) + Frozens(todo, s.outageGen)
  }

  /** Exact but for the clamp at zero when a correction is taken back, which is worth no more than the slices fell short by. */
  predicate FrozenIs(s: State, residue: int, slack: int, todo: seq<PendingGap>) {
    && 0 <= slack && 0 <= residue + slack
    && residue + Froze(s, todo) <= s.frozenGap <= residue + Froze(s, todo) + slack
  }

  lemma TakeOneFrozen(s: State, p: PendingGap, todo: seq<PendingGap>)
    requires Ledger(s, [p] + todo)
    ensures Frozens([p] + todo, s.outageGen) == (if p.gen == s.outageGen then p.frozen else 0) + Frozens(todo, s.outageGen)
    ensures Frozens(todo, s.outageGen) >= 0 && Frozens(s.held, s.outageGen) >= 0 && Frozens(s.past.stored, s.outageGen) >= 0 && Wf(p)
  {
    FrozensConcat([p], todo, s.outageGen);
    FrozensOfOne(p, s.outageGen);
    assert p in [p] + todo;
    assert forall q :: q in todo ==> q in [p] + todo;
    FrozensNonNegative(todo, s.outageGen);
    FrozensNonNegative(s.held, s.outageGen);
    FrozensNonNegative(s.past.stored, s.outageGen);
  }

  lemma FrozensSnoc(ps: seq<PendingGap>, p: PendingGap, gen: nat)
    ensures Frozens(ps + [p], gen) == Frozens(ps, gen) + if p.gen == gen then p.frozen else 0
  {
    FrozensConcat(ps, [p], gen);
    FrozensOfOne(p, gen);
  }

  lemma SettleKeepsFrozen(s: State, p: PendingGap, todo: seq<PendingGap>, o: Outcome, residue: int, slack: int)
    requires Ledger(s, [p] + todo) && !o.Failed? && FrozenIs(s, residue, slack, [p] + todo)
    ensures FrozenIs(Settle(s, p, o), residue, slack, todo)
  {
    TakeOneFrozen(s, p, todo);
    FrozensSnoc(s.past.stored, p, s.outageGen);
  }

  lemma KeepKeepsFrozen(s: State, p: PendingGap, todo: seq<PendingGap>, residue: int, slack: int)
    requires Ledger(s, [p] + todo) && FrozenIs(s, residue, slack, [p] + todo)
    ensures FrozenIs(s.(held := s.held + [p]), residue, slack, todo)
  {
    TakeOneFrozen(s, p, todo);
    FrozensSnoc(s.held, p, s.outageGen);
  }

  lemma EvictKeepsFrozen(s: State, todo: seq<PendingGap>, residue: int, slack: int)
    requires Ledger(s, todo) && s.held != [] && FrozenIs(s, residue, slack, todo)
    ensures FrozenIs(Evict(s), residue, slack, todo)
  {
    var p, rest := s.held[0], s.held[1..];
    assert s.held == [p] + rest && p in s.held;
    FrozensConcat([p], rest, s.outageGen);
    FrozensOfOne(p, s.outageGen);
    assert forall q :: q in rest ==> q in s.held;
    FrozensNonNegative(rest, s.outageGen);
    FrozensNonNegative(todo, s.outageGen);
    FrozensNonNegative(s.past.stored, s.outageGen);
  }

  lemma OfferKeepsFrozen(s: State, p: PendingGap, o: Outcome, residue: int, slack: int)
    requires Ledger(s, [p]) && FrozenIs(s, residue, slack, [p])
    ensures FrozenIs(Offer(s, p, o), residue, slack, [])
  {
    assert [p] + [] == [p];
    var b := s.(past := s.past.(booked := s.past.booked + [p]));
    assert Ledger(b, [p]) && FrozenIs(b, residue, slack, [p]);
    if !o.Failed? {
      SettleKeepsFrozen(b, p, [], o, residue, slack);
    } else if |s.held| >= MAX_HELD_GAPS {
      EvictKeepsLedger(b, [p]);
      EvictKeepsFrozen(b, [p], residue, slack);
      KeepKeepsFrozen(Evict(b), p, [], residue, slack);
    } else {
      KeepKeepsFrozen(b, p, [], residue, slack);
    }
  }

  lemma {:induction false} RetryKeepsFrozen(s: State, todo: seq<PendingGap>, os: seq<Outcome>, residue: int, slack: int)
    requires Ledger(s, todo) && FrozenIs(s, residue, slack, todo)
    ensures FrozenIs(RetryFrom(s, todo, os), residue, slack, [])
    decreases |todo|
  {
    if todo != [] {
      var p, rest := todo[0], todo[1..];
      assert todo == [p] + rest;
      if Next(os).Failed? {
        KeepKeepsLedger(s, p, rest);
        KeepKeepsFrozen(s, p, rest, residue, slack);
        RetryKeepsFrozen(s.(held := s.held + [p]), rest, Rest(os), residue, slack);
      } else {
        SettleKeepsLedger(s, p, rest, Next(os));
        SettleKeepsFrozen(s, p, rest, Next(os), residue, slack);
        RetryKeepsFrozen(Settle(s, p, Next(os)), rest, Rest(os), residue, slack);
      }
    }
  }
}
