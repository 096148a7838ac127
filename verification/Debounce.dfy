/**
 The debounced up/down decision for the link and for each address family, with
 the speedtest hold: a failed round that overlapped one of the monitor's own
 speedtests keeps its place in the failing run but does not count toward
 down-after, for at most HOLD_MAX from the run's first failed round.
 */
module Debounce {
  import opened Wrappers
  import opened Clock

  const HOLD_MAX := 120 * NS

  /** What one run of consecutive failed rounds knows about speedtests. */
  datatype FailRun = FailRun(held: nat, start: Option<Instant>, due: Option<Instant>) {

    /** Folds one failed round into the run; `bad` is the streak including it. */
    function Fail(ts: Instant, bad: nat, downAfter: int, during: bool): FailRun {
      var r := if bad == 1 then NO_RUN.(start := Some(ts)) else this;
      var r := if during && r.start.Some? && ts.Sub(r.start.value) < HOLD_MAX then r.(held := r.held + 1) else r;
      if r.due.None? && bad >= downAfter then r.(due := Some(ts)) else r
    }

    function Counted(bad: nat): int {
      bad - held
    }

    function Dated(ts: Instant): Instant {
      if due.None? then ts else due.value
    }
  }

  const NO_RUN := FailRun(0, None, None)

  /** One completed probe round, with the two settings as read in that round. */
  datatype Round = Round(ts: Instant, ok: bool, during: bool, downAfter: int, upAfter: int) {
    predicate Valid() {
      1 <= downAfter && 1 <= upAfter
    }
  }

  /** The debounced state of the link or of one family. */
  datatype Link = Link(online: bool, since: Instant, okStreak: nat, badStreak: nat, run: FailRun)

  function ResetStreaks(l: Link): Link {
    l.(okStreak := 0, badStreak := 0, run := NO_RUN)
  }

  function Fold(l: Link, r: Round): Link {
    if r.ok then
      l.(okStreak := l.okStreak + 1, badStreak := 0, run := NO_RUN)
    else
      l.(okStreak := 0, badStreak := l.badStreak + 1, run := l.run.Fail(r.ts, l.badStreak + 1, r.downAfter, r.during))
  }

  /** The date of the state change the folded round confirms, if it confirms one. */
  function Flip(l: Link, r: Round): Option<Instant> {
    if !l.online && l.okStreak >= r.upAfter then Some(r.ts)
    else if l.online && l.run.Counted(l.badStreak) >= r.downAfter then Some(l.run.Dated(r.ts))
    else None
  }

  function Advance(l: Link, r: Round): Link {
    var f := Fold(l, r);
    var flip := Flip(f, r);
    if flip.Some? then f.(online := !f.online, since := flip.value) else f
  }

  // ---------------------------------------------------------------- traces

  /** A gap is a pause, a skipped or cancelled round, or an unobserved stretch. */
  datatype Event = Probe(r: Round) | Gap

  predicate ValidTrace(es: seq<Event>) {
    forall e :: e in es && e.Probe? ==> e.r.Valid()
  }

  function Apply(l: Link, e: Event): Link {
    match e
    case Probe(r) => Advance(l, r)
    case Gap => ResetStreaks(l)
  }

  /** The monitor starts optimistically online. */
  function Start(at: Instant): Link {
    Link(true, at, 0, 0, NO_RUN)
  }

  function Run(at: Instant, es: seq<Event>): Link {
    if es == [] then Start(at) else Apply(Run(at, es[..|es|-1]), es[|es|-1])
  }

  // The reference reading of a trace: the failed rounds at its very end.

  function TrailingBad(es: seq<Event>): (tb: seq<Round>)
    ensures |tb| <= |es|
    ensures forall i :: 0 <= i < |tb| ==> es[|es| - |tb| + i] == Probe(tb[i]) && !tb[i].ok
    ensures |tb| < |es| ==> es[|es| - |tb| - 1].Gap? || es[|es| - |tb| - 1].r.ok
  {
    if es == [] || es[|es|-1].Gap? || es[|es|-1].r.ok then []
    else TrailingBad(es[..|es|-1]) + [es[|es|-1].r]
  }

  predicate IsHeld(first: Instant, r: Round) {
    r.during && r.ts.Sub(first) < HOLD_MAX
  }

  function HeldCount(tb: seq<Round>): nat {
    if tb == [] then 0
    else HeldCount(tb[..|tb|-1]) + if IsHeld(tb[0].ts, tb[|tb|-1]) then 1 else 0
  }

  /** The round at which a run first reaches the down-after in force. */
  function DueAt(tb: seq<Round>): Option<Instant> {
    if tb == [] then None
    else
      var before := DueAt(tb[..|tb|-1]);
      if before.Some? then before
      else if |tb| >= tb[|tb|-1].downAfter then Some(tb[|tb|-1].ts)
      else None
  }

  function LateCount(tb: seq<Round>): nat {
    if tb == [] then 0
    else LateCount(tb[..|tb|-1]) + if tb[|tb|-1].ts.Sub(tb[0].ts) >= HOLD_MAX then 1 else 0
  }

  lemma AdvanceKeepsStreaks(l: Link, r: Round)
    ensures var a, f := Advance(l, r), Fold(l, r);
            a.okStreak == f.okStreak && a.badStreak == f.badStreak && a.run == f.run
  {
  }

  function RunOf(tb: seq<Round>): FailRun {
    FailRun(HeldCount(tb), if tb == [] then None else Some(tb[0].ts), DueAt(tb))
  }

  lemma FailExtendsRun(tb: seq<Round>, r: Round)
    ensures RunOf(tb).Fail(r.ts, |tb| + 1, r.downAfter, r.during) == if tb == [] then RunOf([r]) else RunOf(tb + [r])
    ensures tb + [r] == if tb == [] then [r] else tb + [r]
  {
    var all := tb + [r];
    assert all[..|all|-1] == tb;
    if tb == [] {
      assert [r][..0] == [];
    }
  }

  /** After any trace the incremental bookkeeping equals its reading of the trace. */
  lemma {:induction false} StreakIsTheTrace(at: Instant, es: seq<Event>)
    ensures Run(at, es).badStreak == |TrailingBad(es)|
    ensures Run(at, es).run == RunOf(TrailingBad(es))
  {
    if es != [] {
      var pre, last := es[..|es|-1], es[|es|-1];
      StreakIsTheTrace(at, pre);
      if last.Probe? {
        AdvanceKeepsStreaks(Run(at, pre), last.r);
        if !last.r.ok {
          FailExtendsRun(TrailingBad(pre), last.r);
        }
      }
    }
  }

  lemma {:induction false} HeldPlusLate(tb: seq<Round>)
    ensures HeldCount(tb) + LateCount(tb) <= |tb|
  {
    if tb != [] {
      HeldPlusLate(tb[..|tb|-1]);
    }
  }

  lemma {:induction false} DueByCount(tb: seq<Round>)
    requires tb != []
    requires |tb| >= tb[|tb|-1].downAfter
    ensures DueAt(tb).Some?
  {
  }

  lemma {:induction false} DueIsARound(tb: seq<Round>) returns (k: nat)
    requires DueAt(tb).Some?
    ensures k < |tb| && DueAt(tb) == Some(tb[k].ts) && k + 1 >= tb[k].downAfter
    ensures forall j :: 0 <= j < k ==> j + 1 < tb[j].downAfter
    ensures DueAt(tb[..k]).None? && DueAt(tb[..k+1]) == DueAt(tb)
  {
    var pre := tb[..|tb|-1];
    if DueAt(pre).Some? {
      k := DueIsARound(pre);
      assert pre[..k] == tb[..k] && pre[..k+1] == tb[..k+1];
    } else {
      k := |tb| - 1;
      assert tb[..k] == pre && tb[..k+1] == tb;
      NotDueMeansShort(pre);
    }
  }

  lemma {:induction false} NotDueMeansShort(tb: seq<Round>)
    requires DueAt(tb).None?
    ensures forall j :: 0 <= j < |tb| ==> j + 1 < tb[j].downAfter
  {
    if tb != [] {
      NotDueMeansShort(tb[..|tb|-1]);
    }
  }

  /**
   Exactly when a round confirms an outage: the link was online, and the failed
   rounds since the last success or gap that no capped speedtest overlapped
   number down-after. Nothing from before a gap is ever combined.
   */
  lemma {:induction false} DownIffUnheldRounds(at: Instant, es: seq<Event>, r: Round)
    requires ValidTrace(es) && r.Valid()
    ensures var l := Run(at, es); var tb := TrailingBad(es + [Probe(r)]);
            l.online && !Advance(l, r).online
            <==> l.online && !r.ok && |tb| - HeldCount(tb) >= r.downAfter
  {
    var all := es + [Probe(r)];
    assert all[..|all|-1] == es;
    StreakIsTheTrace(at, es);
    StreakIsTheTrace(at, all);
    var f := Fold(Run(at, es), r);
    assert Run(at, all) == Advance(Run(at, es), r);
  }

  // The twin reading: the successful rounds at the very end.

  function TrailingGood(es: seq<Event>): (tg: seq<Round>)
    ensures |tg| <= |es|
    ensures forall i :: 0 <= i < |tg| ==> es[|es| - |tg| + i] == Probe(tg[i]) && tg[i].ok
    ensures |tg| < |es| ==> es[|es| - |tg| - 1].Gap? || !es[|es| - |tg| - 1].r.ok
  {
    if es == [] || es[|es|-1].Gap? || !es[|es|-1].r.ok then []
    else TrailingGood(es[..|es|-1]) + [es[|es|-1].r]
  }

  lemma {:induction false} GoodStreakIsTheTrace(at: Instant, es: seq<Event>)
    ensures Run(at, es).okStreak == |TrailingGood(es)|
  {
    if es != [] {
      GoodStreakIsTheTrace(at, es[..|es|-1]);
      if es[|es|-1].Probe? {
        AdvanceKeepsStreaks(Run(at, es[..|es|-1]), es[|es|-1].r);
      }
    }
  }

  /**
   Exactly when a round confirms a recovery: the link was down, and the successful
   rounds since the last failure or gap number up-after. It is dated that round.
   */
  lemma {:induction false} UpIffGoodRounds(at: Instant, es: seq<Event>, r: Round)
    requires r.Valid()
    ensures var l := Run(at, es); var m := Advance(l, r);
            && (!l.online && m.online <==> !l.online && r.ok && |TrailingGood(es + [Probe(r)])| >= r.upAfter)
            && (!l.online && m.online ==> m.since == r.ts)
            && (l.online == m.online ==> m.since == l.since)
  {
    var all := es + [Probe(r)];
    assert all[..|all|-1] == es;
    GoodStreakIsTheTrace(at, all);
    AdvanceKeepsStreaks(Run(at, es), r);
    assert Run(at, all) == Advance(Run(at, es), r);
  }

  /** The date of a confirmed outage is the round at which its run reached down-after. */
  lemma {:induction false} DownDate(at: Instant, es: seq<Event>, r: Round) returns (k: nat)
    requires ValidTrace(es) && r.Valid()
    requires Run(at, es).online && !Advance(Run(at, es), r).online
    ensures var tb := TrailingBad(es + [Probe(r)]);
            && k < |tb| && Advance(Run(at, es), r).since == tb[k].ts
            && k + 1 >= tb[k].downAfter
            && forall j :: 0 <= j < k ==> j + 1 < tb[j].downAfter
  {
    var all := es + [Probe(r)];
    assert all[..|all|-1] == es;
    StreakIsTheTrace(at, all);
    DownIffUnheldRounds(at, es, r);
    var tb := TrailingBad(all);
    DueByCount(tb);
    k := DueIsARound(tb);
  }

  /**
   The hold cannot postpone an outage for ever: once down-after failed rounds of
   the run lie two minutes or more past its first one, the link is down, even
   if every round overlapped a test.
   */
  lemma {:induction false} HoldDeadline(at: Instant, es: seq<Event>, r: Round)
    requires ValidTrace(es) && r.Valid() && !r.ok
    requires LateCount(TrailingBad(es + [Probe(r)])) >= r.downAfter
    ensures !Advance(Run(at, es), r).online
  {
    var tb := TrailingBad(es + [Probe(r)]);
    HeldPlusLate(tb);
    DownIffUnheldRounds(at, es, r);
  }

  /** On the monotonic clock the rounds of a trace come strictly after its start, in order. */
  predicate Ordered(at: Instant, es: seq<Event>) {
    && (forall i :: 0 <= i < |es| && es[i].Probe? ==> at.Before(es[i].r.ts))
    && forall i, j :: 0 <= i < j < |es| && es[i].Probe? && es[j].Probe? ==> es[i].r.ts.Before(es[j].r.ts)
  }

  lemma {:induction false} OnlineSinceStartOrSuccess(at: Instant, es: seq<Event>) returns (i: int)
    requires ValidTrace(es) && Run(at, es).online
    ensures -1 <= i < |es|
    ensures if i == -1 then Run(at, es).since == at
            else es[i].Probe? && es[i].r.ok && es[i].r.ts == Run(at, es).since
  {
    if es == [] {
      i := -1;
    } else {
      var pre, e := es[..|es|-1], es[|es|-1];
      assert e in es;
      if Run(at, pre).online && Run(at, es).since == Run(at, pre).since {
        i := OnlineSinceStartOrSuccess(at, pre);
      } else {
        i := |es| - 1;
        StreakIsTheTrace(at, pre);
      }
    }
  }

  lemma {:induction false} SuccessIsBeforeTheTail(es: seq<Event>, i: nat)
    requires i < |es| && es[i].Probe? && es[i].r.ok
    ensures i < |es| - |TrailingBad(es)|
  {
    var last := es[|es|-1];
    if last.Probe? && !last.r.ok {
      SuccessIsBeforeTheTail(es[..|es|-1], i);
    }
  }

  /** The tail's failed rounds come after the success, or the start, that the online state goes back to. */
  lemma TailFollowsTheStart(at: Instant, all: seq<Event>, since: Instant, i: int, k: nat)
    requires Ordered(at, all) && k < |TrailingBad(all)| && -1 <= i < |all| - 1
    requires if i == -1 then since == at else all[i].Probe? && all[i].r.ok && all[i].r.ts == since
    ensures since.Before(TrailingBad(all)[k].ts)
  {
    var down := |all| - |TrailingBad(all)| + k;
    assert all[down] == Probe(TrailingBad(all)[k]);
    if i != -1 {
      SuccessIsBeforeTheTail(all, i);
      OrderedAt(at, all, i, down);
    }
  }

  /** A back-dated down still lies after the recovery (or the start) before it. */
  lemma DownFollowsTheLastRecovery(at: Instant, es: seq<Event>, r: Round)
    requires ValidTrace(es) && r.Valid() && Ordered(at, es + [Probe(r)])
    requires Run(at, es).online && !Advance(Run(at, es), r).online
    ensures Run(at, es).since.Before(Advance(Run(at, es), r).since)
  {
    var k := DownDate(at, es, r);
    var i := OnlineSinceStartOrSuccess(at, es);
    assert i != -1 ==> (es + [Probe(r)])[i] == es[i];
    TailFollowsTheStart(at, es + [Probe(r)], Run(at, es).since, i, k);
  }

  lemma OrderedAt(at: Instant, es: seq<Event>, i: nat, j: nat)
    requires Ordered(at, es) && i < j < |es| && es[i].Probe? && es[j].Probe?
    ensures es[i].r.ts.Before(es[j].r.ts)
  {
  }

  // ------------------------------------------------- the plain debounce

  /** The same debounce without the hold: every failed round counts, dated as confirmed. */
  datatype PlainLink = PlainLink(online: bool, since: Instant, okStreak: nat, badStreak: nat)

  function PlainApply(p: PlainLink, e: Event): PlainLink {
    match e
    case Gap => p.(okStreak := 0, badStreak := 0)
    case Probe(r) =>
      var p := if r.ok then p.(okStreak := p.okStreak + 1, badStreak := 0)
               else p.(okStreak := 0, badStreak := p.badStreak + 1);
      if !p.online && p.okStreak >= r.upAfter then p.(online := true, since := r.ts)
      else if p.online && p.badStreak >= r.downAfter then p.(online := false, since := r.ts)
      else p
  }

  function PlainRun(at: Instant, es: seq<Event>): PlainLink {
    if es == [] then PlainLink(true, at, 0, 0) else PlainApply(PlainRun(at, es[..|es|-1]), es[|es|-1])
  }

  ghost predicate Refines(l: Link, p: PlainLink) {
    && l.okStreak == p.okStreak && l.badStreak == p.badStreak
    && (!l.online ==> !p.online)
    && (l.run.due.Some? ==> !p.online)
    && (l.badStreak == 0 ==> l.run == NO_RUN)
  }

  lemma FailKeepsDue(run: FailRun, ts: Instant, bad: nat, downAfter: int, during: bool)
    requires 1 <= bad && (bad == 1 ==> run == NO_RUN)
    ensures var f := run.Fail(ts, bad, downAfter, during);
            && f.Counted(bad) <= bad && (f.due.Some? <==> run.due.Some? || bad >= downAfter)
  {
  }

  lemma RefinesStep(l: Link, p: PlainLink, e: Event)
    requires Refines(l, p) && (e.Probe? ==> e.r.Valid())
    ensures Refines(Apply(l, e), PlainApply(p, e))
  {
    if e.Probe? {
      AdvanceKeepsStreaks(l, e.r);
      if !e.r.ok {
        FailKeepsDue(l.run, e.r.ts, l.badStreak + 1, e.r.downAfter, e.r.during);
      }
    }
  }

  /** Down under the hold implies down without it, on every trace and whatever the settings do. */
  lemma {:induction false} HeldRefinesPlain(at: Instant, es: seq<Event>)
    requires ValidTrace(es)
    ensures Refines(Run(at, es), PlainRun(at, es))
  {
    if es != [] {
      var pre := es[..|es|-1];
      HeldRefinesPlain(at, pre);
      assert es[|es|-1] in es;
      RefinesStep(Run(at, pre), PlainRun(at, pre), es[|es|-1]);
    }
  }

  /** If the plain machine was online when the failing run began, the run's date is the plain start. */
  lemma {:induction false} DueIsThePlainStart(at: Instant, es: seq<Event>)
    requires ValidTrace(es)
    requires PlainRun(at, es[..|es| - |TrailingBad(es)|]).online
    ensures var due, p := DueAt(TrailingBad(es)), PlainRun(at, es);
            if due.Some? then !p.online && p.since == due.value else p.online
  {
    var tb := TrailingBad(es);
    if tb == [] {
      assert es[..|es|] == es;
    } else {
      var pre := es[..|es|-1];
      assert TrailingBad(pre) == tb[..|tb|-1];
      assert pre[..|pre| - |TrailingBad(pre)|] == es[..|es| - |tb|];
      DueIsThePlainStart(at, pre);
      HeldRefinesPlain(at, pre);
      StreakIsTheTrace(at, pre);
    }
  }

  /**
   The speedtest hold delays an outage but keeps its date: the start recorded
   when the outage is confirmed is a round after which the plain debounce was
   already down, and it is the plain debounce's own start whenever that machine
   was online when the failing run began.
   */
  lemma {:induction false} HeldDateAgreesWithPlain(at: Instant, es: seq<Event>, r: Round) returns (cut: nat)
    requires ValidTrace(es) && r.Valid()
    requires Run(at, es).online && !Advance(Run(at, es), r).online
    ensures var all := es + [Probe(r)]; var since := Advance(Run(at, es), r).since;
            && 0 < cut <= |all|
            && all[cut - 1].Probe? && all[cut - 1].r.ts == since
            && !PlainRun(at, all[..cut]).online
            && (PlainRun(at, all[..|all| - |TrailingBad(all)|]).online ==> PlainRun(at, all).since == since)
  {
    var all := es + [Probe(r)];
    assert all[..|all|-1] == es;
    var tb := TrailingBad(all);
    StreakIsTheTrace(at, all);
    DownIffUnheldRounds(at, es, r);
    DueByCount(tb);
    var k := DueIsARound(tb);
    cut := |all| - |tb| + k + 1;
    TrailingBadPrefix(all, cut);
    assert TrailingBad(all[..cut]) == tb[..k+1];
    StreakIsTheTrace(at, all[..cut]);
    HeldRefinesPlain(at, all[..cut]);
    if PlainRun(at, all[..|all| - |tb|]).online {
      DueIsThePlainStart(at, all);
    }
  }

  lemma {:induction false} TrailingBadPrefix(es: seq<Event>, cut: nat)
    requires |es| - |TrailingBad(es)| < cut <= |es|
    ensures TrailingBad(es[..cut]) == TrailingBad(es)[..cut - (|es| - |TrailingBad(es)|)]
  {
    if cut == |es| {
      assert es[..cut] == es;
    } else {
      var pre := es[..|es|-1];
      TrailingBadPrefix(pre, cut);
      assert pre[..cut] == es[..cut];
    }
  }
}
