/**
 The exit traceroute's cache: single-flight, keyed on the target setting, and
 invalidated by a generation while a trace is out. Each critical section is one
 method of ExitCache and one atomic step of the interleavings below.
 */
module ExitCacheProtocol {
  import opened Wrappers
  import opened Clock

  const EXIT_CACHE_FOR := 600 * NS
  const EXIT_FAIL_RETRY := 60 * NS
  const EXIT_FAIL_FAST_TRIES := 3

  /** A discovered exit, with the target it was traced for and when its trace was claimed. */
  datatype Exit = Exit(target: string, claimedAt: nat)

  datatype Cache = Cache(traceAt: Option<int>, exit: Option<Exit>, tracedFor: string, attemptedFor: string,
                         tracing: bool, traceFails: nat, warnedNoExit: bool, traceGen: nat)

  datatype Verdict = Served(exit: Option<Exit>) | MustWait | Claimed(startGen: nat)

  /** How a trace ended; one cut short by its caller is not a failure. */
  datatype TraceResult = Found(exit: Option<Exit>) | NotFound | Cancelled

  predicate Fresh(c: Cache, want: string, now: int) {
    var window := if c.exit.None? && c.traceFails < EXIT_FAIL_FAST_TRIES then EXIT_FAIL_RETRY else EXIT_CACHE_FOR;
    c.traceAt.Some? && c.attemptedFor == want && now - c.traceAt.value < window
  }

  function Judge(c: Cache, want: string, now: int): Verdict {
    if Fresh(c, want, now) then Served(c.exit) else if c.tracing then MustWait else Claimed(c.traceGen)
  }

  /** What a trace that was not overtaken by a bust writes. */
  function Record(c: Cache, want: string, res: TraceResult, now: int): Cache {
    match res
    case Cancelled => c
    case Found(ex) =>
      c.(exit := ex, tracedFor := want, traceFails := 0, warnedNoExit := false, attemptedFor := want, traceAt := Some(now))
    case NotFound =>
      var c := if c.tracedFor != want then c.(exit := None, tracedFor := "") else c;
      c.(attemptedFor := want, traceAt := Some(now), traceFails := c.traceFails + 1,
         warnedNoExit := c.warnedNoExit || c.exit.None?)
  }

  function Finish(c: Cache, want: string, startGen: nat, res: TraceResult, now: int): Cache {
    var c := c.(tracing := false);
    if c.traceGen != startGen then c else Record(c, want, res, now)
  }

  /** A changed public address: the cached exit belongs to the network that is gone. */
  function NewNetwork(c: Cache): Cache {
    c.(traceAt := None, exit := None, tracedFor := "", traceFails := 0, warnedNoExit := false, traceGen := c.traceGen + 1)
  }

  /** A manual refresh: trace again, but keep the row on display meanwhile. */
  function ByHand(c: Cache): Cache {
    c.(traceAt := None, traceFails := 0, warnedNoExit := false, traceGen := c.traceGen + 1)
  }

  /** The fields guarded by traceMu; every method body is one hold of that lock. */
  class ExitCache {
    var traceAt: Option<int>
    var exit: Option<Exit>
    var tracedFor: string
    var attemptedFor: string
    var tracing: bool
    var traceFails: nat
    var warnedNoExit: bool
    var traceGen: nat

    ghost function View(): Cache
      reads this
    {
      Cache(traceAt, exit, tracedFor, attemptedFor, tracing, traceFails, warnedNoExit, traceGen)
    }

    method Inspect(want: string, now: int) returns (v: Verdict)
      modifies this
      ensures v == Judge(old(View()), want, now)
      ensures View() == old(View()).(tracing := old(tracing) || v.Claimed?)
    {
      var window := EXIT_CACHE_FOR;
      if exit.None? && traceFails < EXIT_FAIL_FAST_TRIES {
        window := EXIT_FAIL_RETRY;
      }
      if traceAt.Some? && attemptedFor == want && now - traceAt.value < window {
        return Served(exit);
      }
      if tracing {
        return MustWait;
      }
      tracing := true;
      return Claimed(traceGen);
    }

    method Commit(want: string, startGen: nat, res: TraceResult, now: int) returns (shown: Option<Exit>)
      modifies this
      ensures View() == Finish(old(View()), want, startGen, res, now) && shown == exit
    {
      tracing := false;
      if traceGen != startGen {
        return exit;
      }
      if res.Found? {
        exit, tracedFor := res.exit, want;
        traceFails, warnedNoExit := 0, false;
      } else if !res.Cancelled? && tracedFor != want {
        exit, tracedFor := None, "";
      }
      if !res.Cancelled? {
        attemptedFor := want;
        traceAt := Some(now);
        if !res.Found? {
          traceFails := traceFails + 1;
        }
      }
      if res.NotFound? && exit.None? && !warnedNoExit {
        warnedNoExit := true;
      }
      return exit;
    }

    method BustForNewNetwork()
      modifies this
      ensures View() == NewNetwork(old(View()))
    {
      traceAt := None;
      exit, tracedFor := None, "";
      traceFails, warnedNoExit := 0, false;
      traceGen := traceGen + 1;
    }

    method BustByHand()
      modifies this
      ensures View() == ByHand(old(View()))
    {
      traceAt := None;
      traceGen := traceGen + 1;
      traceFails, warnedNoExit := 0, false;
    }
  }

  // ------------------------------------------------- any number of callers

  /** Why a caller got what it got. */
  datatype Why = FromCache | FromTrace | FromCancelled | Overtaken | GaveUp

  datatype Caller =
    | Asking(want: string)
    | Waiting(want: string)
    | Tracing(want: string, startGen: nat, claimedAt: nat)
    | Returned(want: string, got: Option<Exit>, why: Why, networkAt: nat)

  /** A result that was written: when its trace was claimed, and the last bust before the write. */
  datatype Commitment = Commitment(claimedAt: nat, lastBust: nat)

  /** `time` numbers the steps; the two bust stamps are step numbers. */
  datatype System = System(cache: Cache, callers: map<nat, Caller>, time: nat, lastBust: nat, lastNewNetwork: nat,
                           commits: seq<Commitment>)

  datatype Outcome = Hit | HitNothing | Miss | Abort

  datatype Step =
    | Arrive(id: nat, want: string)
    | Look(id: nat, now: int)
    | Wake(id: nat)
    | GiveUp(id: nat)
    | End(id: nat, o: Outcome, now: int)
    | NetworkChanged
    | RefreshedByHand

  function Start(): System {
    System(Cache(None, None, "", "", false, 0, false, 0), map[], 1, 0, 0, [])
  }

  predicate Enabled(s: System, e: Step) {
    match e
    case Arrive(id, _) => id !in s.callers
    case Look(id, _) => id in s.callers && s.callers[id].Asking?
    case Wake(id) => id in s.callers && s.callers[id].Waiting?
    case GiveUp(id) => id in s.callers && s.callers[id].Waiting?
    case End(id, _, _) => id in s.callers && s.callers[id].Tracing?
    case NetworkChanged => true
    case RefreshedByHand => true
  }

  function ResultOf(c: Caller, o: Outcome): TraceResult
    requires c.Tracing?
  {
    match o
    case Hit => Found(Some(Exit(c.want, c.claimedAt)))
    case HitNothing => Found(None)
    case Miss => NotFound
    case Abort => Cancelled
  }

  function Apply(s: System, e: Step): System
    requires Enabled(s, e)
  {
    var s := s.(time := s.time + 1);
    match e
    case Arrive(id, want) => s.(callers := s.callers[id := Asking(want)])
    case Wake(id) => s.(callers := s.callers[id := Asking(s.callers[id].want)])
    case GiveUp(id) => s.(callers := s.callers[id := Returned(s.callers[id].want, s.cache.exit, GaveUp, s.lastNewNetwork)])
    case Look(id, now) => LookAt(s, id, now)
    case End(id, o, now) => EndTrace(s, id, o, now)
    case NetworkChanged => s.(cache := NewNetwork(s.cache), lastBust := s.time, lastNewNetwork := s.time)
    case RefreshedByHand => s.(cache := ByHand(s.cache), lastBust := s.time)
  }

  function LookAt(s: System, id: nat, now: int): System
    requires id in s.callers
  {
    var want := s.callers[id].want;
    match Judge(s.cache, want, now)
    case Served(ex) => s.(callers := s.callers[id := Returned(want, ex, FromCache, s.lastNewNetwork)])
    case MustWait => s.(callers := s.callers[id := Waiting(want)])
    case Claimed(g) => s.(cache := s.cache.(tracing := true), callers := s.callers[id := Tracing(want, g, s.time)])
  }

  function EndTrace(s: System, id: nat, o: Outcome, now: int): System
    requires id in s.callers && s.callers[id].Tracing?
  {
    var c := s.callers[id];
    var after := Finish(s.cache, c.want, c.startGen, ResultOf(c, o), now);
    var overtaken := s.cache.traceGen != c.startGen;
    var why := if overtaken then Overtaken else if o.Abort? then FromCancelled else FromTrace;
    s.(cache := after, callers := s.callers[id := Returned(c.want, after.exit, why, s.lastNewNetwork)],
       commits := if overtaken || o.Abort? then s.commits else s.commits + [Commitment(c.claimedAt, s.lastBust)])
  }

  function After(es: seq<Step>): System {
    if es == [] then Start()
    else
      var s, e := After(es[..|es|-1]), es[|es|-1];
      if Enabled(s, e) then Apply(s, e) else s
  }

  ghost predicate SingleFlight(s: System) {
    && (forall a, b :: a in s.callers && b in s.callers && s.callers[a].Tracing? && s.callers[b].Tracing? ==> a == b)
    && (s.cache.tracing <==> exists a :: a in s.callers && s.callers[a].Tracing?)
  }

  /** The cached exit is for the target it says, and no older than the network. */
  ghost predicate CacheSound(s: System) {
    var c := s.cache;
    && s.lastNewNetwork <= s.lastBust <= s.time
    && (c.exit.Some? ==> c.exit.value.target == c.tracedFor && s.lastNewNetwork < c.exit.value.claimedAt)
    && (c.exit.Some? && c.traceAt.Some? ==> c.tracedFor == c.attemptedFor)
  }

  ghost predicate CallerSound(s: System, c: Caller) {
    match c
    case Tracing(_, startGen, claimedAt) =>
      startGen <= s.cache.traceGen && claimedAt <= s.time && (startGen == s.cache.traceGen <==> s.lastBust < claimedAt)
    case Returned(want, got, why, networkAt) =>
      && (got.Some? ==> networkAt < got.value.claimedAt)
      && (got.Some? && (why.FromCache? || why.FromTrace?) ==> got.value.target == want)
    case _ => true
  }

  ghost predicate Sound(s: System) {
    && SingleFlight(s) && CacheSound(s)
    && (forall id :: id in s.callers ==> CallerSound(s, s.callers[id]))
    && (forall k :: 0 <= k < |s.commits| ==> s.commits[k].lastBust < s.commits[k].claimedAt)
  }

  lemma LookKeepsSound(s: System, id: nat, now: int)
    requires Sound(s) && id in s.callers && s.callers[id].Asking? && s.lastBust < s.time
    ensures Sound(LookAt(s, id, now))
  {
    var t := LookAt(s, id, now);
    if Judge(s.cache, s.callers[id].want, now).Claimed? {
      assert t.callers[id].Tracing?;
    } else {
      assert forall a :: a in t.callers && t.callers[a].Tracing? ==> a in s.callers && s.callers[a].Tracing?;
      if s.cache.tracing {
        var a :| a in s.callers && s.callers[a].Tracing?;
        assert a in t.callers && t.callers[a].Tracing?;
      }
    }
  }

  lemma EndKeepsSound(s: System, id: nat, o: Outcome, now: int)
    requires Sound(s) && id in s.callers && s.callers[id].Tracing?
    ensures Sound(EndTrace(s, id, o, now))
  {
    var t := EndTrace(s, id, o, now);
    assert CallerSound(s, s.callers[id]);
    assert CacheSound(t);
    forall k | k in t.callers ensures CallerSound(t, t.callers[k]) {
      if k != id {
        assert CallerSound(s, s.callers[k]);
      }
    }
    assert forall a :: a in t.callers && t.callers[a].Tracing? ==> a in s.callers && s.callers[a].Tracing?;
  }

  lemma MoveKeepsSound(s: System, id: nat, c: Caller)
    requires Sound(s) && CallerSound(s, c) && !c.Tracing? && (id in s.callers ==> !s.callers[id].Tracing?)
    ensures Sound(s.(callers := s.callers[id := c]))
  {
    var t := s.(callers := s.callers[id := c]);
    if s.cache.tracing {
      var a :| a in s.callers && s.callers[a].Tracing?;
      assert a in t.callers && t.callers[a].Tracing?;
    }
  }

  lemma BustKeepsSound(s: System, newNetwork: bool)
    requires Sound(s) && s.lastBust < s.time
    requires forall id :: id in s.callers && s.callers[id].Tracing? ==> s.callers[id].claimedAt < s.time
    ensures Sound(if newNetwork then s.(cache := NewNetwork(s.cache), lastBust := s.time, lastNewNetwork := s.time)
                  else s.(cache := ByHand(s.cache), lastBust := s.time))
  {
    var t := if newNetwork then s.(cache := NewNetwork(s.cache), lastBust := s.time, lastNewNetwork := s.time)
             else s.(cache := ByHand(s.cache), lastBust := s.time);
    forall k | k in t.callers ensures CallerSound(t, t.callers[k]) {
      assert CallerSound(s, s.callers[k]);
    }
  }

  lemma TickKeepsSound(s: System)
    requires Sound(s)
    ensures var t := s.(time := s.time + 1);
            && Sound(t) && t.lastBust < t.time
            && forall id :: id in t.callers && t.callers[id].Tracing? ==> t.callers[id].claimedAt < t.time
  {
    var t := s.(time := s.time + 1);
    forall k | k in t.callers ensures CallerSound(t, t.callers[k]) && (t.callers[k].Tracing? ==> t.callers[k].claimedAt < t.time) {
      assert CallerSound(s, s.callers[k]);
    }
    assert SingleFlight(t);
  }

  lemma StepKeepsSound(s: System, e: Step)
    requires Sound(s) && Enabled(s, e)
    ensures Sound(Apply(s, e))
  {
    TickKeepsSound(s);
    var t := s.(time := s.time + 1);
    match e
    case Arrive(id, want) => MoveKeepsSound(t, id, Asking(want));
    case Wake(id) => MoveKeepsSound(t, id, Asking(s.callers[id].want));
    case GiveUp(id) => MoveKeepsSound(t, id, Returned(s.callers[id].want, t.cache.exit, GaveUp, t.lastNewNetwork));
    case Look(id, now) => LookKeepsSound(t, id, now);
    case End(id, o, now) => EndKeepsSound(t, id, o, now);
    case NetworkChanged => BustKeepsSound(t, true);
    case RefreshedByHand => BustKeepsSound(t, false);
  }

  /**
   Over every interleaving of callers, traces and busts: at most one trace is
   out; a result is written only if no bust landed since its claim; the cached
   exit never predates the last network change; and a caller served from the
   cache, or by its own finished trace, gets nothing or an exit for its target.
   */
  lemma {:induction false} EveryInterleavingIsSound(es: seq<Step>)
    ensures Sound(After(es))
  {
    if es != [] {
      var pre, e := es[..|es|-1], es[|es|-1];
      EveryInterleavingIsSound(pre);
      if Enabled(After(pre), e) {
        StepKeepsSound(After(pre), e);
      }
    }
  }

  /** An exit for somebody else's target reaches a caller only past a bust, a cancelled trace or its own giving up. */
  lemma ForeignExitsAreExplained(es: seq<Step>, id: nat)
    requires id in After(es).callers && After(es).callers[id].Returned?
    ensures var c := After(es).callers[id];
            c.got.Some? && c.got.value.target != c.want ==> c.why in {Overtaken, FromCancelled, GaveUp}
  {
    EveryInterleavingIsSound(es);
    assert CallerSound(After(es), After(es).callers[id]);
  }

  // ------------------------------------------------ what a trace delivers

  /** A trace nothing overtook: its exit is served for its target for ten minutes, one that found nothing for one; any other target is traced anew. */
  lemma FindingIsServed(c: Cache, want: string, found: Option<Exit>, at: int, other: string, now: int)
    ensures var d := Finish(c, want, c.traceGen, Found(found), at);
            && !d.tracing && d.exit == found
            && Judge(d, want, now) == (if now - at < (if found.Some? then 600 * NS else 60 * NS) then Served(found) else Claimed(c.traceGen))
            && (other != want ==> Judge(d, other, now) == Claimed(c.traceGen))
  {
  }

  /** The cache after `ats` failed traces of one target, one after another. */
  function AfterFailures(c: Cache, want: string, ats: seq<int>): Cache {
    if ats == [] then c
    else Finish(AfterFailures(c, want, ats[..|ats|-1]), want, c.traceGen, NotFound, ats[|ats|-1])
  }

  lemma {:induction false} FailuresCount(c: Cache, want: string, ats: seq<int>)
    requires ats != []
    ensures var d := AfterFailures(c, want, ats);
            && d.traceGen == c.traceGen && !d.tracing && d.attemptedFor == want && d.traceAt == Some(ats[|ats|-1])
            && d.traceFails == c.traceFails + |ats|
            && d.exit == (if c.tracedFor == want then c.exit else None)
            && d.tracedFor == (if c.tracedFor == want then want else "")
            && d.warnedNoExit == (c.warnedNoExit || d.exit.None?)
  {
    if |ats| > 1 {
      FailuresCount(c, want, ats[..|ats|-1]);
    } else {
      assert ats[..0] == [];
    }
  }

  /**
   Failures in a row: an exit found for this very target stays on display and is
   tried again every ten minutes; without one the first two failures are tried
   again after a minute, and every later one after ten.
   */
  lemma FailuresAreRetried(c: Cache, want: string, ats: seq<int>, now: int)
    requires ats != [] && c.traceFails == 0
    ensures var d, last := AfterFailures(c, want, ats), ats[|ats|-1]; var kept := if c.tracedFor == want then c.exit else None;
            Judge(d, want, now)
            == if now - last < (if kept.None? && |ats| < 3 then 60 * NS else 600 * NS) then Served(kept) else Claimed(c.traceGen)
  {
    FailuresCount(c, want, ats);
  }

  /** A trace that was overtaken or cut short leaves the cache as it was, free for the next. */
  lemma NothingElseIsWritten(c: Cache, want: string, g: nat, res: TraceResult, at: int)
    requires c.traceGen != g || res.Cancelled?
    ensures Finish(c, want, g, res, at) == c.(tracing := false)
  {
  }

  /** After either bust nobody is served from the cache until a trace claimed since has ended; only a changed network takes the row away. */
  lemma BustsForceATrace(c: Cache, want: string, now: int)
    ensures forall d :: d == NewNetwork(c) || d == ByHand(c) ==>
              && Judge(d, want, now) == (if c.tracing then MustWait else Claimed(c.traceGen + 1))
              && d.traceFails == 0 && d.tracing == c.tracing
    ensures NewNetwork(c).exit.None? && ByHand(c).exit == c.exit && ByHand(c).tracedFor == c.tracedFor
  {
  }

  /** In every interleaving: a caller whose trace nothing overtook returns what it found, and finds it in the cache. */
  lemma TheTracerReturnsItsExit(es: seq<Step>, id: nat, o: Outcome, now: int)
    requires Enabled(After(es), End(id, o, now)) && (o.Hit? || o.HitNothing?)
    requires After(es).callers[id].startGen == After(es).cache.traceGen
    ensures var s, t := After(es), After(es + [End(id, o, now)]); var c := s.callers[id];
            var found := if o.Hit? then Some(Exit(c.want, c.claimedAt)) else None;
            t.cache.exit == found && id in t.callers && t.callers[id].Returned? && t.callers[id].got == found && t.callers[id].want == c.want
  {
    assert (es + [End(id, o, now)])[..|es|] == es;
  }

  /** And one that looks is served exactly what a fresh cache holds, claims when nobody traces, and waits otherwise. */
  lemma LookingResolves(es: seq<Step>, id: nat, now: int)
    requires Enabled(After(es), Look(id, now))
    ensures var s, t := After(es), After(es + [Look(id, now)]); var want := s.callers[id].want;
            && id in t.callers
            && (Fresh(s.cache, want, now) ==> t.callers[id].Returned? && t.callers[id].got == s.cache.exit && t.cache == s.cache)
            && (!Fresh(s.cache, want, now) && s.cache.tracing ==> t.callers[id] == Waiting(want))
            && (!Fresh(s.cache, want, now) && !s.cache.tracing ==>
                  t.cache.tracing && t.callers[id].Tracing? && t.callers[id].startGen == s.cache.traceGen)
  {
    assert (es + [Look(id, now)])[..|es|] == es;
  }
}
