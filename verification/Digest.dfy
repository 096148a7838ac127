/**
 The periodic digest: a watermark kept in whole seconds in the store and exactly
 in memory, a window whose delivery is being retried, and a poll that decides
 whether a summary is due. Instants are wall nanoseconds; Go's zero time is None.
 */
module Digest {
  import opened Wrappers
  import opened Clock

  const CHECK_INTERVAL := 30 * 60 * NS

  function Period(freq: string): int {
    if freq == "daily" then 24 * 3600 * NS else if freq == "weekly" then 7 * 24 * 3600 * NS else 0
  }

  datatype Window = Window(since: int, until: int)

  /** One poll's surroundings; `again` is the clock as the watermark is read, `accepted` whether the webhook took it. */
  datatype Poll = Poll(freq: string, configured: bool, now: int, again: int, readable: bool, accepted: bool, recorded: bool)

  datatype State = State(pending: Option<int>, mem: Option<int>, stored: Option<int>)

  function NotAfter(t: Option<int>, now: int): Option<int> {
    if t.Some? && t.value > now then None else t
  }

  /** The stored watermark; unset, unreadable as a positive number, and future all count as never armed. */
  function LastSent(stored: Option<int>, clock: int): Option<int> {
    if stored.Some? && stored.value > 0 && stored.value * NS <= clock then Some(stored.value * NS) else None
  }

  function Newer(a: Option<int>, b: Option<int>): Option<int> {
    if b.Some? && (a.None? || b.value > a.value) then b else a
  }

  function Active(p: Poll): bool {
    Period(p.freq) > 0 && p.configured
  }

  /** What the watermark is taken to be: None when the poll must be given up or arms. */
  function Watermark(s: State, p: Poll): Option<int> {
    var mem := NotAfter(s.mem, p.now);
    if p.readable then Newer(LastSent(s.stored, p.again), mem) else mem
  }

  predicate Due(s: State, p: Poll) {
    Active(p) && Watermark(s, p).Some? && p.now - Watermark(s, p).value >= Period(p.freq)
  }

  /** Where a due window begins: where the retried one began, or a fresh start that a stale watermark caps. */
  function Start(pending: Option<int>, p: Poll, last: int): int {
    if pending.Some? then pending.value
    else if p.now - last > Period(p.freq) + CHECK_INTERVAL then p.now - Period(p.freq)
    else last
  }

  function Since(s: State, p: Poll): int
    requires Due(s, p)
  {
    Start(NotAfter(s.pending, p.now), p, Watermark(s, p).value)
  }

  function Record(s: State, p: Poll): Option<int> {
    if p.recorded then Some(p.now / NS) else s.stored
  }

  function Next(s: State, p: Poll): State {
    if !Active(p) then s.(pending := None)
    else
      var t := s.(mem := NotAfter(s.mem, p.now), pending := NotAfter(s.pending, p.now));
      if Watermark(s, p).None? then
        if p.readable then t.(stored := Record(s, p), mem := Some(p.now)) else t
      else if !Due(s, p) then t
      else if !p.accepted then t.(pending := Some(Since(s, p)))
      else State(None, Some(p.now), Record(s, p))
  }

  function Delivery(s: State, p: Poll): Option<Window> {
    if Due(s, p) && p.accepted then Some(Window(Since(s, p), p.now)) else None
  }

  class Manager {
    var pendingSince: Option<int>
    var lastSentMem: Option<int>
    /** The store's row. */
    var stored: Option<int>

    ghost function View(): State
      reads this
    {
      State(pendingSince, lastSentMem, stored)
    }

    constructor (stored: Option<int>)
      ensures View() == State(None, None, stored)
    {
      pendingSince, lastSentMem, this.stored := None, None, stored;
    }

    method Tick(p: Poll) returns (sent: Option<Window>)
      modifies this
      ensures View() == Next(old(View()), p) && sent == Delivery(old(View()), p)
    {
      sent := None;
      var every := Period(p.freq);
      if every <= 0 || !p.configured {
        pendingSince := None;
        return;
      }
      DropFuture(p.now);
      var last := Last(p);
      if last.None? {
        if p.readable {
          SetLastSent(p);
          lastSentMem := Some(p.now);
        }
        return;
      }
      if p.now - last.value < every {
        return;
      }
      sent := Attempt(p, last.value);
    }

    /** A clock that stepped back leaves nothing ahead of itself. */
    method DropFuture(now: int)
      modifies this`lastSentMem, this`pendingSince
      ensures lastSentMem == NotAfter(old(lastSentMem), now) && pendingSince == NotAfter(old(pendingSince), now)
    {
      if lastSentMem.Some? && lastSentMem.value > now {
        lastSentMem := None;
      }
      if pendingSince.Some? && pendingSince.value > now {
        pendingSince := None;
      }
    }

    /** The newer of the stored and the remembered watermark, or the remembered one when the store cannot be read. */
    method Last(p: Poll) returns (last: Option<int>)
      ensures last == if p.readable then Newer(LastSent(stored, p.again), lastSentMem) else lastSentMem
    {
      last := LastSent(stored, p.again);
      if !p.readable || (lastSentMem.Some? && (last.None? || lastSentMem.value > last.value)) {
        last := lastSentMem;
      }
    }

    /** A due window: fixed by its first attempt, kept while sends fail, closed by the one that succeeds. */
    method Attempt(p: Poll, last: int) returns (sent: Option<Window>)
      modifies this
      ensures var since := Start(old(pendingSince), p, last);
              if p.accepted then View() == State(None, Some(p.now), Record(old(View()), p)) && sent == Some(Window(since, p.now))
              else View() == old(View()).(pending := Some(since)) && sent == None
    {
      var since, every := last, Period(p.freq);
      if pendingSince.None? {
        if p.now - since > every + CHECK_INTERVAL {
          since := p.now - every;
        }
        pendingSince := Some(since);
      } else {
        since := pendingSince.value;
      }
      if !p.accepted {
        return None;
      }
      SetLastSent(p);
      lastSentMem := Some(p.now);
      pendingSince := None;
      sent := Some(Window(since, p.now));
    }

    method SetLastSent(p: Poll)
      modifies this`stored
      ensures stored == if p.recorded then Some(p.now / NS) else old(stored)
    {
      if p.recorded {
        stored := Some(p.now / NS);
      }
    }
  }

  // -------------------------------------------------------- whole runs

  datatype Step = Tick(p: Poll) | Restart

  /** A process, what it and its predecessors delivered, and the newest clock reading. */
  datatype Run = Run(s: State, sent: seq<Window>, clock: int)

  /** Steps whose clock would run backwards are skipped. */
  function Do(r: Run, step: Step): Run {
    match step
    case Restart => r.(s := State(None, None, r.s.stored))
    case Tick(p) =>
      if r.clock <= p.now <= p.again then
        Run(Next(r.s, p), if Delivery(r.s, p).Some? then r.sent + [Delivery(r.s, p).value] else r.sent, p.again)
      else r
  }

  function After(stored: Option<int>, start: int, steps: seq<Step>): Run {
    if steps == [] then Run(State(None, None, stored), [], start)
    else Do(After(stored, start, steps[..|steps|-1]), steps[|steps|-1])
  }

  predicate OneProcess(steps: seq<Step>) {
    forall i :: 0 <= i < |steps| ==> steps[i].Tick?
  }

  predicate Disjoint(sent: seq<Window>) {
    && (forall i :: 0 <= i < |sent| ==> sent[i].since <= sent[i].until)
    && (forall i, j :: 0 <= i < j < |sent| ==> sent[i].until <= sent[j].since)
  }

  /** Memory holds the end of the last delivery, and a retried window starts no earlier. */
  predicate InMemory(s: State, clock: int, end: Option<int>) {
    && (s.mem.Some? ==> s.mem.value <= clock)
    && (s.pending.Some? ==> s.pending.value <= clock)
    && (s.pending.Some? && s.mem.Some? ==> s.mem.value <= s.pending.value)
    && (s.pending.Some? ==> s.mem.Some? || LastSent(s.stored, clock).Some?)
    && (end.Some? ==> s.mem == end)
  }

  function End(r: Run): Option<int> {
    if r.sent == [] then None else Some(r.sent[|r.sent|-1].until)
  }

  lemma TickKeepsMemory(s: State, clock: int, end: Option<int>, p: Poll)
    requires InMemory(s, clock, end) && clock <= p.now <= p.again
    ensures InMemory(Next(s, p), p.again, if Delivery(s, p).Some? then Some(p.now) else end)
    ensures Delivery(s, p).Some? ==> (end.Some? ==> end.value <= Since(s, p)) && Since(s, p) <= p.now
  {
  }

  lemma {:induction false} WindowsNeverOverlap(stored: Option<int>, start: int, steps: seq<Step>)
    requires OneProcess(steps)
    ensures var r := After(stored, start, steps);
            Disjoint(r.sent) && InMemory(r.s, r.clock, End(r))
  {
    if steps != [] {
      var pre, p := steps[..|steps|-1], steps[|steps|-1].p;
      WindowsNeverOverlap(stored, start, pre);
      var r := After(stored, start, pre);
      if r.clock <= p.now <= p.again {
        TickKeepsMemory(r.s, r.clock, End(r), p);
      }
    }
  }

  // -------------------------------------------------- where windows begin

  /** Ahead: the store's watermark, readable and no longer future, is newer than the one in memory. */
  predicate StoreIsAhead(s: State, p: Poll) {
    p.readable && LastSent(s.stored, p.again).Some? && s.mem.Some? && LastSent(s.stored, p.again).value > s.mem.value
  }

  /** A first attempt more than one poll interval after it came due. */
  predicate Late(s: State, p: Poll) {
    Due(s, p) && s.pending.None? && p.now - Watermark(s, p).value > Period(p.freq) + CHECK_INTERVAL
  }

  /**
   The first attempt after a delivery begins its window exactly where the last
   one ended if and only if it is not late and the store is not ahead of memory.
   */
  lemma FirstAttemptIsSeamlessIff(stored: Option<int>, start: int, steps: seq<Step>, p: Poll)
    requires OneProcess(steps)
    ensures var r := After(stored, start, steps);
            r.sent != [] && r.clock <= p.now <= p.again && Due(r.s, p) && r.s.pending.None? ==>
              (Since(r.s, p) == r.sent[|r.sent|-1].until <==> !Late(r.s, p) && !StoreIsAhead(r.s, p))
  {
    WindowsNeverOverlap(stored, start, steps);
  }

  const HOUR := 3600 * NS

  /** The hours a cadence waits; none when it is off. */
  function Hours(freq: string): Option<int> {
    if freq == "daily" then Some(24) else if freq == "weekly" then Some(168) else None
  }

  /** A first attempt covers at least a day or a week, and never more than half an hour over; a late one covers exactly that. */
  lemma FreshWindowLength(s: State, p: Poll)
    requires Due(s, p) && s.pending.None?
    ensures Hours(p.freq).Some?
    ensures var h := Hours(p.freq).value;
            && h * HOUR <= p.now - Since(s, p) <= h * HOUR + HOUR / 2
            && (Late(s, p) ==> p.now - Since(s, p) == h * HOUR)
  {
  }

  /** After a delivery the next one that the webhook takes comes at the first active poll a day, or a week, past its end, unless the store is ahead. */
  lemma DeliversIff(stored: Option<int>, start: int, steps: seq<Step>, p: Poll)
    requires OneProcess(steps)
    ensures var r := After(stored, start, steps);
            r.sent != [] && r.clock <= p.now <= p.again && !StoreIsAhead(r.s, p) ==>
              (Delivery(r.s, p).Some? <==>
                 && p.configured && Hours(p.freq).Some? && p.accepted
                 && p.now - r.sent[|r.sent|-1].until >= Hours(p.freq).value * HOUR)
  {
    WindowsNeverOverlap(stored, start, steps);
  }

  /** A new process with a readable watermark that is not in the future goes by that, and one with none arms for a period from now. */
  lemma FirstPoll(stored: Option<int>, p: Poll)
    requires p.configured && Hours(p.freq).Some? && p.readable
    ensures var s := State(None, None, stored);
            if stored.Some? && stored.value > 0 && stored.value * NS <= p.again
            then Delivery(s, p).Some? <==> p.accepted && p.now - stored.value * NS >= Hours(p.freq).value * HOUR
            else Delivery(s, p).None? && Next(s, p) == State(None, Some(p.now), if p.recorded then Some(p.now / NS) else stored)
  {
  }

  /** A poll that cannot read the store and remembers nothing changes nothing. */
  lemma BlindPollWaits(s: State, p: Poll)
    requires p.configured && Hours(p.freq).Some? && !p.readable && s.mem.None?
    ensures Delivery(s, p).None? && Next(s, p).mem.None? && Next(s, p).stored == s.stored
    ensures s.pending.Some? && s.pending.value <= p.now ==> Next(s, p).pending == s.pending
  {
  }

  /** With the cadence off or no webhook only the retried window is forgotten. */
  lemma IdlePollForgetsTheRetry(s: State, p: Poll)
    requires !p.configured || Hours(p.freq).None?
    ensures Delivery(s, p).None? && Next(s, p) == State(None, s.mem, s.stored)
  {
  }

  /** A due window whose send fails stays pending from its start; one that is taken ends at this poll, in memory and, if the write lands, in the store. */
  lemma DueWindowIsKeptOrClosed(s: State, p: Poll)
    requires Due(s, p)
    ensures !p.accepted ==> Delivery(s, p).None? && Next(s, p) == State(Some(Since(s, p)), NotAfter(s.mem, p.now), s.stored)
    ensures p.accepted ==> Delivery(s, p) == Some(Window(Since(s, p), p.now))
                           && Next(s, p) == State(None, Some(p.now), if p.recorded then Some(p.now / NS) else s.stored)
  {
  }

  /** A clock that stepped back behind everything remembered arms anew from now. */
  lemma SteppedBackClockArms(s: State, p: Poll)
    requires p.configured && Hours(p.freq).Some? && p.readable && p.now <= p.again
    requires s.mem.Some? && s.mem.value > p.now && (s.stored.Some? ==> s.stored.value * NS > p.again)
    ensures Delivery(s, p).None? && Next(s, p).mem == Some(p.now)
  {
  }

  /** A retry never moves the start, however many sends, reads and writes fail. */
  lemma RetriesKeepTheStart(stored: Option<int>, start: int, steps: seq<Step>, p: Poll)
    requires OneProcess(steps)
    ensures var r := After(stored, start, steps);
            r.s.pending.Some? && r.clock <= p.now <= p.again && Active(p) ==>
              if Delivery(r.s, p).Some? then Delivery(r.s, p).value.since == r.s.pending.value
              else Do(r, Tick(p)).s.pending == r.s.pending
  {
    WindowsNeverOverlap(stored, start, steps);
  }

  /** Every poll of the run finds the cadence on and a webhook set, and no first attempt is late. */
  predicate Undisturbed(stored: Option<int>, start: int, steps: seq<Step>)
  {
    steps != [] ==>
      && Undisturbed(stored, start, steps[..|steps|-1])
      && var r, step := After(stored, start, steps[..|steps|-1]), steps[|steps|-1];
      && step.Tick? && Active(step.p) && !Late(r.s, step.p)
  }

  /** Window i starts at, or less than `slack` before, the end of the one before it. */
  predicate Follows(sent: seq<Window>, i: nat, slack: int)
    requires 1 <= i < |sent|
  {
    if slack == 0 then sent[i].since == sent[i-1].until else sent[i].since > sent[i-1].until - slack
  }

  predicate AllFollow(sent: seq<Window>, slack: int) {
    forall i :: 1 <= i < |sent| ==> Follows(sent, i, slack)
  }

  predicate Contiguous(sent: seq<Window>) {
    AllFollow(sent, 0)
  }

  lemma OneMoreFollows(sent: seq<Window>, w: Window, slack: int)
    requires AllFollow(sent, slack) && (sent != [] ==> Follows([sent[|sent|-1], w], 1, slack))
    ensures AllFollow(sent + [w], slack)
  {
    var all := sent + [w];
    forall i | 1 <= i < |all| ensures Follows(all, i, slack) {
      if i < |sent| {
        assert Follows(sent, i, slack);
      }
    }
  }

  /** The store's watermark is not in the future and not ahead of memory. */
  predicate StoreBehind(r: Run) {
    && (r.s.stored.Some? ==> r.s.stored.value * NS <= r.clock)
    && (r.s.mem.Some? ==> r.s.mem.value <= r.clock)
    && (r.s.stored.Some? && r.s.mem.Some? ==> r.s.stored.value * NS <= r.s.mem.value)
  }

  lemma {:induction false} StoreStaysBehind(stored: Option<int>, start: int, steps: seq<Step>)
    requires OneProcess(steps) && (stored.Some? ==> stored.value * NS <= start)
    ensures StoreBehind(After(stored, start, steps))
  {
    if steps != [] {
      StoreStaysBehind(stored, start, steps[..|steps|-1]);
    }
  }

  lemma UndisturbedTick(r: Run, p: Poll)
    requires InMemory(r.s, r.clock, End(r)) && StoreBehind(r) && Active(p) && !Late(r.s, p) && r.clock <= p.now <= p.again
    requires r.s.pending.Some? && r.s.mem.Some? ==> r.s.pending == r.s.mem
    ensures var t := Next(r.s, p); t.pending.Some? && t.mem.Some? ==> t.pending == t.mem
    ensures Delivery(r.s, p).Some? && r.sent != [] ==> Since(r.s, p) == r.sent[|r.sent|-1].until
  {
  }

  /**
   With the store not in the future at the start, each window begins exactly
   where the last one ended, through any failed sends, reads and writes.
   */
  lemma {:induction false} UndisturbedWindowsAreContiguous(stored: Option<int>, start: int, steps: seq<Step>)
    requires Undisturbed(stored, start, steps) && (stored.Some? ==> stored.value * NS <= start)
    ensures var r := After(stored, start, steps);
            OneProcess(steps) && Contiguous(r.sent) && (r.s.pending.Some? && r.s.mem.Some? ==> r.s.pending == r.s.mem)
  {
    if steps != [] {
      var pre, p := steps[..|steps|-1], steps[|steps|-1].p;
      UndisturbedWindowsAreContiguous(stored, start, pre);
      WindowsNeverOverlap(stored, start, pre);
      StoreStaysBehind(stored, start, pre);
      var r := After(stored, start, pre);
      if r.clock <= p.now <= p.again {
        UndisturbedTick(r, p);
        if Delivery(r.s, p).Some? {
          OneMoreFollows(r.sent, Delivery(r.s, p).value, 0);
        }
      }
    }
  }

  /**
   A store whose watermark lies in the future breaks that: arming fails to
   overwrite it, and once the clock passes it, it outranks the window delivered
   meanwhile. Half a day goes unreported here.
   */
  lemma FutureStoreSkipsAStretch()
    ensures var day := Period("daily");
            var at := (t: int) => Tick(Poll("daily", true, t, t, true, true, false));
            var steps := [at(day), at(2 * day), at(3 * day + day / 2)];
            var stored := Some((2 * day + day / 2) / NS);
            Undisturbed(stored, 0, steps)
            && After(stored, 0, steps).sent == [Window(day, 2 * day), Window(2 * day + day / 2, 3 * day + day / 2)]
  {
    var day := Period("daily");
    var at := (t: int) => Tick(Poll("daily", true, t, t, true, true, false));
    var stored := Some((2 * day + day / 2) / NS);
    var one, two, three := [at(day)], [at(day), at(2 * day)], [at(day), at(2 * day), at(3 * day + day / 2)];
    assert one[..0] == [] && two[..1] == one && three[..2] == two;
    assert Undisturbed(stored, 0, []) && Undisturbed(stored, 0, one);
    assert After(stored, 0, one) == Run(State(None, Some(day), stored), [], day);
    assert After(stored, 0, two) == Run(State(None, Some(2 * day), stored), [Window(day, 2 * day)], 2 * day);
    assert Undisturbed(stored, 0, two);
  }

  // ------------------------------------------------------------ restarts

  predicate EveryWriteLands(steps: seq<Step>) {
    forall i :: 0 <= i < |steps| ==> steps[i].Tick? ==> steps[i].p.recorded
  }

  /** The store is never further behind the last delivery than its whole seconds make it. */
  predicate WithinASecond(s: State, clock: int, end: Option<int>) {
    && (s.mem.Some? ==> s.mem.value <= clock)
    && (end.Some? ==>
          && end.value <= clock && s.stored.Some? && end.value - NS < s.stored.value * NS <= clock
          && (s.mem.Some? ==> s.mem.value >= end.value)
          && (s.pending.Some? ==> s.pending.value > end.value - NS))
  }

  lemma TickKeepsWithinASecond(s: State, clock: int, end: Option<int>, p: Poll)
    requires WithinASecond(s, clock, end) && clock <= p.now <= p.again && p.recorded
    ensures WithinASecond(Next(s, p), p.again, if Delivery(s, p).Some? then Some(p.now) else end)
    ensures Delivery(s, p).Some? && end.Some? ==> Since(s, p) > end.value - NS
  {
  }

  /** Across restarts, with every watermark written, two windows share less than a second. */
  lemma {:induction false} RestartsOverlapBelowASecond(stored: Option<int>, start: int, steps: seq<Step>)
    requires EveryWriteLands(steps)
    ensures var r := After(stored, start, steps);
            WithinASecond(r.s, r.clock, End(r)) && AllFollow(r.sent, NS)
  {
    if steps != [] {
      var pre, step := steps[..|steps|-1], steps[|steps|-1];
      RestartsOverlapBelowASecond(stored, start, pre);
      var r := After(stored, start, pre);
      if step.Tick? && r.clock <= step.p.now <= step.p.again {
        TickKeepsWithinASecond(r.s, r.clock, End(r), step.p);
        if Delivery(r.s, step.p).Some? {
          OneMoreFollows(r.sent, Delivery(r.s, step.p).value, NS);
        }
      }
    }
  }
}
