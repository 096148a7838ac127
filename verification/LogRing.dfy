/**
 The in-memory log ring: a compacted buffer with an entry ceiling and a byte
 ceiling, whose evicted count doubles as the sequence of its oldest line.
 */
module LogRing {

  import opened Wrappers
  import opened LogText

  const BLANK := Entry("", "")

  function Sizes(es: seq<Entry>): nat {
    if es == [] then 0 else es[0].Size() + Sizes(es[1..])
  }

  lemma {:induction false} SizesConcat(a: seq<Entry>, b: seq<Entry>)
    ensures Sizes(a + b) == Sizes(a) + Sizes(b)
  {
    if a == [] {
      assert a + b == b;
    } else {
      assert (a + b)[1..] == a[1..] + b;
      SizesConcat(a[1..], b);
    }
  }

  datatype Limits = Limits(entries: nat, bytes: nat)

  /** Within both ceilings, or down to the newest line. */
  predicate Fits(es: seq<Entry>, lim: Limits) {
    |es| <= 1 || (|es| <= lim.entries && Sizes(es) <= lim.bytes)
  }

  /** How many of the oldest lines must go. */
  function Excess(es: seq<Entry>, lim: Limits): (d: nat)
    ensures d <= |es| && (es != [] ==> d < |es|)
  {
    if Fits(es, lim) then 0 else 1 + Excess(es[1..], lim)
  }

  /** Eviction stops as soon as it may: the kept suffix fits, and no longer suffix does. */
  lemma {:induction false} ExcessIsLeast(es: seq<Entry>, lim: Limits)
    ensures Fits(es[Excess(es, lim)..], lim)
    ensures forall d: nat :: d < Excess(es, lim) ==> !Fits(es[d..], lim)
    decreases |es|
  {
    if Fits(es, lim) {
      assert es[0..] == es;
    } else {
      ExcessIsLeast(es[1..], lim);
      assert es[1..][Excess(es[1..], lim)..] == es[Excess(es, lim)..];
      forall d: nat | d < Excess(es, lim) ensures !Fits(es[d..], lim) {
        if d == 0 {
          assert es[0..] == es;
        } else {
          assert es[1..][d-1..] == es[d..];
        }
      }
    }
  }

  /**
   A ring as a value: everything it was ever given, how much of that it has let
   go of, and the epoch that Clear rotates.
   */
  datatype Log = Log(all: seq<Entry>, dropped: nat, epoch: nat, lim: Limits) {
    predicate Valid() {
      dropped <= |all| && Fits(Lines(), lim)
    }

    function Lines(): seq<Entry>
      requires dropped <= |all|
    {
      all[dropped..]
    }

    /** One past the newest line's sequence. */
    function End(): nat {
      |all|
    }
  }

  /** What eviction leaves of the lines a longer history still held. */
  lemma Evicted(all: seq<Entry>, from: nat, lim: Limits)
    requires from <= |all|
    ensures var d := Excess(all[from..], lim);
            from + d <= |all| && all[from..][d..] == all[from + d..] && Fits(all[from + d..], lim)
  {
    var kept := all[from..];
    var d := Excess(kept, lim);
    ExcessIsLeast(kept, lim);
    assert kept[d..] == all[from + d..];
  }

  /** Eviction. */
  function Trimmed(l: Log): (r: Log)
    requires l.dropped <= |l.all|
    ensures r.Valid()
  {
    Evicted(l.all, l.dropped, l.lim);
    l.(dropped := l.dropped + Excess(l.Lines(), l.lim))
  }

  function Add(l: Log, es: seq<Entry>): (r: Log)
    requires l.Valid()
    ensures r.Valid()
  {
    Trimmed(l.(all := l.all + es))
  }

  function Wipe(l: Log, epoch: nat): Log {
    l.(dropped := |l.all|, epoch := epoch)
  }

  /** Where a read from `cursor` starts: never before the oldest line, never past the end. */
  function Resume(l: Log, cursor: nat): nat {
    if cursor < l.dropped then l.dropped else if cursor > l.End() then l.End() else cursor
  }

  /** Where it stops. */
  function Stop(l: Log, cursor: nat, limit: int): nat {
    var lo := Resume(l, cursor);
    if limit > 0 && l.End() - lo > limit then lo + limit else l.End()
  }

  /** What a path leads to: a missing file is no error, a link, a device or an unreadable file is one. */
  datatype Found = Missing | Irregular | Unreadable | Regular(text: string)

  /** The ceiling on a ring's text that New sets: 8 MiB. */
  const DEFAULT_MAX_BYTES := 0x80_0000

  class Ring {
    var buf: array<Entry>
    var len: nat
    const lim: Limits
    var bytes: nat
    var dropped: nat
    var epoch: nat
    ghost var all: seq<Entry>

    /** The buffer holds the history from `dropped` on and knows its size. */
    ghost predicate Held()
      reads this, buf
    {
      && len <= buf.Length
      && dropped + len == |all| && buf[..len] == all[dropped..]
      && bytes == Sizes(buf[..len])
      // No evicted entry is still referenced from the vacated slots.
      && forall i :: len <= i < buf.Length ==> buf[i] == BLANK
    }

    ghost predicate Valid()
      reads this, buf
    {
      Held() && Fits(buf[..len], lim)
    }

    ghost function View(): Log
      reads this
    {
      Log(all, dropped, epoch, lim)
    }

    constructor (capacity: int, epoch: nat)
      ensures Valid() && fresh(buf)
      ensures View() == Log([], 0, epoch, Limits(if capacity < 1 then 1 else capacity, DEFAULT_MAX_BYTES))
    {
      var entries := if capacity < 1 then 1 else capacity;
      buf := new Entry[entries](_ => BLANK);
      lim := Limits(entries, DEFAULT_MAX_BYTES);
      len, bytes, dropped, this.epoch, all := 0, 0, 0, epoch, [];
    }

    /** Go's append: a full backing array is replaced by a larger one. */
    method Push(e: Entry)
      requires len <= buf.Length
      requires forall i :: len <= i < buf.Length ==> buf[i] == BLANK
      modifies this`buf, this`len, buf
      ensures len == old(len) + 1 && len <= buf.Length && buf[..len] == old(buf[..len]) + [e]
      ensures forall i :: len <= i < buf.Length ==> buf[i] == BLANK
      ensures buf == old(buf) || fresh(buf)
    {
      if len == buf.Length {
        var wider := new Entry[2 * buf.Length + 1](_ => BLANK);
        forall i | 0 <= i < len {
          wider[i] := buf[i];
        }
        assert wider[..len] == buf[..len];
        buf := wider;
      }
      buf[len] := e;
      len := len + 1;
    }

    /** Evicts the oldest lines until both ceilings are met or one line is left. */
    method Trim()
      requires Held()
      modifies this`len, this`bytes, this`dropped, buf
      ensures Valid() && View() == Trimmed(old(View()))
    {
      Evicted(all, dropped, lim);
      var drop := Release();
      Compact(drop);
    }

    method Release() returns (drop: nat)
      requires len <= buf.Length && bytes == Sizes(buf[..len])
      modifies this`bytes
      ensures drop == Excess(buf[..len], lim) && bytes == Sizes(buf[..len][drop..])
    {
      ghost var was := buf[..len];
      drop := 0;
      assert was[0..] == was;
      while drop < len - 1 && (len - drop > lim.entries || bytes > lim.bytes)
        invariant 0 <= drop <= len && (len > 0 ==> drop < len)
        invariant bytes == Sizes(was[drop..])
        invariant Excess(was, lim) == drop + Excess(was[drop..], lim)
      {
        assert was[drop..][1..] == was[drop+1..] && was[drop..][0] == buf[drop];
        bytes := bytes - buf[drop].Size();
        drop := drop + 1;
      }
    }

    /** Moves the survivors to the front, so that nothing evicted stays referenced. */
    method Compact(drop: nat)
      requires drop <= len <= buf.Length
      requires forall i :: len <= i < buf.Length ==> buf[i] == BLANK
      modifies this`len, this`dropped, buf
      ensures len == old(len) - drop && dropped == old(dropped) + drop
      ensures buf[..len] == old(buf[..len])[drop..]
      ensures forall i :: len <= i < buf.Length ==> buf[i] == BLANK
    {
      if drop > 0 {
        var n := len - drop;
        forall i | 0 <= i < n {
          buf[i] := buf[drop + i];
        }
        forall i | n <= i < len {
          buf[i] := BLANK;
        }
        len := n;
        dropped := dropped + drop;
      }
    }

    method Append(raw: string, masked: string)
      requires Valid()
      modifies this, buf
      ensures Valid() && (buf == old(buf) || fresh(buf))
      ensures View() == Add(old(View()), [Entry(raw, masked)])
    {
      Store(Entry(raw, masked));
      Trim();
    }

    /** The part of Append before the trim. */
    method Store(e: Entry)
      requires Held()
      modifies this`buf, this`len, this`bytes, this`all, buf
      ensures Held() && all == old(all) + [e]
      ensures buf == old(buf) || fresh(buf)
    {
      ghost var lines := buf[..len];
      Push(e);
      bytes := bytes + e.Size();
      SizesConcat(lines, [e]);
      assert (all + [e])[dropped..] == all[dropped..] + [e];
      all := all + [e];
    }

    /** Seeds the ring from a snapshot, under the ring's own ceilings; only a regular file is ever read. */
    method LoadFile(found: Found, dec: string -> Option<Entry>) returns (ok: bool)
      requires Valid()
      modifies this, buf
      ensures Valid() && (buf == old(buf) || fresh(buf))
      ensures ok <==> found.Regular? || found.Missing?
      ensures View() == if found.Regular? then Add(old(View()), Read(dec, found.text, lim.bytes)) else old(View())
    {
      if !found.Regular? {
        return found.Missing?;
      }
      var lns := Split(TrimNewlines(TailRead(found.text, lim.bytes)));
      SeedLines(lns, dec);
      Trim();
      return true;
    }

    method SeedLines(lns: seq<string>, dec: string -> Option<Entry>)
      requires Held()
      modifies this`buf, this`len, this`bytes, this`all, buf
      ensures Held() && all == old(all) + ParseLines(dec, lns)
      ensures buf == old(buf) || fresh(buf)
    {
      for i := 0 to |lns|
        invariant Held() && all == old(all) + ParseLines(dec, lns[..i])
        invariant buf == old(buf) || fresh(buf)
      {
        var ln := lns[i];
        OneMoreLine(dec, lns, i);
        if Wanted(ln) {
          Store(ParseLine(dec, ln));
        }
      }
      assert lns[..|lns|] == lns;
    }

    method Clear(rotated: nat)
      requires Valid() && epoch < rotated
      modifies this`len, this`bytes, this`dropped, this`epoch, buf
      ensures Valid() && View() == Wipe(old(View()), rotated)
    {
      epoch := rotated;
      dropped := dropped + len;
      forall i | 0 <= i < len {
        buf[i] := BLANK;
      }
      len := 0;
      bytes := 0;
      assert all[dropped..] == [];
    }

    /** Copies lines[lo..hi] and reports the sequences around them. */
    method Window(lo: nat, hi: nat) returns (out: seq<Entry>, first: nat, next: nat)
      requires Valid() && lo <= hi <= len
      ensures out == all[dropped + lo..dropped + hi] && first == dropped && next == dropped + hi
    {
      ghost var kept := all[dropped..];
      assert kept[lo..hi] == all[dropped + lo..dropped + hi];
      assert buf[..len][lo..hi] == buf[lo..hi];
      return buf[lo..hi], dropped, dropped + hi;
    }

    /** The newest `limit` lines, or all of them. */
    method Tail(limit: int) returns (out: seq<Entry>, first: nat, next: nat)
      requires Valid()
      ensures first == dropped && next == |all|
      ensures |out| == if limit > 0 && len > limit then limit else len
      ensures |out| <= |all| && out == all[|all| - |out|..] && out == all[TailStart(View(), limit)..]
    {
      var lo := 0;
      if limit > 0 && len > limit {
        lo := len - limit;
      }
      out, first, next := Window(lo, len);
    }

    /** The oldest lines from `cursor` on, at most `limit` of them. */
    method Since(cursor: nat, limit: int) returns (out: seq<Entry>, first: nat, next: nat)
      requires Valid()
      ensures first == dropped && next == Stop(View(), cursor, limit)
      ensures out == all[Resume(View(), cursor)..next]
    {
      var seqNo, end := cursor, dropped + len;
      if seqNo < dropped {
        seqNo := dropped;
      }
      if seqNo > end {
        seqNo := end;
      }
      var lo, hi := seqNo - dropped, len;
      if limit > 0 && hi - lo > limit {
        hi := lo + limit;
      }
      out, first, next := Window(lo, hi);
    }
  }

  // ------------------------------------------------------ polling readers

  datatype Op = Append(e: Entry) | Clear | Load(es: seq<Entry>) | Join(limit: int) | Poll(limit: int)

  /** What an operation does to the ring itself; Clear names a new epoch. */
  function Write(l: Log, op: Op): (r: Log)
    requires l.Valid()
    ensures r.Valid()
  {
    match op
    case Append(e) => Add(l, [e])
    case Load(es) => Add(l, es)
    case Clear => Wipe(l, l.epoch + 1)
    case _ => l
  }

  /**
   A ring and one reader of it: the sequence its view starts at, its cursor, the
   sequences and lines it was given, and those it was told it missed. It joins, or
   starts over, with Tail, and polls from the cursor that gave it.
   */
  datatype Reading = Reading(log: Log, start: nat, cursor: nat, got: seq<nat>, lines: seq<Entry>, missed: set<nat>)

  /** Where Tail's lines begin. */
  function TailStart(l: Log, limit: int): nat
    requires l.dropped <= |l.all|
  {
    if limit > 0 && l.End() - l.dropped > limit then l.End() - limit else l.dropped
  }

  function Upto(lo: nat, hi: nat): (s: seq<nat>)
    requires lo <= hi
    ensures |s| == hi - lo && forall i :: 0 <= i < |s| ==> s[i] == lo + i
  {
    seq(hi - lo, i requires 0 <= i < hi - lo => lo + i)
  }

  function Skipped(cursor: nat, first: nat): (s: set<nat>)
    ensures forall n :: n in s <==> cursor <= n < first
    decreases first - cursor
  {
    if cursor < first then {cursor} + Skipped(cursor + 1, first) else {}
  }

  function Step(r: Reading, op: Op): (t: Reading)
    requires r.log.Valid()
    ensures t.log.Valid()
  {
    match op
    case Join(limit) =>
      var lo := TailStart(r.log, limit);
      Reading(r.log, lo, r.log.End(), Upto(lo, r.log.End()), r.log.all[lo..], {})
    case Poll(limit) =>
      var lo, next := Resume(r.log, r.cursor), Stop(r.log, r.cursor, limit);
      // The reported gap is max(0, first - cursor): the sequences between the two.
      r.(cursor := next, got := r.got + Upto(lo, next), lines := r.lines + r.log.all[lo..next],
         missed := r.missed + Skipped(r.cursor, r.log.dropped))
    case _ => r.(log := Write(r.log, op))
  }

  function History(lim: Limits, ops: seq<Op>): (r: Reading)
    ensures r.log.Valid()
  {
    if ops == [] then Reading(Log([], 0, 0, lim), 0, 0, [], [], {})
    else Step(History(lim, ops[..|ops|-1]), ops[|ops|-1])
  }

  /** In order, at most once, and exactly what was logged under that sequence. */
  ghost predicate Verbatim(r: Reading) {
    && r.cursor <= r.log.End()
    && |r.lines| == |r.got|
    && (forall i, j :: 0 <= i < j < |r.got| ==> r.got[i] < r.got[j])
    && (forall i :: 0 <= i < |r.got| ==> r.got[i] < r.cursor && r.lines[i] == r.log.all[r.got[i]])
  }

  /** Every line between the view's start and the cursor was either delivered or evicted, and never both. */
  ghost predicate Accounted(r: Reading) {
    && r.start <= r.cursor
    && (forall n :: n in r.got ==> r.start <= n)
    && (forall n :: r.start <= n < r.cursor ==> (n in r.got <==> n !in r.missed))
    && (forall n :: n in r.missed ==> r.start <= n < r.cursor && n < r.log.dropped)
  }

  ghost predicate Faithful(r: Reading) {
    Verbatim(r) && Accounted(r)
  }

  lemma PollKeepsAccounted(r: Reading, limit: int)
    requires Faithful(r) && r.log.Valid()
    ensures Accounted(Step(r, Poll(limit)))
  {
    var t := Step(r, Poll(limit));
    var lo, next := Resume(r.log, r.cursor), Stop(r.log, r.cursor, limit);
    forall n | t.start <= n < t.cursor ensures n in t.got <==> n !in t.missed {
      if lo <= n {
        assert Upto(lo, next)[n - lo] == n;
        assert n in Upto(lo, next);
      } else {
        assert n !in Upto(lo, next);
      }
    }
  }

  lemma PollKeepsVerbatim(r: Reading, limit: int)
    requires Faithful(r) && r.log.Valid()
    ensures Verbatim(Step(r, Poll(limit)))
  {
    var t := Step(r, Poll(limit));
    var lo := Resume(r.log, r.cursor);
    forall i | 0 <= i < |t.got| ensures t.got[i] < t.cursor && t.lines[i] == t.log.all[t.got[i]] {
      if i >= |r.got| {
        assert t.got[i] == lo + (i - |r.got|);
      }
    }
  }

  lemma AddKeepsFaithful(r: Reading, es: seq<Entry>)
    requires Faithful(r) && r.log.Valid()
    ensures Faithful(r.(log := Add(r.log, es)))
  {
  }

  lemma JoiningIsFaithful(r: Reading, limit: int)
    requires r.log.Valid()
    ensures Faithful(Step(r, Join(limit)))
  {
    var t := Step(r, Join(limit));
    var lo := TailStart(r.log, limit);
    forall n | lo <= n < r.log.End() ensures n in t.got {
      assert t.got[n - lo] == n;
    }
    forall i | 0 <= i < |t.got| ensures t.lines[i] == r.log.all[t.got[i]] {
      assert t.got[i] == lo + i;
    }
  }

  /**
   A reader that joins with Tail and polls with the cursor it was handed, at any
   limits, between any appends, evictions, loads and wipes, gets each line of its
   view at most once and in order, and misses exactly those that were gone before
   the poll that told it.
   */
  lemma {:induction false} EveryReaderIsFaithful(lim: Limits, ops: seq<Op>)
    ensures Faithful(History(lim, ops))
  {
    if ops != [] {
      var pre, op := ops[..|ops|-1], ops[|ops|-1];
      EveryReaderIsFaithful(lim, pre);
      match op
      case Join(limit) => JoiningIsFaithful(History(lim, pre), limit);
      case Poll(limit) =>
        PollKeepsVerbatim(History(lim, pre), limit);
        PollKeepsAccounted(History(lim, pre), limit);
      case Append(e) => AddKeepsFaithful(History(lim, pre), [e]);
      case Load(es) => AddKeepsFaithful(History(lim, pre), es);
      case Clear =>
    }
  }

  // ------------------------------------------------ what is delivered

  /** A write keeps the longest run of newest lines that meets both ceilings, and the newest line whatever its size. */
  lemma WritesKeepTheMost(l: Log, es: seq<Entry>)
    requires l.Valid()
    ensures var r := Add(l, es); var before := l.Lines() + es; var d := r.dropped - l.dropped;
            && 0 <= d <= |before| && r.Lines() == before[d..] && Fits(before[d..], l.lim)
            && (forall e: nat :: e < d ==> !Fits(before[e..], l.lim))
            && (before != [] ==> d < |before|)
            && r.all == l.all + es && r.epoch == l.epoch && r.lim == l.lim
  {
    var all, before := l.all + es, l.Lines() + es;
    assert all[l.dropped..] == before;
    Evicted(all, l.dropped, l.lim);
    ExcessIsLeast(before, l.lim);
  }

  /** Clear lets every line go, keeps the sequence climbing, and names a new epoch. */
  lemma ClearLetsGo(l: Log)
    requires l.Valid()
    ensures var r := Write(l, Clear);
            r.Lines() == [] && r.all == l.all && r.dropped == l.End() && r.End() == l.End() && r.epoch > l.epoch && r.lim == l.lim
  {
  }

  /** Lines a reader has not been given and still could be. */
  function Unread(r: Reading): nat {
    var from := if r.cursor < r.log.dropped then r.log.dropped else r.cursor;
    if from < r.log.End() then r.log.End() - from else 0
  }

  function Least(a: nat, b: nat): nat {
    if a < b then a else b
  }

  /** The sequence the next unread line has, and how many of them one poll takes. */
  function Upcoming(r: Reading): nat {
    if r.cursor < r.log.dropped then r.log.dropped else r.cursor
  }

  function Takes(r: Reading, limit: int): nat {
    if limit > 0 then Least(limit, Unread(r)) else Unread(r)
  }

  /** A poll delivers the oldest unread lines, as many as its limit allows, and moves the cursor past them. */
  lemma PollDelivers(r: Reading, limit: int)
    requires r.log.Valid() && r.cursor <= r.log.End()
    ensures var t, from, n := Step(r, Poll(limit)), Upcoming(r), Takes(r, limit);
            && from + n <= |r.log.all| && t.lines == r.lines + r.log.all[from..from + n]
            && t.cursor == from + n && t.log == r.log && Unread(t) == Unread(r) - n
  {
  }

  /** And reports as missed exactly the lines between its cursor and the oldest one left. */
  lemma PollReportsTheGap(r: Reading, limit: int)
    requires r.log.Valid()
    ensures forall k :: k in Step(r, Poll(limit)).missed <==> k in r.missed || r.cursor <= k < r.log.dropped
  {
  }

  /** The same reader after `n` polls of one limit. */
  function Polled(r: Reading, limit: int, n: nat): (t: Reading)
    requires r.log.Valid()
    ensures t.log.Valid()
  {
    if n == 0 then r else Step(Polled(r, limit, n - 1), Poll(limit))
  }

  /** So a reader that fell behind catches up: every poll of a positive limit closes the gap by that much. */
  lemma {:induction false} PollsCatchUp(r: Reading, limit: nat, n: nat)
    requires r.log.Valid() && r.cursor <= r.log.End() && limit > 0
    ensures var t := Polled(r, limit, n);
            t.log == r.log && t.cursor <= r.log.End() && Unread(t) == if n * limit < Unread(r) then Unread(r) - n * limit else 0
  {
    if n > 0 {
      PollsCatchUp(r, limit, n - 1);
      PollDelivers(Polled(r, limit, n - 1), limit);
      assert n * limit == (n - 1) * limit + limit;
    }
  }

  /** Joining shows the newest lines, as many as the limit allows, and leaves nothing unread. */
  lemma JoiningShowsTheNewest(r: Reading, limit: int)
    requires r.log.Valid()
    ensures var t, lines := Step(r, Join(limit)), r.log.Lines();
            && t.lines == lines[|lines| - (if limit > 0 then Least(limit, |lines|) else |lines|)..]
            && Unread(t) == 0 && t.missed == {} && t.log == r.log
  {
  }
}
