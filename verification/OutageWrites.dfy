/**
 What the loop's writes deliver, in terms of the store's answers: which pending
 events and which held gaps a retry stores, keeps, refuses or drops.
 */
module OutageWrites {
  import opened Wrappers
  import opened Clock
  import opened Debounce
  import opened Outage

  // ----------------------------------------------------- pending events

  /** How many answers come before the first failure. */
  function Landed(oks: seq<bool>): (k: nat)
    ensures k <= |oks| && (forall i :: 0 <= i < k ==> oks[i]) && (k < |oks| ==> !oks[k])
  {
    if oks == [] || !oks[0] then 0 else 1 + Landed(oks[1..])
  }

  function Smaller(a: nat, b: nat): nat {
    if a < b then a else b
  }

  lemma TakeAfterTheFirst<T>(a: seq<T>, ps: seq<T>, k: nat)
    requires 0 < k <= |ps|
    ensures ps[1..][k-1..] == ps[k..] && (a + [ps[0]]) + ps[1..][..k-1] == a + ps[..k]
  {
  }

  lemma FlushOne(s: State, oks: seq<bool>)
    requires s.pendingEvents != [] && oks != [] && oks[0]
    ensures var e, ps := s.pendingEvents[0], s.pendingEvents;
            FlushPendingEvents(s, oks)
            == FlushPendingEvents(s.(pendingEvents := ps[1..], past := s.past.(storedEvents := s.past.storedEvents + [e])), oks[1..])
  {
  }

  /**
   A flush stores exactly the pending events whose writes were answered well
   before the first failure, in order, and leaves the rest pending, in order.
   */
  lemma {:induction false} FlushStoresWhatLanded(s: State, oks: seq<bool>)
    ensures var t, k := FlushPendingEvents(s, oks), Smaller(|s.pendingEvents|, Landed(oks));
            t == s.(pendingEvents := s.pendingEvents[k..],
                    past := s.past.(storedEvents := s.past.storedEvents + s.pendingEvents[..k]))
    decreases |s.pendingEvents|
  {
    var ps, k := s.pendingEvents, Smaller(|s.pendingEvents|, Landed(oks));
    if k == 0 {
      assert ps[0..] == ps && s.past.storedEvents + ps[..0] == s.past.storedEvents;
    } else {
      FlushOne(s, oks);
      FlushStoresWhatLanded(s.(pendingEvents := ps[1..], past := s.past.(storedEvents := s.past.storedEvents + [ps[0]])), oks[1..]);
      TakeAfterTheFirst(s.past.storedEvents, ps, k);
    }
  }

  /** A new event is stored at once if its write lands; otherwise it waits last, the oldest giving way only at the cap of 64. */
  lemma EmitStoresOrQueues(s: State, e: EventRow, ok: bool)
    ensures var t := EmitEvent(s, e, ok); var full := |s.pendingEvents| >= 64;
            && t.past.emitted == s.past.emitted + [e]
            && t.past.storedEvents == s.past.storedEvents + (if ok then [e] else [])
            && t.pendingEvents == (if ok then s.pendingEvents else (if full then s.pendingEvents[1..] else s.pendingEvents) + [e])
            && t.past.droppedEvents == s.past.droppedEvents + (if !ok && full then [s.pendingEvents[0]] else [])
  {
    assert s.past.droppedEvents + [] == s.past.droppedEvents;
    assert s.past.storedEvents + [] == s.past.storedEvents;
  }

  // ---------------------------------------------------------- held gaps

  /** The store's answer to record i of a retry; a write that was not answered failed. */
  function AnswerTo(os: seq<Outcome>, i: nat): Outcome {
    if i < |os| then os[i] else Failed
  }

  /** The records answered `o`, in order. */
  function Answered(ps: seq<PendingGap>, os: seq<Outcome>, o: Outcome): seq<PendingGap> {
    if ps == [] then []
    else Answered(ps[..|ps|-1], os, o) + if AnswerTo(os, |ps| - 1) == o then [ps[|ps|-1]] else []
  }

  lemma {:induction false} AnsweredFromTheFront(ps: seq<PendingGap>, os: seq<Outcome>, o: Outcome)
    requires ps != []
    ensures Answered(ps, os, o) == (if AnswerTo(os, 0) == o then [ps[0]] else []) + Answered(ps[1..], Rest(os), o)
  {
    var n := |ps| - 1;
    if n == 0 {
      assert ps[..0] == [] && ps[1..] == [];
    } else {
      AnsweredFromTheFront(ps[..n], os, o);
      assert ps[..n][1..] == ps[1..][..n-1] && ps[1..][n-1] == ps[n];
      assert AnswerTo(Rest(os), n - 1) == AnswerTo(os, n);
    }
  }

  /** What a settled record does to the queues and the history; the accumulators are the ledger's business. */
  datatype Queues = Queues(held: seq<PendingGap>, stored: seq<PendingGap>, refused: seq<PendingGap>,
                           evicted: seq<PendingGap>, booked: seq<PendingGap>)

  function QueuesOf(s: State): Queues {
    Queues(s.held, s.past.stored, s.past.refused, s.past.evicted, s.past.booked)
  }

  lemma SettleQueues(s: State, p: PendingGap, o: Outcome)
    ensures var q, r := QueuesOf(s), QueuesOf(Settle(s, p, o));
            r == q.(stored := if o.Stored? then q.stored + [p] else q.stored,
                    refused := if o.Refused? then q.refused + [p] else q.refused)
  {
  }

  function If<T>(b: bool, x: T): seq<T> {
    if b then [x] else []
  }

  /** Record `p` filed under answer `o`. */
  function Filed(q: Queues, p: PendingGap, o: Outcome): Queues {
    q.(held := q.held + If(o.Failed?, p), stored := q.stored + If(o.Stored?, p), refused := q.refused + If(o.Refused?, p))
  }

  lemma RetryOneQueues(s: State, p: PendingGap, o: Outcome)
    ensures QueuesOf(if o.Failed? then s.(held := s.held + [p]) else Settle(s, p, o)) == Filed(QueuesOf(s), p, o)
  {
    SettleQueues(s, p, o);
  }

  function AllFiled(q: Queues, ps: seq<PendingGap>, os: seq<Outcome>): Queues {
    q.(held := q.held + Answered(ps, os, Failed), stored := q.stored + Answered(ps, os, Stored),
       refused := q.refused + Answered(ps, os, Refused))
  }

  lemma FileTheFirst(q: Queues, ps: seq<PendingGap>, os: seq<Outcome>)
    requires ps != []
    ensures AllFiled(Filed(q, ps[0], AnswerTo(os, 0)), ps[1..], Rest(os)) == AllFiled(q, ps, os)
  {
    AnsweredFromTheFront(ps, os, Failed);
    AnsweredFromTheFront(ps, os, Stored);
    AnsweredFromTheFront(ps, os, Refused);
  }

  lemma {:induction false} RetryFromQueues(s: State, todo: seq<PendingGap>, os: seq<Outcome>)
    ensures QueuesOf(RetryFrom(s, todo, os)) == AllFiled(QueuesOf(s), todo, os)
    decreases |todo|
  {
    if todo != [] {
      var o := Next(os);
      assert o == AnswerTo(os, 0);
      RetryOneQueues(s, todo[0], o);
      RetryFromQueues(if o.Failed? then s.(held := s.held + [todo[0]]) else Settle(s, todo[0], o), todo[1..], Rest(os));
      FileTheFirst(QueuesOf(s), todo, os);
    }
  }

  /** A retry of the held records keeps exactly those whose write failed, in order, and files every other under its answer. */
  lemma RetryFilesEveryAnswer(s: State, os: seq<Outcome>)
    ensures var q, r := QueuesOf(s), QueuesOf(RetryHeldGaps(s, os));
            && r.held == Answered(s.held, os, Failed)
            && r.stored == q.stored + Answered(s.held, os, Stored)
            && r.refused == q.refused + Answered(s.held, os, Refused)
            && r.evicted == q.evicted && r.booked == q.booked
  {
    RetryFromQueues(s.(held := []), s.held, os);
  }

  /** A new record is filed under its answer; one whose write failed is held last, the oldest giving way only at the cap of 64. */
  lemma OfferFilesTheAnswer(s: State, p: PendingGap, o: Outcome)
    ensures var q, r := QueuesOf(s), QueuesOf(Offer(s, p, o)); var full := |q.held| >= 64;
            && r.booked == q.booked + [p]
            && r.stored == q.stored + (if o.Stored? then [p] else [])
            && r.refused == q.refused + (if o.Refused? then [p] else [])
            && r.held == (if o.Failed? then (if full then q.held[1..] else q.held) + [p] else q.held)
            && r.evicted == q.evicted + (if o.Failed? && full then [q.held[0]] else [])
  {
    var b := s.(past := s.past.(booked := s.past.booked + [p]));
    SettleQueues(b, p, o);
    assert QueuesOf(s).stored + [] == QueuesOf(s).stored && QueuesOf(s).refused + [] == QueuesOf(s).refused;
    assert QueuesOf(s).evicted + [] == QueuesOf(s).evicted;
  }
}
