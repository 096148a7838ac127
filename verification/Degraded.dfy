/**
 The degraded-latency latch and its lock-free re-arm. The monitor goroutine runs
 CheckDegraded; dispatchers report bounces from other goroutines through a
 compare-and-swap loop on one shared slot, late and in any order.
 */
module Degraded {

  const DEGRADED_ROUNDS := 2

  /**
   The latch. `retry` is the slot both sides swap on; `id` is written by the
   monitor alone. `episode` and `honoured` record the dispatches of the current
   episode and the bounces taken in it; `dispatched` every id ever handed out.
   */
  datatype Gate = Gate(streak: nat, degraded: bool, sent: bool, seqNo: nat, id: nat, retry: nat,
                       episode: seq<nat>, honoured: seq<nat>, dispatched: seq<nat>)

  /** One round's reading, with the threshold and hook in force. */
  datatype Reading = Reading(best: real, haveReading: bool, online: bool, threshold: real, hook: bool)

  function Reset(g: Gate): Gate {
    g.(streak := 0, degraded := false, sent := false, id := 0, episode := [], honoured := [])
  }

  function Dispatch(g: Gate): Gate {
    g.(sent := true, seqNo := g.seqNo + 1, id := g.seqNo + 1,
       episode := g.episode + [g.seqNo + 1], dispatched := g.dispatched + [g.seqNo + 1])
  }

  /** Takes a bounce of the live dispatch back, if one is in the slot. */
  function HandBack(g: Gate): Gate {
    if g.sent && g.retry == g.id then g.(sent := false, retry := 0, honoured := g.honoured + [g.id]) else g
  }

  /** The slot is touched once, by the swap, so against the dispatchers a round is one atomic step. */
  function Check(g: Gate, r: Reading): Gate {
    if r.threshold <= 0.0 || !r.online then Reset(g)
    else if !r.haveReading then g
    else if r.best > r.threshold then
      var g := g.(streak := g.streak + 1);
      if g.streak < DEGRADED_ROUNDS then g
      else
        var g := HandBack(g.(degraded := true));
        if !g.sent && r.hook then Dispatch(g) else g
    else Reset(g)
  }

  /** The monitor's side, in place. */
  class Latch {
    var degradedStreak: nat
    var degraded: bool
    var degradedSent: bool
    var degradedSeq: nat
    var degradedID: nat
    var degradedRetry: nat
    ghost var episode: seq<nat>
    ghost var honoured: seq<nat>
    ghost var dispatched: seq<nat>

    ghost function View(): Gate
      reads this
    {
      Gate(degradedStreak, degraded, degradedSent, degradedSeq, degradedID, degradedRetry, episode, honoured, dispatched)
    }

    method ResetDegraded()
      modifies this
      ensures View() == Reset(old(View()))
    {
      degradedStreak, degraded, degradedSent := 0, false, false;
      degradedID := 0;
      episode, honoured := [], [];
    }

    method CheckDegraded(r: Reading)
      modifies this
      ensures View() == Check(old(View()), r)
    {
      if r.threshold <= 0.0 || !r.online {
        ResetDegraded();
        return;
      }
      if !r.haveReading {
        return;
      }
      if r.best > r.threshold {
        degradedStreak := degradedStreak + 1;
        if degradedStreak < DEGRADED_ROUNDS {
          return;
        }
        degraded := true;
        if degradedSent && degradedRetry == degradedID {
          degradedSent, degradedRetry := false, 0;
          honoured := honoured + [degradedID];
        }
        if !degradedSent && r.hook {
          degradedSent := true;
          degradedSeq := degradedSeq + 1;
          degradedID := degradedSeq;
          episode := episode + [degradedSeq];
          dispatched := dispatched + [degradedSeq];
        }
        return;
      }
      ResetDegraded();
    }
  }

  // -------------------------------------------- the two sides together

  /** A RetryDegraded call in flight: about to read the slot, or about to swap what it read. */
  datatype Call = Loading(id: nat) | Swapping(id: nat, cur: nat)

  /** `reported` holds the ids whose report has returned or was swapped in. */
  datatype System = System(gate: Gate, calls: map<nat, Call>, reported: set<nat>)

  datatype Step =
    | Round(r: Reading)
    | Begin(call: nat, id: nat)
    | Load(call: nat)
    | Swap(call: nat)

  function Start(): System {
    System(Gate(0, false, false, 0, 0, 0, [], [], []), map[], {})
  }

  predicate Enabled(s: System, step: Step) {
    match step
    case Round(_) => true
    case Begin(c, id) => c !in s.calls && 1 <= id <= s.gate.seqNo
    case Load(c) => c in s.calls && s.calls[c].Loading?
    case Swap(c) => c in s.calls && s.calls[c].Swapping?
  }

  function Apply(s: System, step: Step): System
    requires Enabled(s, step)
  {
    match step
    case Round(r) => s.(gate := Check(s.gate, r))
    case Begin(c, id) => s.(calls := s.calls[c := Loading(id)])
    case Load(c) =>
      var id := s.calls[c].id;
      if s.gate.retry >= id then s.(calls := s.calls - {c}, reported := s.reported + {id})
      else s.(calls := s.calls[c := Swapping(id, s.gate.retry)])
    case Swap(c) =>
      var call := s.calls[c];
      if s.gate.retry == call.cur then
        s.(gate := s.gate.(retry := call.id), calls := s.calls - {c}, reported := s.reported + {call.id})
      else s.(calls := s.calls[c := Loading(call.id)])
  }

  /** The system after an interleaving; a step that is not enabled there does nothing. */
  function After(steps: seq<Step>): System {
    if steps == [] then Start()
    else
      var s, step := After(steps[..|steps|-1]), steps[|steps|-1];
      if Enabled(s, step) then Apply(s, step) else s
  }

  ghost predicate Sound(s: System) {
    var g := s.gate;
    // Ids are handed out once each, in order, and the live one is the newest.
    && |g.dispatched| == g.seqNo && (forall i :: 0 <= i < g.seqNo ==> g.dispatched[i] == i + 1)
    && (g.id == 0 || g.id == g.seqNo)
    && (g.sent ==> 0 < g.id && g.degraded)
    && (g.degraded ==> g.streak >= DEGRADED_ROUNDS)
    // Every report names an id that was handed out, and the slot only holds reports.
    && (forall id :: id in s.reported ==> 1 <= id <= g.seqNo)
    && (forall c :: c in s.calls ==> 1 <= s.calls[c].id <= g.seqNo)
    && (forall c :: c in s.calls && s.calls[c].Swapping? ==> s.calls[c].cur < s.calls[c].id)
    && (g.retry != 0 ==> g.retry in s.reported)
    // A finished report for the live dispatch is in the slot.
    && (g.sent && g.id in s.reported ==> g.retry == g.id)
    && EpisodeSound(g, s.reported)
  }

  /** Within an episode each dispatch but the last was handed back, once, while it was the live one. */
  ghost predicate EpisodeSound(g: Gate, reported: set<nat>) {
    && (g.sent ==> g.episode == g.honoured + [g.id])
    && (!g.sent ==> g.episode == g.honoured)
    && (forall i :: 0 <= i < |g.honoured| ==> g.honoured[i] in reported)
    && (forall i :: 0 <= i < |g.episode| ==> 1 <= g.episode[i] <= g.seqNo)
    && (forall i, j :: 0 <= i < j < |g.episode| ==> g.episode[i] < g.episode[j])
  }

  lemma HandBackKeepsSound(s: System)
    requires Sound(s)
    ensures Sound(s.(gate := HandBack(s.gate)))
  {
  }

  lemma DispatchKeepsSound(s: System)
    requires Sound(s) && !s.gate.sent && s.gate.degraded
    ensures Sound(s.(gate := Dispatch(s.gate)))
  {
    assert s.gate.seqNo + 1 !in s.reported;
  }

  lemma RoundKeepsSound(s: System, r: Reading)
    requires Sound(s)
    ensures Sound(s.(gate := Check(s.gate, r)))
  {
    var g := s.gate.(streak := s.gate.streak + 1);
    if r.threshold > 0.0 && r.online && r.haveReading && r.best > r.threshold && g.streak >= DEGRADED_ROUNDS {
      var d := s.(gate := g.(degraded := true));
      assert Sound(d);
      HandBackKeepsSound(d);
      var h := s.(gate := HandBack(d.gate));
      if !h.gate.sent && r.hook {
        DispatchKeepsSound(h);
      }
    }
  }

  lemma StepKeepsSound(s: System, step: Step)
    requires Sound(s) && Enabled(s, step)
    ensures Sound(Apply(s, step))
  {
    if step.Round? {
      RoundKeepsSound(s, step.r);
    }
  }

  /** Every interleaving of rounds and reports, late, repeated or reordered. */
  lemma {:induction false} EveryInterleavingIsSound(steps: seq<Step>)
    ensures Sound(After(steps))
  {
    if steps != [] {
      var pre, step := steps[..|steps|-1], steps[|steps|-1];
      EveryInterleavingIsSound(pre);
      if Enabled(After(pre), step) {
        StepKeepsSound(After(pre), step);
      }
    }
  }

  /**
   A confirmed degraded round of an episode already served dispatches again
   exactly when a report for the live dispatch has come back: a finished report
   is never lost, and nothing stale re-fires.
   */
  lemma RedispatchIffLiveBounced(steps: seq<Step>, r: Reading)
    requires After(steps).gate.sent
    requires r.threshold > 0.0 && r.online && r.haveReading && r.best > r.threshold && r.hook
    ensures var s := After(steps); var g, h := s.gate, Check(s.gate, r);
            && (h.seqNo != g.seqNo <==> g.id in s.reported)
            && (h.seqNo != g.seqNo ==> h.id == g.seqNo + 1 && h.sent && h.episode == g.episode + [h.id])
  {
    EveryInterleavingIsSound(steps);
  }

  /** An episode dispatches once, plus once per bounce that named the dispatch live at the time. */
  lemma EpisodeCountsItsBounces(steps: seq<Step>)
    requires After(steps).gate.sent
    ensures var s := After(steps); var g := s.gate;
            && |g.episode| == 1 + |g.honoured|
            && (forall i :: 0 <= i < |g.honoured| ==> g.honoured[i] == g.episode[i] && g.honoured[i] in s.reported)
            && (forall i, j :: 0 <= i < j < |g.honoured| ==> g.honoured[i] != g.honoured[j])
  {
    EveryInterleavingIsSound(steps);
  }

  // ------------------------------------- exactly when a round dispatches

  /** A round that ends any episode: an outage, a disabled threshold, or a reading not over it. */
  predicate Ends(r: Reading) {
    r.threshold <= 0.0 || !r.online || (r.haveReading && r.best <= r.threshold)
  }

  predicate IsOver(r: Reading) {
    r.threshold > 0.0 && r.online && r.haveReading && r.best > r.threshold
  }

  /** Readings over the threshold since the last round that ends an episode, read off the steps. */
  function OverCount(steps: seq<Step>): nat {
    if steps == [] then 0
    else
      var n, last := OverCount(steps[..|steps|-1]), steps[|steps|-1];
      if !last.Round? then n else if Ends(last.r) then 0 else if IsOver(last.r) then n + 1 else n
  }

  /** Dispatches made since then: the ids handed out in between. */
  function DispatchesSince(steps: seq<Step>): nat {
    if steps == [] then 0
    else
      var pre, last := steps[..|steps|-1], steps[|steps|-1];
      if last.Round? && Ends(last.r) then 0
      else DispatchesSince(pre) + Newer(|After(pre).gate.dispatched|, |After(steps).gate.dispatched|)
  }

  function Newer(a: nat, b: nat): nat {
    if b > a then b - a else 0
  }

  /** What the latch remembers of the episode, against the steps; ids are handed out in order, so the live one is their number. */
  predicate Remembers(steps: seq<Step>) {
    var s := After(steps); var g := s.gate;
    && g.streak == OverCount(steps) && g.seqNo == |g.dispatched|
    && (g.degraded <==> OverCount(steps) >= 2)
    && (g.sent ==> DispatchesSince(steps) > 0)
    && (!g.sent && DispatchesSince(steps) > 0 ==> g.seqNo in s.reported)
  }

  lemma StepRemembers(steps: seq<Step>, step: Step)
    requires Remembers(steps) && Sound(After(steps))
    ensures Remembers(steps + [step])
  {
    var all := steps + [step];
    assert all[..|steps|] == steps;
    if !Enabled(After(steps), step) {
      assert After(all) == After(steps);
    }
  }

  lemma {:induction false} EveryRunRemembers(steps: seq<Step>)
    ensures Remembers(steps)
  {
    if steps != [] {
      var pre := steps[..|steps|-1];
      EveryRunRemembers(pre);
      EveryInterleavingIsSound(pre);
      StepRemembers(pre, steps[|steps|-1]);
      assert pre + [steps[|steps|-1]] == steps;
    }
  }

  lemma CheckDispatchesIff(s: System, r: Reading, over: nat, since: nat)
    requires Sound(s) && s.gate.streak == over && s.gate.seqNo == |s.gate.dispatched|
    requires (s.gate.sent ==> since > 0) && (!s.gate.sent && since > 0 ==> s.gate.seqNo in s.reported)
    ensures var g, h := s.gate, Check(s.gate, r);
            && (h.dispatched != g.dispatched <==> IsOver(r) && over + 1 >= 2 && r.hook && (since == 0 || |g.dispatched| in s.reported))
            && (h.dispatched != g.dispatched ==> h.dispatched == g.dispatched + [|g.dispatched| + 1])
  {
  }

  /**
   For every interleaving and every round: it dispatches if and only if it is at
   least the second reading over the threshold since the episode began, there is
   a hook, and either nothing was dispatched in the episode or a report for the
   newest dispatch has come back. It then hands out the next id, and one only.
   */
  lemma DispatchesIff(steps: seq<Step>, r: Reading)
    ensures var s, t := After(steps), After(steps + [Round(r)]); var n := |s.gate.dispatched|;
            && (t.gate.dispatched != s.gate.dispatched <==>
                  IsOver(r) && OverCount(steps) + 1 >= 2 && r.hook && (DispatchesSince(steps) == 0 || n in s.reported))
            && (t.gate.dispatched != s.gate.dispatched ==> t.gate.dispatched == s.gate.dispatched + [n + 1])
  {
    assert (steps + [Round(r)])[..|steps|] == steps;
    EveryRunRemembers(steps);
    EveryInterleavingIsSound(steps);
    CheckDispatchesIff(After(steps), r, OverCount(steps), DispatchesSince(steps));
    assert After(steps + [Round(r)]).gate == Check(After(steps).gate, r);
  }

  /** Steps of the dispatchers alone. */
  predicate Reports(steps: seq<Step>) {
    forall i :: 0 <= i < |steps| ==> !steps[i].Round?
  }

  lemma {:induction false} ReportsLeaveTheCounts(steps: seq<Step>, more: seq<Step>)
    requires Reports(more)
    ensures OverCount(steps + more) == OverCount(steps) && DispatchesSince(steps + more) == DispatchesSince(steps)
    ensures After(steps + more).gate.dispatched == After(steps).gate.dispatched
  {
    if more == [] {
      assert steps + more == steps;
    } else {
      var all, n := steps + more, |more| - 1;
      assert all[..|all|-1] == steps + more[..n] && all[|all|-1] == more[n];
      ReportsLeaveTheCounts(steps, more[..n]);
    }
  }

  lemma RoundCounts(steps: seq<Step>, r: Reading)
    ensures var all := steps + [Round(r)];
            && (Ends(r) ==> OverCount(all) == 0 && DispatchesSince(all) == 0)
            && (IsOver(r) ==> OverCount(all) == OverCount(steps) + 1)
            && (After(all).gate.dispatched == After(steps).gate.dispatched && !Ends(r) ==> DispatchesSince(all) == DispatchesSince(steps))
  {
    assert (steps + [Round(r)])[..|steps|] == steps;
  }

  /** A new episode is always served: after a round that ended the last one, the second reading over the threshold dispatches, whatever was reported meanwhile. */
  lemma TheNextEpisodeIsServed(steps: seq<Step>, end: Reading, m1: seq<Step>, r1: Reading, m2: seq<Step>, r2: Reading)
    requires Ends(end) && IsOver(r1) && IsOver(r2) && r2.hook && Reports(m1) && Reports(m2)
    ensures var before := steps + [Round(end)] + m1 + [Round(r1)] + m2;
            After(before + [Round(r2)]).gate.dispatched != After(before).gate.dispatched
  {
    var a := steps + [Round(end)];
    RoundCounts(steps, end);
    ReportsLeaveTheCounts(a, m1);
    DispatchesIff(a + m1, r1);
    RoundCounts(a + m1, r1);
    ReportsLeaveTheCounts(a + m1 + [Round(r1)], m2);
    DispatchesIff(a + m1 + [Round(r1)] + m2, r2);
  }
}
