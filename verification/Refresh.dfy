/**
 Overlapping refreshes of the connection panel: each takes a generation when it
 starts, and only the newest claimant may fold an observation, publish its
 snapshot, bust the exit cache or patch an exit in.
 */
module RefreshProtocol {
  import opened Wrappers
  import opened Clock

  const V4_MISS_RUN_GAP := 600 * NS  // 2 * errRetryStale

  /** The exit row: hidden, carried over from before, or traced by a refresh. */
  datatype Row = Hidden | Carried | Traced(gen: nat)

  /** The published panel: whose snapshot it is, its public IPv4 ("" when blanked), and its exit row. */
  datatype Info = Info(owner: nat, publicIP: string, row: Row)

  /** The run of fetches in which IPv6 answered and IPv4 did not. */
  datatype MissRun = MissRun(since: Option<int>, last: Option<int>)

  datatype Panel = Panel(gen: nat, published: nat, info: Info, lastIPv4: string, miss: MissRun)

  /** The address the current network is known by, across an IPv6-only interlude. */
  function KnownIPv4(p: Panel): string {
    if p.info.publicIP != "" then p.info.publicIP else p.lastIPv4
  }

  predicate MayClaim(p: Panel, g: nat) {
    p.published <= g
  }

  function Claim(p: Panel, g: nat): Panel {
    if MayClaim(p, g) then p.(published := g) else p
  }

  /** A refresh's own snapshot: the last exit row carries over, unless it answers for a network that is gone. */
  function Snapshot(g: nat, ip: string, changed: bool): Info {
    Info(g, ip, if changed then Hidden else Carried)
  }

  function FoldMiss(m: MissRun, v4: bool, v6: bool, prevHadIPv4: bool, now: int): MissRun {
    if v4 then MissRun(None, None)
    else if v6 then
      var stale := m.since.None? || (prevHadIPv4 && (m.last.None? || now - m.last.value > V4_MISS_RUN_GAP));
      MissRun(if stale then Some(now) else m.since, Some(now))
    else m
  }

  /** The shared fields. ClaimPublish and the sections that call it run under the panel's mutex. */
  class PanelState {
    var gen: nat
    var published: nat
    var info: Info
    var lastIPv4: string
    var miss: MissRun

    ghost function View(): Panel
      reads this
    {
      Panel(gen, published, info, lastIPv4, miss)
    }

    method NextGen() returns (g: nat)
      modifies this
      ensures g == old(gen) + 1 && View() == old(View()).(gen := g)
    {
      gen := gen + 1;
      return gen;
    }

    method ClaimPublish(g: nat) returns (ok: bool)
      modifies this
      ensures ok == MayClaim(old(View()), g) && View() == Claim(old(View()), g)
    {
      if published > g {
        return false;
      }
      published := g;
      return true;
    }

    method FoldObservation(g: nat, v4: bool, v6: bool, prevHadIPv4: bool, now: int)
      modifies this
      ensures View() == if MayClaim(old(View()), g)
                        then Claim(old(View()), g).(miss := FoldMiss(old(miss), v4, v6, prevHadIPv4, now))
                        else old(View())
    {
      var ok := ClaimPublish(g);
      if ok {
        if v4 {
          miss := MissRun(None, None);
        } else if v6 {
          if miss.since.None? || (prevHadIPv4 && (miss.last.None? || now - miss.last.value > V4_MISS_RUN_GAP)) {
            miss := miss.(since := Some(now));
          }
          miss := miss.(last := Some(now));
        }
      }
    }

    method Publish(g: nat, ip: string, changed: bool) returns (ok: bool)
      modifies this
      ensures ok == MayClaim(old(View()), g)
      ensures View() == if !ok then old(View())
                        else Claim(old(View()), g).(info := Snapshot(g, ip, changed), lastIPv4 := if ip != "" then ip else old(lastIPv4))
    {
      ok := ClaimPublish(g);
      if ok {
        info := Info(g, ip, if changed then Hidden else Carried);
        if ip != "" {
          lastIPv4 := ip;
        }
      }
    }

    method PatchExit(g: nat)
      modifies this
      ensures View() == if old(published) == g then old(View()).(info := old(info).(row := Traced(g))) else old(View())
    {
      if published == g {
        info := info.(row := Traced(g));
      }
    }
  }

  // -------------------------------------------------- the IPv4-miss run

  /** What one fetch that was allowed to fold saw, and whether the panel it started from had an IPv4 address. */
  datatype Sighting = Sighting(v4: bool, v6: bool, prevHadIPv4: bool, now: int) {
    predicate Misses() {
      !v4 && v6
    }
  }

  function Tracked(seen: seq<Sighting>): MissRun {
    if seen == [] then MissRun(None, None)
    else
      var o := seen[|seen|-1];
      FoldMiss(Tracked(seen[..|seen|-1]), o.v4, o.v6, o.prevHadIPv4, o.now)
  }

  /** A miss since `k` lies at most the run gap before sighting j. */
  predicate Bridged(seen: seq<Sighting>, k: nat, j: nat)
    requires j < |seen|
  {
    exists i :: k <= i < j && seen[i].Misses() && seen[j].now - seen[i].now <= V4_MISS_RUN_GAP
  }

  predicate OneStretch(seen: seq<Sighting>, k: nat) {
    && k < |seen| && seen[k].Misses()
    && (forall j :: k <= j < |seen| ==> !seen[j].v4)
    && (forall j :: k < j < |seen| && seen[j].Misses() && seen[j].prevHadIPv4 ==> Bridged(seen, k, j))
  }

  /** The stretch could not have begun earlier: the miss before it, if IPv4 had not answered since, was too long ago. */
  predicate CouldNotBeginEarlier(seen: seq<Sighting>, k: nat)
    requires k < |seen|
  {
    forall i :: 0 <= i < k && seen[i].Misses() && (forall j :: i < j < k ==> !seen[j].v4 && !seen[j].Misses()) ==>
      seen[k].prevHadIPv4 && seen[k].now - seen[i].now > V4_MISS_RUN_GAP
  }

  lemma BeginningStays(seen: seq<Sighting>, o: Sighting, k: nat)
    requires k < |seen| && CouldNotBeginEarlier(seen, k)
    ensures CouldNotBeginEarlier(seen + [o], k)
  {
    var all := seen + [o];
    forall i | 0 <= i < k && all[i].Misses() && (forall j :: i < j < k ==> !all[j].v4 && !all[j].Misses())
      ensures all[k].prevHadIPv4 && all[k].now - all[i].now > V4_MISS_RUN_GAP
    {
      assert forall j :: i < j < k ==> all[j] == seen[j];
      assert seen[i].Misses();
    }
  }

  lemma StretchGrows(seen: seq<Sighting>, o: Sighting, k: nat)
    requires OneStretch(seen, k) && !o.v4
    requires o.Misses() && o.prevHadIPv4 ==> exists i :: k <= i < |seen| && seen[i].Misses() && o.now - seen[i].now <= V4_MISS_RUN_GAP
    ensures OneStretch(seen + [o], k)
  {
    var all := seen + [o];
    forall j | k < j < |all| && all[j].Misses() && all[j].prevHadIPv4 ensures Bridged(all, k, j) {
      if j < |seen| {
        assert Bridged(seen, k, j);
        var i :| k <= i < j && seen[i].Misses() && seen[j].now - seen[i].now <= V4_MISS_RUN_GAP;
        assert all[i] == seen[i];
      } else {
        var i :| k <= i < |seen| && seen[i].Misses() && o.now - seen[i].now <= V4_MISS_RUN_GAP;
        assert all[i] == seen[i];
      }
    }
  }

  /**
   How long IPv4 has been missing is counted from a sighting `k` that missed it,
   over a stretch in which it never answered and, while the panel still had an
   address, no two misses lay further apart than the run gap.
   */
  lemma {:induction false} MissRunIsOneStretch(seen: seq<Sighting>) returns (k: nat, l: nat)
    ensures Tracked(seen).since.Some? ==>
              && OneStretch(seen, k) && Tracked(seen).since == Some(seen[k].now)
              && CouldNotBeginEarlier(seen, k)
              && k <= l < |seen| && seen[l].Misses() && Tracked(seen).last == Some(seen[l].now)
              && (forall j :: l < j < |seen| ==> !seen[j].Misses())
    ensures Tracked(seen).since.None? ==>
              forall i :: 0 <= i < |seen| && seen[i].Misses() ==> exists j :: i < j < |seen| && seen[j].v4
  {
    k, l := 0, 0;
    if seen != [] {
      var n := |seen| - 1;
      var pre, o := seen[..n], seen[n];
      assert seen == pre + [o];
      k, l := MissRunIsOneStretch(pre);
      var m := Tracked(pre);
      if o.v4 {
        assert Tracked(seen).since.None?;
        assert seen[n].v4;
      } else if o.v6 && (m.since.None? || (o.prevHadIPv4 && o.now - m.last.value > V4_MISS_RUN_GAP)) {
        RestartIsDue(pre, o, m, l);
        k, l := n, n;
      } else if m.since.Some? {
        if o.v6 {
          assert pre[l].Misses();
        }
        StretchGrows(pre, o, k);
        BeginningStays(pre, o, k);
        if o.v6 {
          l := n;
        }
      } else {
        NoMissSurvives(pre, o);
      }
    }
  }

  lemma RestartIsDue(seen: seq<Sighting>, o: Sighting, m: MissRun, l: nat)
    requires m.since.None? || (o.prevHadIPv4 && m.last.Some? && o.now - m.last.value > V4_MISS_RUN_GAP)
    requires m.since.Some? ==> l < |seen| && m.last == Some(seen[l].now) && forall j :: l < j < |seen| ==> !seen[j].Misses()
    requires m.since.Some? ==> seen[l].Misses()
    requires m.since.None? ==> forall i :: 0 <= i < |seen| && seen[i].Misses() ==> exists j :: i < j < |seen| && seen[j].v4
    ensures CouldNotBeginEarlier(seen + [o], |seen|)
  {
    var all, n := seen + [o], |seen|;
    forall i | 0 <= i < n && all[i].Misses() && (forall j :: i < j < n ==> !all[j].v4 && !all[j].Misses())
      ensures all[n].prevHadIPv4 && all[n].now - all[i].now > V4_MISS_RUN_GAP
    {
      assert seen[i].Misses() && forall j :: i < j < n ==> all[j] == seen[j];
      if m.since.Some? {
        assert i >= l;
        assert i == l;
      }
    }
  }

  lemma NoMissSurvives(seen: seq<Sighting>, o: Sighting)
    requires !o.Misses() && forall i :: 0 <= i < |seen| && seen[i].Misses() ==> exists j :: i < j < |seen| && seen[j].v4
    ensures var all := seen + [o];
            forall i :: 0 <= i < |all| && all[i].Misses() ==> exists j :: i < j < |all| && all[j].v4
  {
    var all := seen + [o];
    forall i | 0 <= i < |all| && all[i].Misses() ensures exists j :: i < j < |all| && all[j].v4 {
      assert i < |seen| && seen[i].Misses();
      var j :| i < j < |seen| && seen[j].v4;
      assert all[j].v4;
    }
  }

  // ------------------------------------------------- overlapping refreshes

  /** Where a refresh is; each stage is entered by one critical section of its own. */
  datatype Stage = Begun | Fetching(prevIP: string) | Folded(prevIP: string) | Landed(changed: bool) | Busted | Finished

  /** `known` and `landed` are history: the newest published address when it read that, and the address its own fetch found. */
  datatype Refresher = Refresher(gen: nat, stage: Stage, known: string, landed: string)

  /** `owners` and `addresses` list the publications; `folds`, `busts` and `claims` who did those, and `seen` what the folds folded. */
  datatype System = System(panel: Panel, refreshers: map<nat, Refresher>, owners: seq<nat>, addresses: seq<string>,
                           folds: seq<nat>, seen: seq<Sighting>, busts: seq<nat>, claims: set<nat>)

  datatype Step =
    | Enter(id: nat)
    | ReadKnown(id: nat)
    | Fold(id: nat, v4: bool, v6: bool, prevHadIPv4: bool, now: int)
    | Land(id: nat, ip: string)
    | Bust(id: nat)
    | Patch(id: nat)

  function Start(): System {
    System(Panel(0, 0, Info(0, "", Hidden), "", MissRun(None, None)), map[], [], [], [], [], [], {})
  }

  predicate Enabled(s: System, e: Step) {
    match e
    case Enter(id) => id !in s.refreshers
    case ReadKnown(id) => id in s.refreshers && s.refreshers[id].stage.Begun?
    case Fold(id, _, _, _, _) => id in s.refreshers && s.refreshers[id].stage.Fetching?
    case Land(id, _) => id in s.refreshers && s.refreshers[id].stage.Folded?
    case Bust(id) => id in s.refreshers && s.refreshers[id].stage.Landed?
    case Patch(id) => id in s.refreshers && s.refreshers[id].stage.Busted?
  }

  function Goto(s: System, id: nat, stage: Stage): System
    requires id in s.refreshers
  {
    s.(refreshers := s.refreshers[id := s.refreshers[id].(stage := stage)])
  }

  function Apply(s: System, e: Step): System
    requires Enabled(s, e)
  {
    match e
    case Enter(id) =>
      s.(panel := s.panel.(gen := s.panel.gen + 1), refreshers := s.refreshers[id := Refresher(s.panel.gen + 1, Begun, "", "")])
    case ReadKnown(id) =>
      var t := Goto(s, id, Fetching(KnownIPv4(s.panel)));
      t.(refreshers := t.refreshers[id := t.refreshers[id].(known := LastAddress(s.addresses))])
    case Fold(id, v4, v6, prevHadIPv4, now) =>
      var g := s.refreshers[id].gen;
      var t := Goto(s, id, Folded(s.refreshers[id].stage.prevIP));
      if !MayClaim(s.panel, g) then t
      else t.(panel := Claim(s.panel, g).(miss := FoldMiss(s.panel.miss, v4, v6, prevHadIPv4, now)),
              folds := s.folds + [g], seen := s.seen + [Sighting(v4, v6, prevHadIPv4, now)], claims := s.claims + {g})
    case Land(id, ip) =>
      var g, prev := s.refreshers[id].gen, s.refreshers[id].stage.prevIP;
      var changed := prev != "" && ip != "" && prev != ip;
      var t := Goto(s, id, Landed(changed));
      var t := t.(refreshers := t.refreshers[id := t.refreshers[id].(landed := ip)]);
      if !MayClaim(s.panel, g) then t
      else t.(panel := Claim(s.panel, g).(info := Snapshot(g, ip, changed), lastIPv4 := if ip != "" then ip else s.panel.lastIPv4),
              owners := s.owners + [g], addresses := s.addresses + [ip], claims := s.claims + {g})
    case Bust(id) =>
      var g := s.refreshers[id].gen;
      var t := Goto(s, id, Busted);
      if s.refreshers[id].stage.changed && s.panel.published == g then t.(busts := s.busts + [g]) else t
    case Patch(id) =>
      var g := s.refreshers[id].gen;
      var t := Goto(s, id, Finished);
      if s.panel.published == g then t.(panel := s.panel.(info := s.panel.info.(row := Traced(g)))) else t
  }

  function After(es: seq<Step>): System {
    if es == [] then Start()
    else
      var s, e := After(es[..|es|-1]), es[|es|-1];
      if Enabled(s, e) then Apply(s, e) else s
  }

  /** The newest published address that was one. */
  function LastAddress(ips: seq<string>): string {
    if ips == [] then "" else if ips[|ips|-1] != "" then ips[|ips|-1] else LastAddress(ips[..|ips|-1])
  }

  function Last(gs: seq<nat>): nat {
    if gs == [] then 0 else gs[|gs|-1]
  }

  predicate Increasing(gs: seq<nat>) {
    gs == [] || (Last(gs[..|gs|-1]) < Last(gs) && Increasing(gs[..|gs|-1]))
  }

  lemma IncreasingSnoc(gs: seq<nat>, g: nat)
    requires Increasing(gs) && Last(gs) < g
    ensures Increasing(gs + [g]) && Last(gs + [g]) == g
  {
    assert (gs + [g])[..|gs|] == gs;
  }

  lemma IncreasingSnocIf(gs: seq<nat>, g: nat)
    requires Increasing(gs)
    ensures Last(gs + [g]) == g && (Last(gs) < g ==> Increasing(gs + [g]))
  {
    if Last(gs) < g {
      IncreasingSnoc(gs, g);
    }
  }

  predicate HasLanded(r: Refresher) {
    r.stage.Landed? || r.stage.Busted? || r.stage.Finished?
  }

  predicate HasFolded(r: Refresher) {
    HasLanded(r) || r.stage.Folded?
  }

  predicate HasBusted(r: Refresher) {
    r.stage.Busted? || r.stage.Finished?
  }

  /** The fetch found an address, there was one before, and they differ: a changed network. */
  predicate NewAddress(r: Refresher) {
    r.known != "" && r.landed != "" && r.known != r.landed
  }

  /** What a refresh has and has not done by its stage. */
  predicate RefresherSound(s: System, r: Refresher) {
    && 0 < r.gen <= s.panel.gen
    && (HasLanded(r) && r.gen == s.panel.published ==> s.panel.info.owner == r.gen)
    && (!HasLanded(r) ==> r.gen != Last(s.owners))
    && (!HasFolded(r) ==> r.gen != Last(s.folds))
    && (!HasBusted(r) ==> r.gen != Last(s.busts))
    && (HasLanded(r) ==> r.gen <= s.panel.published)
    && (r.stage.Fetching? || r.stage.Folded? ==> r.stage.prevIP == r.known)
    && (r.stage.Landed? ==> r.stage.changed == NewAddress(r))
  }

  ghost predicate Refreshers(s: System) {
    && (forall a, b :: a in s.refreshers && b in s.refreshers && s.refreshers[a].gen == s.refreshers[b].gen ==> a == b)
    && (forall a :: a in s.refreshers ==> RefresherSound(s, s.refreshers[a]))
  }

  ghost predicate Counters(s: System) {
    var p := s.panel;
    // The published counter is the newest claim, and nobody has claimed past it.
    && p.published <= p.gen
    && (forall c :: c in s.claims ==> c <= p.published)
    && (p.published != 0 ==> p.published in s.claims)
    // Publications, folds and busts only ever move to newer generations.
    && Increasing(s.owners) && Increasing(s.folds) && Increasing(s.busts)
    && Last(s.owners) <= p.published && Last(s.folds) <= p.published && Last(s.busts) <= p.published
    // The panel shows the newest publication, and its exit is that refresh's own.
    && p.info.owner == Last(s.owners) && (p.info.row.Traced? ==> p.info.row.gen == p.info.owner)
    && (if s.addresses == [] then p.info.publicIP == "" else p.info.publicIP == s.addresses[|s.addresses|-1])
    && p.lastIPv4 == LastAddress(s.addresses)
    // The miss run is that of the sightings folded so far.
    && p.miss == Tracked(s.seen)
  }

  ghost predicate Sound(s: System) {
    Counters(s) && Refreshers(s)
  }

  /** Moving one refresh on, with at most its own claim recorded, keeps the others sound. */
  lemma OthersStaySound(s: System, t: System, id: nat)
    requires Refreshers(s) && id in s.refreshers && t.refreshers.Keys == s.refreshers.Keys
    requires t.refreshers[id].gen == s.refreshers[id].gen
    requires forall a :: a in s.refreshers && a != id ==> t.refreshers[a] == s.refreshers[a]
    requires t.panel.gen == s.panel.gen && RefresherSound(t, t.refreshers[id])
    requires var g := s.refreshers[id].gen;
             && s.panel.published <= t.panel.published && (t.panel.published == s.panel.published || t.panel.published == g)
             && (t.panel.info.owner == s.panel.info.owner || (t.panel.published == g && t.panel.info.owner == g))
             && Last(t.owners) in {Last(s.owners), g} && Last(t.folds) in {Last(s.folds), g} && Last(t.busts) in {Last(s.busts), g}
    ensures Refreshers(t)
  {
    forall a | a in t.refreshers ensures RefresherSound(t, t.refreshers[a]) {
      if a != id {
        assert RefresherSound(s, s.refreshers[a]);
      }
    }
  }

  lemma EnterKeepsSound(s: System, id: nat)
    requires Sound(s) && id !in s.refreshers
    ensures Sound(Apply(s, Enter(id)))
  {
    var t := Apply(s, Enter(id));
    forall a | a in t.refreshers ensures RefresherSound(t, t.refreshers[a]) {
      if a != id {
        assert RefresherSound(s, s.refreshers[a]);
      }
    }
    forall a, b | a in t.refreshers && b in t.refreshers && t.refreshers[a].gen == t.refreshers[b].gen ensures a == b {
      if a != id {
        assert RefresherSound(s, s.refreshers[a]);
      }
      if b != id {
        assert RefresherSound(s, s.refreshers[b]);
      }
    }
  }

  lemma FoldKeepsCounters(s: System, e: Step)
    requires Counters(s) && e.Fold? && Enabled(s, e) && RefresherSound(s, s.refreshers[e.id])
    ensures Counters(Apply(s, e))
  {
    IncreasingSnocIf(s.folds, s.refreshers[e.id].gen);
    assert (s.seen + [Sighting(e.v4, e.v6, e.prevHadIPv4, e.now)])[..|s.seen|] == s.seen;
  }

  lemma FoldKeepsRefresher(s: System, e: Step)
    requires Counters(s) && e.Fold? && Enabled(s, e) && RefresherSound(s, s.refreshers[e.id])
    ensures RefresherSound(Apply(s, e), Apply(s, e).refreshers[e.id])
  {
  }

  lemma FoldKeepsSound(s: System, e: Step)
    requires Sound(s) && e.Fold? && Enabled(s, e)
    ensures Sound(Apply(s, e))
  {
    FoldKeepsCounters(s, e);
    FoldKeepsRefresher(s, e);
    OthersStaySound(s, Apply(s, e), e.id);
  }

  lemma LandKeepsCounters(s: System, e: Step)
    requires Counters(s) && e.Land? && Enabled(s, e) && RefresherSound(s, s.refreshers[e.id])
    ensures Counters(Apply(s, e))
  {
    IncreasingSnocIf(s.owners, s.refreshers[e.id].gen);
    assert (s.addresses + [e.ip])[..|s.addresses|] == s.addresses;
  }

  lemma LandKeepsRefresher(s: System, e: Step)
    requires Counters(s) && e.Land? && Enabled(s, e) && RefresherSound(s, s.refreshers[e.id])
    ensures RefresherSound(Apply(s, e), Apply(s, e).refreshers[e.id])
  {
  }

  lemma LandKeepsSound(s: System, e: Step)
    requires Sound(s) && e.Land? && Enabled(s, e)
    ensures Sound(Apply(s, e))
  {
    LandKeepsCounters(s, e);
    LandKeepsRefresher(s, e);
    OthersStaySound(s, Apply(s, e), e.id);
  }

  lemma BustKeepsCounters(s: System, e: Step)
    requires Counters(s) && e.Bust? && Enabled(s, e) && RefresherSound(s, s.refreshers[e.id])
    ensures Counters(Apply(s, e)) && RefresherSound(Apply(s, e), Apply(s, e).refreshers[e.id])
  {
    IncreasingSnocIf(s.busts, s.refreshers[e.id].gen);
  }

  lemma BustKeepsSound(s: System, e: Step)
    requires Sound(s) && e.Bust? && Enabled(s, e)
    ensures Sound(Apply(s, e))
  {
    BustKeepsCounters(s, e);
    OthersStaySound(s, Apply(s, e), e.id);
  }

  lemma ReadKeepsSound(s: System, e: Step)
    requires Sound(s) && e.ReadKnown? && Enabled(s, e)
    ensures Sound(Apply(s, e))
  {
    assert RefresherSound(s, s.refreshers[e.id]);
    OthersStaySound(s, Apply(s, e), e.id);
  }

  lemma PatchKeepsSound(s: System, e: Step)
    requires Sound(s) && e.Patch? && Enabled(s, e)
    ensures Sound(Apply(s, e))
  {
    assert RefresherSound(s, s.refreshers[e.id]);
    OthersStaySound(s, Apply(s, e), e.id);
  }

  lemma StepKeepsSound(s: System, e: Step)
    requires Sound(s) && Enabled(s, e)
    ensures Sound(Apply(s, e))
  {
    match e
    case Enter(id) => EnterKeepsSound(s, id);
    case Fold(_, _, _, _, _) => FoldKeepsSound(s, e);
    case Land(_, _) => LandKeepsSound(s, e);
    case Bust(_) => BustKeepsSound(s, e);
    case ReadKnown(_) => ReadKeepsSound(s, e);
    case Patch(_) => PatchKeepsSound(s, e);
  }

  /**
   Over every interleaving of refreshes: the published generation never goes
   back, no refresh publishes, folds or busts after a later-started one has
   claimed, and an exit patch only lands in the snapshot of the same refresh.
   */
  lemma {:induction false} EveryInterleavingIsSound(es: seq<Step>)
    ensures Sound(After(es))
  {
    if es != [] {
      var pre, e := es[..|es|-1], es[|es|-1];
      EveryInterleavingIsSound(pre);
      if Enabled(After(pre), e) {
        StepKeepsSound(After(pre), e);
      }
    }
  }

  /** Nothing that started after generation `g` has claimed anything yet. */
  ghost predicate Newest(s: System, g: nat) {
    forall c :: c in s.claims ==> c <= g
  }

  /** A refresh folds its sighting into the miss run exactly when it is the newest to have claimed. */
  lemma FoldsIff(es: seq<Step>, id: nat, v4: bool, v6: bool, had: bool, now: int)
    requires Enabled(After(es), Fold(id, v4, v6, had, now))
    ensures var s := After(es); var t := Apply(s, Fold(id, v4, v6, had, now));
            t.seen == s.seen + if Newest(s, s.refreshers[id].gen) then [Sighting(v4, v6, had, now)] else []
  {
    EveryInterleavingIsSound(es);
    assert RefresherSound(After(es), After(es).refreshers[id]);
    assert After(es).seen + [] == After(es).seen;
  }

  /** The snapshot a refresh publishes has its own address; the exit row carries over unless the network changed. */
  lemma LandingShows(es: seq<Step>, id: nat, ip: string)
    requires Enabled(After(es), Land(id, ip))
    ensures var s := After(es); var t, r := Apply(s, Land(id, ip)), s.refreshers[id];
            t.panel.info == if Newest(s, r.gen) then Info(r.gen, ip, if r.known != "" && ip != "" && r.known != ip then Hidden else Carried)
                            else s.panel.info
  {
    EveryInterleavingIsSound(es);
    assert RefresherSound(After(es), After(es).refreshers[id]);
  }

  /** It busts the exit cache exactly when it still is the newest and found the network changed since it began. */
  lemma BustsIff(es: seq<Step>, id: nat)
    requires Enabled(After(es), Bust(id))
    ensures var s := After(es); var t, r := Apply(s, Bust(id)), s.refreshers[id];
            t.busts == s.busts + if Newest(s, r.gen) && NewAddress(r) then [r.gen] else []
  {
    EveryInterleavingIsSound(es);
    var s := After(es);
    assert RefresherSound(s, s.refreshers[id]);
    assert s.busts + [] == s.busts;
    if Newest(s, s.refreshers[id].gen) {
      assert s.panel.published in s.claims;
    }
  }

  /** And patches the exit it traced into the panel exactly when it still is the newest. */
  lemma PatchesIff(es: seq<Step>, id: nat)
    requires Enabled(After(es), Patch(id))
    ensures var s := After(es); var t, r := Apply(s, Patch(id)), s.refreshers[id];
            t.panel.info == if Newest(s, r.gen) then s.panel.info.(row := Traced(r.gen)) else s.panel.info
  {
    EveryInterleavingIsSound(es);
    var s := After(es);
    assert RefresherSound(s, s.refreshers[id]);
    if Newest(s, s.refreshers[id].gen) {
      assert s.panel.published in s.claims;
    }
  }

  /** A refresh publishes exactly when nothing that started after it has claimed anything yet. */
  lemma PublishingOutranksEveryClaim(es: seq<Step>, id: nat, ip: string)
    requires Enabled(After(es), Land(id, ip))
    ensures var s := After(es); var t := Apply(s, Land(id, ip)); var g := s.refreshers[id].gen;
            t.panel.info != s.panel.info <==> (forall c :: c in s.claims ==> c <= g)
  {
    EveryInterleavingIsSound(es);
    var s := After(es);
    assert RefresherSound(s, s.refreshers[id]);
  }

  /** What a refresh compares its address against: the newest published address, past any IPv6-only snapshot. */
  lemma KnownAddressIsTheNewestPublished(es: seq<Step>)
    ensures KnownIPv4(After(es).panel) == LastAddress(After(es).addresses)
  {
    EveryInterleavingIsSound(es);
  }

  /**
   So in every interleaving the panel's miss run starts at a folded sighting that
   missed IPv4, after which no folded sighting had it and no two misses lay
   further apart than the run gap while the panel still had an address.
   */
  lemma MissRunOfEveryInterleaving(es: seq<Step>) returns (k: nat)
    ensures var s := After(es);
            && (s.panel.miss.since.Some? ==> OneStretch(s.seen, k) && CouldNotBeginEarlier(s.seen, k) && s.panel.miss.since == Some(s.seen[k].now))
            && (s.panel.miss.since.None? ==> forall i :: 0 <= i < |s.seen| && s.seen[i].Misses() ==> exists j :: i < j < |s.seen| && s.seen[j].v4)
  {
    EveryInterleavingIsSound(es);
    var l: nat;
    k, l := MissRunIsOneStretch(After(es).seen);
  }
}
