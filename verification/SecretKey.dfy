/**
 Agreement on the first key: any number of processes start together, each reads
 the key file or makes one through a private temporary, a sync and a link that
 never replaces. Every system call is a step; a step may fault, a process may
 die at any of them, and the machine may lose power.
 */
module SecretKey {
  import opened Wrappers

  const KEY_SIZE := 32

  type Bytes = seq<bv8>
  type Pid = nat

  /** A file's bytes, whether they reached the disk, who made it, and whether the key's name was ever linked to it. */
  datatype File = File(bytes: Bytes, synced: bool, owner: Option<Pid>, published: bool)

  /** The system call a process makes next, or how it ended. */
  datatype Stage =
    | Read
    | Create(key: Bytes)
    | Write(key: Bytes, tmp: nat)
    | Secure(key: Bytes, tmp: nat)
    | Sync(key: Bytes, tmp: nat)
    | Close(key: Bytes, tmp: nat)
    | Link(key: Bytes, tmp: nat)
    | DropTemp(tmp: nat)
    | Unlink(key: Bytes, tmp: nat)
    | SyncDir(key: Bytes)
    | Returned(key: Bytes)
    | Failed

  /** `final` is the file under the key's name, `durable` whether that name reached the disk, `temps` the temporaries still named. */
  /** A directory with or without a key file from earlier, on a system that can flush one or, like Windows, cannot. */
  datatype Host = Host(present: Option<Bytes>, flushes: bool)

  datatype System = System(
    flushes: bool,
    files: map<nat, File>,
    next: nat,
    final: Option<nat>,
    durable: bool,
    temps: set<nat>,
    procs: map<Pid, Stage>,
    returned: set<Bytes>)

  /** How a call goes: `random` is what the generator yields, `n` how much a failing write got out. */
  datatype Fate = Fine(random: Bytes) | Fault(n: nat)

  datatype Step =
    | Start(p: Pid)
    | Go(p: Pid, fate: Fate)
    | Crash(p: Pid)
    // Unsynced files keep at most `n` bytes; a name that is not durable may vanish.
    | PowerLoss(drop: bool, n: nat)

  function Upto(b: Bytes, n: nat): Bytes {
    if n < |b| then b[..n] else b
  }

  function To(s: System, p: Pid, stage: Stage): System {
    s.(procs := s.procs[p := stage])
  }

  /** The fault paths after the temporary exists: it is removed and the error returned. */
  function Abandon(s: System, p: Pid, tmp: nat): System {
    To(s, p, Failed).(temps := s.temps - {tmp})
  }

  function ReadKey(s: System, p: Pid, fate: Fate): System
    requires s.final.Some? ==> s.final.value in s.files
  {
    if fate.Fault? then To(s, p, Failed)
    else if s.final.None? then
      if |fate.random| == KEY_SIZE then To(s, p, Create(fate.random)) else To(s, p, Failed)
    else
      var b := s.files[s.final.value].bytes;
      // A key whose permissions cannot be tightened is still used.
      if |b| == KEY_SIZE then To(s, p, Returned(b)).(returned := s.returned + {b}) else To(s, p, Failed)
  }

  function CreateTemp(s: System, p: Pid, key: Bytes, fate: Fate): System {
    if fate.Fault? then To(s, p, Failed)
    else To(s, p, Write(key, s.next)).(
      files := s.files[s.next := File([], false, Some(p), false)], temps := s.temps + {s.next}, next := s.next + 1)
  }

  function WriteTemp(s: System, p: Pid, key: Bytes, tmp: nat, fate: Fate): System
    requires tmp in s.files
  {
    var b := if fate.Fault? then Upto(key, fate.n) else key;
    var t := s.(files := s.files[tmp := s.files[tmp].(bytes := b)]);
    if fate.Fault? then Abandon(t, p, tmp) else To(t, p, Secure(key, tmp))
  }

  function SyncTemp(s: System, p: Pid, key: Bytes, tmp: nat): System
    requires tmp in s.files
  {
    To(s, p, Close(key, tmp)).(files := s.files[tmp := s.files[tmp].(synced := true)])
  }

  function LinkTemp(s: System, p: Pid, key: Bytes, tmp: nat): System
    requires tmp in s.files
  {
    // The name exists: another starter won.
    if s.final.Some? then To(s, p, DropTemp(tmp))
    else To(s, p, Unlink(key, tmp)).(
      files := s.files[tmp := s.files[tmp].(published := true)], final := Some(tmp), durable := false)
  }

  /** Every file a process or the key's name refers to exists. */
  predicate Closed(s: System, p: Pid) {
    && (s.final.Some? ==> s.final.value in s.files)
    && (p in s.procs ==>
          match s.procs[p]
          case Write(_, tmp) => tmp in s.files
          case Sync(_, tmp) => tmp in s.files
          case Link(_, tmp) => tmp in s.files
          case _ => true)
  }

  function Advance(s: System, p: Pid, fate: Fate): System
    requires p in s.procs && Closed(s, p)
  {
    match s.procs[p]
    case Read => ReadKey(s, p, fate)
    case Create(key) => CreateTemp(s, p, key, fate)
    case Write(key, tmp) => WriteTemp(s, p, key, tmp, fate)
    case Secure(key, tmp) => if fate.Fault? then Abandon(s, p, tmp) else To(s, p, Sync(key, tmp))
    case Sync(key, tmp) => if fate.Fault? then Abandon(s, p, tmp) else SyncTemp(s, p, key, tmp)
    case Close(key, tmp) => if fate.Fault? then Abandon(s, p, tmp) else To(s, p, Link(key, tmp))
    case Link(key, tmp) => if fate.Fault? then Abandon(s, p, tmp) else LinkTemp(s, p, key, tmp)
    case DropTemp(tmp) => To(s, p, Read).(temps := s.temps - {tmp})
    case Unlink(key, tmp) => To(s, p, SyncDir(key)).(temps := s.temps - {tmp})
    case SyncDir(key) =>
      // Where a directory cannot be flushed the attempt's failure is tolerated, and nothing becomes durable.
      if fate.Fault? && s.flushes then To(s, p, Failed)
      else To(s, p, Returned(key)).(durable := s.durable || s.flushes, returned := s.returned + {key})
    case _ => s
  }

  function LosePower(s: System, drop: bool, n: nat): System {
    var gone := drop && !s.durable;
    s.(files := map i | i in s.files :: if s.files[i].synced then s.files[i] else s.files[i].(bytes := Upto(s.files[i].bytes, n)),
       final := if gone then None else s.final,
       procs := map p | p in s.procs :: Failed)
  }

  /** A process number is used once; a step that is not enabled changes nothing. */
  function Do(s: System, step: Step): System {
    match step
    case Start(p) => if p in s.procs then s else To(s, p, Read)
    case Go(p, fate) => if p in s.procs && Closed(s, p) then Advance(s, p, fate) else s
    case Crash(p) => if p in s.procs then To(s, p, Failed) else s
    case PowerLoss(drop, n) => LosePower(s, drop, n)
  }

  function Initial(host: Host): System {
    match host.present
    case None => System(host.flushes, map[], 0, None, true, {}, map[], {})
    case Some(b) => System(host.flushes, map[0 := File(b, true, None, true)], 1, Some(0), true, {}, map[], {})
  }

  function After(host: Host, steps: seq<Step>): System {
    if steps == [] then Initial(host)
    else Do(After(host, steps[..|steps|-1]), steps[|steps|-1])
  }

  // ---------------------------------------------------------- invariants

  /** A process's own temporary, which nobody has linked yet. */
  predicate Private(s: System, p: Pid, tmp: nat) {
    tmp in s.files && s.files[tmp].owner == Some(p) && !s.files[tmp].published
  }

  /** Nothing is linked but a whole key whose bytes are on disk; a linked key is the one under the name. */
  predicate ProcIsSound(s: System, p: Pid) {
    p in s.procs ==>
      match s.procs[p]
      case Create(key) => |key| == KEY_SIZE
      case Write(key, tmp) => |key| == KEY_SIZE && Private(s, p, tmp)
      case Secure(key, tmp) => |key| == KEY_SIZE && Private(s, p, tmp) && s.files[tmp].bytes == key
      case Sync(key, tmp) => |key| == KEY_SIZE && Private(s, p, tmp) && s.files[tmp].bytes == key
      case Close(key, tmp) => |key| == KEY_SIZE && Private(s, p, tmp) && s.files[tmp] == File(key, true, Some(p), false)
      case Link(key, tmp) => |key| == KEY_SIZE && Private(s, p, tmp) && s.files[tmp] == File(key, true, Some(p), false)
      case Unlink(key, tmp) => |key| == KEY_SIZE && Holds(s, key)
      case SyncDir(key) => |key| == KEY_SIZE && Holds(s, key)
      case _ => true
  }

  predicate Holds(s: System, key: Bytes) {
    s.final.Some? && s.final.value in s.files && s.files[s.final.value].bytes == key
  }

  /** The key's name is absent, or leads to a complete key on disk or to the file that was there before. */
  predicate FinalIsSound(s: System, host: Host) {
    && (forall i :: i in s.files ==> i < s.next)
    && (s.final.Some? ==>
          && s.final.value in s.files
          && var f := s.files[s.final.value];
          && f.synced && f.published && (|f.bytes| == KEY_SIZE || host.present == Some(f.bytes)))
  }

  predicate CanGo(s: System, p: Pid) {
    p in s.procs && Closed(s, p) && ProcIsSound(s, p)
  }

  /** What one process does leaves alone other processes, their files, and a key once it is named. */
  predicate OthersUntouched(s: System, t: System, p: Pid) {
    && (forall i :: i in s.files && s.files[i].owner != Some(p) ==> i in t.files && t.files[i] == s.files[i])
    && (forall q :: q in s.procs && q != p ==> q in t.procs && t.procs[q] == s.procs[q])
    && (forall q :: q in t.procs ==> q in s.procs)
    && (s.final.Some? ==>
          t.final == s.final && s.final.value in s.files && s.final.value in t.files
          && t.files[s.final.value] == s.files[s.final.value])
  }

  /** What a step of p must leave behind. */
  predicate Good(s: System, t: System, p: Pid, host: Host) {
    FinalIsSound(t, host) && OthersUntouched(s, t, p) && ProcIsSound(t, p)
  }

  /** A step that touches no file but its own place in the program. */
  lemma MoveIsGood(s: System, t: System, p: Pid, stage: Stage, host: Host)
    requires FinalIsSound(s, host) && p in s.procs
    requires t == To(s, p, stage).(temps := t.temps, returned := t.returned, durable := t.durable)
    requires ProcIsSound(t, p)
    ensures Good(s, t, p, host)
  {
  }

  lemma ReadIsGood(s: System, p: Pid, fate: Fate, host: Host)
    requires FinalIsSound(s, host) && CanGo(s, p)
    ensures Good(s, ReadKey(s, p, fate), p, host)
  {
    var t := ReadKey(s, p, fate);
    MoveIsGood(s, t, p, t.procs[p], host);
  }

  lemma CreateIsGood(s: System, p: Pid, key: Bytes, fate: Fate, host: Host)
    requires FinalIsSound(s, host) && CanGo(s, p) && s.procs[p] == Create(key)
    ensures Good(s, CreateTemp(s, p, key, fate), p, host)
  {
  }

  lemma WriteIsGood(s: System, p: Pid, key: Bytes, tmp: nat, fate: Fate, host: Host)
    requires FinalIsSound(s, host) && CanGo(s, p) && s.procs[p] == Write(key, tmp)
    ensures Good(s, WriteTemp(s, p, key, tmp, fate), p, host)
  {
  }

  lemma SyncIsGood(s: System, p: Pid, key: Bytes, tmp: nat, host: Host)
    requires FinalIsSound(s, host) && CanGo(s, p) && s.procs[p] == Sync(key, tmp)
    ensures Good(s, SyncTemp(s, p, key, tmp), p, host)
  {
  }

  lemma LinkIsGood(s: System, p: Pid, key: Bytes, tmp: nat, host: Host)
    requires FinalIsSound(s, host) && CanGo(s, p) && s.procs[p] == Link(key, tmp)
    ensures Good(s, LinkTemp(s, p, key, tmp), p, host)
  {
  }

  lemma AdvanceIsGood(s: System, p: Pid, fate: Fate, host: Host)
    requires FinalIsSound(s, host) && CanGo(s, p)
    ensures Good(s, Advance(s, p, fate), p, host)
  {
    var t := Advance(s, p, fate);
    match s.procs[p]
    case Read => ReadIsGood(s, p, fate, host);
    case Create(key) => CreateIsGood(s, p, key, fate, host);
    case Write(key, tmp) => WriteIsGood(s, p, key, tmp, fate, host);
    case Sync(key, tmp) =>
      if fate.Fault? { MoveIsGood(s, t, p, Failed, host); } else { SyncIsGood(s, p, key, tmp, host); }
    case Link(key, tmp) =>
      if fate.Fault? { MoveIsGood(s, t, p, Failed, host); } else { LinkIsGood(s, p, key, tmp, host); }
    case stage => OtherMovesAreGood(s, p, fate, host);
  }

  lemma OtherMovesAreGood(s: System, p: Pid, fate: Fate, host: Host)
    requires FinalIsSound(s, host) && CanGo(s, p)
    requires match s.procs[p]
             case Secure(_, _) => true case Close(_, _) => true case DropTemp(_) => true case Unlink(_, _) => true
             case SyncDir(_) => true case Returned(_) => true case Failed => true case _ => false
    ensures Good(s, Advance(s, p, fate), p, host)
  {
    var t := Advance(s, p, fate);
    MoveIsGood(s, t, p, t.procs[p], host);
  }

  lemma BystanderIsSound(s: System, t: System, p: Pid, q: Pid)
    requires OthersUntouched(s, t, p) && p != q && ProcIsSound(s, q)
    ensures ProcIsSound(t, q)
  {
    if q in t.procs {
      match s.procs[q]
      case Write(_, tmp) => assert tmp in s.files;
      case Secure(_, tmp) => assert tmp in s.files;
      case Sync(_, tmp) => assert tmp in s.files;
      case Close(_, tmp) => assert tmp in s.files;
      case Link(_, tmp) => assert tmp in s.files;
      case _ =>
    }
  }

  /** The key's name never changes its file or its bytes; only a power loss can take it away, and only before it is durable. */
  lemma StepKeepsFinal(s: System, step: Step, host: Host)
    requires FinalIsSound(s, host) && (step.Go? ==> ProcIsSound(s, step.p))
    ensures var t := Do(s, step);
            && FinalIsSound(t, host)
            && (s.final.Some? && t.final.Some? ==> t.final == s.final && t.files[t.final.value] == s.files[s.final.value])
            && (s.final.Some? && t.final.None? ==> step.PowerLoss? && step.drop && !s.durable)
  {
    if step.Go? && CanGo(s, step.p) {
      AdvanceIsGood(s, step.p, step.fate, host);
    }
  }

  lemma StepKeepsProc(s: System, step: Step, host: Host, q: Pid)
    requires FinalIsSound(s, host) && ProcIsSound(s, q) && (step.Go? ==> ProcIsSound(s, step.p))
    ensures ProcIsSound(Do(s, step), q)
  {
    if step.Go? && CanGo(s, step.p) {
      AdvanceIsGood(s, step.p, step.fate, host);
      if step.p != q {
        BystanderIsSound(s, Do(s, step), step.p, q);
      }
    }
  }

  /** Under every interleaving of any number of processes, faults, deaths and power losses. */
  lemma {:induction false} EveryInterleavingIsSound(host: Host, steps: seq<Step>, q: Pid)
    ensures FinalIsSound(After(host, steps), host) && ProcIsSound(After(host, steps), q)
  {
    if steps != [] {
      var pre, step := steps[..|steps|-1], steps[|steps|-1];
      EveryInterleavingIsSound(host, pre, q);
      if step.Go? {
        EveryInterleavingIsSound(host, pre, step.p);
      }
      StepKeepsFinal(After(host, pre), step, host);
      StepKeepsProc(After(host, pre), step, host, q);
    }
  }

  // ----------------------------------------------------------- agreement

  /** A power loss that takes away a key some process has already returned. */
  predicate Orphans(s: System, step: Step) {
    step.PowerLoss? && step.drop && !s.durable && s.final.Some? && s.returned != {}
  }

  predicate NeverOrphaned(host: Host, steps: seq<Step>) {
    steps != [] ==>
      NeverOrphaned(host, steps[..|steps|-1])
      && !Orphans(After(host, steps[..|steps|-1]), steps[|steps|-1])
  }

  /** Every key ever returned, by the living or the dead, is the one in the file. */
  predicate Agreed(s: System) {
    forall k :: k in s.returned ==> |k| == KEY_SIZE && Holds(s, k)
  }

  lemma {:induction false} EveryoneReturnsTheSameKey(host: Host, steps: seq<Step>)
    requires NeverOrphaned(host, steps)
    ensures Agreed(After(host, steps))
  {
    if steps != [] {
      var pre, step := steps[..|steps|-1], steps[|steps|-1];
      EveryoneReturnsTheSameKey(host, pre);
      var s := After(host, pre);
      EveryInterleavingIsSound(host, pre, if step.Go? then step.p else 0);
      StepKeepsFinal(s, step, host);
      StepKeepsReturned(s, step);
    }
  }

  lemma StepKeepsReturned(s: System, step: Step)
    requires step.Go? ==> ProcIsSound(s, step.p)
    ensures forall k :: k in Do(s, step).returned ==> k in s.returned || (|k| == KEY_SIZE && Holds(s, k))
  {
  }

  /** Once its name is durable, or while no power is lost, the key file stays and keeps its bytes. */
  lemma {:induction false} TheKeyIsForever(host: Host, steps: seq<Step>, more: seq<Step>)
    requires After(host, steps).durable || forall i :: 0 <= i < |more| ==> !more[i].PowerLoss?
    ensures var s, t := After(host, steps), After(host, steps + more);
            s.final.Some? ==> t.final == s.final && s.final.value in s.files && s.final.value in t.files
                              && t.files[s.final.value].bytes == s.files[s.final.value].bytes
                              && (s.durable ==> t.durable)
  {
    if more == [] {
      assert steps + more == steps;
      EveryInterleavingIsSound(host, steps, 0);
    } else {
      var n := |more| - 1;
      var step, t := more[n], After(host, steps + more[..n]);
      OneMore(host, steps + more[..n], step);
      assert steps + more[..n] + [step] == steps + more;
      TheKeyIsForever(host, steps, more[..n]);
      EveryInterleavingIsSound(host, steps + more[..n], if step.Go? then step.p else 0);
      StepKeepsFinal(t, step, host);
    }
  }

  // ------------------------------------------- when agreement is lost

  /** A process that is making `key` while the key's name is absent, or that has just linked it. */
  predicate Making(s: System, p: Pid, key: Bytes) {
    p in s.procs && |key| == KEY_SIZE &&
    match s.procs[p]
    case Read => s.final.None?
    case Create(k) => k == key && s.final.None?
    case Write(k, tmp) => k == key && s.final.None? && tmp in s.files
    case Secure(k, tmp) => k == key && s.final.None? && tmp in s.files
    case Sync(k, tmp) => k == key && s.final.None? && tmp in s.files
    case Close(k, tmp) => k == key && s.final.None? && tmp in s.files
    case Link(k, tmp) => k == key && s.final.None? && tmp in s.files
    case Unlink(k, _) => k == key
    case SyncDir(k) => k == key
    case _ => false
  }

  /** The calls it still has to make. */
  function Remaining(stage: Stage): nat {
    match stage
    case Read => 9
    case Create(_) => 8
    case Write(_, _) => 7
    case Secure(_, _) => 6
    case Sync(_, _) => 5
    case Close(_, _) => 4
    case Link(_, _) => 3
    case Unlink(_, _) => 2
    case SyncDir(_) => 1
    case _ => 0
  }

  lemma OneCallCloser(s: System, p: Pid, key: Bytes)
    requires Making(s, p, key) && (s.final.Some? ==> s.final.value in s.files)
    ensures var t := Do(s, Go(p, Fine(key)));
            && s.returned <= t.returned
            && (key in t.returned || (Making(t, p, key) && Remaining(t.procs[p]) < Remaining(s.procs[p])))
  {
    var t := Advance(s, p, Fine(key));
    match s.procs[p]
    case Sync(_, tmp) => assert t.procs[p] == Close(key, tmp);
    case Close(_, tmp) => assert t.procs[p] == Link(key, tmp);
    case Link(_, tmp) => assert t.procs[p] == Unlink(key, tmp);
    case _ =>
  }

  lemma OneMore(host: Host, steps: seq<Step>, step: Step)
    ensures After(host, steps + [step]) == Do(After(host, steps), step)
  {
    assert (steps + [step])[..|steps|] == steps;
  }

  lemma {:induction false} AloneItReturns(host: Host, steps: seq<Step>, p: Pid, key: Bytes) returns (more: seq<Step>)
    requires Making(After(host, steps), p, key)
    ensures var t := After(host, steps + more);
            key in t.returned && After(host, steps).returned <= t.returned
    decreases var s := After(host, steps); if p in s.procs then Remaining(s.procs[p]) else 0
  {
    var s, step := After(host, steps), Go(p, Fine(key));
    EveryInterleavingIsSound(host, steps, p);
    OneCallCloser(s, p, key);
    OneMore(host, steps, step);
    more := [step];
    if key !in After(host, steps + [step]).returned {
      var rest := AloneItReturns(host, steps + [step], p, key);
      assert steps + [step] + rest == steps + ([step] + rest);
      more := [step] + rest;
    }
  }

  /**
   The exception to agreement is real in every state that allows it: a reader
   does not sync the directory, so a key it returned may vanish with its name,
   and the next process to start, running alone, makes and returns any other.
   */
  lemma AnOrphanedKeyIsReplaced(host: Host, steps: seq<Step>, n: nat, p: Pid, key: Bytes) returns (more: seq<Step>)
    requires Orphans(After(host, steps), PowerLoss(true, n))
    requires p !in After(host, steps).procs && |key| == KEY_SIZE
    ensures var t := After(host, steps + more);
            key in t.returned && After(host, steps).returned <= t.returned
  {
    var lost := steps + [PowerLoss(true, n)];
    OneMore(host, steps, PowerLoss(true, n));
    OneMore(host, lost, Start(p));
    var rest := AloneItReturns(host, lost + [Start(p)], p, key);
    more := [PowerLoss(true, n), Start(p)] + rest;
    assert steps + more == lost + [Start(p)] + rest;
  }

  const EMPTY := Host(None, true)

  /** One process alone, its key and its temporary at some stage. */
  function Solo(key: Bytes, synced: bool, stage: Stage): System {
    System(true, map[0 := File(key, synced, Some(0), false)], 1, None, true, {0}, map[0 := stage], {})
  }

  lemma OneWritesIts(key: Bytes) returns (steps: seq<Step>)
    requires |key| == KEY_SIZE
    ensures After(EMPTY, steps) == Solo(key, false, Secure(key, 0))
  {
    var go := Go(0, Fine(key));
    OneMore(EMPTY, [], Start(0));
    OneMore(EMPTY, [] + [Start(0)], go);
    OneMore(EMPTY, [] + [Start(0)] + [go], go);
    OneMore(EMPTY, [] + [Start(0)] + [go] + [go], go);
    steps := [] + [Start(0)] + [go] + [go] + [go];
    assert After(EMPTY, [] + [Start(0)] + [go]).procs == map[0 := Create(key)];
    assert After(EMPTY, [] + [Start(0)] + [go] + [go]) == Solo([], false, Write(key, 0));
  }

  lemma SoloSecures(key: Bytes)
    ensures Do(Solo(key, false, Secure(key, 0)), Go(0, Fine(key))) == Solo(key, false, Sync(key, 0))
  {
  }

  lemma SoloSyncs(key: Bytes)
    ensures Do(Solo(key, false, Sync(key, 0)), Go(0, Fine(key))) == Solo(key, true, Close(key, 0))
  {
    assert map[0 := File(key, false, Some(0), false)][0 := File(key, true, Some(0), false)] == map[0 := File(key, true, Some(0), false)];
  }

  lemma SoloCloses(key: Bytes)
    ensures Do(Solo(key, true, Close(key, 0)), Go(0, Fine(key))) == Solo(key, true, Link(key, 0))
  {
  }

  lemma OneSyncsIts(key: Bytes) returns (steps: seq<Step>)
    requires |key| == KEY_SIZE
    ensures After(EMPTY, steps) == Solo(key, true, Link(key, 0))
  {
    var go := Go(0, Fine(key));
    var w := OneWritesIts(key);
    OneMore(EMPTY, w, go);
    OneMore(EMPTY, w + [go], go);
    OneMore(EMPTY, w + [go] + [go], go);
    steps := w + [go] + [go] + [go];
    SoloSecures(key);
    SoloSyncs(key);
    SoloCloses(key);
  }

  /** And such a state is two processes away: one has linked its key, the other has read it, the directory is not yet synced. */
  lemma AReaderMayBeEarly(key: Bytes) returns (steps: seq<Step>)
    requires |key| == KEY_SIZE
    ensures Orphans(After(EMPTY, steps), PowerLoss(true, 0)) && After(EMPTY, steps).returned == {key}
  {
    var go := Go(0, Fine(key));
    var l := OneSyncsIts(key);
    OneMore(EMPTY, l, go);
    OneMore(EMPTY, l + [go], Start(1));
    OneMore(EMPTY, l + [go] + [Start(1)], Go(1, Fine(key)));
    steps := l + [go] + [Start(1)] + [Go(1, Fine(key))];
    var linked := After(EMPTY, l + [go]);
    assert linked.final == Some(0) && linked.files[0].bytes == key && !linked.durable && linked.procs.Keys == {0};
  }

  predicate Undurable(s: System) {
    !s.flushes && (s.final.Some? ==> !s.durable)
  }

  lemma StepStaysUndurable(s: System, step: Step)
    requires Undurable(s)
    ensures Undurable(Do(s, step))
  {
    if step.Go? && step.p in s.procs && Closed(s, step.p) {
      AdvanceStaysUndurable(s, step.p, step.fate);
    }
  }

  lemma AdvanceStaysUndurable(s: System, p: Pid, fate: Fate)
    requires Undurable(s) && p in s.procs && Closed(s, p)
    ensures Undurable(Advance(s, p, fate))
  {
  }

  /** Where a directory cannot be flushed, a key made here never becomes durable, so the exception covers every key returned. */
  lemma {:induction false} WithoutAFlushNothingIsDurable(host: Host, steps: seq<Step>)
    requires host.present.None? && !host.flushes
    ensures Undurable(After(host, steps))
  {
    if steps != [] {
      WithoutAFlushNothingIsDurable(host, steps[..|steps|-1]);
      StepStaysUndurable(After(host, steps[..|steps|-1]), steps[|steps|-1]);
    }
  }

  // ------------------------------------------------ every process gets it

  predicate Live(stage: Stage) {
    !stage.Returned? && !stage.Failed?
  }

  /** The calls it has left: a process that finds a key only has to drop its own temporary and read. */
  function CallsLeft(s: System, stage: Stage): nat {
    match stage
    case Read => if s.final.Some? then 1 else 9
    case DropTemp(_) => if s.final.Some? then 2 else 10
    case _ => Remaining(stage)
  }

  /** Nothing in the way: no key file, or one of the right size. */
  predicate Usable(s: System) {
    s.final.Some? ==> s.final.value in s.files && |s.files[s.final.value].bytes| == KEY_SIZE
  }

  /** One call on: returned with the key in the file, or under way with fewer calls left. */
  predicate Closer(s: System, t: System, p: Pid)
    requires p in s.procs
  {
    && p in t.procs && Usable(t)
    && if t.procs[p].Returned? then Holds(t, t.procs[p].key) && t.procs[p].key in t.returned
       else Live(t.procs[p]) && CallsLeft(t, t.procs[p]) < CallsLeft(s, s.procs[p])
  }

  lemma ReadGetsCloser(s: System, p: Pid, key: Bytes)
    requires p in s.procs && s.procs[p] == Read && Usable(s) && |key| == KEY_SIZE
    ensures Closer(s, ReadKey(s, p, Fine(key)), p)
  {
  }

  lemma CreateGetsCloser(s: System, p: Pid, mine: Bytes, key: Bytes, host: Host)
    requires FinalIsSound(s, host) && p in s.procs && s.procs[p] == Create(mine) && Usable(s)
    ensures Closer(s, CreateTemp(s, p, mine, Fine(key)), p)
  {
  }

  lemma WriteGetsCloser(s: System, p: Pid, mine: Bytes, tmp: nat, key: Bytes, host: Host)
    requires FinalIsSound(s, host) && CanGo(s, p) && s.procs[p] == Write(mine, tmp) && Usable(s)
    ensures Closer(s, WriteTemp(s, p, mine, tmp, Fine(key)), p)
  {
  }

  lemma SyncGetsCloser(s: System, p: Pid, mine: Bytes, tmp: nat, host: Host)
    requires FinalIsSound(s, host) && CanGo(s, p) && s.procs[p] == Sync(mine, tmp) && Usable(s)
    ensures Closer(s, SyncTemp(s, p, mine, tmp), p)
  {
  }

  lemma LinkGetsCloser(s: System, p: Pid, mine: Bytes, tmp: nat, host: Host)
    requires FinalIsSound(s, host) && CanGo(s, p) && s.procs[p] == Link(mine, tmp) && Usable(s)
    ensures Closer(s, LinkTemp(s, p, mine, tmp), p)
  {
  }

  lemma MoveGetsCloser(s: System, p: Pid, key: Bytes)
    requires CanGo(s, p) && Usable(s)
    requires match s.procs[p]
             case Secure(_, _) => true case Close(_, _) => true case DropTemp(_) => true case Unlink(_, _) => true
             case SyncDir(_) => true case _ => false
    ensures Closer(s, Advance(s, p, Fine(key)), p)
  {
  }

  lemma OneCallOn(s: System, p: Pid, key: Bytes, host: Host)
    requires FinalIsSound(s, host) && CanGo(s, p) && Live(s.procs[p]) && Usable(s) && |key| == KEY_SIZE
    ensures Closer(s, Do(s, Go(p, Fine(key))), p)
  {
    match s.procs[p]
    case Read => ReadGetsCloser(s, p, key);
    case Create(mine) => CreateGetsCloser(s, p, mine, key, host);
    case Write(mine, tmp) => WriteGetsCloser(s, p, mine, tmp, key, host);
    case Sync(mine, tmp) => SyncGetsCloser(s, p, mine, tmp, host);
    case Link(mine, tmp) => LinkGetsCloser(s, p, mine, tmp, host);
    case _ => MoveGetsCloser(s, p, key);
  }

  /**
   From every reachable state in which no key file of another size is in the way:
   any process still under way that runs on without a fault, alone, returns, and
   the key it returns is the one in the file, the winner's if there was one.
   */
  lemma {:induction false} EveryProcessGetsTheKey(host: Host, steps: seq<Step>, p: Pid, key: Bytes) returns (more: seq<Step>)
    requires var s := After(host, steps); p in s.procs && Live(s.procs[p]) && Usable(s)
    requires |key| == KEY_SIZE
    ensures forall i :: 0 <= i < |more| ==> more[i] == Go(p, Fine(key))
    ensures var t := After(host, steps + more);
            && p in t.procs && t.procs[p].Returned? && Holds(t, t.procs[p].key) && |t.procs[p].key| == KEY_SIZE
    decreases var s := After(host, steps); if p in s.procs then CallsLeft(s, s.procs[p]) else 0
  {
    var s, step := After(host, steps), Go(p, Fine(key));
    EveryInterleavingIsSound(host, steps, p);
    SoundIsClosed(s, p, host);
    OneCallOn(s, p, key, host);
    OneMore(host, steps, step);
    more := [step];
    if !After(host, steps + [step]).procs[p].Returned? {
      var rest := EveryProcessGetsTheKey(host, steps + [step], p, key);
      assert steps + [step] + rest == steps + ([step] + rest);
      more := [step] + rest;
    }
  }

  lemma SoundIsClosed(s: System, p: Pid, host: Host)
    requires FinalIsSound(s, host) && ProcIsSound(s, p) && p in s.procs
    ensures CanGo(s, p)
  {
  }

  /** The loser of the race, in three calls: it is refused the name, drops its temporary, and returns the winner's key. */
  lemma TheLoserReturnsTheWinners(host: Host, steps: seq<Step>, p: Pid, mine: Bytes, tmp: nat, key: Bytes)
    requires var s := After(host, steps); p in s.procs && s.procs[p] == Link(mine, tmp) && s.final.Some? && Usable(s)
    ensures var s, go := After(host, steps), Go(p, Fine(key));
            var t := Do(Do(Do(s, go), go), go);
            p in t.procs && t.procs[p] == Returned(s.files[s.final.value].bytes) && t.final == s.final && tmp !in t.temps
  {
    var s, go := After(host, steps), Go(p, Fine(key));
    EveryInterleavingIsSound(host, steps, p);
    LoserIsRefused(s, p, mine, tmp, key, host);
    LoserDropsIts(Do(s, go), p, tmp, key);
    LoserReads(Do(Do(s, go), go), p, key);
  }

  lemma LoserIsRefused(s: System, p: Pid, mine: Bytes, tmp: nat, key: Bytes, host: Host)
    requires FinalIsSound(s, host) && CanGo(s, p) && s.procs[p] == Link(mine, tmp) && s.final.Some?
    ensures Do(s, Go(p, Fine(key))) == To(s, p, DropTemp(tmp))
  {
  }

  lemma LoserDropsIts(s: System, p: Pid, tmp: nat, key: Bytes)
    requires p in s.procs && s.procs[p] == DropTemp(tmp) && s.final.Some? && s.final.value in s.files
    ensures Do(s, Go(p, Fine(key))) == To(s, p, Read).(temps := s.temps - {tmp})
  {
  }

  lemma LoserReads(s: System, p: Pid, key: Bytes)
    requires p in s.procs && s.procs[p] == Read && s.final.Some? && Usable(s)
    ensures var t, won := Do(s, Go(p, Fine(key))), s.files[s.final.value].bytes;
            t == To(s, p, Returned(won)).(returned := s.returned + {won})
  {
  }

  /** A key file of another size is refused, and nothing is put in its place. */
  lemma AnotherSizeIsRefused(s: System, p: Pid, fate: Fate)
    requires p in s.procs && s.procs[p] == Read && s.final.Some? && s.final.value in s.files
    requires |s.files[s.final.value].bytes| != KEY_SIZE
    ensures Do(s, Go(p, fate)) == To(s, p, Failed)
  {
  }

  // --------------------------------------------------- nothing is strewn

  function TmpOf(stage: Stage): Option<nat> {
    match stage
    case Write(_, tmp) => Some(tmp)
    case Secure(_, tmp) => Some(tmp)
    case Sync(_, tmp) => Some(tmp)
    case Close(_, tmp) => Some(tmp)
    case Link(_, tmp) => Some(tmp)
    case DropTemp(tmp) => Some(tmp)
    case Unlink(_, tmp) => Some(tmp)
    case _ => None
  }

  /** A temporary that still has its name belongs to a process still using it. */
  predicate InUse(s: System, i: nat) {
    i in s.temps ==>
      && i in s.files && i < s.next && s.files[i].owner.Some?
      && var p := s.files[i].owner.value;
      p in s.procs && TmpOf(s.procs[p]) == Some(i)
  }

  lemma StepKeepsInUse(s: System, step: Step, host: Host, i: nat)
    requires FinalIsSound(s, host) && InUse(s, i) && !step.Crash? && !step.PowerLoss?
    requires step.Go? ==> ProcIsSound(s, step.p)
    ensures InUse(Do(s, step), i)
  {
    if step.Go? && CanGo(s, step.p) {
      GoKeepsInUse(s, step.p, step.fate, host, i);
    }
  }

  lemma GoKeepsInUse(s: System, p: Pid, fate: Fate, host: Host, i: nat)
    requires FinalIsSound(s, host) && InUse(s, i) && CanGo(s, p)
    ensures InUse(Advance(s, p, fate), i)
  {
    match s.procs[p]
    case Create(key) => CreateKeepsInUse(s, p, key, fate, i);
    case Write(key, tmp) => WriteKeepsInUse(s, p, key, tmp, fate, i);
    case Sync(key, tmp) => SyncKeepsInUse(s, p, key, tmp, fate, i);
    case Link(key, tmp) => LinkKeepsInUse(s, p, key, tmp, fate, i);
    case _ => OtherMovesKeepInUse(s, p, fate, i);
  }

  lemma WriteKeepsInUse(s: System, p: Pid, key: Bytes, tmp: nat, fate: Fate, i: nat)
    requires InUse(s, i) && CanGo(s, p) && s.procs[p] == Write(key, tmp)
    ensures InUse(Advance(s, p, fate), i)
  {
  }

  lemma SyncKeepsInUse(s: System, p: Pid, key: Bytes, tmp: nat, fate: Fate, i: nat)
    requires InUse(s, i) && CanGo(s, p) && s.procs[p] == Sync(key, tmp)
    ensures InUse(Advance(s, p, fate), i)
  {
  }

  lemma LinkKeepsInUse(s: System, p: Pid, key: Bytes, tmp: nat, fate: Fate, i: nat)
    requires InUse(s, i) && CanGo(s, p) && s.procs[p] == Link(key, tmp)
    ensures InUse(Advance(s, p, fate), i)
  {
  }

  lemma CreateKeepsInUse(s: System, p: Pid, key: Bytes, fate: Fate, i: nat)
    requires InUse(s, i) && p in s.procs && s.procs[p] == Create(key)
    ensures InUse(CreateTemp(s, p, key, fate), i)
  {
  }

  lemma OtherMovesKeepInUse(s: System, p: Pid, fate: Fate, i: nat)
    requires InUse(s, i) && p in s.procs && Closed(s, p)
    requires !s.procs[p].Create? && !s.procs[p].Write? && !s.procs[p].Sync? && !s.procs[p].Link?
    ensures InUse(Advance(s, p, fate), i)
  {
  }

  /** With nobody killed, every fault included, no ended process leaves its temporary behind. */
  lemma {:induction false} NothingIsStrewn(host: Host, steps: seq<Step>, i: nat)
    requires forall j :: 0 <= j < |steps| ==> !steps[j].Crash? && !steps[j].PowerLoss?
    ensures InUse(After(host, steps), i)
  {
    if steps != [] {
      var pre, step := steps[..|steps|-1], steps[|steps|-1];
      NothingIsStrewn(host, pre, i);
      EveryInterleavingIsSound(host, pre, if step.Go? then step.p else 0);
      StepKeepsInUse(After(host, pre), step, host, i);
    }
  }
}
