/**
 Snapshots of the log ring on disk: when a save may be skipped, what the memo of
 the last save describes while lines go on being logged, and what a later load
 of a snapshot brings back.
 */
module LogSnapshot {
  import opened Wrappers
  import opened LogText
  import opened LogRing

  // ------------------------------------------------- the generation token

  /** A later moment of the same ring; the same epoch and end mean nothing changed. */
  predicate Later(a: Log, b: Log) {
    && a.epoch <= b.epoch && a.End() <= b.End()
    && (a.epoch == b.epoch && a.End() == b.End() ==> a == b)
  }

  lemma WritesMoveTheToken(l: Log, op: Op)
    requires l.Valid()
    ensures Later(l, Write(l, op))
  {
    match op
    case Load(es) =>
      if es == [] {
        assert l.all + es == l.all;
      }
    case _ =>
  }

  lemma OpsMoveTheToken(lim: Limits, ops: seq<Op>, op: Op)
    ensures Later(History(lim, ops).log, History(lim, ops + [op]).log)
  {
    assert (ops + [op])[..|ops|] == ops;
    WritesMoveTheToken(History(lim, ops).log, op);
  }

  /** Two moments with one token hold the same lines, whatever happened in between. */
  lemma {:induction false} TokenNamesTheContents(lim: Limits, ops: seq<Op>, more: seq<Op>)
    ensures Later(History(lim, ops).log, History(lim, ops + more).log)
  {
    if more == [] {
      assert ops + more == ops;
    } else {
      var n := |more| - 1;
      TokenNamesTheContents(lim, ops, more[..n]);
      OpsMoveTheToken(lim, ops + more[..n], more[n]);
      assert ops + more[..n] + [more[n]] == ops + more;
    }
  }

  // --------------------------------------------------------- the protocol

  /** Owner-only: 0600. */
  const OWNER_ONLY := 0x180

  datatype File = File(text: string, mode: int)

  /** What the last successful save left on disk. */
  datatype Memo = Memo(path: string, epoch: nat, seqNo: nat, size: nat, mode: int)

  /** A save under way: the copy it took, and the file once it has been renamed into place. */
  datatype Saving = Saving(path: string, snap: Log, out: Option<File>)

  /** `ours` and `wrote` are history: what our last rename put at a path nobody has touched since, and what the memo was taken of. */
  datatype System = System(
    ring: Log,
    files: map<string, File>,
    saved: Option<Memo>,
    saving: Option<Saving>,
    ours: map<string, Log>,
    wrote: Option<Log>)

  datatype Action =
    | Work(op: Op)
    | Begin(path: string)
    | Skip
    | Fail
    | Rename
    | FailAfterRename
    | Remember
    | Foreign(path: string, file: Option<File>)

  /** The memo's test: the same token, and a file of the size and mode we left there. */
  predicate Skippable(s: System) {
    && s.saving.Some? && s.saving.value.out.None? && s.saved.Some?
    && var p, m := s.saving.value, s.saved.value;
    && m.path == p.path && m.epoch == p.snap.epoch && m.seqNo == p.snap.End()
    && p.path in s.files && |s.files[p.path].text| == m.size && s.files[p.path].mode == m.mode
  }

  function SnapshotOf(enc: Entry -> string, l: Log): File
    requires l.dropped <= |l.all|
  {
    File(FileText(enc, l.Lines()), OWNER_ONLY)
  }

  predicate Writing(s: System) {
    s.saving.Some? && s.saving.value.out.None? && !Skippable(s) && s.saving.value.snap.Valid()
  }

  predicate Renamed(s: System) {
    s.saving.Some? && s.saving.value.out.Some?
  }

  /** A step that is not enabled changes nothing. */
  function Do(enc: Entry -> string, s: System, step: Action): System {
    match step
    case Work(op) => if s.ring.Valid() then s.(ring := Write(s.ring, op)) else s
    // Saves take turns; each copies the ring and its token under the ring's lock.
    case Begin(path) => if s.saving.None? then s.(saving := Some(Saving(path, s.ring, None))) else s
    case Skip => if Skippable(s) then s.(saving := None) else s
    case Fail => if Writing(s) then s.(saving := None) else s
    case Rename =>
      if Writing(s) then
        var p := s.saving.value;
        s.(files := s.files[p.path := SnapshotOf(enc, p.snap)],
           ours := s.ours[p.path := p.snap],
           saving := Some(p.(out := Some(SnapshotOf(enc, p.snap)))))
      else s
    case FailAfterRename => if Renamed(s) then s.(saving := None) else s
    case Remember =>
      if Renamed(s) then
        var p := s.saving.value;
        s.(saved := Some(Memo(p.path, p.snap.epoch, p.snap.End(), |p.out.value.text|, p.out.value.mode)),
           wrote := Some(p.snap), saving := None)
      else s
    case Foreign(path, file) =>
      s.(files := if file.Some? then s.files[path := file.value] else s.files - {path}, ours := s.ours - {path})
  }

  function After(enc: Entry -> string, lim: Limits, files: map<string, File>, steps: seq<Action>): System {
    if steps == [] then System(Log([], 0, 0, lim), files, None, None, map[], None)
    else Do(enc, After(enc, lim, files, steps[..|steps|-1]), steps[|steps|-1])
  }

  /** The newest ring state any file or memo may come from. */
  function Horizon(s: System): Log {
    if s.saving.Some? then s.saving.value.snap else s.ring
  }

  predicate SavingIsSound(enc: Entry -> string, s: System) {
    && s.ring.Valid() && Horizon(s).Valid() && Later(Horizon(s), s.ring)
    && (Renamed(s) ==>
          var p := s.saving.value;
          p.out.value == SnapshotOf(enc, p.snap) && (p.path in s.ours ==> s.ours[p.path] == p.snap))
  }

  /** A path nobody touched since our last rename holds that snapshot, whole. */
  predicate FileIsSound(enc: Entry -> string, s: System, path: string) {
    path in s.ours ==>
      && s.ours[path].Valid() && Later(s.ours[path], Horizon(s))
      && path in s.files && s.files[path] == SnapshotOf(enc, s.ours[path])
  }

  /** The memo describes the file its save wrote, even after a later save got no further than its rename. */
  predicate MemoIsSound(enc: Entry -> string, s: System) {
    s.saved.Some? ==>
      && s.wrote.Some? && s.wrote.value.Valid() && Later(s.wrote.value, Horizon(s))
      && var m, w := s.saved.value, s.wrote.value;
      && m == Memo(m.path, w.epoch, w.End(), |SnapshotOf(enc, w).text|, OWNER_ONLY)
      && (m.path in s.ours ==> Later(w, s.ours[m.path]))
  }

  lemma StepKeepsSaving(enc: Entry -> string, s: System, step: Action)
    requires SavingIsSound(enc, s)
    ensures SavingIsSound(enc, Do(enc, s, step))
    ensures Later(Horizon(s), Horizon(Do(enc, s, step)))
  {
    if step.Work? {
      WritesMoveTheToken(s.ring, step.op);
    }
  }

  lemma StepKeepsFile(enc: Entry -> string, s: System, step: Action, path: string)
    requires SavingIsSound(enc, s) && FileIsSound(enc, s, path)
    ensures FileIsSound(enc, Do(enc, s, step), path)
  {
    StepKeepsSaving(enc, s, step);
  }

  lemma StepKeepsMemo(enc: Entry -> string, s: System, step: Action)
    requires SavingIsSound(enc, s) && MemoIsSound(enc, s)
    ensures MemoIsSound(enc, Do(enc, s, step))
  {
    StepKeepsSaving(enc, s, step);
  }

  /** In every interleaving of logging, wipes, saves that fail anywhere, and strangers' writes. */
  lemma {:induction false} EveryInterleavingIsSound(enc: Entry -> string, lim: Limits, files: map<string, File>, steps: seq<Action>, path: string)
    ensures var s := After(enc, lim, files, steps);
            SavingIsSound(enc, s) && FileIsSound(enc, s, path) && MemoIsSound(enc, s)
  {
    if steps != [] {
      var n := |steps| - 1;
      EveryInterleavingIsSound(enc, lim, files, steps[..n], path);
      var s := After(enc, lim, files, steps[..n]);
      StepKeepsSaving(enc, s, steps[n]);
      StepKeepsFile(enc, s, steps[n], path);
      StepKeepsMemo(enc, s, steps[n]);
    }
  }

  /** A skipped save leaves on disk exactly what it would have written, unless a stranger replaced the file. */
  lemma SkippingLosesNothing(enc: Entry -> string, lim: Limits, files: map<string, File>, steps: seq<Action>)
    ensures var s := After(enc, lim, files, steps);
            Skippable(s) && s.saving.value.path in s.ours ==>
              s.saving.value.snap.Valid() && s.files[s.saving.value.path] == SnapshotOf(enc, s.saving.value.snap)
  {
    var s := After(enc, lim, files, steps);
    if s.saving.Some? {
      EveryInterleavingIsSound(enc, lim, files, steps, s.saving.value.path);
    }
  }

  /** And an idle ring is never rewritten: after a save, a save of an unchanged ring to the same untouched path is skipped. */
  lemma IdleSavesAreSkipped(enc: Entry -> string, lim: Limits, files: map<string, File>, steps: seq<Action>)
    ensures var s := After(enc, lim, files, steps);
            s.saving.None? && s.saved.Some? && s.saved.value.path in s.ours
            && s.ring.epoch == s.saved.value.epoch && s.ring.End() == s.saved.value.seqNo
            ==> Skippable(Do(enc, s, Begin(s.saved.value.path)))
  {
    var s := After(enc, lim, files, steps);
    if s.saved.Some? {
      EveryInterleavingIsSound(enc, lim, files, steps, s.saved.value.path);
    }
  }

  /** A stranger's write to the path, then the next save of the ring as far as its rename. */
  function Repaired(enc: Entry -> string, s: System, path: string, file: Option<File>): System {
    Do(enc, Do(enc, Do(enc, s, Foreign(path, file)), Begin(path)), Rename)
  }

  /** Nothing was logged or wiped since the last successful save, and none is under way. */
  predicate Idle(s: System) {
    s.saving.None? && s.saved.Some? && s.ring.epoch == s.saved.value.epoch && s.ring.End() == s.saved.value.seqNo
  }

  lemma IdleIsRepairedIff(enc: Entry -> string, s: System, file: Option<File>)
    requires SavingIsSound(enc, s) && MemoIsSound(enc, s) && Idle(s)
    ensures var path, whole := s.saved.value.path, SnapshotOf(enc, s.ring);
            var t := Repaired(enc, s, path, file);
            (path in t.files && t.files[path] == whole) <==>
              (file.Some? && |file.value.text| == |whole.text| && file.value.mode == whole.mode ==> file.value == whole)
  {
    assert s.wrote.value == s.ring;
    assert Do(enc, s, Foreign(s.saved.value.path, file)).ring == s.ring;
  }

  /**
   Whatever a stranger does to the file of an idle ring, the next save puts the
   snapshot back, unless what he left has the very size and mode of it: deletion,
   truncation and a loosened mode are all repaired, and nothing else goes unseen.
   */
  lemma DamageIsRepairedIff(enc: Entry -> string, lim: Limits, files: map<string, File>, steps: seq<Action>, file: Option<File>)
    requires Idle(After(enc, lim, files, steps))
    ensures var s := After(enc, lim, files, steps);
            s.ring.Valid() &&
              var path, whole := s.saved.value.path, SnapshotOf(enc, s.ring);
              var t := Repaired(enc, s, path, file);
              (path in t.files && t.files[path] == whole) <==>
                (file.Some? && |file.value.text| == |whole.text| && file.value.mode == whole.mode ==> file.value == whole)
  {
    EveryInterleavingIsSound(enc, lim, files, steps, "");
    IdleIsRepairedIff(enc, After(enc, lim, files, steps), file);
  }

  /** A save that is not skipped and meets no fault puts the ring's snapshot in place, and leaves the ring idle. */
  lemma SavesLand(enc: Entry -> string, lim: Limits, files: map<string, File>, steps: seq<Action>, path: string)
    requires var s := After(enc, lim, files, steps); s.saving.None? && !Skippable(Do(enc, s, Begin(path)))
    ensures var s := After(enc, lim, files, steps);
            var t := Do(enc, Do(enc, Do(enc, s, Begin(path)), Rename), Remember);
            && s.ring.Valid() && t.ring == s.ring && Idle(t) && t.saved.value.path == path
            && path in t.files && t.files[path] == SnapshotOf(enc, s.ring)
            && forall p :: p in s.files && p != path ==> p in t.files && t.files[p] == s.files[p]
  {
    EveryInterleavingIsSound(enc, lim, files, steps, path);
  }

  /** One that fails before its rename changes no file, and the memo still describes the last that succeeded. */
  lemma FailedSavesChangeNothing(enc: Entry -> string, s: System)
    ensures var t := Do(enc, s, Fail); t.files == s.files && t.saved == s.saved && t.ring == s.ring
    ensures var t := Do(enc, s, FailAfterRename); t.files == s.files && t.saved == s.saved && t.ring == s.ring
  {
  }

  // ------------------------------------------------- reload after restart

  /** A fresh ring seeded from the snapshot another one left. */
  function Reloaded(enc: Entry -> string, dec: string -> Option<Entry>, prev: Log, epoch: nat): (r: Log)
    requires prev.Valid()
    ensures r.Valid()
  {
    Add(Log([], 0, epoch, prev.lim), Read(dec, SnapshotOf(enc, prev).text, prev.lim.bytes))
  }

  /** The saved lines a reload reads, before its own eviction. */
  function ReadBack(enc: Entry -> string, prev: Log): seq<Entry>
    requires prev.Valid()
  {
    Short(enc, prev.Lines()[LinesLost(enc, prev.Lines(), prev.lim.bytes)..])
  }

  lemma ReloadedLines(enc: Entry -> string, dec: string -> Option<Entry>, prev: Log, epoch: nat)
    requires prev.Valid() && Codec(enc, dec)
    ensures var back := ReadBack(enc, prev); Reloaded(enc, dec, prev, epoch).Lines() == back[Excess(back, prev.lim)..]
  {
    SaveThenRead(enc, dec, prev.Lines(), prev.lim.bytes);
    var back := ReadBack(enc, prev);
    assert [] + back == back && back[0..] == back;
  }

  /**
   A restart keeps the newest of the saved lines that are short enough to read
   back; what it adds to that loss is only what does not fit the byte bound.
   */
  lemma RestartKeepsTheNewest(enc: Entry -> string, dec: string -> Option<Entry>, prev: Log, epoch: nat)
    requires prev.Valid() && Codec(enc, dec)
    ensures exists k: nat, d: nat :: k <= |prev.Lines()| && d <= |Short(enc, prev.Lines()[k..])|
              && Reloaded(enc, dec, prev, epoch).Lines() == Short(enc, prev.Lines()[k..])[d..]
  {
    ReloadedLines(enc, dec, prev, epoch);
    var k := LinesLost(enc, prev.Lines(), prev.lim.bytes);
    var d := Excess(ReadBack(enc, prev), prev.lim);
    assert Reloaded(enc, dec, prev, epoch).Lines() == Short(enc, prev.Lines()[k..])[d..];
  }

  /** A restart loses nothing exactly when the snapshot fits the byte bound and no line is over-long. */
  lemma RestartLosesNothingIff(enc: Entry -> string, dec: string -> Option<Entry>, prev: Log, epoch: nat)
    requires prev.Valid() && Codec(enc, dec)
    ensures Reloaded(enc, dec, prev, epoch).Lines() == prev.Lines() <==>
              |SnapshotOf(enc, prev).text| <= prev.lim.bytes && forall e :: e in prev.Lines() ==> |enc(e)| <= MAX_LOAD_LINE
  {
    var es := prev.Lines();
    LinesLostIsTight(enc, es, prev.lim.bytes);
    ReloadedLines(enc, dec, prev, epoch);
    assert es[0..] == es;
    var back := ReadBack(enc, prev);
    if |back| == |es| {
      assert back[0..] == back;
    }
  }

  lemma {:induction false} EncodingIsLonger(enc: Entry -> string, es: seq<Entry>)
    requires forall e :: e in es ==> |enc(e)| >= e.Size()
    ensures |FileText(enc, es)| >= Sizes(es) + |es|
  {
    if es != [] {
      assert es[0] in es;
      EncodingIsLonger(enc, es[1..]);
    }
  }

  /** A ring whose text and line ends exceed the bound that was set for the text alone loses its oldest line at a restart. */
  lemma FullRingLosesItsOldest(enc: Entry -> string, dec: string -> Option<Entry>, prev: Log, epoch: nat)
    requires prev.Valid() && Codec(enc, dec) && forall e :: e in prev.Lines() ==> |enc(e)| >= e.Size()
    requires Sizes(prev.Lines()) + |prev.Lines()| > prev.lim.bytes
    ensures |Reloaded(enc, dec, prev, epoch).Lines()| < |prev.Lines()|
  {
    EncodingIsLonger(enc, prev.Lines());
    LinesLostIsTight(enc, prev.Lines(), prev.lim.bytes);
    ReloadedLines(enc, dec, prev, epoch);
  }

  /** Such rings there are, at any byte bound that holds a line: one line that fills it. */
  lemma AFullRing(epoch: nat, lim: Limits, raw: string)
    requires |raw| == lim.bytes
    ensures var r := Add(Log([], 0, epoch, lim), [Entry(raw, "")]);
            r.Lines() == [Entry(raw, "")] && Sizes(r.Lines()) + |r.Lines()| > r.lim.bytes
  {
    var all := [] + [Entry(raw, "")];
    assert all == [Entry(raw, "")] && all[1..] == [] && all[0..] == all;
  }
}
