/**
 Settings over whole runs: starts, reloads and saves from any stored table, each
 of which the store may fail. A restart reads back what runs as long as no save
 meets a guard of SettingsSaves; rows this code wrote never meet one once a load
 has recorded its migrations; and the runs that do meet one are here.
 */
module SettingsRuns {
  import opened Wrappers
  import opened Settings
  import opened SettingsLaws
  import opened SettingsSaves

  /** A process that has not loaded yet runs the defaults and refuses saves. */
  datatype State = State(rows: Rows, vals: Values, loaded: bool)

  datatype Step =
    | Start(readable: bool, recorded: bool)
    | Reload(readable: bool, recorded: bool)
    | Save(p: Patch, accepted: bool)

  function LoadRows(c: Codec, def: Values, m: Rows, recorded: bool): State {
    var v := Load(c, def, m);
    State(if recorded then Migrated(c, m, v) else m, v, true)
  }

  function Do(c: Codec, def: Values, s: State, step: Step): State {
    match step
    case Start(readable, recorded) =>
      if readable then LoadRows(c, def, s.rows, recorded) else State(s.rows, Normalize(def), false)
    case Reload(readable, recorded) => if readable then LoadRows(c, def, s.rows, recorded) else s
    case Save(p, accepted) =>
      if s.loaded && accepted then State(Stored(c, def, s.rows, p, s.vals), Saved(s.vals, p), true) else s
  }

  function After(c: Codec, def: Values, m: Rows, steps: seq<Step>): State {
    if steps == [] then State(m, Normalize(def), false)
    else Do(c, def, After(c, def, m, steps[..|steps|-1]), steps[|steps|-1])
  }

  /** A restart now would read the running values back. */
  predicate InStep(c: Codec, def: Values, s: State) {
    s.loaded ==> s.vals == Load(c, def, s.rows)
  }

  lemma LoadingGetsInStep(c: Codec, def: Values, m: Rows, recorded: bool)
    requires Inverse(c)
    ensures InStep(c, def, LoadRows(c, def, m, recorded))
  {
    MigrationKeepsTheMeaning(c, def, m);
  }

  /** A stored save of a state in step leaves it in step if and only if no guard holds. */
  lemma SaveStaysInStepIff(c: Codec, def: Values, s: State, p: Patch)
    requires Inverse(c) && InStep(c, def, s) && s.loaded
    ensures InStep(c, def, Do(c, def, s, Save(p, true))) <==> !SaveIsUndone(c, def, s.rows, s.vals, p)
  {
    SaveReadsBackIff(c, def, s.rows, p);
  }

  predicate NeverUndone(c: Codec, def: Values, m: Rows, steps: seq<Step>) {
    steps != [] ==>
      && NeverUndone(c, def, m, steps[..|steps|-1])
      && var s, step := After(c, def, m, steps[..|steps|-1]), steps[|steps|-1];
      && (step.Save? && step.accepted && s.loaded ==> !SaveIsUndone(c, def, s.rows, s.vals, step.p))
  }

  lemma StepStaysInStep(c: Codec, def: Values, s: State, step: Step)
    requires Inverse(c) && InStep(c, def, s)
    requires step.Save? && step.accepted && s.loaded ==> !SaveIsUndone(c, def, s.rows, s.vals, step.p)
    ensures InStep(c, def, Do(c, def, s, step))
  {
    if step.Save? {
      if s.loaded && step.accepted {
        SaveStaysInStepIff(c, def, s, step.p);
      }
    } else {
      LoadingGetsInStep(c, def, s.rows, step.recorded);
    }
  }

  /** From any table whatsoever: a run whose saves meet no guard is in step throughout. */
  lemma {:induction false} EveryRunStaysInStep(c: Codec, def: Values, m: Rows, steps: seq<Step>)
    requires Inverse(c) && NeverUndone(c, def, m, steps)
    ensures InStep(c, def, After(c, def, m, steps))
  {
    if steps != [] {
      EveryRunStaysInStep(c, def, m, steps[..|steps|-1]);
      StepStaysInStep(c, def, After(c, def, m, steps[..|steps|-1]), steps[|steps|-1]);
    }
  }

  // -------------------------------------------------- rows of our own

  predicate Canonical(c: Codec, m: Rows, v: Values, k: Key) {
    OnForm(k) && k in m ==> m[k] == Row(c, v, k)
  }

  /** Rows as this code writes them, any release's retired rows included; the migrations may still be due. */
  predicate OwnRows(c: Codec, def: Values, m: Rows) {
    forall k :: Canonical(c, m, Load(c, def, m), k)
  }

  /** The split is on record, and the retired master switch no longer speaks for either schedule. */
  predicate Marked(m: Rows) {
    EngineSplit in m && (ReadBool(m, ScheduleOn).Some? ==> LatOn in m && SpeedOn in m)
  }

  lemma RecordedIsMarked(c: Codec, m: Rows, v: Values, t: Rows)
    requires Recorded(c, m, v, t)
    ensures Marked(t)
  {
    SplitIsMarked(c, m, v, t);
    OtherRowsKeep(c, m, v, t, ScheduleOn);
    assert RecordedRow(c, m, v, t, LatOn) && RecordedRow(c, m, v, t, SpeedOn);
  }

  lemma RecordedIsCanonical(c: Codec, m: Rows, v: Values, t: Rows)
    requires Recorded(c, m, v, t) && forall k :: Canonical(c, m, v, k)
    ensures forall k :: Canonical(c, t, v, k)
  {
    forall k ensures Canonical(c, t, v, k) {
      assert RecordedRow(c, m, v, t, k);
      assert Canonical(c, m, v, k);
    }
  }

  /** A load that records its migrations leaves our own rows marked. */
  lemma RecordingMarks(c: Codec, def: Values, m: Rows)
    requires Inverse(c) && OwnRows(c, def, m)
    ensures var t := Migrated(c, m, Load(c, def, m)); Marked(t) && OwnRows(c, def, t)
  {
    var v := Load(c, def, m);
    MigratedIsRecorded(c, m, v);
    MigrationKeepsTheMeaning(c, def, m);
    RecordedIsMarked(c, m, v, Migrated(c, m, v));
    RecordedIsCanonical(c, m, v, Migrated(c, m, v));
  }

  /** The rows of the retired schedule. */
  const RETIRED := {ScheduleOn, LatDays, LatStart, LatEnd, SpeedDays, SpeedStart, SpeedEnd}

  /** A schedule's own rows say all there is to say. */
  predicate SpeaksForItself(c: Codec, t: Rows, f: Feature) {
    && (if f.on in t then ReadBool(t, f.on).Some? else ReadBool(t, ScheduleOn).None?)
    && (if f.windows in t then c.fromJSON(t[f.windows]).Some? else f.days !in t)
  }

  lemma RecordedSpeaksForItself(c: Codec, m: Rows, t: Rows, v: Values, f: Feature, s: Schedule)
    requires Inverse(c) && Recorded(c, m, v, t) && ((f == LAT && s == v.lat) || (f == SPEED && s == v.speed))
    requires Canonical(c, m, v, f.on) && Canonical(c, m, v, f.windows)
    ensures SpeaksForItself(c, t, f)
  {
    assert RecordedRow(c, m, v, t, f.on) && RecordedRow(c, m, v, t, f.windows);
    OtherRowsKeep(c, m, v, t, ScheduleOn);
    OtherRowsKeep(c, m, v, t, f.days);
    assert c.fromJSON(WindowsRow(c, s.windows)) == Some(s.windows);
  }

  lemma SpentSchedule(c: Codec, t: Rows, f: Feature)
    requires f == LAT || f == SPEED
    requires SpeaksForItself(c, t, f)
    ensures LoadSchedule(c, t - RETIRED, f) == LoadSchedule(c, t, f)
  {
    assert Same(t, t - RETIRED, f.on) && Same(t, t - RETIRED, f.windows);
    ReadsTheSame(c, t, t - RETIRED, f.on);
  }

  /** Once a load recorded its migrations, our own rows no longer need the retired ones: dropping them changes no schedule. */
  lemma RetiredRowsAreSpent(c: Codec, def: Values, m: Rows)
    requires Inverse(c) && OwnRows(c, def, m)
    ensures var v := Load(c, def, m); var t := Migrated(c, m, v);
            Load(c, def, t - RETIRED).lat == v.lat && Load(c, def, t - RETIRED).speed == v.speed
  {
    var v := Load(c, def, m);
    var t := Migrated(c, m, v);
    MigratedIsRecorded(c, m, v);
    MigrationKeepsTheMeaning(c, def, m);
    assert Canonical(c, m, v, LatOn) && Canonical(c, m, v, LatWindows) && Canonical(c, m, v, SpeedOn) && Canonical(c, m, v, SpeedWindows);
    RecordedSpeaksForItself(c, m, t, v, LAT, v.lat);
    RecordedSpeaksForItself(c, m, t, v, SPEED, v.speed);
    SpentSchedule(c, t, LAT);
    SpentSchedule(c, t, SPEED);
  }

  lemma MarkedNeverRelapses(c: Codec, m: Rows, t: Rows, diff: Rows, v: Values, w: Values)
    requires SavedTable(c, m, t, diff, v, w) && Marked(m)
    requires Canonical(c, m, v, LatOn) && Canonical(c, m, v, SpeedOn)
    ensures !Undone(c, m, diff, w)
  {
    assert SavedRow(c, m, t, diff, v, w, LatOn) && SavedRow(c, m, t, diff, v, w, SpeedOn);
    assert LatOn in m ==> ReadBool(m, LatOn) == Some(v.lat.on);
    assert SpeedOn in m ==> ReadBool(m, SpeedOn) == Some(v.speed.on);
  }

  lemma SavedIsMarked(c: Codec, m: Rows, t: Rows, diff: Rows, v: Values, w: Values)
    requires SavedTable(c, m, t, diff, v, w) && Marked(m)
    ensures Marked(t)
  {
    RetiredRowsStay(c, m, t, diff, v, w, EngineSplit);
    RetiredRowsStay(c, m, t, diff, v, w, ScheduleOn);
    assert SavedRow(c, m, t, diff, v, w, LatOn) && SavedRow(c, m, t, diff, v, w, SpeedOn);
  }

  lemma SavedIsCanonical(c: Codec, m: Rows, t: Rows, diff: Rows, v: Values, w: Values)
    requires SavedTable(c, m, t, diff, v, w) && forall k :: Canonical(c, m, v, k)
    ensures forall k :: Canonical(c, t, w, k)
  {
    forall k ensures Canonical(c, t, w, k) {
      assert SavedRow(c, m, t, diff, v, w, k) && Canonical(c, m, v, k);
    }
  }

  /** A save of marked rows of our own is never undone, and leaves such rows. */
  lemma SavesOfOwnRowsHold(c: Codec, def: Values, m: Rows, p: Patch)
    requires Inverse(c) && OwnRows(c, def, m) && Marked(m)
    ensures var v := Load(c, def, m); var t := Stored(c, def, m, p, v);
            !SaveIsUndone(c, def, m, v, p) && OwnRows(c, def, t) && Marked(t)
  {
    var v := Load(c, def, m);
    var t, w := Stored(c, def, m, p, v), Saved(v, p);
    var diff := Diff(c, def, m, p, v, w);
    NormalizeTwice(Overlay(c, def, m));
    SaveIsSavedTable(c, def, m, v, p);
    assert Canonical(c, m, v, LatOn) && Canonical(c, m, v, SpeedOn);
    MarkedNeverRelapses(c, m, t, diff, v, w);
    SaveReadsBackIff(c, def, m, p);
    SavedIsMarked(c, m, t, diff, v, w);
    SavedIsCanonical(c, m, t, diff, v, w);
  }

  predicate Records(step: Step) {
    (step.Start? || step.Reload?) && step.readable && step.recorded
  }

  predicate HasRecorded(steps: seq<Step>) {
    steps != [] && (Records(steps[|steps|-1]) || HasRecorded(steps[..|steps|-1]))
  }

  /** No load goes unrecorded before one has been recorded. */
  predicate FirstLoadRecords(steps: seq<Step>) {
    steps != [] ==>
      && FirstLoadRecords(steps[..|steps|-1])
      && var step := steps[|steps|-1];
      && ((step.Start? || step.Reload?) && step.readable && !step.recorded ==> HasRecorded(steps[..|steps|-1]))
  }

  /** Before anything was recorded the table is as found and nothing has loaded. */
  predicate Untouched(m: Rows, s: State) {
    s.rows == m && !s.loaded
  }

  predicate AlignedState(c: Codec, def: Values, s: State) {
    OwnRows(c, def, s.rows) && Marked(s.rows) && InStep(c, def, s)
  }

  lemma StepStaysAligned(c: Codec, def: Values, s: State, step: Step)
    requires Inverse(c) && AlignedState(c, def, s)
    ensures AlignedState(c, def, Do(c, def, s, step))
    ensures step.Save? && step.accepted && s.loaded ==> !SaveIsUndone(c, def, s.rows, s.vals, step.p)
  {
    match step
    case Start(_, recorded) =>
      LoadingGetsInStep(c, def, s.rows, recorded);
      RecordingMarks(c, def, s.rows);
    case Reload(_, recorded) =>
      LoadingGetsInStep(c, def, s.rows, recorded);
      RecordingMarks(c, def, s.rows);
    case Save(p, accepted) =>
      if s.loaded && accepted {
        SavesOfOwnRowsHold(c, def, s.rows, p);
        SaveStaysInStepIff(c, def, s, p);
      }
  }

  lemma StepBeforeRecording(c: Codec, def: Values, m: Rows, s: State, step: Step)
    requires Inverse(c) && OwnRows(c, def, m) && Untouched(m, s)
    requires (step.Start? || step.Reload?) && step.readable ==> step.recorded
    ensures if Records(step) then AlignedState(c, def, Do(c, def, s, step)) else Untouched(m, Do(c, def, s, step))
  {
    if Records(step) {
      LoadingGetsInStep(c, def, m, true);
      RecordingMarks(c, def, m);
    }
  }

  /**
   Rows of our own, from the raw table on: if it is marked already, or the first
   load to succeed also records its migrations, no save is ever undone, and every
   stored form key goes on holding its running value.
   */
  lemma {:induction false} OwnRowsStayAligned(c: Codec, def: Values, m: Rows, steps: seq<Step>)
    requires Inverse(c) && OwnRows(c, def, m) && (Marked(m) || FirstLoadRecords(steps))
    ensures var s := After(c, def, m, steps);
            NeverUndone(c, def, m, steps) && if Marked(m) || HasRecorded(steps) then AlignedState(c, def, s) else Untouched(m, s)
  {
    if steps != [] {
      var pre, step := steps[..|steps|-1], steps[|steps|-1];
      OwnRowsStayAligned(c, def, m, pre);
      var s := After(c, def, m, pre);
      if Marked(m) || HasRecorded(pre) {
        StepStaysAligned(c, def, s, step);
      } else {
        StepBeforeRecording(c, def, m, s, step);
      }
    }
  }

  // ------------------------------------------------------ what survives

  /** The fields a flag can move. */
  predicate Flagged(k: Key) {
    k == Latency || k == LatencyOn || k == DownAfter || k == IPv6
  }

  /** No other field can tell the shipped defaults from the ones the flags seeded. */
  lemma OthersIgnoreFlags(c: Codec, def: Values, t: Rows, k: Key)
    requires OnForm(k) && !Flagged(k)
    ensures Row(c, Load(c, ShippedDefaults(def), t), k) == Row(c, Load(c, def, t), k)
  {
  }

  /** A submitted key ends up stored with its value, or out of the store at the shipped value. */
  lemma SubmittedRow(c: Codec, def: Values, m: Rows, v: Values, p: Patch, k: Key)
    requires p.Submits(k)
    ensures var t := Stored(c, def, m, p, v);
            if k in t then t[k] == Row(c, Saved(v, p), k) else Row(c, Saved(v, p), k) == Row(c, Normalize(ShippedDefaults(def)), k)
  {
    var w := Saved(v, p);
    var diff := Diff(c, def, m, p, v, w);
    assert OnForm(k);
    assert k in diff <==> Writes(c, def, m, p, v, w, k);
    SubmittedLeftOut(c, def, m, p, v, w, k);
    assert Stored(c, def, m, p, v) == m + diff;
  }

  lemma SubmittedLeftOut(c: Codec, def: Values, m: Rows, p: Patch, v: Values, w: Values, k: Key)
    requires p.Submits(k)
    ensures !Writes(c, def, m, p, v, w, k) ==> Row(c, w, k) == if k in m then m[k] else Row(c, Normalize(ShippedDefaults(def)), k)
  {
  }

  lemma StoredFlagFieldReads(c: Codec, def: Values, t: Rows, w: Values, k: Key)
    requires Inverse(c) && Flagged(k) && w == Normalize(w) && k in t && t[k] == Row(c, w, k)
    ensures Row(c, Load(c, def, t), k) == Row(c, w, k)
  {
    match k
    case Latency => assert c.atoi(c.itoa(w.latency)) == Some(w.latency);
    case DownAfter => assert c.atoi(c.itoa(w.downAfter)) == Some(w.downAfter);
    case _ =>
  }

  lemma UnstoredFlagFieldIsDefault(c: Codec, def: Values, t: Rows, k: Key)
    requires Flagged(k) && k !in t
    ensures Row(c, Load(c, def, t), k) == Row(c, Normalize(def), k)
  {
  }

  lemma SubmittedFlagFieldReads(c: Codec, def: Values, m: Rows, v: Values, p: Patch, k: Key)
    requires Inverse(c) && p.Submits(k) && Flagged(k)
    ensures Row(c, Load(c, ShippedDefaults(def), Stored(c, def, m, p, v)), k) == Row(c, Saved(v, p), k)
  {
    var t := Stored(c, def, m, p, v);
    NormalizeTwice(p.Apply(v));
    SubmittedRow(c, def, m, v, p, k);
    if k in t {
      StoredFlagFieldReads(c, ShippedDefaults(def), t, Saved(v, p), k);
    } else {
      UnstoredFlagFieldIsDefault(c, ShippedDefaults(def), t, k);
    }
  }

  /** In any run from any table: a value submitted by a save that meets no guard survives a restart under the same flags, and under none. */
  lemma SubmittedSurvives(c: Codec, def: Values, m: Rows, steps: seq<Step>, p: Patch, k: Key)
    requires Inverse(c) && p.Submits(k) && After(c, def, m, steps).loaded && NeverUndone(c, def, m, steps + [Save(p, true)])
    ensures var s := After(c, def, m, steps + [Save(p, true)]);
            && Row(c, Load(c, def, s.rows), k) == Row(c, s.vals, k)
            && Row(c, Load(c, ShippedDefaults(def), s.rows), k) == Row(c, s.vals, k)
  {
    var all := steps + [Save(p, true)];
    assert all[..|steps|] == steps;
    EveryRunStaysInStep(c, def, m, all);
    var b, s := After(c, def, m, steps), After(c, def, m, all);
    if Flagged(k) {
      SubmittedFlagFieldReads(c, def, b.rows, b.vals, p, k);
    } else {
      OthersIgnoreFlags(c, def, s.rows, k);
    }
  }

  /** From any table: a key a save did not submit enters the store only when the save emptied the windows of a schedule that was on. */
  lemma UntouchedStaysUnstored(c: Codec, def: Values, m: Rows, p: Patch, k: Key)
    requires !p.Submits(k) && k !in m
    ensures var v := Load(c, def, m);
            k in Stored(c, def, m, p, v) <==>
              || (k == LatOn && v.lat.on && Saved(v, p).lat.windows == [])
              || (k == SpeedOn && v.speed.on && Saved(v, p).speed.windows == [])
  {
    var v := Load(c, def, m);
    NormalizeTwice(Overlay(c, def, m));
    UnsubmittedIsStoredIff(c, def, m, v, p, k);
    if OnForm(k) {
      UnsubmittedMovesIff(c, v, p, k);
    }
  }

  lemma UnsubmittedIsStoredIff(c: Codec, def: Values, m: Rows, v: Values, p: Patch, k: Key)
    requires v == Normalize(v) && !p.Submits(k) && k !in m
    ensures k in Stored(c, def, m, p, v) <==> OnForm(k) && Row(c, Saved(v, p), k) != Row(c, v, k)
  {
  }

  lemma UnsubmittedMovesIff(c: Codec, v: Values, p: Patch, k: Key)
    requires v == Normalize(v) && OnForm(k) && !p.Submits(k)
    ensures Row(c, Saved(v, p), k) != Row(c, v, k) <==>
              || (k == LatOn && v.lat.on && Saved(v, p).lat.windows == [])
              || (k == SpeedOn && v.speed.on && Saved(v, p).speed.windows == [])
  {
  }
}
