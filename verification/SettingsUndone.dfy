/**
 The guards under which a restart undoes a save, in the caller's terms, and a run
 for each: an imported switch, a migration that was never recorded, a split
 marker that was never written.
 */
module SettingsUndone {
  import opened Wrappers
  import opened Settings
  import opened SettingsLaws
  import opened SettingsSaves
  import opened SettingsRuns

  // ------------------------------------------ the guards, caller's terms

  /** Whether a save stores a form row, from what the caller knows. */
  lemma RowIsStoredIff(c: Codec, def: Values, m: Rows, v: Values, p: Patch, k: Key)
    requires v == Normalize(v) && OnForm(k)
    ensures k in Diff(c, def, m, p, v, Saved(v, p)) <==>
              || Row(c, Saved(v, p), k) != Row(c, v, k)
              || (p.Submits(k) && Row(c, Saved(v, p), k) != if k in m then m[k] else Row(c, Normalize(ShippedDefaults(def)), k))
  {
  }

  /** For one schedule of a table of our own rows, `shipped` being whether its switch ships on. */
  predicate RelapseGuard(m: Rows, f: Feature, submitted: bool, shipped: bool, was: Schedule, now: Schedule) {
    && f.on !in m && ReadBool(m, ScheduleOn) == Some(true) && was.windows == []
    && !now.on && now.windows != [] && !(submitted && shipped)
  }

  /**
   With our own rows a save of a schedule is undone in one case only: the
   migration of the retired master switch was never recorded, it says on, there
   was no window, and the save adds one while leaving or saying the switch off.
   */
  lemma LatencyRelapsesIff(c: Codec, def: Values, m: Rows, p: Patch)
    requires Inverse(c) && OwnRows(c, def, m)
    ensures var v := Load(c, def, m); var w := Saved(v, p);
            Load(c, def, Stored(c, def, m, p, v)).lat != w.lat
            <==> RelapseGuard(m, LAT, p.Submits(LatOn), Normalize(def).lat.on, v.lat, w.lat)
  {
    var v := Load(c, def, m);
    var w := Saved(v, p);
    var diff := Diff(c, def, m, p, v, w);
    LoadedAndSaved(c, def, m, p);
    SavedTableReadsBackIff(c, def, m, Stored(c, def, m, p, v), diff, v, w);
    RowIsStoredIff(c, def, m, v, p, LatOn);
    assert Canonical(c, m, v, LatOn);
    GuardInCallersTerms(c, m, diff, LAT, p.Submits(LatOn), Normalize(def).lat.on, v.lat, w.lat);
  }

  lemma SpeedRelapsesIff(c: Codec, def: Values, m: Rows, p: Patch)
    requires Inverse(c) && OwnRows(c, def, m)
    ensures var v := Load(c, def, m); var w := Saved(v, p);
            Load(c, def, Stored(c, def, m, p, v)).speed != w.speed
            <==> RelapseGuard(m, SPEED, p.Submits(SpeedOn), Normalize(def).speed.on, v.speed, w.speed)
  {
    var v := Load(c, def, m);
    var w := Saved(v, p);
    var diff := Diff(c, def, m, p, v, w);
    LoadedAndSaved(c, def, m, p);
    SavedTableReadsBackIff(c, def, m, Stored(c, def, m, p, v), diff, v, w);
    RowIsStoredIff(c, def, m, v, p, SpeedOn);
    assert Canonical(c, m, v, SpeedOn);
    GuardInCallersTerms(c, m, diff, SPEED, p.Submits(SpeedOn), Normalize(def).speed.on, v.speed, w.speed);
  }

  lemma LoadedAndSaved(c: Codec, def: Values, m: Rows, p: Patch)
    ensures var v := Load(c, def, m);
            && v == Normalize(v) && Saved(v, p) == Normalize(Saved(v, p))
            && SavedTable(c, m, Stored(c, def, m, p, v), Diff(c, def, m, p, v, Saved(v, p)), v, Saved(v, p))
  {
    NormalizeTwice(Overlay(c, def, m));
    NormalizeTwice(p.Apply(Load(c, def, m)));
    SaveIsSavedTable(c, def, m, Load(c, def, m), p);
  }

  lemma GuardInCallersTerms(c: Codec, m: Rows, diff: Rows, f: Feature, submitted: bool, shipped: bool, was: Schedule, now: Schedule)
    requires was == NormSchedule(LoadSchedule(c, m, f)) && (f.on in m ==> m[f.on] == Switch(was.on))
    requires f.on in diff <==>
               || Switch(now.on) != Switch(was.on)
               || (submitted && Switch(now.on) != if f.on in m then m[f.on] else Switch(shipped))
    ensures Relapses(c, m, diff, f, now) <==> RelapseGuard(m, f, submitted, shipped, was, now)
  {
    if f.on in m {
      assert ReadBool(m, f.on) == Some(was.on);
    }
  }

  // ------------------------------------------------ runs that are undone

  function JustWindows(w: Window): Patch {
    Patch(None, None, None, None, None, None, None, None, None, None, None, Some([w]), None, None)
  }

  function OffWithAWindow(w: Window): Patch {
    JustWindows(w).(latOn := Some(false))
  }

  function JustDirection(d: string): Patch {
    Patch(None, None, None, None, None, None, Some(d), None, None, None, None, None, None, None)
  }

  /** The table a start leaves. */
  function Started(c: Codec, m: Rows, v: Values, recorded: bool): Rows {
    if recorded then Migrated(c, m, v) else m
  }

  lemma StartThenSave(c: Codec, def: Values, m: Rows, recorded: bool, p: Patch)
    ensures var v := Load(c, def, m);
            After(c, def, m, [Start(true, recorded), Save(p, true)])
            == State(Stored(c, def, Started(c, m, v, recorded), p, v), Saved(v, p), true)
  {
    var a, b := Start(true, recorded), Save(p, true);
    assert [a, b][..1] == [a] && [a][..0] == [];
    assert After(c, def, m, []) == State(m, Normalize(def), false);
    assert After(c, def, m, [a]) == LoadRows(c, def, m, recorded);
  }

  lemma LoadedWithoutWindows(c: Codec, def: Values, m: Rows)
    requires LatWindows !in m && LatDays !in m
    ensures Load(c, def, m).lat == Schedule(false, [])
  {
  }

  lemma SavedWithAWindow(v: Values, p: Patch, w: Window)
    requires v.lat == Schedule(false, []) && p.latWindows == Some([w]) && (p.latOn == None || p.latOn == Some(false))
    ensures Saved(v, p).lat == Schedule(false, Sanitize([w]))
  {
  }

  /** A table whose rows have the latency schedule on, without a window. */
  lemma AddingAWindowTurnsItOn(c: Codec, def: Values, m: Rows, p: Patch, w: Window)
    requires Inverse(c) && LatWindows !in m && LatDays !in m && LoadSchedule(c, m, LAT).on
    requires p.latWindows == Some([w]) && (p.latOn == None || (p.latOn == Some(false) && LatOn !in m && !Normalize(def).lat.on))
    ensures var v := Load(c, def, m); !Saved(v, p).lat.on && Load(c, def, Stored(c, def, m, p, v)).lat.on
  {
    var v := Load(c, def, m);
    LoadedWithoutWindows(c, def, m);
    SavedWithAWindow(v, p, w);
    LoadedAndSaved(c, def, m, p);
    RowIsStoredIff(c, def, m, v, p, LatOn);
    RelapseTurnsTheScheduleOn(c, def, m, p);
  }

  lemma SwitchKeepsItsRow(c: Codec, m: Rows, v: Values, t: Rows)
    requires m == map[LatOn := "1"] && Recorded(c, m, v, t)
    ensures LatWindows !in t && LatDays !in t && LoadSchedule(c, t, LAT).on
  {
    OnlyMigratedRowsMove(c, m, v, t, LatOn);
    OnlyMigratedRowsMove(c, m, v, t, LatWindows);
    OtherRowsKeep(c, m, v, t, LatDays);
    assert ReadBool(t, LatOn) == Some(true);
  }

  /** An imported switch that is on without a window: the save adds one and leaves it off, the restart turns it on. */
  lemma ImportedSwitchComesBack(c: Codec, def: Values, w: Window)
    requires Inverse(c)
    ensures var s := After(c, def, map[LatOn := "1"], [Start(true, true), Save(JustWindows(w), true)]);
            s.loaded && !s.vals.lat.on && Load(c, def, s.rows).lat.on
  {
    var m: Rows := map[LatOn := "1"];
    var v := Load(c, def, m);
    MigratedIsRecorded(c, m, v);
    SwitchKeepsItsRow(c, m, v, Migrated(c, m, v));
    MigrationKeepsTheMeaning(c, def, m);
    AddingAWindowTurnsItOn(c, def, Migrated(c, m, v), JustWindows(w), w);
    StartThenSave(c, def, m, true, JustWindows(w));
  }

  lemma NoFormRowsAreOwn(c: Codec, def: Values, m: Rows)
    requires forall k :: k in m ==> !OnForm(k)
    ensures OwnRows(c, def, m)
  {
  }

  lemma MasterSwitchSpeaks(c: Codec, m: Rows)
    requires m == map[EngineSplit := "1", ScheduleOn := "1"]
    ensures LatOn !in m && LatWindows !in m && LatDays !in m && LoadSchedule(c, m, LAT).on
  {
    assert ReadBool(m, LatOn).None? && ReadBool(m, ScheduleOn) == Some(true);
  }

  /**
   Our own rows, with the retired master switch on and its migration never
   recorded: a schedule saved as off, with a window, is on after a restart.
   */
  lemma LostMigrationUndoesOff(c: Codec, def: Values, w: Window)
    requires Inverse(c) && !Normalize(def).lat.on
    ensures var m := map[EngineSplit := "1", ScheduleOn := "1"];
            var s := After(c, def, m, [Start(true, false), Save(OffWithAWindow(w), true)]);
            OwnRows(c, def, m) && s.loaded && !s.vals.lat.on && Load(c, def, s.rows).lat.on
  {
    var m: Rows := map[EngineSplit := "1", ScheduleOn := "1"];
    NoFormRowsAreOwn(c, def, m);
    MasterSwitchSpeaks(c, m);
    AddingAWindowTurnsItOn(c, def, m, OffWithAWindow(w), w);
    StartThenSave(c, def, m, false, OffWithAWindow(w));
  }

  /** A first load of an empty table that could not write the split marker: saving Ookla's direction moves iperf3's at the next load. */
  lemma LostMarkerLeaks(c: Codec, def: Values)
    requires Inverse(c) && def.iperfDirection == "both" && def.speedDirection == "both"
    ensures var s := After(c, def, map[], [Start(true, false), Save(JustDirection("down"), true)]);
            s.loaded && s.vals.iperfDirection == "both" && Load(c, def, s.rows).iperfDirection == "down"
  {
    FirstDirection(c, def, JustDirection("down"));
    StartThenSave(c, def, map[], false, JustDirection("down"));
  }

  lemma FirstDirection(c: Codec, def: Values, p: Patch)
    requires def.iperfDirection == "both" && def.speedDirection == "both" && p == JustDirection("down")
    ensures var v := Load(c, def, map[]);
            Saved(v, p).iperfDirection == "both" && Load(c, def, Stored(c, def, map[], p, v)).iperfDirection == "down"
  {
    var m: Rows := map[];
    var v := Load(c, def, m);
    Directions(c, def, v, p);
    LoadedAndSaved(c, def, m, p);
    RowIsStoredIff(c, def, m, v, p, SpeedDirection);
    RowIsStoredIff(c, def, m, v, p, IperfDirection);
    LeakedDirection(c, def, Stored(c, def, m, p, v), Diff(c, def, m, p, v, Saved(v, p)), v, Saved(v, p));
  }

  lemma Directions(c: Codec, def: Values, v: Values, p: Patch)
    requires def.iperfDirection == "both" && def.speedDirection == "both" && v == Load(c, def, map[])
    requires p == JustDirection("down")
    ensures v.speedDirection == "both" && Saved(v, p).speedDirection == "down"
    ensures v.iperfDirection == "both" && Saved(v, p).iperfDirection == "both"
  {
  }

  lemma LeakedDirection(c: Codec, def: Values, t: Rows, diff: Rows, v: Values, w: Values)
    requires SavedTable(c, map[], t, diff, v, w) && SpeedDirection in diff && IperfDirection !in diff
    requires w.speedDirection == "down"
    ensures Load(c, def, t).iperfDirection == "down"
  {
    assert SavedRow(c, map[], t, diff, v, w, SpeedDirection) && SavedRow(c, map[], t, diff, v, w, IperfDirection);
    RetiredRowsStay(c, map[], t, diff, v, w, EngineSplit);
    assert ReadIperfDirection(t) == Some("down");
  }
}
