/**
 What recording a migration keeps: no value a load reads changes, the next load
 has nothing to record, and the iperf3 pair no longer follows Ookla's rows.
 */
module SettingsLaws {
  import opened Wrappers
  import opened Settings

  predicate Same(m: Rows, t: Rows, k: Key) {
    (k in m <==> k in t) && (k in m ==> m[k] == t[k])
  }

  lemma NormalizeTwice(v: Values)
    ensures Normalize(Normalize(v)) == Normalize(v)
  {
    SanitizeTwice(v.lat.windows);
    SanitizeTwice(v.speed.windows);
  }

  lemma SanitizeTwice(ws: seq<Window>)
    ensures Sanitize(Sanitize(ws)) == Sanitize(ws)
  {
    var once := Sanitize(ws);
    forall i | 0 <= i < |once| ensures NormWindow(once[i]) == once[i] {
    }
  }

  /** A start overlays the defaults as given, a reload the normalized ones: both load the same values. */
  lemma NormalizedDefaultsLoadTheSame(c: Codec, def: Values, m: Rows)
    ensures Load(c, Normalize(def), m) == Load(c, def, m)
  {
  }

  // ------------------------------------------------------------ migrations

  /** A table after a load that runs `v` and records what it migrated. */
  function Migrated(c: Codec, m: Rows, v: Values): Rows {
    m + Migrations(c, m, v)
  }

  /** One row of a table `t` that records what a load of `m` migrated. */
  predicate RecordedRow(c: Codec, m: Rows, v: Values, t: Rows, k: Key) {
    if k in MIGRATED && Migrates(c, m, k) then k in t && t[k] == (if k == EngineSplit then "1" else Row(c, v, k))
    else Same(m, t, k)
  }

  predicate Recorded(c: Codec, m: Rows, v: Values, t: Rows) {
    forall k :: RecordedRow(c, m, v, t, k)
  }

  lemma MigratedIsRecorded(c: Codec, m: Rows, v: Values)
    ensures Recorded(c, m, v, Migrated(c, m, v))
  {
    forall k ensures RecordedRow(c, m, v, Migrated(c, m, v), k) {
    }
  }

  lemma OnlyMigratedRowsMove(c: Codec, m: Rows, v: Values, t: Rows, k: Key)
    requires Recorded(c, m, v, t) && !Migrates(c, m, k)
    ensures Same(m, t, k)
  {
    assert RecordedRow(c, m, v, t, k);
  }

  lemma OtherRowsKeep(c: Codec, m: Rows, v: Values, t: Rows, k: Key)
    requires Recorded(c, m, v, t) && k !in MIGRATED
    ensures Same(m, t, k)
  {
    assert RecordedRow(c, m, v, t, k);
  }

  lemma MigratedRow(c: Codec, m: Rows, v: Values, t: Rows, k: Key)
    requires Recorded(c, m, v, t) && k in MIGRATED && Migrates(c, m, k)
    ensures k in t && t[k] == if k == EngineSplit then "1" else Row(c, v, k)
  {
    assert RecordedRow(c, m, v, t, k);
  }

  lemma ReadsTheSame(c: Codec, m: Rows, t: Rows, k: Key)
    requires Same(m, t, k)
    ensures ReadInt(c, m, k) == ReadInt(c, t, k) && ReadBool(m, k) == ReadBool(t, k) && Get(m, k) == Get(t, k)
  {
  }

  /** Untouched, or newly stored under its own name. */
  predicate Kept(m: Rows, t: Rows, k: Key, row: string) {
    Same(m, t, k) || (k in t && t[k] == row)
  }

  lemma WindowsReadBack(c: Codec, m: Rows, t: Rows, f: Feature, ws: seq<Window>)
    requires Inverse(c) && ws == Sanitize(ReadWindows(c, m, f))
    requires Kept(m, t, f.windows, WindowsRow(c, ws)) && Same(m, t, f.days) && Same(m, t, f.start) && Same(m, t, f.end)
    ensures Sanitize(ReadWindows(c, t, f)) == ws
  {
    SanitizeTwice(ReadWindows(c, m, f));
    if !Same(m, t, f.windows) {
      assert c.fromJSON(WindowsRow(c, ws)) == Some(ws);
    }
  }

  lemma ScheduleReadsBack(c: Codec, m: Rows, t: Rows, f: Feature, s: Schedule)
    requires Inverse(c) && s == NormSchedule(LoadSchedule(c, m, f))
    requires Kept(m, t, f.windows, WindowsRow(c, s.windows)) && Same(m, t, f.days) && Same(m, t, f.start) && Same(m, t, f.end)
    requires Kept(m, t, f.on, Switch(s.on)) && Same(m, t, ScheduleOn)
    ensures NormSchedule(LoadSchedule(c, t, f)) == s
  {
    WindowsReadBack(c, m, t, f, s.windows);
    if !Same(m, t, f.on) {
      assert ReadBool(t, f.on) == Some(s.on);
    }
  }

  lemma DirectionReadsBack(m: Rows, t: Rows, d: string, dflt: string)
    requires d == NormIperfDirection(Or(ReadIperfDirection(m), dflt))
    requires EngineSplit in t && Same(m, t, SpeedDirection)
    requires if EngineSplit !in m && IperfDirection !in m && Get(m, SpeedDirection) != ""
             then IperfDirection in t && t[IperfDirection] == d else Same(m, t, IperfDirection)
    ensures NormIperfDirection(Or(ReadIperfDirection(t), dflt)) == d
  {
  }

  lemma RetriesReadBack(c: Codec, m: Rows, t: Rows, n: int, dflt: int)
    requires Inverse(c) && n == NormRetries(Or(ReadIperfRetries(c, m), dflt))
    requires EngineSplit in t && Same(m, t, SpeedRetries)
    requires if EngineSplit !in m && ReadInt(c, m, IperfRetries).None? && ReadInt(c, m, SpeedRetries).Some?
             then IperfRetries in t && t[IperfRetries] == c.itoa(n) else Same(m, t, IperfRetries)
    ensures NormRetries(Or(ReadIperfRetries(c, t), dflt)) == n
  {
  }

  lemma MigratedIsKept(c: Codec, m: Rows, v: Values, t: Rows, k: Key)
    requires Recorded(c, m, v, t) && k != EngineSplit
    ensures Kept(m, t, k, Row(c, v, k))
  {
    assert RecordedRow(c, m, v, t, k);
  }

  lemma SplitIsMarked(c: Codec, m: Rows, v: Values, t: Rows)
    requires Recorded(c, m, v, t)
    ensures EngineSplit in t
  {
    assert RecordedRow(c, m, v, t, EngineSplit);
  }

  lemma ScheduleSurvives(c: Codec, m: Rows, v: Values, t: Rows, f: Feature, s: Schedule)
    requires Inverse(c) && Recorded(c, m, v, t) && s == NormSchedule(LoadSchedule(c, m, f))
    requires (f == LAT && s == v.lat) || (f == SPEED && s == v.speed)
    ensures NormSchedule(LoadSchedule(c, t, f)) == s
  {
    MigratedIsKept(c, m, v, t, f.on);
    MigratedIsKept(c, m, v, t, f.windows);
    OtherRowsKeep(c, m, v, t, f.days);
    OtherRowsKeep(c, m, v, t, f.start);
    OtherRowsKeep(c, m, v, t, f.end);
    OtherRowsKeep(c, m, v, t, ScheduleOn);
    ScheduleReadsBack(c, m, t, f, s);
  }

  lemma DirectionSurvives(c: Codec, m: Rows, v: Values, t: Rows, dflt: string)
    requires Inverse(c) && Recorded(c, m, v, t) && v.iperfDirection == NormIperfDirection(Or(ReadIperfDirection(m), dflt))
    ensures NormIperfDirection(Or(ReadIperfDirection(t), dflt)) == v.iperfDirection
  {
    SplitIsMarked(c, m, v, t);
    OtherRowsKeep(c, m, v, t, SpeedDirection);
    if Migrates(c, m, IperfDirection) {
      MigratedRow(c, m, v, t, IperfDirection);
    } else {
      OnlyMigratedRowsMove(c, m, v, t, IperfDirection);
    }
    DirectionReadsBack(m, t, v.iperfDirection, dflt);
  }

  lemma RetriesSurvive(c: Codec, m: Rows, v: Values, t: Rows, dflt: int)
    requires Inverse(c) && Recorded(c, m, v, t) && v.iperfRetries == NormRetries(Or(ReadIperfRetries(c, m), dflt))
    ensures NormRetries(Or(ReadIperfRetries(c, t), dflt)) == v.iperfRetries
  {
    SplitIsMarked(c, m, v, t);
    OtherRowsKeep(c, m, v, t, SpeedRetries);
    if Migrates(c, m, IperfRetries) {
      MigratedRow(c, m, v, t, IperfRetries);
    } else {
      OnlyMigratedRowsMove(c, m, v, t, IperfRetries);
    }
    RetriesReadBack(c, m, t, v.iperfRetries, dflt);
  }

  /** The fields no migration concerns. */
  predicate PlainEqual(v: Values, w: Values) {
    && v.latency == w.latency && v.latencyOn == w.latencyOn && v.downAfter == w.downAfter && v.ipv6 == w.ipv6
    && v.digest == w.digest && v.bestOf == w.bestOf
    && v.speedDirection == w.speedDirection && v.speedRetries == w.speedRetries
  }

  lemma PlainFollowsItsRows(c: Codec, def: Values, m: Rows, t: Rows)
    requires Same(m, t, Latency) && Same(m, t, LatencyOn) && Same(m, t, DownAfter) && Same(m, t, IPv6)
    requires Same(m, t, DigestFreq) && Same(m, t, BestOfCount) && Same(m, t, BestOf)
    requires Same(m, t, SpeedDirection) && Same(m, t, SpeedRetries)
    ensures PlainEqual(Load(c, def, m), Load(c, def, t))
  {
    ReadsTheSame(c, m, t, Latency);
    ReadsTheSame(c, m, t, LatencyOn);
    ReadsTheSame(c, m, t, DownAfter);
    ReadsTheSame(c, m, t, BestOfCount);
    ReadsTheSame(c, m, t, BestOf);
    ReadsTheSame(c, m, t, SpeedRetries);
  }

  lemma PlainSurvives(c: Codec, def: Values, m: Rows, v: Values, t: Rows)
    requires Recorded(c, m, v, t)
    ensures PlainEqual(Load(c, def, m), Load(c, def, t))
  {
    OtherRowsKeep(c, m, v, t, Latency);
    OtherRowsKeep(c, m, v, t, LatencyOn);
    OtherRowsKeep(c, m, v, t, DownAfter);
    OtherRowsKeep(c, m, v, t, IPv6);
    OtherRowsKeep(c, m, v, t, DigestFreq);
    OtherRowsKeep(c, m, v, t, BestOfCount);
    OtherRowsKeep(c, m, v, t, BestOf);
    OtherRowsKeep(c, m, v, t, SpeedDirection);
    OtherRowsKeep(c, m, v, t, SpeedRetries);
    PlainFollowsItsRows(c, def, m, t);
  }

  lemma RecordedKeepsTheMeaning(c: Codec, def: Values, m: Rows, t: Rows)
    requires Inverse(c) && Recorded(c, m, Load(c, def, m), t)
    ensures Load(c, def, t) == Load(c, def, m)
  {
    var v := Load(c, def, m);
    ScheduleSurvives(c, m, v, t, LAT, v.lat);
    ScheduleSurvives(c, m, v, t, SPEED, v.speed);
    DirectionSurvives(c, m, v, t, def.iperfDirection);
    RetriesSurvive(c, m, v, t, def.iperfRetries);
    PlainSurvives(c, def, m, v, t);
  }

  /** Recording a migration changes nothing a load under the same defaults reads, whatever the rows hold. */
  lemma MigrationKeepsTheMeaning(c: Codec, def: Values, m: Rows)
    requires Inverse(c)
    ensures Load(c, def, Migrated(c, m, Load(c, def, m))) == Load(c, def, m)
  {
    MigratedIsRecorded(c, m, Load(c, def, m));
    RecordedKeepsTheMeaning(c, def, m, Migrated(c, m, Load(c, def, m)));
  }

  /**
   What is recorded comes from the rows and is bounded by constants, so the
   defaults of the load that records it do not matter: a load under any other
   defaults reads what it would have read from the old table.
   */
  lemma MigrationIgnoresTheDefaults(c: Codec, d1: Values, d2: Values, m: Rows)
    requires Inverse(c)
    ensures Migrations(c, m, Load(c, d1, m)) == Migrations(c, m, Load(c, d2, m))
    ensures Load(c, d2, Migrated(c, m, Load(c, d1, m))) == Load(c, d2, m)
  {
    var v, w := Load(c, d1, m), Load(c, d2, m);
    forall k ensures SameMigration(c, m, v, w, k) {
      if k in MIGRATED && Migrates(c, m, k) && k != EngineSplit {
        MigratedRowIgnoresTheDefaults(c, d1, d2, m, k);
      }
    }
    SameMigrations(c, m, v, w);
    MigrationKeepsTheMeaning(c, d2, m);
  }

  predicate SameMigration(c: Codec, m: Rows, v: Values, w: Values, k: Key) {
    k in MIGRATED && Migrates(c, m, k) && k != EngineSplit ==> Row(c, v, k) == Row(c, w, k)
  }

  lemma SameMigrations(c: Codec, m: Rows, v: Values, w: Values)
    requires forall k :: SameMigration(c, m, v, w, k)
    ensures Migrations(c, m, v) == Migrations(c, m, w)
  {
    var a, b := Migrations(c, m, v), Migrations(c, m, w);
    forall k | k in a ensures a[k] == b[k] {
      assert SameMigration(c, m, v, w, k);
    }
  }

  lemma MigratedRowIgnoresTheDefaults(c: Codec, d1: Values, d2: Values, m: Rows, k: Key)
    requires k in MIGRATED && Migrates(c, m, k) && k != EngineSplit
    ensures Row(c, Load(c, d1, m), k) == Row(c, Load(c, d2, m), k)
  {
  }

  lemma NothingLeftToMigrate(c: Codec, m: Rows, v: Values, t: Rows, k: Key)
    requires Recorded(c, m, v, t) && k in MIGRATED
    ensures !Migrates(c, t, k)
  {
    SplitIsMarked(c, m, v, t);
    OtherRowsKeep(c, m, v, t, ScheduleOn);
    OtherRowsKeep(c, m, v, t, LatDays);
    OtherRowsKeep(c, m, v, t, SpeedDays);
    assert RecordedRow(c, m, v, t, k);
  }

  /** And happens once: the next load has nothing to record, whatever values it runs. */
  lemma MigrationIsOneShot(c: Codec, m: Rows, v: Values, w: Values)
    ensures Migrations(c, Migrated(c, m, v), w) == map[]
  {
    var t := Migrated(c, m, v);
    MigratedIsRecorded(c, m, v);
    forall k | k in MIGRATED ensures !Migrates(c, t, k) {
      NothingLeftToMigrate(c, m, v, t, k);
    }
  }

  /** Once split, the iperf3 pair follows its own two rows and nothing else, least of all Ookla's. */
  lemma SplitPairIsItsOwn(c: Codec, def: Values, m: Rows, t: Rows)
    requires EngineSplit in m && EngineSplit in t && Same(m, t, IperfDirection) && Same(m, t, IperfRetries)
    ensures Load(c, def, m).iperfDirection == Load(c, def, t).iperfDirection
    ensures Load(c, def, m).iperfRetries == Load(c, def, t).iperfRetries
  {
  }

  lemma RecordedPairIsItsOwn(c: Codec, def: Values, m: Rows, t: Rows, u: Rows)
    requires Inverse(c) && Recorded(c, m, Load(c, def, m), t)
    requires EngineSplit in u && Same(t, u, IperfDirection) && Same(t, u, IperfRetries)
    ensures Load(c, def, u).iperfDirection == Load(c, def, m).iperfDirection
    ensures Load(c, def, u).iperfRetries == Load(c, def, m).iperfRetries
  {
    SplitIsMarked(c, m, Load(c, def, m), t);
    RecordedKeepsTheMeaning(c, def, m, t);
    SplitPairIsItsOwn(c, def, t, u);
  }

  lemma OoklaRowsLeaveTheRest(t: Rows, ookla: Rows)
    requires EngineSplit in t && ookla.Keys <= {SpeedDirection, SpeedRetries}
    ensures EngineSplit in t + ookla && Same(t, t + ookla, IperfDirection) && Same(t, t + ookla, IperfRetries)
  {
  }

  lemma OoklaOnTop(c: Codec, def: Values, m: Rows, t: Rows, ookla: Rows)
    requires Inverse(c) && Recorded(c, m, Load(c, def, m), t) && ookla.Keys <= {SpeedDirection, SpeedRetries}
    ensures var v, w := Load(c, def, m), Load(c, def, t + ookla);
            w.iperfDirection == v.iperfDirection && w.iperfRetries == v.iperfRetries
  {
    SplitIsMarked(c, m, Load(c, def, m), t);
    OoklaRowsLeaveTheRest(t, ookla);
    RecordedPairIsItsOwn(c, def, m, t, t + ookla);
  }

  /** So after one recorded load, no later change to the Ookla rows reaches the pair. */
  lemma OoklaNoLongerLeaks(c: Codec, def: Values, m: Rows, ookla: Rows)
    requires Inverse(c) && ookla.Keys <= {SpeedDirection, SpeedRetries}
    ensures var v := Load(c, def, m);
            var w := Load(c, def, Migrated(c, m, v) + ookla);
            w.iperfDirection == v.iperfDirection && w.iperfRetries == v.iperfRetries
  {
    MigratedIsRecorded(c, m, Load(c, def, m));
    OoklaOnTop(c, def, m, Migrated(c, m, Load(c, def, m)), ookla);
  }

  // --------------------------------------- exactly when Ookla's rows leak

  predicate OoklaDirection(d: string) {
    d in ["both", "down", "up"]
  }

  lemma DirectionRead(c: Codec, def: Values, m: Rows, d: string)
    requires OoklaDirection(d)
    ensures var t := m[SpeedDirection := d];
            Load(c, def, t).iperfDirection
            == NormIperfDirection(if IperfDirection in m then m[IperfDirection] else if EngineSplit in m then def.iperfDirection else d)
  {
  }

  /** iperf3's direction at a load of this table with Ookla's row set to `d`. */
  function DirectionUnder(c: Codec, def: Values, m: Rows, d: string): string {
    Load(c, def, m[SpeedDirection := d]).iperfDirection
  }

  lemma DirectionStays(c: Codec, def: Values, m: Rows, d: string, e: string)
    requires OoklaDirection(d) && OoklaDirection(e) && (EngineSplit in m || IperfDirection in m)
    ensures DirectionUnder(c, def, m, d) == DirectionUnder(c, def, m, e)
  {
    DirectionRead(c, def, m, d);
    DirectionRead(c, def, m, e);
  }

  lemma DirectionFollows(c: Codec, def: Values, m: Rows)
    requires EngineSplit !in m && IperfDirection !in m
    ensures DirectionUnder(c, def, m, "up") == "up" && DirectionUnder(c, def, m, "down") == "down"
  {
    DirectionRead(c, def, m, "up");
    DirectionRead(c, def, m, "down");
  }

  predicate DirectionsAgree(c: Codec, def: Values, m: Rows, d: string, e: string) {
    DirectionUnder(c, def, m, d) == DirectionUnder(c, def, m, e)
  }

  /** For every table and every default: Ookla's direction cannot move iperf3's exactly when the marker, or iperf3's own row, is there. */
  lemma DirectionIsItsOwnIff(c: Codec, def: Values, m: Rows)
    ensures (forall d, e :: OoklaDirection(d) && OoklaDirection(e) ==> DirectionsAgree(c, def, m, d, e))
            <==> EngineSplit in m || IperfDirection in m
  {
    if EngineSplit in m || IperfDirection in m {
      forall d, e | OoklaDirection(d) && OoklaDirection(e) ensures DirectionsAgree(c, def, m, d, e) {
        DirectionStays(c, def, m, d, e);
      }
    } else {
      DirectionFollows(c, def, m);
      assert "up" != "down" && OoklaDirection("up") && OoklaDirection("down");
      assert !DirectionsAgree(c, def, m, "up", "down");
    }
  }

  lemma RetriesRead(c: Codec, def: Values, m: Rows, n: int)
    requires Inverse(c)
    ensures var t := m[SpeedRetries := c.itoa(n)];
            Load(c, def, t).iperfRetries
            == NormRetries(Or(ReadInt(c, m, IperfRetries), if EngineSplit in m then def.iperfRetries else n))
  {
    var t := m[SpeedRetries := c.itoa(n)];
    assert c.atoi(c.itoa(n)) == Some(n);
    ReadsTheSame(c, m, t, IperfRetries);
  }

  /** And its retries exactly when the marker is there, or an iperf3 row that reads as a count. */
  lemma RetriesAreTheirOwnIff(c: Codec, def: Values, m: Rows)
    requires Inverse(c)
    ensures (forall a, b :: 0 <= a <= 3 && 0 <= b <= 3 ==>
               Load(c, def, m[SpeedRetries := c.itoa(a)]).iperfRetries == Load(c, def, m[SpeedRetries := c.itoa(b)]).iperfRetries)
            <==> EngineSplit in m || ReadInt(c, m, IperfRetries).Some?
  {
    forall a, b | 0 <= a <= 3 && 0 <= b <= 3 && (EngineSplit in m || ReadInt(c, m, IperfRetries).Some?)
      ensures Load(c, def, m[SpeedRetries := c.itoa(a)]).iperfRetries == Load(c, def, m[SpeedRetries := c.itoa(b)]).iperfRetries
    {
      RetriesRead(c, def, m, a);
      RetriesRead(c, def, m, b);
    }
    RetriesRead(c, def, m, 0);
    RetriesRead(c, def, m, 1);
  }
}
