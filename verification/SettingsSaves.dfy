/**
 Exactly when a form save survives a restart: for any stored table at all,
 imported or half-migrated, a load after the save reads back the values the save
 left running unless one of four guards holds. Each guard can be read off the
 table and the rows the save stores.
 */
module SettingsSaves {
  import opened Wrappers
  import opened Settings
  import opened SettingsLaws

  // ------------------------------------------------- what a save stores

  /** One row of a table after a save of `w` over `v` that stores `diff`: the saved value's, or untouched and unmoved. */
  predicate SavedRow(c: Codec, m: Rows, t: Rows, diff: Rows, v: Values, w: Values, k: Key) {
    if k in diff then OnForm(k) && k in t && t[k] == Row(c, w, k)
    else Same(m, t, k) && (OnForm(k) ==> Row(c, w, k) == Row(c, v, k))
  }

  predicate SavedTable(c: Codec, m: Rows, t: Rows, diff: Rows, v: Values, w: Values) {
    forall k :: SavedRow(c, m, t, diff, v, w, k)
  }

  lemma EverySavedRow(c: Codec, def: Values, m: Rows, v: Values, p: Patch, k: Key)
    requires v == Normalize(v)
    ensures SavedRow(c, m, Stored(c, def, m, p, v), Diff(c, def, m, p, v, Saved(v, p)), v, Saved(v, p), k)
  {
    var w := Saved(v, p);
    var diff := Diff(c, def, m, p, v, w);
    assert k in diff <==> OnForm(k) && Writes(c, def, m, p, v, w, k);
    LeftOutIsUnmoved(c, def, m, p, v, w, k);
    assert Stored(c, def, m, p, v) == m + diff;
  }

  lemma LeftOutIsUnmoved(c: Codec, def: Values, m: Rows, p: Patch, v: Values, w: Values, k: Key)
    requires v == Normalize(v)
    ensures !Writes(c, def, m, p, v, w, k) ==> Row(c, w, k) == Row(c, v, k)
  {
  }

  lemma SaveIsSavedTable(c: Codec, def: Values, m: Rows, v: Values, p: Patch)
    requires v == Normalize(v)
    ensures SavedTable(c, m, Stored(c, def, m, p, v), Diff(c, def, m, p, v, Saved(v, p)), v, Saved(v, p))
  {
    forall k ensures SavedRow(c, m, Stored(c, def, m, p, v), Diff(c, def, m, p, v, Saved(v, p)), v, Saved(v, p), k) {
      EverySavedRow(c, def, m, v, p, k);
    }
  }

  // ------------------------------------------------- how a save is undone

  /** The rows call for a schedule that runs as off for want of a window; the save gives it one and stores no switch. */
  predicate Relapses(c: Codec, m: Rows, diff: Rows, f: Feature, now: Schedule) {
    LoadSchedule(c, m, f).on && f.on !in diff && !now.on && now.windows != []
  }

  /** Without the marker and a row of its own, iperf3's direction follows the one the save stores for Ookla. */
  predicate DirectionLeaks(m: Rows, diff: Rows, now: Values) {
    && EngineSplit !in m && IperfDirection !in m
    && IperfDirection !in diff && SpeedDirection in diff && now.speedDirection != now.iperfDirection
  }

  predicate RetriesLeak(c: Codec, m: Rows, diff: Rows, now: Values) {
    && EngineSplit !in m && ReadInt(c, m, IperfRetries).None?
    && IperfRetries !in diff && SpeedRetries in diff && now.speedRetries != now.iperfRetries
  }

  predicate Undone(c: Codec, m: Rows, diff: Rows, now: Values) {
    || Relapses(c, m, diff, LAT, now.lat) || Relapses(c, m, diff, SPEED, now.speed)
    || DirectionLeaks(m, diff, now) || RetriesLeak(c, m, diff, now)
  }

  // ----------------------------------------------------- field by field

  /** A row after a save of `now` over `was`. */
  predicate Moved(m: Rows, t: Rows, k: Key, was: string, now: string) {
    (k in t && t[k] == now) || (Same(m, t, k) && now == was)
  }

  lemma CountSettles(c: Codec, m: Rows, t: Rows, k: Key, was: int, now: int, dflt: int, lo: int, hi: int)
    requires Inverse(c) && Moved(m, t, k, c.itoa(was), c.itoa(now))
    requires was == Clamp(Or(ReadInt(c, m, k), dflt), lo, hi) && now == Clamp(now, lo, hi)
    ensures Clamp(Or(ReadInt(c, t, k), dflt), lo, hi) == now
  {
    assert c.atoi(c.itoa(was)) == Some(was) && c.atoi(c.itoa(now)) == Some(now);
  }

  lemma SecondsSettle(c: Codec, m: Rows, t: Rows, k: Key, was: int, now: int, dflt: int)
    requires Inverse(c) && Moved(m, t, k, c.itoa(was), c.itoa(now))
    requires was == NormLatency(Or(ReadSeconds(c, m, k), dflt)) && now == NormLatency(now)
    ensures NormLatency(Or(ReadSeconds(c, t, k), dflt)) == now
  {
    assert c.atoi(c.itoa(was)) == Some(was) && c.atoi(c.itoa(now)) == Some(now);
  }

  lemma BestOfSettles(c: Codec, m: Rows, t: Rows, was: int, now: int, dflt: int)
    requires Inverse(c) && Moved(m, t, BestOfCount, c.itoa(was), c.itoa(now)) && Same(m, t, BestOf)
    requires was == NormBestOf(Or(ReadBestOf(c, m), dflt)) && now == NormBestOf(now)
    ensures NormBestOf(Or(ReadBestOf(c, t), dflt)) == now
  {
    assert c.atoi(c.itoa(was)) == Some(was) && c.atoi(c.itoa(now)) == Some(now);
  }

  lemma SwitchSettles(m: Rows, t: Rows, k: Key, was: bool, now: bool, dflt: bool)
    requires Moved(m, t, k, Switch(was), Switch(now)) && was == Or(ReadBool(m, k), dflt)
    ensures Or(ReadBool(t, k), dflt) == now
  {
  }

  /** A choice row that is used when it is not blank. */
  function ReadChoice(m: Rows, k: Key, dflt: string): string {
    if Get(m, k) != "" then m[k] else dflt
  }

  lemma ChoiceSettles(m: Rows, t: Rows, k: Key, was: string, now: string, dflt: string, choices: seq<string>, fallback: string)
    requires Moved(m, t, k, was, now) && now != ""
    requires was == Choice(ReadChoice(m, k, dflt), choices, fallback) && now == Choice(now, choices, fallback)
    ensures Choice(ReadChoice(t, k, dflt), choices, fallback) == now
  {
  }

  lemma PresentSettles(m: Rows, t: Rows, k: Key, was: string, now: string, dflt: string, choices: seq<string>, fallback: string)
    requires Moved(m, t, k, was, now)
    requires was == Choice(if k in m then m[k] else dflt, choices, fallback) && now == Choice(now, choices, fallback)
    ensures Choice(if k in t then t[k] else dflt, choices, fallback) == now
  {
  }

  lemma DirectionSettlesIff(m: Rows, t: Rows, diff: Rows, v: Values, w: Values, dflt: string)
    requires Same(m, t, EngineSplit)
    requires if IperfDirection in diff then IperfDirection in t && t[IperfDirection] == w.iperfDirection
             else Same(m, t, IperfDirection) && w.iperfDirection == v.iperfDirection
    requires if SpeedDirection in diff then SpeedDirection in t && t[SpeedDirection] == w.speedDirection
             else Same(m, t, SpeedDirection)
    requires v.iperfDirection == NormIperfDirection(Or(ReadIperfDirection(m), dflt))
    requires w.iperfDirection == NormIperfDirection(w.iperfDirection) && w.speedDirection == NormSpeedDirection(w.speedDirection)
    ensures NormIperfDirection(Or(ReadIperfDirection(t), dflt)) == w.iperfDirection <==> !DirectionLeaks(m, diff, w)
  {
    assert w.speedDirection in ["both", "down", "up"];
    assert NormIperfDirection(w.speedDirection) == w.speedDirection;
  }

  lemma RetriesSettleIff(c: Codec, m: Rows, t: Rows, diff: Rows, v: Values, w: Values, dflt: int)
    requires Inverse(c) && Same(m, t, EngineSplit)
    requires if IperfRetries in diff then IperfRetries in t && t[IperfRetries] == c.itoa(w.iperfRetries)
             else Same(m, t, IperfRetries) && c.itoa(w.iperfRetries) == c.itoa(v.iperfRetries)
    requires if SpeedRetries in diff then SpeedRetries in t && t[SpeedRetries] == c.itoa(w.speedRetries)
             else Same(m, t, SpeedRetries)
    requires v.iperfRetries == NormRetries(Or(ReadIperfRetries(c, m), dflt))
    requires w.iperfRetries == NormRetries(w.iperfRetries) && w.speedRetries == NormRetries(w.speedRetries)
    ensures NormRetries(Or(ReadIperfRetries(c, t), dflt)) == w.iperfRetries <==> !RetriesLeak(c, m, diff, w)
  {
    assert c.atoi(c.itoa(w.iperfRetries)) == Some(w.iperfRetries) && c.atoi(c.itoa(v.iperfRetries)) == Some(v.iperfRetries);
    assert c.atoi(c.itoa(w.speedRetries)) == Some(w.speedRetries);
  }

  lemma WindowsSettle(c: Codec, m: Rows, t: Rows, f: Feature, was: seq<Window>, now: seq<Window>)
    requires Inverse(c) && was == Sanitize(ReadWindows(c, m, f)) && now == Sanitize(now)
    requires Moved(m, t, f.windows, WindowsRow(c, was), WindowsRow(c, now))
    requires Same(m, t, f.days) && Same(m, t, f.start) && Same(m, t, f.end)
    ensures Sanitize(ReadWindows(c, t, f)) == now
  {
    assert c.fromJSON(WindowsRow(c, was)) == Some(was) && c.fromJSON(WindowsRow(c, now)) == Some(now);
    if Same(m, t, f.windows) {
      assert ReadWindows(c, t, f) == ReadWindows(c, m, f);
    }
  }

  lemma ScheduleSettlesIff(c: Codec, m: Rows, t: Rows, diff: Rows, f: Feature, was: Schedule, now: Schedule)
    requires Inverse(c) && was == NormSchedule(LoadSchedule(c, m, f)) && now == NormSchedule(now)
    requires Moved(m, t, f.windows, WindowsRow(c, was.windows), WindowsRow(c, now.windows))
    requires if f.on in diff then f.on in t && t[f.on] == Switch(now.on) else Same(m, t, f.on) && now.on == was.on
    requires Same(m, t, f.days) && Same(m, t, f.start) && Same(m, t, f.end) && Same(m, t, ScheduleOn)
    ensures NormSchedule(LoadSchedule(c, t, f)) == now <==> !Relapses(c, m, diff, f, now)
  {
    WindowsSettle(c, m, t, f, was.windows, now.windows);
    ReadsTheSame(c, m, t, ScheduleOn);
    if f.on in diff {
      assert ReadBool(t, f.on) == Some(now.on);
    } else {
      ReadsTheSame(c, m, t, f.on);
    }
  }

  // -------------------------------------------------------- whole saves

  lemma PlainRows(c: Codec, m: Rows, t: Rows, diff: Rows, v: Values, w: Values)
    requires SavedTable(c, m, t, diff, v, w)
    ensures Moved(m, t, Latency, c.itoa(v.latency), c.itoa(w.latency))
    ensures Moved(m, t, LatencyOn, Switch(v.latencyOn), Switch(w.latencyOn))
    ensures Moved(m, t, DownAfter, c.itoa(v.downAfter), c.itoa(w.downAfter))
    ensures Moved(m, t, IPv6, v.ipv6, w.ipv6) && Moved(m, t, DigestFreq, v.digest, w.digest)
    ensures Moved(m, t, BestOfCount, c.itoa(v.bestOf), c.itoa(w.bestOf)) && Same(m, t, BestOf)
    ensures Moved(m, t, SpeedDirection, v.speedDirection, w.speedDirection)
    ensures Moved(m, t, SpeedRetries, c.itoa(v.speedRetries), c.itoa(w.speedRetries))
  {
    assert SavedRow(c, m, t, diff, v, w, Latency) && SavedRow(c, m, t, diff, v, w, LatencyOn);
    assert SavedRow(c, m, t, diff, v, w, DownAfter) && SavedRow(c, m, t, diff, v, w, IPv6);
    assert SavedRow(c, m, t, diff, v, w, DigestFreq) && SavedRow(c, m, t, diff, v, w, BestOfCount);
    assert SavedRow(c, m, t, diff, v, w, BestOf) && SavedRow(c, m, t, diff, v, w, SpeedDirection);
    assert SavedRow(c, m, t, diff, v, w, SpeedRetries);
  }

  lemma PlainCountsSettle(c: Codec, def: Values, m: Rows, t: Rows, diff: Rows, v: Values, w: Values)
    requires Inverse(c) && SavedTable(c, m, t, diff, v, w) && v == Load(c, def, m) && w == Normalize(w)
    ensures var r := Load(c, def, t);
            r.latency == w.latency && r.downAfter == w.downAfter && r.bestOf == w.bestOf && r.speedRetries == w.speedRetries
  {
    PlainRows(c, m, t, diff, v, w);
    SecondsSettle(c, m, t, Latency, v.latency, w.latency, def.latency);
    CountSettles(c, m, t, DownAfter, v.downAfter, w.downAfter, def.downAfter, 1, 10);
    BestOfSettles(c, m, t, v.bestOf, w.bestOf, def.bestOf);
    CountSettles(c, m, t, SpeedRetries, v.speedRetries, w.speedRetries, def.speedRetries, 0, 3);
  }

  lemma PlainChoicesSettle(c: Codec, def: Values, m: Rows, t: Rows, diff: Rows, v: Values, w: Values)
    requires SavedTable(c, m, t, diff, v, w) && w.digest == NormDigest(w.digest)
    requires w.ipv6 == NormIPv6(w.ipv6) && w.speedDirection == NormSpeedDirection(w.speedDirection)
    requires v.latencyOn == Or(ReadBool(m, LatencyOn), def.latencyOn) && v.ipv6 == NormIPv6(ReadChoice(m, IPv6, def.ipv6))
    requires v.speedDirection == NormSpeedDirection(ReadChoice(m, SpeedDirection, def.speedDirection))
    requires v.digest == NormDigest(if DigestFreq in m then m[DigestFreq] else def.digest)
    ensures Or(ReadBool(t, LatencyOn), def.latencyOn) == w.latencyOn && NormIPv6(ReadChoice(t, IPv6, def.ipv6)) == w.ipv6
    ensures NormSpeedDirection(ReadChoice(t, SpeedDirection, def.speedDirection)) == w.speedDirection
    ensures NormDigest(if DigestFreq in t then t[DigestFreq] else def.digest) == w.digest
  {
    PlainRows(c, m, t, diff, v, w);
    SwitchSettles(m, t, LatencyOn, v.latencyOn, w.latencyOn, def.latencyOn);
    ChoiceSettles(m, t, IPv6, v.ipv6, w.ipv6, def.ipv6, ["on", "off", "auto"], "auto");
    ChoiceSettles(m, t, SpeedDirection, v.speedDirection, w.speedDirection, def.speedDirection, ["both", "down", "up"], "both");
    PresentSettles(m, t, DigestFreq, v.digest, w.digest, def.digest, ["daily", "weekly"], "off");
  }

  /** The fields with rows of their own read back whatever the table held. */
  lemma PlainFieldsSettle(c: Codec, def: Values, m: Rows, t: Rows, diff: Rows, v: Values, w: Values)
    requires Inverse(c) && SavedTable(c, m, t, diff, v, w) && v == Load(c, def, m) && w == Normalize(w)
    ensures PlainEqual(Load(c, def, t), w)
  {
    PlainCountsSettle(c, def, m, t, diff, v, w);
    PlainChoicesSettle(c, def, m, t, diff, v, w);
  }

  lemma PairSettlesIff(c: Codec, m: Rows, t: Rows, diff: Rows, v: Values, w: Values, dir: string, n: int)
    requires Inverse(c) && SavedTable(c, m, t, diff, v, w)
    requires v.iperfDirection == NormIperfDirection(Or(ReadIperfDirection(m), dir))
    requires v.iperfRetries == NormRetries(Or(ReadIperfRetries(c, m), n))
    requires w.iperfDirection == NormIperfDirection(w.iperfDirection) && w.speedDirection == NormSpeedDirection(w.speedDirection)
    requires w.iperfRetries == NormRetries(w.iperfRetries) && w.speedRetries == NormRetries(w.speedRetries)
    ensures NormIperfDirection(Or(ReadIperfDirection(t), dir)) == w.iperfDirection <==> !DirectionLeaks(m, diff, w)
    ensures NormRetries(Or(ReadIperfRetries(c, t), n)) == w.iperfRetries <==> !RetriesLeak(c, m, diff, w)
  {
    assert SavedRow(c, m, t, diff, v, w, EngineSplit);
    assert SavedRow(c, m, t, diff, v, w, IperfDirection) && SavedRow(c, m, t, diff, v, w, SpeedDirection);
    assert SavedRow(c, m, t, diff, v, w, IperfRetries) && SavedRow(c, m, t, diff, v, w, SpeedRetries);
    DirectionSettlesIff(m, t, diff, v, w, dir);
    RetriesSettleIff(c, m, t, diff, v, w, n);
  }

  lemma RetiredRowsStay(c: Codec, m: Rows, t: Rows, diff: Rows, v: Values, w: Values, k: Key)
    requires SavedTable(c, m, t, diff, v, w) && !OnForm(k)
    ensures Same(m, t, k)
  {
    assert SavedRow(c, m, t, diff, v, w, k);
  }

  lemma SavedScheduleRows(c: Codec, m: Rows, t: Rows, diff: Rows, v: Values, w: Values, f: Feature)
    requires SavedTable(c, m, t, diff, v, w) && (f == LAT || f == SPEED)
    ensures var was, now := if f == LAT then v.lat else v.speed, if f == LAT then w.lat else w.speed;
            && Moved(m, t, f.windows, WindowsRow(c, was.windows), WindowsRow(c, now.windows))
            && (if f.on in diff then f.on in t && t[f.on] == Switch(now.on) else Same(m, t, f.on) && now.on == was.on)
    ensures Same(m, t, f.days) && Same(m, t, f.start) && Same(m, t, f.end) && Same(m, t, ScheduleOn)
  {
    RetiredRowsStay(c, m, t, diff, v, w, f.days);
    RetiredRowsStay(c, m, t, diff, v, w, f.start);
    RetiredRowsStay(c, m, t, diff, v, w, f.end);
    RetiredRowsStay(c, m, t, diff, v, w, ScheduleOn);
    assert SavedRow(c, m, t, diff, v, w, f.on) && SavedRow(c, m, t, diff, v, w, f.windows);
  }

  lemma LatencyScheduleSettlesIff(c: Codec, m: Rows, t: Rows, diff: Rows, v: Values, w: Values)
    requires Inverse(c) && SavedTable(c, m, t, diff, v, w)
    requires v.lat == NormSchedule(LoadSchedule(c, m, LAT)) && w.lat == NormSchedule(w.lat)
    ensures NormSchedule(LoadSchedule(c, t, LAT)) == w.lat <==> !Relapses(c, m, diff, LAT, w.lat)
  {
    SavedScheduleRows(c, m, t, diff, v, w, LAT);
    ScheduleSettlesIff(c, m, t, diff, LAT, v.lat, w.lat);
  }

  lemma SpeedScheduleSettlesIff(c: Codec, m: Rows, t: Rows, diff: Rows, v: Values, w: Values)
    requires Inverse(c) && SavedTable(c, m, t, diff, v, w)
    requires v.speed == NormSchedule(LoadSchedule(c, m, SPEED)) && w.speed == NormSchedule(w.speed)
    ensures NormSchedule(LoadSchedule(c, t, SPEED)) == w.speed <==> !Relapses(c, m, diff, SPEED, w.speed)
  {
    SavedScheduleRows(c, m, t, diff, v, w, SPEED);
    ScheduleSettlesIff(c, m, t, diff, SPEED, v.speed, w.speed);
  }

  lemma SavedTableReadsBackIff(c: Codec, def: Values, m: Rows, t: Rows, diff: Rows, v: Values, w: Values)
    requires Inverse(c) && SavedTable(c, m, t, diff, v, w) && v == Load(c, def, m) && w == Normalize(w)
    ensures Load(c, def, t) == w <==> !Undone(c, m, diff, w)
    ensures Load(c, def, t).lat == w.lat <==> !Relapses(c, m, diff, LAT, w.lat)
    ensures Load(c, def, t).speed == w.speed <==> !Relapses(c, m, diff, SPEED, w.speed)
  {
    PlainFieldsSettle(c, def, m, t, diff, v, w);
    PairSettlesIff(c, m, t, diff, v, w, def.iperfDirection, def.iperfRetries);
    LatencyScheduleSettlesIff(c, m, t, diff, v, w);
    SpeedScheduleSettlesIff(c, m, t, diff, v, w);
  }

  /** Whether a restart would undo this save of a table that was loaded. */
  predicate SaveIsUndone(c: Codec, def: Values, m: Rows, v: Values, p: Patch) {
    Undone(c, m, Diff(c, def, m, p, v, Saved(v, p)), Saved(v, p))
  }

  /**
   For every table, every default and every patch: a restart after the save
   reads back exactly the values the save left running if and only if none of
   the four guards holds.
   */
  lemma SaveReadsBackIff(c: Codec, def: Values, m: Rows, p: Patch)
    requires Inverse(c)
    ensures var v := Load(c, def, m);
            Load(c, def, Stored(c, def, m, p, v)) == Saved(v, p) <==> !SaveIsUndone(c, def, m, v, p)
  {
    var v := Load(c, def, m);
    NormalizeTwice(Overlay(c, def, m));
    NormalizeTwice(p.Apply(v));
    SaveIsSavedTable(c, def, m, v, p);
    SavedTableReadsBackIff(c, def, m, Stored(c, def, m, p, v), Diff(c, def, m, p, v, Saved(v, p)), v, Saved(v, p));
  }

  /** And what it costs when one holds: a relapsing schedule comes back on over windows just given to one that was off. */
  lemma RelapseTurnsTheScheduleOn(c: Codec, def: Values, m: Rows, p: Patch)
    requires Inverse(c) && var v := Load(c, def, m); Relapses(c, m, Diff(c, def, m, p, v, Saved(v, p)), LAT, Saved(v, p).lat)
    ensures var v := Load(c, def, m);
            !Saved(v, p).lat.on && Load(c, def, Stored(c, def, m, p, v)).lat == Saved(v, p).lat.(on := true)
  {
    var v := Load(c, def, m);
    NormalizeTwice(Overlay(c, def, m));
    NormalizeTwice(p.Apply(v));
    SaveIsSavedTable(c, def, m, v, p);
    RelapsedSchedule(c, m, Stored(c, def, m, p, v), Diff(c, def, m, p, v, Saved(v, p)), v, Saved(v, p));
  }

  lemma RelapsedSchedule(c: Codec, m: Rows, t: Rows, diff: Rows, v: Values, w: Values)
    requires Inverse(c) && SavedTable(c, m, t, diff, v, w) && Relapses(c, m, diff, LAT, w.lat)
    requires v.lat == NormSchedule(LoadSchedule(c, m, LAT)) && w.lat == NormSchedule(w.lat)
    ensures NormSchedule(LoadSchedule(c, t, LAT)) == w.lat.(on := true)
  {
    LatencyScheduleSettlesIff(c, m, t, diff, v, w);
    SavedScheduleRows(c, m, t, diff, v, w, LAT);
    WindowsSettle(c, m, t, LAT, v.lat.windows, w.lat.windows);
  }
}
