/**
 What single values come out as: what a submitted field is bounded to, what a
 retired row loads as, and when saving a value stores it at all.
 */
module SettingsReads {
  import opened Wrappers
  import opened Settings
  import opened SettingsLaws
  import opened SettingsSaves

  /** `n` is the number in the range that is nearest to `x`. */
  predicate Nearest(n: int, x: int, lo: int, hi: int) {
    lo <= n <= hi && (x < lo ==> n == lo) && (x > hi ==> n == hi) && (lo <= x <= hi ==> n == x)
  }

  predicate Chosen(s: string, x: string, choices: seq<string>, fallback: string) {
    if x in choices then s == x else s == fallback
  }

  // ------------------------------------------------------------- a save

  /** Every submitted number takes effect, bounded. */
  lemma SubmittedNumbers(v: Values, p: Patch)
    ensures var w := Saved(v, p);
            && Nearest(w.latency, if p.latency.Some? then p.latency.value else v.latency, 1, 3600)
            && Nearest(w.downAfter, if p.downAfter.Some? then p.downAfter.value else v.downAfter, 1, 10)
            && Nearest(w.bestOf, if p.bestOf.Some? then p.bestOf.value else v.bestOf, 1, 16)
            && Nearest(w.speedRetries, if p.speedRetries.Some? then p.speedRetries.value else v.speedRetries, 0, 3)
            && Nearest(w.iperfRetries, if p.iperfRetries.Some? then p.iperfRetries.value else v.iperfRetries, 0, 3)
  {
  }

  /** Every submitted choice takes effect, or its fallback. */
  lemma SubmittedChoices(v: Values, p: Patch)
    ensures var w := Saved(v, p);
            && w.latencyOn == (if p.latencyOn.Some? then p.latencyOn.value else v.latencyOn)
            && Chosen(w.ipv6, if p.ipv6.Some? then p.ipv6.value else v.ipv6, ["on", "off", "auto"], "auto")
            && Chosen(w.digest, if p.digest.Some? then p.digest.value else v.digest, ["daily", "weekly"], "off")
            && Chosen(w.speedDirection, if p.speedDirection.Some? then p.speedDirection.value else v.speedDirection, ["both", "down", "up"], "both")
            && Chosen(w.iperfDirection, if p.iperfDirection.Some? then p.iperfDirection.value else v.iperfDirection,
                      ["both", "down", "up", "bidir"], "both")
  {
  }

  predicate WeekdayMask(s: string) {
    |s| == 7 && forall i :: 0 <= i < 7 ==> s[i] == '0' || s[i] == '1'
  }

  /** A stored window: a weekday mask, every day for a malformed one, and two minutes of the day. */
  predicate Bounded(r: Window, w: Window) {
    && r.days == (if WeekdayMask(w.days) then w.days else "1111111")
    && Nearest(r.start, w.start, 0, 1439) && Nearest(r.end, w.end, 0, 1439)
  }

  lemma WindowIsBounded(w: Window)
    ensures Bounded(NormWindow(w), w)
  {
    if WeekdayMask(w.days) {
      assert forall i :: 0 <= i < 7 ==> w.days[i] in "01";
    } else if |w.days| == 7 {
      var i :| 0 <= i < 7 && w.days[i] != '0' && w.days[i] != '1';
      assert w.days[i] !in "01";
    }
  }

  /** The schedule two submitted, or kept, halves make: at most twelve windows, each bounded, and never on without one. */
  predicate ScheduleOf(s: Schedule, on: bool, ws: seq<Window>) {
    && s.on == (on && ws != [])
    && |s.windows| == (if |ws| < 12 then |ws| else 12)
    && forall i :: 0 <= i < |s.windows| ==> Bounded(s.windows[i], ws[i])
  }

  lemma ScheduleIsBounded(s: Schedule)
    ensures ScheduleOf(NormSchedule(s), s.on, s.windows)
  {
    forall i | 0 <= i < |Sanitize(s.windows)| ensures Bounded(Sanitize(s.windows)[i], s.windows[i]) {
      WindowIsBounded(s.windows[i]);
    }
  }

  lemma SubmittedSchedules(v: Values, p: Patch)
    ensures var w := Saved(v, p);
            && ScheduleOf(w.lat, if p.latOn.Some? then p.latOn.value else v.lat.on,
                          if p.latWindows.Some? then p.latWindows.value else v.lat.windows)
            && ScheduleOf(w.speed, if p.speedOn.Some? then p.speedOn.value else v.speed.on,
                          if p.speedWindows.Some? then p.speedWindows.value else v.speed.windows)
  {
    ScheduleIsBounded(p.Apply(v).lat);
    ScheduleIsBounded(p.Apply(v).speed);
  }

  // -------------------------------------------------------- retired rows

  /** Without a readable count, the retired switch loads as three servers or one. */
  lemma RetiredBestOfLoads(c: Codec, def: Values, m: Rows)
    requires Get(m, BestOfCount) == ""
    ensures var n := Load(c, def, m).bestOf;
            && (Get(m, BestOf) in ["1", "true"] ==> n == 3)
            && (Get(m, BestOf) in ["0", "false"] ==> n == 1)
            && (Get(m, BestOf) !in ["1", "true", "0", "false"] ==> Nearest(n, def.bestOf, 1, 16))
  {
  }

  /** With a readable one the count wins, whatever the switch says. */
  lemma CountBeatsTheSwitch(c: Codec, def: Values, m: Rows, n: int)
    requires Inverse(c) && BestOfCount in m && m[BestOfCount] == c.itoa(n)
    ensures Nearest(Load(c, def, m).bestOf, n, 1, 16)
  {
  }

  /** Without a row of windows, the retired single window is the schedule's; without either there is none. */
  lemma RetiredWindowLoads(c: Codec, def: Values, m: Rows)
    requires LatWindows !in m
    ensures var ws := Load(c, def, m).lat.windows;
            if LatDays in m
            then |ws| == 1 && Bounded(ws[0], Window(m[LatDays], Or(ReadInt(c, m, LatStart), 0), Or(ReadInt(c, m, LatEnd), 0)))
            else ws == []
  {
    if LatDays in m {
      WindowIsBounded(Window(m[LatDays], Or(ReadInt(c, m, LatStart), 0), Or(ReadInt(c, m, LatEnd), 0)));
    }
  }

  /** Without a readable switch of its own, a schedule that has a window follows the retired master switch, and is off without that. */
  lemma MasterSwitchLoads(c: Codec, def: Values, m: Rows)
    requires Get(m, LatOn) !in ["1", "true", "0", "false"] && Load(c, def, m).lat.windows != []
    ensures Load(c, def, m).lat.on <==> Get(m, ScheduleOn) in ["1", "true"]
  {
  }

  /** A row of seconds: a negative one is ignored, any other bounded. */
  lemma SecondsLoad(c: Codec, def: Values, m: Rows, n: int)
    requires Inverse(c) && Latency in m && m[Latency] == c.itoa(n)
    ensures Nearest(Load(c, def, m).latency, if n < 0 then def.latency else n, 1, 3600)
  {
  }

  /** A marked table with no retired row has nothing to record, and a new one only the marker. */
  lemma NothingRetiredNothingRecorded(c: Codec, m: Rows, v: Values)
    requires ScheduleOn !in m && LatDays !in m && SpeedDays !in m && (EngineSplit in m || m == map[])
    ensures Migrations(c, m, v) == if EngineSplit in m then map[] else map[EngineSplit := "1"]
  {
  }

  // ------------------------------------------------- what is worth storing

  /** For the fields a flag can move, by the values the program ships with: a submitted one is stored if and only if it is not the shipped one, or not the running one. */
  lemma FlagFieldIsStoredIff(c: Codec, def: Values, m: Rows, p: Patch)
    requires Inverse(c)
    ensures var v := Load(c, def, m); var w, t := Saved(v, p), Stored(c, def, m, p, v);
            && (p.Submits(Latency) && Latency !in m ==> (Latency in t <==> w.latency != 5 || w.latency != v.latency))
            && (p.Submits(LatencyOn) && LatencyOn !in m ==> (LatencyOn in t <==> !w.latencyOn || w.latencyOn != v.latencyOn))
            && (p.Submits(DownAfter) && DownAfter !in m ==> (DownAfter in t <==> w.downAfter != 2 || w.downAfter != v.downAfter))
            && (p.Submits(IPv6) && IPv6 !in m ==> (IPv6 in t <==> w.ipv6 != "auto" || w.ipv6 != v.ipv6))
  {
    var v := Load(c, def, m);
    NormalizeTwice(Overlay(c, def, m));
    FlagNumbersAreStoredIff(c, def, m, p, v);
    FlagChoicesAreStoredIff(c, def, m, p, v);
  }

  lemma SameCount(c: Codec, a: int, b: int)
    requires Inverse(c)
    ensures c.itoa(a) == c.itoa(b) <==> a == b
  {
    assert c.atoi(c.itoa(a)) == Some(a) && c.atoi(c.itoa(b)) == Some(b);
  }

  lemma StoredIff(c: Codec, def: Values, m: Rows, p: Patch, v: Values, k: Key)
    requires v == Normalize(v) && p.Submits(k) && k !in m
    ensures k in Stored(c, def, m, p, v) <==>
              || Row(c, Saved(v, p), k) != Row(c, Normalize(ShippedDefaults(def)), k)
              || Row(c, Saved(v, p), k) != Row(c, v, k)
  {
    var w := Saved(v, p);
    assert OnForm(k);
    assert k in Diff(c, def, m, p, v, w) <==> Writes(c, def, m, p, v, w, k);
    assert Stored(c, def, m, p, v) == m + Diff(c, def, m, p, v, w);
  }

  lemma FlagNumbersAreStoredIff(c: Codec, def: Values, m: Rows, p: Patch, v: Values)
    requires Inverse(c) && v == Normalize(v)
    ensures var w, t := Saved(v, p), Stored(c, def, m, p, v);
            && (p.Submits(Latency) && Latency !in m ==> (Latency in t <==> w.latency != 5 || w.latency != v.latency))
            && (p.Submits(DownAfter) && DownAfter !in m ==> (DownAfter in t <==> w.downAfter != 2 || w.downAfter != v.downAfter))
  {
    var w := Saved(v, p);
    if p.Submits(Latency) && Latency !in m {
      StoredIff(c, def, m, p, v, Latency);
      SameCount(c, w.latency, 5);
      SameCount(c, w.latency, v.latency);
    }
    if p.Submits(DownAfter) && DownAfter !in m {
      StoredIff(c, def, m, p, v, DownAfter);
      SameCount(c, w.downAfter, 2);
      SameCount(c, w.downAfter, v.downAfter);
    }
  }

  lemma FlagChoicesAreStoredIff(c: Codec, def: Values, m: Rows, p: Patch, v: Values)
    requires v == Normalize(v)
    ensures var w, t := Saved(v, p), Stored(c, def, m, p, v);
            && (p.Submits(LatencyOn) && LatencyOn !in m ==> (LatencyOn in t <==> !w.latencyOn || w.latencyOn != v.latencyOn))
            && (p.Submits(IPv6) && IPv6 !in m ==> (IPv6 in t <==> w.ipv6 != "auto" || w.ipv6 != v.ipv6))
  {
    if p.Submits(LatencyOn) && LatencyOn !in m {
      StoredIff(c, def, m, p, v, LatencyOn);
    }
    if p.Submits(IPv6) && IPv6 !in m {
      StoredIff(c, def, m, p, v, IPv6);
    }
  }

  /** Any other field: against the defaults it was started with. */
  lemma OtherFieldIsStoredIff(c: Codec, def: Values, m: Rows, p: Patch, k: Key)
    requires p.Submits(k) && k !in m && k != Latency && k != LatencyOn && k != DownAfter && k != IPv6
    ensures var v := Load(c, def, m);
            k in Stored(c, def, m, p, v) <==>
              Row(c, Saved(v, p), k) != Row(c, Normalize(def), k) || Row(c, Saved(v, p), k) != Row(c, v, k)
  {
    NormalizeTwice(Overlay(c, def, m));
    StoredIff(c, def, m, p, Load(c, def, m), k);
    ShippingKeepsTheRest(c, def, k);
  }

  lemma ShippingKeepsTheRest(c: Codec, def: Values, k: Key)
    requires k != Latency && k != LatencyOn && k != DownAfter && k != IPv6
    ensures Row(c, Normalize(ShippedDefaults(def)), k) == Row(c, Normalize(def), k)
  {
  }
}
