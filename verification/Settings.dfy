/**
 Settings: a sparse table of stored rows laid over seeded defaults. The form
 fields here stand for every way a row is read (seconds, switch, count, choice,
 window list) and for every rule that spans rows: the retired on/off under the
 best-of count, the pair that used to be shared between two engines, and the
 schedules with their retired single window and master switch.
 */
module Settings {
  import opened Wrappers

  datatype Key =
    | Latency | LatencyOn | DownAfter | IPv6 | DigestFreq | BestOfCount
    | SpeedDirection | IperfDirection | SpeedRetries | IperfRetries
    | LatOn | LatWindows | SpeedOn | SpeedWindows
    // Not on the form: the split marker and the retired rows.
    | EngineSplit | BestOf | ScheduleOn
    | LatDays | LatStart | LatEnd | SpeedDays | SpeedStart | SpeedEnd

  type Rows = map<Key, string>

  const FORM := [Latency, LatencyOn, DownAfter, IPv6, DigestFreq, BestOfCount, SpeedDirection, IperfDirection,
                 SpeedRetries, IperfRetries, LatOn, LatWindows, SpeedOn, SpeedWindows]

  predicate OnForm(k: Key) {
    match k
    case EngineSplit => false
    case BestOf => false
    case ScheduleOn => false
    case LatDays => false
    case LatStart => false
    case LatEnd => false
    case SpeedDays => false
    case SpeedStart => false
    case SpeedEnd => false
    case _ => true
  }

  lemma FormIsEveryFormKey(k: Key)
    ensures k in FORM <==> OnForm(k)
  {
    if OnForm(k) {
      var i := match k
        case Latency => 0 case LatencyOn => 1 case DownAfter => 2 case IPv6 => 3 case DigestFreq => 4
        case BestOfCount => 5 case SpeedDirection => 6 case IperfDirection => 7 case SpeedRetries => 8
        case IperfRetries => 9 case LatOn => 10 case LatWindows => 11 case SpeedOn => 12 case SpeedWindows => 13;
      assert FORM[i] == k;
    }
  }

  datatype Window = Window(days: string, start: int, end: int)

  datatype Schedule = Schedule(on: bool, windows: seq<Window>)

  /** Latency is in seconds. */
  datatype Values = Values(
    latency: int, latencyOn: bool, downAfter: int, ipv6: string, digest: string, bestOf: int,
    speedDirection: string, iperfDirection: string, speedRetries: int, iperfRetries: int,
    lat: Schedule, speed: Schedule)

  /** Decimal and JSON text, which the model does not look inside. */
  datatype Codec = Codec(
    itoa: int -> string, atoi: string -> Option<int>,
    toJSON: seq<Window> -> string, fromJSON: string -> Option<seq<Window>>)

  ghost predicate Inverse(c: Codec) {
    && (forall n :: c.itoa(n) != "" && c.atoi(c.itoa(n)) == Some(n))
    && (forall ws :: c.fromJSON(c.toJSON(ws)) == Some(ws))
    && c.fromJSON("[]") == Some([])
  }

  // -------------------------------------------------------- reading rows

  function Get(m: Rows, k: Key): string {
    if k in m then m[k] else ""
  }

  function ReadInt(c: Codec, m: Rows, k: Key): Option<int> {
    if Get(m, k) == "" then None else c.atoi(Get(m, k))
  }

  function ReadBool(m: Rows, k: Key): Option<bool> {
    var s := Get(m, k);
    if s == "1" || s == "true" then Some(true) else if s == "0" || s == "false" then Some(false) else None
  }

  /** Ten years. */
  const MAX_SECONDS := 10 * 365 * 24 * 3600

  function ReadSeconds(c: Codec, m: Rows, k: Key): Option<int> {
    match ReadInt(c, m, k)
    case Some(n) => if n < 0 then None else Some(if n > MAX_SECONDS then MAX_SECONDS else n)
    case None => None
  }

  function Or<T>(o: Option<T>, d: T): T {
    if o.Some? then o.value else d
  }

  const LEGACY_BEST_OF := 3

  function ReadBestOf(c: Codec, m: Rows): Option<int> {
    match ReadInt(c, m, BestOfCount)
    case Some(n) => Some(n)
    case None =>
      match ReadBool(m, BestOf)
      case Some(on) => Some(if on then LEGACY_BEST_OF else 1)
      case None => None
  }

  function ReadIperfDirection(m: Rows): Option<string> {
    if IperfDirection in m then Some(m[IperfDirection])
    else if Get(m, SpeedDirection) != "" && EngineSplit !in m then Some(m[SpeedDirection])
    else None
  }

  function ReadIperfRetries(c: Codec, m: Rows): Option<int> {
    match ReadInt(c, m, IperfRetries)
    case Some(n) => Some(n)
    case None => if EngineSplit !in m then ReadInt(c, m, SpeedRetries) else None
  }

  /** The rows of one feature's schedule. */
  datatype Feature = Feature(on: Key, windows: Key, days: Key, start: Key, end: Key)

  const LAT := Feature(LatOn, LatWindows, LatDays, LatStart, LatEnd)
  const SPEED := Feature(SpeedOn, SpeedWindows, SpeedDays, SpeedStart, SpeedEnd)

  function ReadWindows(c: Codec, m: Rows, f: Feature): seq<Window> {
    if f.windows in m && c.fromJSON(m[f.windows]).Some? then c.fromJSON(m[f.windows]).value
    else if f.days in m then [Window(m[f.days], Or(ReadInt(c, m, f.start), 0), Or(ReadInt(c, m, f.end), 0))]
    else []
  }

  function LoadSchedule(c: Codec, m: Rows, f: Feature): Schedule {
    Schedule(Or(ReadBool(m, f.on), Or(ReadBool(m, ScheduleOn), false)), ReadWindows(c, m, f))
  }

  function Overlay(c: Codec, v: Values, m: Rows): Values {
    Values(
      Or(ReadSeconds(c, m, Latency), v.latency),
      Or(ReadBool(m, LatencyOn), v.latencyOn),
      Or(ReadInt(c, m, DownAfter), v.downAfter),
      if Get(m, IPv6) != "" then m[IPv6] else v.ipv6,
      if DigestFreq in m then m[DigestFreq] else v.digest,
      Or(ReadBestOf(c, m), v.bestOf),
      if Get(m, SpeedDirection) != "" then m[SpeedDirection] else v.speedDirection,
      Or(ReadIperfDirection(m), v.iperfDirection),
      Or(ReadInt(c, m, SpeedRetries), v.speedRetries),
      Or(ReadIperfRetries(c, m), v.iperfRetries),
      LoadSchedule(c, m, LAT),
      LoadSchedule(c, m, SPEED))
  }

  // ---------------------------------------------------------- normalizing

  function Clamp(n: int, lo: int, hi: int): int {
    if n < lo then lo else if n > hi then hi else n
  }

  function Choice(s: string, choices: seq<string>, fallback: string): string {
    if s in choices then s else fallback
  }

  const ALL_DAYS := "1111111"
  const MAX_WINDOWS := 12

  function NormDays(s: string): string {
    if |s| == 7 && forall i :: 0 <= i < 7 ==> s[i] in "01" then s else ALL_DAYS
  }

  function NormWindow(w: Window): Window {
    Window(NormDays(w.days), Clamp(w.start, 0, 1439), Clamp(w.end, 0, 1439))
  }

  function Sanitize(ws: seq<Window>): (r: seq<Window>)
    ensures |r| <= MAX_WINDOWS && (r == [] <==> ws == [])
  {
    var n := if |ws| > MAX_WINDOWS then MAX_WINDOWS else |ws|;
    seq(n, i requires 0 <= i < n => NormWindow(ws[i]))
  }

  /** A schedule that is on but has no window restricts nothing, so it reads as off. */
  function NormSchedule(s: Schedule): Schedule {
    Schedule(s.on && s.windows != [], Sanitize(s.windows))
  }

  function NormLatency(n: int): int { Clamp(n, 1, 3600) }
  function NormDownAfter(n: int): int { Clamp(n, 1, 10) }
  function NormIPv6(s: string): string { Choice(s, ["on", "off", "auto"], "auto") }
  function NormDigest(s: string): string { Choice(s, ["daily", "weekly"], "off") }
  function NormBestOf(n: int): int { Clamp(n, 1, 16) }
  function NormSpeedDirection(s: string): string { Choice(s, ["both", "down", "up"], "both") }
  function NormIperfDirection(s: string): string { Choice(s, ["both", "down", "up", "bidir"], "both") }
  function NormRetries(n: int): int { Clamp(n, 0, 3) }

  function Normalize(v: Values): Values {
    Values(NormLatency(v.latency), v.latencyOn, NormDownAfter(v.downAfter), NormIPv6(v.ipv6), NormDigest(v.digest),
           NormBestOf(v.bestOf), NormSpeedDirection(v.speedDirection), NormIperfDirection(v.iperfDirection),
           NormRetries(v.speedRetries), NormRetries(v.iperfRetries), NormSchedule(v.lat), NormSchedule(v.speed))
  }

  /** What a start under these defaults makes of a table. */
  function Load(c: Codec, def: Values, m: Rows): Values {
    Normalize(Overlay(c, def, m))
  }

  // -------------------------------------------------------------- writing

  function Switch(b: bool): string {
    if b then "1" else "0"
  }

  function WindowsRow(c: Codec, ws: seq<Window>): string {
    if ws == [] then "[]" else c.toJSON(ws)
  }

  /** The row a form key holds for these values; other keys have none. */
  function Row(c: Codec, v: Values, k: Key): string {
    match k
    case Latency => c.itoa(v.latency)
    case LatencyOn => Switch(v.latencyOn)
    case DownAfter => c.itoa(v.downAfter)
    case IPv6 => v.ipv6
    case DigestFreq => v.digest
    case BestOfCount => c.itoa(v.bestOf)
    case SpeedDirection => v.speedDirection
    case IperfDirection => v.iperfDirection
    case SpeedRetries => c.itoa(v.speedRetries)
    case IperfRetries => c.itoa(v.iperfRetries)
    case LatOn => Switch(v.lat.on)
    case LatWindows => WindowsRow(c, v.lat.windows)
    case SpeedOn => Switch(v.speed.on)
    case SpeedWindows => WindowsRow(c, v.speed.windows)
    case _ => ""
  }

  /** The constants a flag can move, put back to what ships. */
  function ShippedDefaults(def: Values): Values {
    def.(latency := 5, latencyOn := true, downAfter := 2, ipv6 := "auto")
  }

  /** Whether a load has to store a key under its own name, because a retired row just seeded it. */
  predicate Migrates(c: Codec, m: Rows, k: Key) {
    match k
    case EngineSplit => EngineSplit !in m
    case IperfDirection => EngineSplit !in m && IperfDirection !in m && Get(m, SpeedDirection) != ""
    case IperfRetries => EngineSplit !in m && ReadInt(c, m, IperfRetries).None? && ReadInt(c, m, SpeedRetries).Some?
    case LatOn => LatOn !in m && ReadBool(m, ScheduleOn).Some?
    case LatWindows => LatWindows !in m && LatDays in m
    case SpeedOn => SpeedOn !in m && ReadBool(m, ScheduleOn).Some?
    case SpeedWindows => SpeedWindows !in m && SpeedDays in m
    case _ => false
  }

  const MIGRATED := {EngineSplit, IperfDirection, IperfRetries, LatOn, LatWindows, SpeedOn, SpeedWindows}

  function Migrations(c: Codec, m: Rows, v: Values): Rows {
    map k | k in MIGRATED && Migrates(c, m, k) :: if k == EngineSplit then "1" else Row(c, v, k)
  }

  datatype Patch = Patch(
    latency: Option<int>, latencyOn: Option<bool>, downAfter: Option<int>, ipv6: Option<string>, digest: Option<string>,
    bestOf: Option<int>, speedDirection: Option<string>, iperfDirection: Option<string>,
    speedRetries: Option<int>, iperfRetries: Option<int>,
    latOn: Option<bool>, latWindows: Option<seq<Window>>, speedOn: Option<bool>, speedWindows: Option<seq<Window>>)
  {
    function Apply(v: Values): Values {
      Values(Or(latency, v.latency), Or(latencyOn, v.latencyOn), Or(downAfter, v.downAfter), Or(ipv6, v.ipv6),
             Or(digest, v.digest), Or(bestOf, v.bestOf), Or(speedDirection, v.speedDirection),
             Or(iperfDirection, v.iperfDirection), Or(speedRetries, v.speedRetries), Or(iperfRetries, v.iperfRetries),
             Schedule(Or(latOn, v.lat.on), Or(latWindows, v.lat.windows)),
             Schedule(Or(speedOn, v.speed.on), Or(speedWindows, v.speed.windows)))
    }

    predicate Submits(k: Key) {
      match k
      case Latency => latency.Some?
      case LatencyOn => latencyOn.Some?
      case DownAfter => downAfter.Some?
      case IPv6 => ipv6.Some?
      case DigestFreq => digest.Some?
      case BestOfCount => bestOf.Some?
      case SpeedDirection => speedDirection.Some?
      case IperfDirection => iperfDirection.Some?
      case SpeedRetries => speedRetries.Some?
      case IperfRetries => iperfRetries.Some?
      case LatOn => latOn.Some?
      case LatWindows => latWindows.Some?
      case SpeedOn => speedOn.Some?
      case SpeedWindows => speedWindows.Some?
      case _ => false
    }
  }

  /** Whether a save that turns `was` into `now` stores a key. */
  predicate Writes(c: Codec, def: Values, m: Rows, p: Patch, was: Values, now: Values, k: Key) {
    var val, running := Row(c, now, k), Row(c, Normalize(was), k);
    if !p.Submits(k) then val != running
    else
      var base := if k in m then m[k] else Row(c, Normalize(ShippedDefaults(def)), k);
      val != base || val != running
  }

  function Diff(c: Codec, def: Values, m: Rows, p: Patch, was: Values, now: Values): Rows {
    map k | OnForm(k) && Writes(c, def, m, p, was, now, k) :: Row(c, now, k)
  }

  /** The values and rows a save leaves. */
  function Saved(v: Values, p: Patch): Values {
    Normalize(p.Apply(v))
  }

  function Stored(c: Codec, def: Values, m: Rows, p: Patch, v: Values): Rows {
    m + Diff(c, def, m, p, v, Saved(v, p))
  }

  /** The settings in memory and the rows of the store behind them. */
  class Controller {
    const codec: Codec
    const defaults: Values
    var vals: Values
    var loaded: bool
    var rows: Rows

    constructor (codec: Codec, def: Values, rows: Rows)
      ensures this.codec == codec && defaults == Normalize(def) && vals == Normalize(def) && this.rows == rows && !loaded
    {
      this.codec, defaults, vals, this.rows, loaded := codec, Normalize(def), Normalize(def), rows, false;
    }

    /** A start or a reload: the values are live before the migrations are recorded, and stay so if that fails. */
    method Reload(readable: bool, recorded: bool) returns (ok: bool)
      modifies this
      ensures ok == readable && loaded == (old(loaded) || readable)
      ensures vals == if readable then Load(codec, defaults, old(rows)) else old(vals)
      ensures rows == if readable && recorded then old(rows) + Migrations(codec, old(rows), vals) else old(rows)
    {
      if !readable {
        return false;
      }
      vals := Load(codec, defaults, rows);
      loaded := true;
      if recorded {
        rows := rows + Migrations(codec, rows, vals);
      }
      return true;
    }

    /** The keys this save establishes, picked one by one from the form. */
    method CollectDiff(p: Patch, now: Values) returns (diff: Rows)
      ensures diff == Diff(codec, defaults, rows, p, vals, now)
    {
      diff := map[];
      var i := 0;
      while i < |FORM|
        invariant 0 <= i <= |FORM|
        invariant forall k :: k in diff <==> k in FORM[..i] && Writes(codec, defaults, rows, p, vals, now, k)
        invariant forall k :: k in diff ==> diff[k] == Row(codec, now, k)
      {
        var k := FORM[i];
        assert FORM[..i+1] == FORM[..i] + [k];
        if Writes(codec, defaults, rows, p, vals, now, k) {
          diff := diff[k := Row(codec, now, k)];
        }
        i := i + 1;
      }
      assert FORM[..i] == FORM;
      forall k ensures k in FORM <==> OnForm(k) {
        FormIsEveryFormKey(k);
      }
    }

    /** A form save: refused before the first load, void when the store fails, and otherwise stored before it is applied. */
    method Update(p: Patch, readable: bool, accepted: bool) returns (out: Option<Values>)
      modifies this
      ensures loaded == old(loaded)
      ensures out == if loaded && readable && accepted then Some(Saved(old(vals), p)) else None
      ensures out.Some? ==> vals == out.value && rows == Stored(codec, defaults, old(rows), p, old(vals))
      ensures out.None? ==> vals == old(vals) && rows == old(rows)
    {
      if !loaded || !readable {
        return None;
      }
      var now := Saved(vals, p);
      var diff := CollectDiff(p, now);
      if !accepted {
        return None;
      }
      rows := rows + diff;
      vals := now;
      return Some(now);
    }
  }
}
