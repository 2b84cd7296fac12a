/**
 * The `/study_tips` command: the per-guild `study_tips` row, the
 * frequency ladder, the time-of-day parser, the next-send computation and
 * the settings panel text.
 *
 * Times are milliseconds since the epoch. The zone offset that
 * `tzOffsetMinutes` reads from the platform's time-zone database is an
 * input: `offset(zone, at)` is the number of minutes to add to UTC to get
 * the local time of `zone` at `at`.
 */
module StudyTips {
  import opened Wrappers
  import opened Strings

  const MINUTE: int := 60000
  const HOUR: int := 3600000
  const DAY: int := 86400000

  /** Allowed frequencies in days, from least to most frequent. */
  const FREQUENCIES: seq<int> := [14, 7, 3, 1]

  const DEFAULT_FREQUENCY: int := 7
  const DEFAULT_TIME := "12:00"
  const DEFAULT_ZONE := "UTC"

  type ZoneOffset = (string, int) -> int

  // ---------------------------------------------------------------------------
  // parseHHMM
  // ---------------------------------------------------------------------------

  datatype Clock = Clock(hour: nat, minute: nat)

  /** The decimal digit for `d`. */
  function Digit(d: nat): (c: char)
    requires d < 10
    ensures IsDigit(c) && DigitValue(c) == d
  {
    ('0' as int + d) as char
  }

  /** `n` as two decimal digits, with a leading zero below 10. */
  function TwoDigits(n: nat): (r: string)
    requires n < 100
    ensures |r| == 2 && IsDigit(r[0]) && IsDigit(r[1]) && DigitValue(r[0]) * 10 + DigitValue(r[1]) == n
  {
    [Digit(n / 10), Digit(n % 10)]
  }

  /**
   * The pattern `^([01]?\d|2[0-3]):([0-5]\d)$` on an already trimmed text:
   * an hour of one digit, or of two digits up to 23, a colon, and a minute
   * of two digits whose first is at most 5.
   */
  function ParseClock(t: string): (r: Option<Clock>)
    ensures r.Some? ==> r.value.hour <= 23 && r.value.minute <= 59
  {
    if |t| == 4 && IsDigit(t[0]) && t[1] == ':' && IsDigit(t[2]) && '0' <= t[2] <= '5' && IsDigit(t[3]) then
      Some(Clock(DigitValue(t[0]), DigitValue(t[2]) * 10 + DigitValue(t[3])))
    else if |t| == 5 && IsDigit(t[0]) && IsDigit(t[1]) && t[2] == ':' && '0' <= t[3] <= '5' && IsDigit(t[4])
      && ('0' <= t[0] <= '1' || (t[0] == '2' && '0' <= t[1] <= '3')) then
      Some(Clock(DigitValue(t[0]) * 10 + DigitValue(t[1]), DigitValue(t[3]) * 10 + DigitValue(t[4])))
    else None
  }

  /** `parseHHMM`: the pattern above after trimming; `None` is `null`. */
  function ParseHHMM(s: string): (r: Option<Clock>)
    ensures r.Some? ==> r.value.hour <= 23 && r.value.minute <= 59
  {
    ParseClock(Trim(s))
  }

  /** What parses is an hour written with two digits, or one digit below 10, a colon and two minute digits. */
  lemma ParsedClockShape(t: string)
    requires ParseClock(t).Some?
    ensures var c := ParseClock(t).value;
      || t == TwoDigits(c.hour) + ":" + TwoDigits(c.minute)
      || (c.hour < 10 && t == [Digit(c.hour)] + ":" + TwoDigits(c.minute))
  {
    var c := ParseClock(t).value;
    if |t| == 4 {
      assert t == [Digit(c.hour)] + ":" + TwoDigits(c.minute);
    } else {
      assert t == TwoDigits(c.hour) + ":" + TwoDigits(c.minute);
    }
  }

  /** Every time of day written `HH:MM` parses back to itself. */
  lemma ParseClockAccepts(hour: nat, minute: nat)
    requires hour <= 23 && minute <= 59
    ensures ParseHHMM(TwoDigits(hour) + ":" + TwoDigits(minute)) == Some(Clock(hour, minute))
  {
    TrimIdentity(TwoDigits(hour) + ":" + TwoDigits(minute));
  }

  /** An hour below 10 may also be written with one digit. */
  lemma ParseClockAcceptsShortHour(hour: nat, minute: nat)
    requires hour <= 9 && minute <= 59
    ensures ParseHHMM([Digit(hour)] + ":" + TwoDigits(minute)) == Some(Clock(hour, minute))
  {
    TrimIdentity([Digit(hour)] + ":" + TwoDigits(minute));
  }

  /** Any other text is refused: a single digit hour of 10 or more cannot be written, nor can 24 or a minute of 60. */
  lemma ParseClockRejects()
    ensures ParseClock("24:00").None? && ParseClock("12:60").None? && ParseClock("7:5").None? && ParseClock("007:00").None?
  {
  }

  // ---------------------------------------------------------------------------
  // The frequency ladder
  // ---------------------------------------------------------------------------

  /** `FREQUENCIES.indexOf(f)`; `-1` when absent. */
  function IndexOf(f: int): (r: int)
    ensures -1 <= r < |FREQUENCIES|
    ensures r >= 0 <==> f in FREQUENCIES
    ensures r >= 0 ==> FREQUENCIES[r] == f
  {
    if f == 14 then 0 else if f == 7 then 1 else if f == 3 then 2 else if f == 1 then 3 else -1
  }

  /** `nextFrequency`: one step towards daily; daily stays daily and an unknown value is kept. */
  function NextFrequency(current: int): (r: int)
    ensures current in FREQUENCIES ==> r in FREQUENCIES && r <= current
    ensures current in FREQUENCIES && current != 1 ==> r < current && IndexOf(r) == IndexOf(current) + 1
    ensures current !in FREQUENCIES || current == 1 ==> r == current
  {
    var idx := IndexOf(current);
    if idx >= 0 && idx < |FREQUENCIES| - 1 then FREQUENCIES[idx + 1] else current
  }

  /** `prevFrequency`: one step towards every 14 days; 14 stays 14 and an unknown value is kept. */
  function PrevFrequency(current: int): (r: int)
    ensures current in FREQUENCIES ==> r in FREQUENCIES && r >= current
    ensures current in FREQUENCIES && current != 14 ==> r > current && IndexOf(r) == IndexOf(current) - 1
    ensures current !in FREQUENCIES || current == 14 ==> r == current
  {
    var idx := IndexOf(current);
    if idx > 0 then FREQUENCIES[idx - 1] else current
  }

  /** The two buttons undo each other wherever a step was taken. */
  lemma FrequencyStepsInverse(f: int)
    ensures f in FREQUENCIES && f != 1 ==> PrevFrequency(NextFrequency(f)) == f
    ensures f in FREQUENCIES && f != 14 ==> NextFrequency(PrevFrequency(f)) == f
  {
  }

  // ---------------------------------------------------------------------------
  // computeNextUTC
  // ---------------------------------------------------------------------------

  /**
   * The local time of day `computeNextUTC` lands on for `hour:minute`: the
   * zone's wall clock is read to whole seconds, so the milliseconds of
   * `from` are added back when the result is converted to UTC.
   */
  function SendTime(hour: int, minute: int, from: int): int {
    hour * HOUR + minute * MINUTE + from % 1000
  }

  /**
   * `computeNextUTC` for a zone `offsetMinutes` ahead of UTC: `hour:minute`
   * of the current local day, `plusDays` days on, and one more day when that
   * is not after the current local time read to whole seconds; converted
   * back to UTC with the offset `tzOffsetMinutes` gives, which is short of
   * `offsetMinutes` by the milliseconds of `from`.
   */
  function NextUTC(from: int, hour: int, minute: int, offsetMinutes: int, plusDays: int): (r: int)
    ensures 0 <= hour <= 23 && 0 <= minute <= 59 && plusDays >= 0 ==>
      from < r <= from + (plusDays + 1) * DAY
    ensures 0 <= hour <= 23 && 0 <= minute <= 59 ==>
      (r + offsetMinutes * MINUTE) % DAY == SendTime(hour, minute, from)
  {
    var ms := from % 1000;
    var tzNow := from - ms + offsetMinutes * MINUTE;
    var dayStart := (tzNow / DAY) * DAY;
    var target := dayStart + hour * HOUR + minute * MINUTE + plusDays * DAY;
    var local := if target <= tzNow then target + DAY else target;
    TimeOfDayOf(tzNow / DAY + plusDays + (if target <= tzNow then 1 else 0), hour * HOUR + minute * MINUTE + ms);
    local - offsetMinutes * MINUTE + ms
  }

  lemma TimeOfDayOf(day: int, t: int)
    ensures 0 <= t < DAY ==> (day * DAY + t) % DAY == t
  {
  }

  /** When the time (moved on by `plusDays`) has already passed locally, the next send is one day later. */
  lemma NextUTCPassed(from: int, hour: int, minute: int, offsetMinutes: int, plusDays: int)
    requires var tzNow := from - from % 1000 + offsetMinutes * MINUTE;
      (tzNow / DAY) * DAY + hour * HOUR + minute * MINUTE + plusDays * DAY <= tzNow
    ensures var tzNow := from - from % 1000 + offsetMinutes * MINUTE;
      NextUTC(from, hour, minute, offsetMinutes, plusDays)
        == (tzNow / DAY) * DAY + hour * HOUR + minute * MINUTE + (plusDays + 1) * DAY - offsetMinutes * MINUTE + from % 1000
  {
  }

  /** With no extra days the result is the very next instant at that local time of day: nothing in between lands on it. */
  lemma NextUTCIsNext(from: int, hour: int, minute: int, offsetMinutes: int, at: int)
    requires 0 <= hour <= 23 && 0 <= minute <= 59
    requires from < at < NextUTC(from, hour, minute, offsetMinutes, 0)
    ensures (at + offsetMinutes * MINUTE) % DAY != SendTime(hour, minute, from)
  {
    var r := NextUTC(from, hour, minute, offsetMinutes, 0);
    var t := SendTime(hour, minute, from);
    var a := at + offsetMinutes * MINUTE;
    var b := r + offsetMinutes * MINUTE;
    assert b % DAY == t;
    assert 0 < b - a < DAY;
    if a % DAY == t {
      assert (b - a) % DAY == 0 by {
        SameTimeOfDay(a, b, t);
      }
    }
  }

  lemma SameTimeOfDay(a: int, b: int, t: int)
    requires a % DAY == t && b % DAY == t
    ensures (b - a) % DAY == 0
  {
    assert a == (a / DAY) * DAY + t;
    assert b == (b / DAY) * DAY + t;
    assert b - a == (b / DAY - a / DAY) * DAY;
  }

  // ---------------------------------------------------------------------------
  // The study_tips row and upsertSettings
  // ---------------------------------------------------------------------------

  /** A `study_tips` row without its key. */
  datatype Settings = Settings(
    enabled: bool,
    frequencyDays: int,
    timeOfDay: string,
    timezone: string,
    settingsChannelId: Option<string>,
    targetChannelId: Option<string>,
    nextSendAt: Option<int>,
    lastSentAt: Option<int>,
    aiEnabled: bool)

  /** The column defaults of the table. */
  const DEFAULTS := Settings(false, DEFAULT_FREQUENCY, DEFAULT_TIME, DEFAULT_ZONE, None, None, None, None, false)

  /** One key of the patch object handed to `upsertSettings`. */
  datatype Assignment =
    | SetEnabled(on: bool)
    | SetFrequencyDays(days: int)
    | SetTimeOfDay(time: string)
    | SetTimezone(zone: string)
    | SetSettingsChannel(channelId: string)
    | SetTargetChannel(channelId: string)
    | SetNextSendAt(at: int)
    | SetAiEnabled(on: bool)

  datatype Param = BoolParam(b: bool) | IntParam(i: int) | TextParam(text: string) | TimeParam(time: int)

  function Column(a: Assignment): string {
    match a
    case SetEnabled(_) => "enabled"
    case SetFrequencyDays(_) => "frequency_days"
    case SetTimeOfDay(_) => "time_of_day"
    case SetTimezone(_) => "timezone"
    case SetSettingsChannel(_) => "settings_channel_id"
    case SetTargetChannel(_) => "target_channel_id"
    case SetNextSendAt(_) => "next_send_at"
    case SetAiEnabled(_) => "ai_enabled"
  }

  function ParamOf(a: Assignment): Param {
    match a
    case SetEnabled(b) => BoolParam(b)
    case SetFrequencyDays(d) => IntParam(d)
    case SetTimeOfDay(t) => TextParam(t)
    case SetTimezone(z) => TextParam(z)
    case SetSettingsChannel(c) => TextParam(c)
    case SetTargetChannel(c) => TextParam(c)
    case SetNextSendAt(t) => TimeParam(t)
    case SetAiEnabled(b) => BoolParam(b)
  }

  /** The position of an assignment's column in the table. */
  function Tag(a: Assignment): nat {
    match a
    case SetEnabled(_) => 0
    case SetFrequencyDays(_) => 1
    case SetTimeOfDay(_) => 2
    case SetTimezone(_) => 3
    case SetSettingsChannel(_) => 4
    case SetTargetChannel(_) => 5
    case SetNextSendAt(_) => 6
    case SetAiEnabled(_) => 7
  }

  /** Two assignments name the same column exactly when they are of the same kind. */
  lemma ColumnsFollowTags(a: Assignment, b: Assignment)
    ensures Column(a) == Column(b) <==> Tag(a) == Tag(b)
  {
  }

  /** The keys of a JavaScript object are distinct. */
  predicate DistinctColumns(patch: seq<Assignment>) {
    forall i, j :: 0 <= i < j < |patch| ==> Tag(patch[i]) != Tag(patch[j])
  }

  /** The statement `upsertSettings` issues, without its white space. */
  datatype Upsert =
    | InsertDefaults(params: seq<Param>)
    | InsertOrUpdate(columns: seq<string>, placeholders: seq<nat>, setClauses: seq<string>, params: seq<Param>)

  function Placeholder(n: nat): string {
    "$" + NatToString(n)
  }

  /**
   * `upsertSettings`' statement: with no key, insert a default row and do
   * nothing on conflict; otherwise insert the keys as columns bound to
   * `$2, $3, ...` in order and, on conflict, set each column to the same
   * placeholder. The guild id is always `$1`.
   */
  function UpsertStatement(guildId: string, patch: seq<Assignment>): (q: Upsert)
    ensures patch == [] <==> q.InsertDefaults?
    ensures |q.params| >= 1 && q.params[0] == TextParam(guildId)
    ensures q.InsertOrUpdate? ==>
      && |q.columns| == |q.placeholders| == |q.setClauses| == |patch| == |q.params| - 1
      && forall i :: 0 <= i < |patch| ==>
           && q.columns[i] == Column(patch[i])
           && q.placeholders[i] == i + 2
           && q.setClauses[i] == q.columns[i] + "=" + Placeholder(q.placeholders[i])
           && q.params[q.placeholders[i] - 1] == ParamOf(patch[i])
  {
    if patch == [] then InsertDefaults([TextParam(guildId)])
    else
      InsertOrUpdate(
        seq(|patch|, i requires 0 <= i < |patch| => Column(patch[i])),
        seq(|patch|, i requires 0 <= i < |patch| => i + 2),
        seq(|patch|, i requires 0 <= i < |patch| => Column(patch[i]) + "=" + Placeholder(i + 2)),
        [TextParam(guildId)] + seq(|patch|, i requires 0 <= i < |patch| => ParamOf(patch[i])))
  }

  /** The row after one column is assigned. */
  function Set(row: Settings, a: Assignment): Settings {
    match a
    case SetEnabled(b) => row.(enabled := b)
    case SetFrequencyDays(d) => row.(frequencyDays := d)
    case SetTimeOfDay(t) => row.(timeOfDay := t)
    case SetTimezone(z) => row.(timezone := z)
    case SetSettingsChannel(c) => row.(settingsChannelId := Some(c))
    case SetTargetChannel(c) => row.(targetChannelId := Some(c))
    case SetNextSendAt(t) => row.(nextSendAt := Some(t))
    case SetAiEnabled(b) => row.(aiEnabled := b)
  }

  function Apply(row: Settings, patch: seq<Assignment>): Settings
    decreases |patch|
  {
    if patch == [] then row else Apply(Set(row, patch[0]), patch[1..])
  }

  lemma ApplyOne(row: Settings, a: Assignment)
    ensures DistinctColumns([a]) && Apply(row, [a]) == Set(row, a)
  {
    assert [a][1..] == [];
  }

  lemma ApplyTwo(row: Settings, a: Assignment, b: Assignment)
    requires Tag(a) != Tag(b)
    ensures DistinctColumns([a, b]) && Apply(row, [a, b]) == Set(Set(row, a), b)
  {
    assert [a, b][1..] == [b];
    ApplyOne(Set(row, a), b);
  }

  lemma ApplyThree(row: Settings, a: Assignment, b: Assignment, c: Assignment)
    requires Tag(a) != Tag(b) && Tag(a) != Tag(c) && Tag(b) != Tag(c)
    ensures DistinctColumns([a, b, c]) && Apply(row, [a, b, c]) == Set(Set(Set(row, a), b), c)
  {
    assert [a, b, c][1..] == [b, c];
    ApplyTwo(Set(row, a), b, c);
  }

  /** Switching tips on with a reschedule writes those two columns and no other. */
  lemma ApplyEnableAndNext(row: Settings, next: int)
    ensures Apply(row, [SetEnabled(true), SetNextSendAt(next)]) == row.(enabled := true, nextSendAt := Some(next))
  {
    ApplyTwo(row, SetEnabled(true), SetNextSendAt(next));
  }

  /** A frequency change with a reschedule writes those two columns and no other. */
  lemma ApplyFrequencyAndNext(row: Settings, days: int, next: int)
    ensures Apply(row, [SetFrequencyDays(days), SetNextSendAt(next)]) == row.(frequencyDays := days, nextSendAt := Some(next))
  {
    ApplyTwo(row, SetFrequencyDays(days), SetNextSendAt(next));
  }

  /** The row stored for a guild, or the defaults a first insert would give. */
  function Current(rows: map<string, Settings>, guildId: string): Settings {
    if guildId in rows then rows[guildId] else DEFAULTS
  }

  /** `panelText`: the settings panel, with the defaults for unset fields. */
  function PanelText(s: Settings): (r: string)
    ensures "Study Tip Settings\n\nStatus: " + (if s.enabled then "Enabled" else "Disabled") <= r
    ensures s.timezone != "" ==> EndsWith(r, " " + s.timezone + ".")
    ensures s.timezone == "" ==> EndsWith(r, " " + DEFAULT_ZONE + ".")
  {
    var zone := if s.timezone != "" then s.timezone else DEFAULT_ZONE;
    var time := if s.timeOfDay != "" then s.timeOfDay else DEFAULT_TIME;
    var freq := if s.frequencyDays != 0 then s.frequencyDays else DEFAULT_FREQUENCY;
    var head := "Study Tip Settings\n\nStatus: " + (if s.enabled then "Enabled" else "Disabled");
    var middle := "\nNext send (server time): " + NextText(s.nextSendAt) + "\n\nTips are sent every " + Every(freq) + " at " + time;
    EndsWithConcat(head + middle, " " + zone + ".");
    head + middle + (" " + zone + ".")
  }

  /** `day` for 1, `N days` otherwise. */
  function Every(freq: int): (r: string)
    ensures freq == 1 <==> r == "day"
    ensures freq != 1 ==> r == IntToString(freq) + " days"
  {
    if freq == 1 then "day" else IntToString(freq) + " days"
  }

  /** Discord's full date markup for a time in milliseconds, or `TBA`. */
  function NextText(at: Option<int>): (r: string)
    ensures at.None? <==> r == "TBA"
  {
    if at.Some? then "<t:" + IntToString(at.value / 1000) + ":F>" else "TBA"
  }

  /** The reply to the `status` subcommand. */
  function StatusText(s: Settings): (r: string)
    ensures "Status: " + (if s.enabled then "Enabled" else "Disabled") + "\n" <= r
    ensures EndsWith(r, "\nNext: " + NextText(s.nextSendAt))
  {
    var head := "Status: " + (if s.enabled then "Enabled" else "Disabled") + "\n";
    var middle := "Frequency: " + IntToString(s.frequencyDays) + " day(s)\n"
      + "Time: " + s.timeOfDay + " " + s.timezone + "\n"
      + "Target: " + (if s.targetChannelId.Some? && s.targetChannelId.value != "" then "<#" + s.targetChannelId.value + ">" else "#student-docs (default)");
    EndsWithConcat(head + middle, "\nNext: " + NextText(s.nextSendAt));
    head + middle + ("\nNext: " + NextText(s.nextSendAt))
  }

  /** A `/study_tips` subcommand with its options; `entitled` is the premium check's answer. */
  datatype Command =
    | Enable
    | Disable
    | Status
    | SetTime(time: string, zone: Option<string>)
    | SetFrequency(days: int)
    | SetTarget(channelId: string)
    | SetAi(on: bool, entitled: bool)
    | OpenPanel(channelId: string)

  /** How a subcommand answers. */
  datatype Reply =
    | EnabledReply(next: int)
    | DisabledReply
    | StatusReply(text: string)
    | InvalidTime
    | TimeSet(time: string, zone: string, next: int)
    | InvalidDays
    | FrequencySet(days: int)
    | TargetSet(channelId: string)
    | PremiumRequired
    | AiSet(on: bool)
    | PanelPosted(panel: string)

  /** The stored time of day, or noon when it does not parse. */
  function StoredClock(s: Settings): Clock {
    ParseHHMM(s.timeOfDay).GetOr(Clock(12, 0))
  }

  function ZoneOf(s: Settings): string {
    if s.timezone != "" then s.timezone else DEFAULT_ZONE
  }

  /** The next send for a time of day in a zone, computed at `now` without extra days. */
  function NextAt(c: Clock, zone: string, now: int, offset: ZoneOffset): int {
    NextUTC(now, c.hour, c.minute, offset(zone, now), 0)
  }

  /** The zone `set_time` stores: the option, else the stored zone, else UTC. */
  function ChosenZone(zone: Option<string>, s: Settings): string {
    if zone.Some? && zone.value != "" then zone.value else ZoneOf(s)
  }

  /** The next send for a clock in a zone lies after `now`, within a day, at that local time. */
  lemma NextAtIsNext(c: Clock, zone: string, now: int, offset: ZoneOffset)
    requires c.hour <= 23 && c.minute <= 59
    ensures var at := NextAt(c, zone, now, offset);
      && now < at <= now + DAY
      && (at + offset(zone, now) * MINUTE) % DAY == SendTime(c.hour, c.minute, now)
  {
  }

  /** A stored time of day is always a valid clock, whatever the column holds. */
  lemma StoredClockValid(s: Settings)
    ensures StoredClock(s).hour <= 23 && StoredClock(s).minute <= 59
    ensures ParseHHMM(s.timeOfDay).None? ==> StoredClock(s) == Clock(12, 0)
  {
  }

  /** `enable`: switch on and schedule the next send at the stored time. */
  function EnableStep(s: Settings, now: int, offset: ZoneOffset): (r: (Reply, seq<Assignment>))
    ensures DistinctColumns(r.1)
  {
    var next := NextAt(StoredClock(s), ZoneOf(s), now, offset);
    (EnabledReply(next), [SetEnabled(true), SetNextSendAt(next)])
  }

  /** `set_time`: a valid time is stored with its zone and reschedules; anything else is refused. */
  function SetTimeStep(time: string, zone: Option<string>, s: Settings, now: int, offset: ZoneOffset): (r: (Reply, seq<Assignment>))
    ensures DistinctColumns(r.1)
  {
    var z := ChosenZone(zone, s);
    var parsed := ParseHHMM(time);
    if parsed.None? then (InvalidTime, [])
    else
      var next := NextAt(parsed.value, z, now, offset);
      (TimeSet(time, z, next), [SetTimeOfDay(time), SetTimezone(z), SetNextSendAt(next)])
  }

  /** `set_frequency`: a frequency on the ladder is stored and reschedules; anything else is refused. */
  function SetFrequencyStep(days: int, s: Settings, now: int, offset: ZoneOffset): (r: (Reply, seq<Assignment>))
    ensures DistinctColumns(r.1)
  {
    if days !in FREQUENCIES then (InvalidDays, [])
    else
      var next := NextAt(StoredClock(s), ZoneOf(s), now, offset);
      (FrequencySet(days), [SetFrequencyDays(days), SetNextSendAt(next)])
  }

  /** `set_ai`: switching on needs premium; switching off never does. */
  function SetAiStep(on: bool, entitled: bool): (r: (Reply, seq<Assignment>))
    ensures DistinctColumns(r.1)
  {
    if on && !entitled then (PremiumRequired, [])
    else
      (AiSet(on), [SetAiEnabled(on)])
  }

  /**
   * The switch of `execute`, on the row `readSettings` returned: the reply and
   * the patch handed to `upsertSettings` (empty when nothing is written).
   */
  function Decide(cmd: Command, s: Settings, now: int, offset: ZoneOffset): (r: (Reply, seq<Assignment>))
    ensures DistinctColumns(r.1)
  {
    match cmd
    case Enable => EnableStep(s, now, offset)
    case Disable => (DisabledReply, [SetEnabled(false)])
    case Status => (StatusReply(StatusText(s)), [])
    case SetTime(time, zone) => SetTimeStep(time, zone, s, now, offset)
    case SetFrequency(days) => SetFrequencyStep(days, s, now, offset)
    case SetTarget(ch) => (TargetSet(ch), [SetTargetChannel(ch)])
    case SetAi(on, entitled) => SetAiStep(on, entitled)
    case OpenPanel(ch) => (PanelPosted(PanelText(s)), [SetSettingsChannel(ch)])
  }

  /** `enable` switches tips on and schedules the next send after `now`, within a day, at the stored local time. */
  lemma EnableEffect(s: Settings, now: int, offset: ZoneOffset)
    ensures var d := Decide(Enable, s, now, offset);
      var c := StoredClock(s);
      && d.0.EnabledReply?
      && Apply(s, d.1) == s.(enabled := true, nextSendAt := Some(d.0.next))
      && now < d.0.next <= now + DAY
      && (d.0.next + offset(ZoneOf(s), now) * MINUTE) % DAY == SendTime(c.hour, c.minute, now)
  {
    var next := NextAt(StoredClock(s), ZoneOf(s), now, offset);
    ApplyTwo(s, SetEnabled(true), SetNextSendAt(next));
    StoredClockValid(s);
    NextAtIsNext(StoredClock(s), ZoneOf(s), now, offset);
  }

  /** `disable`, `set_target` and `open_panel` each write exactly their one column. */
  lemma SingleColumnEffects(cmd: Command, s: Settings, now: int, offset: ZoneOffset)
    requires cmd.Disable? || cmd.SetTarget? || cmd.OpenPanel?
    ensures var after := Apply(s, Decide(cmd, s, now, offset).1);
      && (cmd.Disable? ==> after == s.(enabled := false))
      && (cmd.SetTarget? ==> after == s.(targetChannelId := Some(cmd.channelId)))
      && (cmd.OpenPanel? ==> after == s.(settingsChannelId := Some(cmd.channelId)))
  {
    if cmd.Disable? {
      ApplyOne(s, SetEnabled(false));
    } else if cmd.SetTarget? {
      ApplyOne(s, SetTargetChannel(cmd.channelId));
    } else {
      ApplyOne(s, SetSettingsChannel(cmd.channelId));
    }
  }

  /** `status` writes nothing and reports the row as read. */
  lemma StatusEffect(s: Settings, now: int, offset: ZoneOffset)
    ensures Decide(Status, s, now, offset) == (StatusReply(StatusText(s)), [])
    ensures Apply(s, Decide(Status, s, now, offset).1) == s
  {
  }

  /**
   * `set_time` writes exactly when the time parses; it then stores the time
   * and the chosen zone and schedules the next send after `now`, within a
   * day, at that time in that zone.
   */
  lemma SetTimeEffect(time: string, zone: Option<string>, s: Settings, now: int, offset: ZoneOffset)
    ensures var d := Decide(SetTime(time, zone), s, now, offset);
      && (d.1 == [] <==> ParseHHMM(time).None?)
      && (d.1 == [] ==> d.0 == InvalidTime)
      && (d.1 != [] ==>
            var c := ParseHHMM(time).value;
            var z := ChosenZone(zone, s);
            && d.0.TimeSet?
            && Apply(s, d.1) == s.(timeOfDay := time, timezone := z, nextSendAt := Some(d.0.next))
            && now < d.0.next <= now + DAY
            && (d.0.next + offset(z, now) * MINUTE) % DAY == SendTime(c.hour, c.minute, now))
  {
    var parsed := ParseHHMM(time);
    if parsed.Some? {
      var z := ChosenZone(zone, s);
      var next := NextAt(parsed.value, z, now, offset);
      ApplyThree(s, SetTimeOfDay(time), SetTimezone(z), SetNextSendAt(next));
      NextAtIsNext(parsed.value, z, now, offset);
    }
  }

  /**
   * `set_frequency` writes exactly when the number of days is on the ladder;
   * it then stores it and reschedules at the stored time.
   */
  lemma SetFrequencyEffect(days: int, s: Settings, now: int, offset: ZoneOffset)
    ensures var d := Decide(SetFrequency(days), s, now, offset);
      && (d.1 == [] <==> days !in FREQUENCIES)
      && (d.1 == [] ==> d.0 == InvalidDays)
      && (d.1 != [] ==>
            var next := NextAt(StoredClock(s), ZoneOf(s), now, offset);
            && d.0 == FrequencySet(days)
            && Apply(s, d.1) == s.(frequencyDays := days, nextSendAt := Some(next))
            && now < next <= now + DAY)
  {
    if days in FREQUENCIES {
      var next := NextAt(StoredClock(s), ZoneOf(s), now, offset);
      ApplyTwo(s, SetFrequencyDays(days), SetNextSendAt(next));
      StoredClockValid(s);
      NextAtIsNext(StoredClock(s), ZoneOf(s), now, offset);
    }
  }

  /** AI tips are switched on only for an entitled guild; switching off always succeeds. */
  lemma AiNeedsPremium(on: bool, entitled: bool, s: Settings, now: int, offset: ZoneOffset)
    ensures var d := Decide(SetAi(on, entitled), s, now, offset);
      && (d.1 == [] <==> on && !entitled)
      && (d.1 == [] ==> d.0 == PremiumRequired)
      && (d.1 != [] ==> Apply(s, d.1) == s.(aiEnabled := on))
      && (Apply(s, d.1).aiEnabled && !s.aiEnabled ==> entitled)
  {
    if !(on && !entitled) {
      ApplyOne(s, SetAiEnabled(on));
    } else {
      assert Apply(s, []) == s;
    }
  }

  class Table {
    /** `study_tips`, by guild id. */
    var rows: map<string, Settings>

    constructor ()
      ensures rows == map[]
    {
      rows := map[];
    }

    /**
     * `upsertSettings`: with an empty patch a default row is inserted when
     * none exists; otherwise the guild's row (or a fresh default row) gets
     * every assignment of the patch.
     */
    method Upsert(guildId: string, patch: seq<Assignment>) returns (q: Upsert)
      requires DistinctColumns(patch)
      modifies this
      ensures q == UpsertStatement(guildId, patch)
      ensures rows == old(rows)[guildId := Apply(Current(old(rows), guildId), patch)]
    {
      q := UpsertStatement(guildId, patch);
      rows := rows[guildId := Apply(Current(rows, guildId), patch)];
    }

    /** `readSettings`: the guild's row, inserting the defaults first when it has none. */
    method Read(guildId: string) returns (s: Settings)
      modifies this
      ensures s == Current(old(rows), guildId)
      ensures rows == old(rows)[guildId := s]
    {
      var _ := Upsert(guildId, []);
      s := rows[guildId];
    }

    /**
     * `execute` inside a guild: read (creating) the row, decide, and write
     * the patch when there is one. `status` and `open_panel` read the row a
     * second time, which changes nothing.
     */
    method Execute(guildId: string, cmd: Command, now: int, offset: ZoneOffset) returns (reply: Reply)
      modifies this
      ensures var s := Current(old(rows), guildId);
        var d := Decide(cmd, s, now, offset);
        && reply == d.0
        && rows == old(rows)[guildId := Apply(s, d.1)]
    {
      var s := ReadFor(guildId, cmd);
      var d := Decide(cmd, s, now, offset);
      Write(guildId, s, d.1);
      reply := d.0;
    }

    /** The read at the start of `execute`, done twice for `status` and `open_panel`. */
    method ReadFor(guildId: string, cmd: Command) returns (s: Settings)
      modifies this
      ensures s == Current(old(rows), guildId)
      ensures rows == old(rows)[guildId := s]
    {
      s := Read(guildId);
      if cmd.Status? || cmd.OpenPanel? {
        s := Read(guildId);
      }
    }

    /** The write at the end of `execute`: the patch, when there is one, on the row just read. */
    method Write(guildId: string, s: Settings, patch: seq<Assignment>)
      requires DistinctColumns(patch)
      requires guildId in rows && rows[guildId] == s
      modifies this
      ensures rows == old(rows)[guildId := Apply(s, patch)]
    {
      if patch != [] {
        var _ := Upsert(guildId, patch);
      } else {
        assert Apply(s, patch) == s;
        assert rows == rows[guildId := s];
      }
    }
  }
}
