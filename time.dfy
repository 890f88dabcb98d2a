/**
 * request/time.go: the Timestamp type, decoded from and encoded to the single
 * layout "2006-01-02 15:04:05 -0700", and UnixTimestamp, decoded from a JSON
 * number of seconds since the Unix epoch. The parsing and formatting follow
 * Go's time package for this layout.
 */
module Time {
  import opened Wrappers
  import opened Decimal
  import opened Calendar
  import opened Json

  const NanosPerSecond: int := 1_000_000_000
  const SecondsPerDay: int := 86400

  /** Go's reference time written in the layout that Timestamp uses. */
  const DateLayout: string := "2006-01-02 15:04:05 -0700"

  /**
   * An instant: whole seconds since 1970-01-01 00:00:00 UTC, the nanoseconds
   * within that second, and the offset of the time's zone east of UTC in minutes.
   */
  datatype Time = Time(sec: int, nsec: int, offset: int)

  predicate Normal(t: Time) {
    0 <= t.nsec < NanosPerSecond
  }

  function UnixNanos(t: Time): int {
    t.sec * NanosPerSecond + t.nsec
  }

  /** time.Time.Add: the instant `d` nanoseconds later, in the same zone. */
  function AddNanos(t: Time, d: int): (r: Time)
    ensures UnixNanos(r) == UnixNanos(t) + d && Normal(r) && r.offset == t.offset
  {
    var n := UnixNanos(t) + d;
    Time(n / NanosPerSecond, n % NanosPerSecond, t.offset)
  }

  // ---------------------------------------------------------------- formatting

  /** The local date and clock of a time in its own zone. */
  function LocalDate(t: Time): Date {
    CivilFromDays((t.sec + t.offset * 60) / SecondsPerDay)
  }

  function LocalClock(t: Time): int {
    (t.sec + t.offset * 60) % SecondsPerDay
  }

  /**
   * time.Time.Format(DateLayout): the civil date and clock in the time's own
   * zone; nanoseconds are not written. When the local year has four digits
   * and the offset fewer than 100 hours, the text has the layout's shape:
   * 25 characters with the separators where the layout has them.
   */
  function Format(t: Time): (r: string)
    ensures FixedWidth(t) ==>
              && |r| == 25 && r[4] == '-' && r[7] == '-' && r[10] == ' ' && r[13] == ':' && r[16] == ':'
              && r[19] == ' ' && r[20] == ZoneSign(t.offset)
              && AllDigits(r[..4]) && AllDigits(r[21..])
  {
    var date, clock, a := LocalDate(t), LocalClock(t), Abs(t.offset);
    var ys, ms, ds := AppendInt(date.year, 4), AppendInt(date.month, 2), AppendInt(date.day, 2);
    var hs, ns, ss := AppendInt(clock / 3600, 2), AppendInt(clock / 60 % 60, 2), AppendInt(clock % 60, 2);
    var zh, zm := AppendInt(a / 60, 2), AppendInt(a % 60, 2);
    if FixedWidth(t) then
      FormattedShape(t);
      LayoutText(ys, ms, ds, hs, ns, ss, ZoneSign(t.offset), zh, zm)
    else LayoutText(ys, ms, ds, hs, ns, ss, ZoneSign(t.offset), zh, zm)
  }

  /** The fields Format writes have their fixed widths, so the text has the layout's shape. */
  lemma FormattedShape(t: Time)
    requires FixedWidth(t)
    ensures var date, clock, a := LocalDate(t), LocalClock(t), Abs(t.offset);
            var r := LayoutText(AppendInt(date.year, 4), AppendInt(date.month, 2), AppendInt(date.day, 2),
                                AppendInt(clock / 3600, 2), AppendInt(clock / 60 % 60, 2), AppendInt(clock % 60, 2),
                                ZoneSign(t.offset), AppendInt(a / 60, 2), AppendInt(a % 60, 2));
            && |r| == 25 && r[4] == '-' && r[7] == '-' && r[10] == ' ' && r[13] == ':' && r[16] == ':'
            && r[19] == ' ' && r[20] == ZoneSign(t.offset)
            && AllDigits(r[..4]) && AllDigits(r[21..])
  {
    var date, clock, a := LocalDate(t), LocalClock(t), Abs(t.offset);
    ClockDigits(clock);
    AppendIntFixed(date.year, 4);
    AppendIntFixed(date.month, 2);
    AppendIntFixed(date.day, 2);
    AppendIntFixed(clock / 3600, 2);
    AppendIntFixed(clock / 60 % 60, 2);
    AppendIntFixed(clock % 60, 2);
    AppendIntFixed(a / 60, 2);
    AppendIntFixed(a % 60, 2);
    LayoutTextShape(AppendInt(date.year, 4), AppendInt(date.month, 2), AppendInt(date.day, 2),
                    AppendInt(clock / 3600, 2), AppendInt(clock / 60 % 60, 2), AppendInt(clock % 60, 2),
                    ZoneSign(t.offset), AppendInt(a / 60, 2), AppendInt(a % 60, 2));
  }

  /** Text assembled from fixed-width digit fields has the layout's separators and digits where the layout has them. */
  lemma LayoutTextShape(ys: string, ms: string, ds: string, hs: string, ns: string, ss: string, sign: char, zh: string, zm: string)
    requires |ys| == 4 && |ms| == 2 && |ds| == 2 && |hs| == 2 && |ns| == 2 && |ss| == 2 && |zh| == 2 && |zm| == 2
    requires AllDigits(ys) && AllDigits(zh) && AllDigits(zm)
    ensures var r := LayoutText(ys, ms, ds, hs, ns, ss, sign, zh, zm);
            && |r| == 25 && r[4] == '-' && r[7] == '-' && r[10] == ' ' && r[13] == ':' && r[16] == ':'
            && r[19] == ' ' && r[20] == sign && r[..4] == ys && AllDigits(r[21..])
  {
    var r := LayoutText(ys, ms, ds, hs, ns, ss, sign, zh, zm);
    assert r[..4] == ys;
    assert r[21..] == zh + zm;
  }

  // ------------------------------------------------------------------- parsing

  /** A number read at some position, and the position after it. */
  datatype Scan = Scan(value: int, next: nat)

  /** Exactly `width` digits at position `p`. */
  function Fixed(s: string, p: nat, width: nat): (r: Option<Scan>)
    ensures r.Some? ==> r.value.next == p + width <= |s|
  {
    if p + width <= |s| && AllDigits(s[p..p + width]) then Some(Scan(Value(s[p..p + width]), p + width)) else None
  }

  /** One digit, or two when a second digit follows (the hour field "15" reads either). */
  function OneOrTwo(s: string, p: nat): (r: Option<Scan>)
    ensures r.Some? ==> p < r.value.next <= |s|
  {
    if p < |s| && IsDigit(s[p]) then
      if p + 1 < |s| && IsDigit(s[p + 1]) then Fixed(s, p, 2) else Some(Scan(DigitValue(s[p]), p + 1))
    else None
  }

  function Literal(s: string, p: nat, c: char): (r: Option<nat>)
    ensures r.Some? ==> r.value == p + 1 <= |s|
  {
    if p < |s| && s[p] == c then Some(p + 1) else None
  }

  function SpaceRunEnd(s: string, p: nat): (r: nat)
    requires p <= |s|
    ensures p <= r <= |s|
    decreases |s| - p
  {
    if p < |s| && s[p] == ' ' then SpaceRunEnd(s, p + 1) else p
  }

  /** A space in the layout: the text must not continue with anything else, and a run of spaces is skipped. */
  function Space(s: string, p: nat): (r: Option<nat>)
    ensures r.Some? ==> p <= r.value <= |s|
  {
    if p > |s| || (p < |s| && s[p] != ' ') then None else Some(SpaceRunEnd(s, p))
  }

  function DigitRunEnd(s: string, p: nat): (r: nat)
    requires p <= |s|
    ensures p <= r <= |s| && AllDigits(s[p..r])
    decreases |s| - p
  {
    if p < |s| && IsDigit(s[p]) then
      var r := DigitRunEnd(s, p + 1);
      assert s[p..r] == [s[p]] + s[p + 1..r];
      r
    else p
  }

  /**
   * A fraction of a second the layout does not ask for: '.' or ',' then digits,
   * of which the first nine give the nanoseconds and the rest are skipped.
   */
  function Fraction(s: string, p: nat): (r: Scan)
    requires p <= |s|
    ensures p <= r.next <= |s|
  {
    if p + 2 <= |s| && (s[p] == '.' || s[p] == ',') && IsDigit(s[p + 1]) then
      var e := DigitRunEnd(s, p + 1);
      var k := if e - (p + 1) > 9 then 9 else e - (p + 1);
      assert forall i :: p + 1 <= i < p + 1 + k ==> IsDigit(s[i]) by {
        forall i | p + 1 <= i < p + 1 + k ensures IsDigit(s[i]) {
          assert s[i] == s[p + 1..e][i - (p + 1)];
        }
      }
      Scan(Value(s[p + 1..p + 1 + k]) * Pow10(9 - k), e)
    else Scan(0, p)
  }

  /** The fields read from a text in the layout, before their ranges are checked. */
  datatype Fields = Fields(year: int, month: int, day: int, hour: int, minute: int, second: int, nsec: int,
                           zoneSign: char, zoneHour: int, zoneMinute: int)

  /** Reads "2006-01-02 15:04:05 -0700" left to right, as the layout's elements say. */
  function ScanLayout(s: string): Option<Fields> {
    var year :- Fixed(s, 0, 4);
    var p1 :- Literal(s, year.next, '-');
    var month :- Fixed(s, p1, 2);
    var p2 :- Literal(s, month.next, '-');
    var day :- Fixed(s, p2, 2);
    var p3 :- Space(s, day.next);
    var hour :- OneOrTwo(s, p3);
    var p4 :- Literal(s, hour.next, ':');
    var minute :- Fixed(s, p4, 2);
    var p5 :- Literal(s, minute.next, ':');
    var second :- Fixed(s, p5, 2);
    var frac := Fraction(s, second.next);
    var p6 :- Space(s, frac.next);
    var zoneHour :- Fixed(s, p6 + 1, 2);
    var zoneMinute :- Fixed(s, zoneHour.next, 2);
    if zoneMinute.next == |s| && (s[p6] == '+' || s[p6] == '-') then
      Some(Fields(year.value, month.value, day.value, hour.value, minute.value, second.value, frac.value,
                  s[p6], zoneHour.value, zoneMinute.value))
    else None
  }

  /** The range checks Go applies; zone offsets of up to 24 hours and 60 minutes are let through. */
  predicate InRange(f: Fields) {
    && 1 <= f.month <= 12
    && 0 <= f.hour < 24 && 0 <= f.minute < 60 && 0 <= f.second < 60
    && f.zoneHour <= 24 && f.zoneMinute <= 60
    && 1 <= f.day <= DaysIn(f.month, f.year)
  }

  function ZoneOffset(f: Fields): int {
    (if f.zoneSign == '-' then -1 else 1) * (f.zoneHour * 60 + f.zoneMinute)
  }

  /** The instant the fields name: the civil time in the given zone, shifted to UTC. */
  function FieldsTime(f: Fields): Time
    requires 1 <= f.month <= 12
  {
    var off := ZoneOffset(f);
    Time(DaysFromCivil(Date(f.year, f.month, f.day)) * SecondsPerDay + f.hour * 3600 + f.minute * 60 + f.second - off * 60,
         f.nsec, off)
  }

  /** A rejected text. */
  datatype ParseError = ParseError(value: string)

  /**
   * time.Parse(DateLayout, s). A refusal names the text; every accepted text
   * names a time whose local year has four digits and whose offset is at
   * most 25 hours either way.
   */
  function ParseLayout(s: string): (r: Result<Time, ParseError>)
    ensures r.Err? ==> r.error == ParseError(s)
    ensures r.Ok? ==> FixedWidth(r.value) && -1500 <= r.value.offset <= 1500
  {
    match ScanLayout(s)
    case None => Err(ParseError(s))
    case Some(f) =>
      if InRange(f) then
        ScannedFields(s);
        FieldsLocal(f);
        Ok(FieldsTime(f))
      else Err(ParseError(s))
  }

  // ------------------------------------------------------------------ Timestamp

  /** request.Timestamp: a time decoded from, and encoded to, DateLayout. */
  datatype Timestamp = Timestamp(t: Time)

  function ParseErrorText(e: ParseError): string {
    "parsing time \"" + e.value + "\""
  }

  /**
   * Timestamp.UnmarshalJSON: the value is read as a Go string and parsed with
   * DateLayout; the held time is replaced only when both steps succeed.
   */
  function UnmarshalTimestamp(held: Timestamp, b: Json): (r: (Timestamp, Option<JsonError>))
    ensures r.1.None? <==> b.String? && ParseLayout(b.s).Ok?
    ensures r.1.Some? ==> r.0 == held
    ensures r.1.None? ==> r.0 == Timestamp(ParseLayout(b.s).value)
    ensures !b.String? && !b.Null? ==> r.1 == Some(TypeError(Kind(b), "string"))
  {
    var s := DecodeString(b, "");
    if s.saved.Some? then (held, s.saved)
    else match ParseLayout(s.value)
      case Err(e) =>
        assert b.Null? ==> ScanLayout("").None?;
        (held, Some(CustomError(ParseErrorText(e))))
      case Ok(t) => (Timestamp(t), None)
  }

  /** Timestamp.MarshalJSON: the time formatted with DateLayout, as a JSON string. */
  function MarshalTimestamp(ts: Timestamp): Json {
    String(Format(ts.t))
  }

  /** Timestamp.String. */
  function TimestampString(ts: Timestamp): string {
    Format(ts.t)
  }

  /** Timestamp.ToTime. */
  function ToTime(ts: Timestamp): (r: Time)
    ensures r == ts.t
  {
    ts.t
  }

  // -------------------------------------------------------------- UnixTimestamp

  /** Go's conversion of a float64 to int64: toward zero. */
  function Trunc(v: real): (r: int)
    ensures v >= 0.0 ==> r as real <= v < r as real + 1.0
    ensures v < 0.0 ==> r as real - 1.0 < v <= r as real
  {
    if v >= 0.0 then v.Floor else -((-v).Floor)
  }

  /** Go's integer division, which truncates toward zero. */
  function Quot(a: int, b: int): int
    requires b > 0
  {
    if a >= 0 then a / b else -((-a) / b)
  }

  /** time.Unix(sec, nsec): nanoseconds outside [0, 1e9) are carried into the seconds; the zone is Local. */
  function Unix(sec: int, nsec: int, local: int): (r: Time)
    ensures UnixNanos(r) == sec * NanosPerSecond + nsec && Normal(r) && r.offset == local
  {
    if nsec < 0 || nsec >= NanosPerSecond then
      var n := Quot(nsec, NanosPerSecond);
      var s, ns := sec + n, nsec - n * NanosPerSecond;
      if ns < 0 then Time(s - 1, ns + NanosPerSecond, local) else Time(s, ns, local)
    else Time(sec, nsec, local)
  }

  /** request.UnixTimestamp. */
  datatype UnixTimestamp = UnixTimestamp(t: Time)

  /** UnixTimestamp.ToTime. */
  function UnixToTime(ut: UnixTimestamp): (r: Time)
    ensures r == ut.t
  {
    ut.t
  }

  /**
   * UnixTimestamp.UnmarshalJSON: the value is read as a float64 (here an exact
   * real); its integer part gives the seconds and its fraction, scaled to
   * nanoseconds, the rest. `local` is the offset of the process's Local zone.
   */
  function UnmarshalUnix(held: UnixTimestamp, b: Json, local: int): (r: (UnixTimestamp, Option<JsonError>))
    ensures r.1.None? <==> b.Number? || b.Null?
    ensures r.1.Some? ==> r.0 == held
  {
    var v := DecodeFloat(b, 0.0);
    if v.saved.Some? then (held, v.saved)
    else
      var sec := Trunc(v.value);
      var nsec := Trunc((v.value - sec as real) * NanosPerSecond as real);
      (UnixTimestamp(Unix(sec, nsec, local)), None)
  }

  // ------------------------------------------------------------- round trips

  /** Format writes every field with exactly the digits the layout has. */
  predicate FixedWidth(t: Time) {
    0 <= LocalDate(t).year <= 9999 && -6000 < t.offset < 6000
  }

  lemma FixedAt(s: string, p: nat, piece: string)
    requires p + |piece| <= |s| && s[p..p + |piece|] == piece && AllDigits(piece)
    ensures Fixed(s, p, |piece|) == Some(Scan(Value(piece), p + |piece|))
  {
  }

  /** Text in the layout, assembled from its fields' digits. */
  function LayoutText(ys: string, ms: string, ds: string, hs: string, ns: string, ss: string, sign: char, zh: string, zm: string): string {
    ys + "-" + ms + "-" + ds + " " + hs + ":" + ns + ":" + ss + " " + ([sign] + zh + zm)
  }

  /** Any text assembled from fixed-width digit fields scans back to the numbers those digits denote. */
  lemma {:induction false} ScanLayoutText(ys: string, ms: string, ds: string, hs: string, ns: string, ss: string, sign: char, zh: string, zm: string)
    requires |ys| == 4 && |ms| == 2 && |ds| == 2 && |hs| == 2 && |ns| == 2 && |ss| == 2 && |zh| == 2 && |zm| == 2
    requires AllDigits(ys) && AllDigits(ms) && AllDigits(ds) && AllDigits(hs) && AllDigits(ns) && AllDigits(ss)
    requires AllDigits(zh) && AllDigits(zm) && (sign == '+' || sign == '-')
    ensures ScanLayout(LayoutText(ys, ms, ds, hs, ns, ss, sign, zh, zm))
            == Some(Fields(Value(ys), Value(ms), Value(ds), Value(hs), Value(ns), Value(ss), 0, sign, Value(zh), Value(zm)))
  {
    var f := LayoutText(ys, ms, ds, hs, ns, ss, sign, zh, zm);
    assert |f| == 25;
    assert f[0..4] == ys;
    assert f[4] == '-';
    assert f[5..7] == ms;
    assert f[7] == '-';
    assert f[8..10] == ds;
    assert f[10] == ' ' && IsDigit(f[11]) && IsDigit(f[12]);
    assert f[11..13] == hs;
    assert f[13] == ':';
    assert f[14..16] == ns;
    assert f[16] == ':';
    assert f[17..19] == ss;
    assert f[19] == ' ' && f[20] == sign;
    assert f[21..23] == zh;
    assert f[23..25] == zm;
    FixedAt(f, 0, ys);
    FixedAt(f, 5, ms);
    FixedAt(f, 8, ds);
    FixedAt(f, 11, hs);
    FixedAt(f, 14, ns);
    FixedAt(f, 17, ss);
    FixedAt(f, 21, zh);
    FixedAt(f, 23, zm);
    assert SpaceRunEnd(f, 10) == 11;
    assert Fraction(f, 19) == Scan(0, 19);
    assert SpaceRunEnd(f, 19) == 20;
  }

  lemma ClockDigits(clock: int)
    requires 0 <= clock < SecondsPerDay
    ensures 0 <= clock / 3600 < 24 && 0 <= clock / 60 % 60 < 60 && 0 <= clock % 60 < 60
    ensures clock / 3600 * 3600 + clock / 60 % 60 * 60 + clock % 60 == clock
  {
  }

  function Abs(x: int): nat {
    if x < 0 then -x else x
  }

  function ZoneSign(offset: int): char {
    if offset < 0 then '-' else '+'
  }

  lemma FormatIsLayoutText(t: Time)
    ensures var date, clock, a := LocalDate(t), LocalClock(t), Abs(t.offset);
            Format(t) == LayoutText(AppendInt(date.year, 4), AppendInt(date.month, 2), AppendInt(date.day, 2),
                                    AppendInt(clock / 3600, 2), AppendInt(clock / 60 % 60, 2), AppendInt(clock % 60, 2),
                                    ZoneSign(t.offset), AppendInt(a / 60, 2), AppendInt(a % 60, 2))
  {
  }

  /** Reading back what Format writes, when every field has its fixed width, gives the fields Format wrote. */
  lemma ScanFormat(t: Time)
    requires FixedWidth(t)
    ensures var date, clock, a := LocalDate(t), LocalClock(t), Abs(t.offset);
            ScanLayout(Format(t)) == Some(Fields(date.year, date.month, date.day, clock / 3600, clock / 60 % 60, clock % 60, 0,
                                                 ZoneSign(t.offset), a / 60, a % 60))
  {
    var date, clock, a := LocalDate(t), LocalClock(t), Abs(t.offset);
    var h, m, sec := clock / 3600, clock / 60 % 60, clock % 60;
    ClockDigits(clock);
    AppendIntFixed(date.year, 4);
    AppendIntFixed(date.month, 2);
    AppendIntFixed(date.day, 2);
    AppendIntFixed(h, 2);
    AppendIntFixed(m, 2);
    AppendIntFixed(sec, 2);
    AppendIntFixed(a / 60, 2);
    AppendIntFixed(a % 60, 2);
    FormatIsLayoutText(t);
    ScanLayoutText(AppendInt(date.year, 4), AppendInt(date.month, 2), AppendInt(date.day, 2),
                   AppendInt(h, 2), AppendInt(m, 2), AppendInt(sec, 2),
                   ZoneSign(t.offset), AppendInt(a / 60, 2), AppendInt(a % 60, 2));
  }

  lemma DaySplit(x: int)
    ensures x / SecondsPerDay * SecondsPerDay + x % SecondsPerDay == x
  {
  }

  /** Offsets Format writes so that they read back: under 25 hours. */
  predicate Reparsable(t: Time) {
    0 <= LocalDate(t).year <= 9999 && -1500 < t.offset < 1500
  }

  /**
   * Format then parse gives back the instant and its zone offset; only the
   * nanoseconds, which the layout does not write, are lost.
   */
  lemma FormatThenParse(t: Time)
    requires Reparsable(t)
    ensures ParseLayout(Format(t)) == Ok(t.(nsec := 0))
  {
    var date, clock, a := LocalDate(t), LocalClock(t), Abs(t.offset);
    ScanFormat(t);
    ClockDigits(clock);
    var f := Fields(date.year, date.month, date.day, clock / 3600, clock / 60 % 60, clock % 60, 0, ZoneSign(t.offset), a / 60, a % 60);
    assert InRange(f);
    assert ZoneOffset(f) == t.offset;
    DaySplit(t.sec + t.offset * 60);
    assert FieldsTime(f) == t.(nsec := 0);
  }

  /** The local date and clock of a time whose local seconds split into the given day and second of the day. */
  lemma LocalOf(t: Time, days: int, r: int)
    requires 0 <= r < SecondsPerDay && t.sec + t.offset * 60 == days * SecondsPerDay + r
    ensures LocalDate(t) == CivilFromDays(days) && LocalClock(t) == r
  {
    var local := t.sec + t.offset * 60;
    assert local / SecondsPerDay == days;
  }

  lemma FixedBound(s: string, p: nat, width: nat)
    requires Fixed(s, p, width).Some?
    ensures 0 <= Fixed(s, p, width).value.value < Pow10(width)
  {
    ValueBound(s[p..p + width]);
  }

  /** The numbers a successful scan reads are non-negative, and the year has at most four digits. */
  lemma ScannedFields(s: string)
    requires ScanLayout(s).Some?
    ensures var f := ScanLayout(s).value;
            0 <= f.year <= 9999 && 0 <= f.hour && 0 <= f.minute && 0 <= f.second && 0 <= f.zoneHour && 0 <= f.zoneMinute
  {
    FixedBound(s, 0, 4);
    assert Pow10(4) == 10000;
  }

  /** The local date of the instant some in-range fields name is the date they spell. */
  lemma FieldsLocal(f: Fields)
    requires InRange(f) && 0 <= f.hour && 0 <= f.minute && 0 <= f.second && 0 <= f.zoneHour && 0 <= f.zoneMinute
    ensures LocalDate(FieldsTime(f)) == Date(f.year, f.month, f.day)
    ensures LocalClock(FieldsTime(f)) == f.hour * 3600 + f.minute * 60 + f.second
    ensures -1500 <= FieldsTime(f).offset <= 1500
  {
    var date := Date(f.year, f.month, f.day);
    var t := FieldsTime(f);
    var hms := f.hour * 3600 + f.minute * 60 + f.second;
    assert t.sec + t.offset * 60 == DaysFromCivil(date) * SecondsPerDay + hms;
    LocalOf(t, DaysFromCivil(date), hms);
    CivilRoundTrip(date);
  }

  /** Decoding what MarshalTimestamp wrote gives back a timestamp whose offset is under 25 hours and which has no nanoseconds. */
  lemma TimestampRoundTrip(held: Timestamp, ts: Timestamp)
    requires Reparsable(ts.t) && ts.t.nsec == 0
    ensures UnmarshalTimestamp(held, MarshalTimestamp(ts)) == (ts, None)
  {
    FormatThenParse(ts.t);
  }

  /**
   * A timestamp decoded from any text, encoded and decoded again, keeps its
   * instant and zone and loses only its nanoseconds, unless its offset is a full 25 hours.
   */
  lemma RedecodeTimestamp(held: Timestamp, b: Json, other: Timestamp)
    requires UnmarshalTimestamp(held, b).1.None?
    requires var t := UnmarshalTimestamp(held, b).0.t; -1500 < t.offset < 1500
    ensures var ts := UnmarshalTimestamp(held, b).0;
            UnmarshalTimestamp(other, MarshalTimestamp(ts)) == (Timestamp(ts.t.(nsec := 0)), None)
  {
    FormatThenParse(UnmarshalTimestamp(held, b).0.t);
  }

  /** An offset of 25 hours or more is written with an hour field the parser refuses. */
  lemma FormatOffsetRejected(t: Time)
    requires FixedWidth(t) && (t.offset <= -1500 || 1500 <= t.offset)
    ensures ParseLayout(Format(t)).Err?
  {
    ScanFormat(t);
  }

  lemma TwoDigits(a: char, b: char)
    requires IsDigit(a) && IsDigit(b)
    ensures Value([a, b]) == DigitValue(a) * 10 + DigitValue(b)
  {
    assert [a, b][..1] == [a];
    assert [a][..0] == [];
    assert Value([a]) == DigitValue(a);
  }

  lemma FourDigits(a: char, b: char, c: char, d: char)
    requires IsDigit(a) && IsDigit(b) && IsDigit(c) && IsDigit(d)
    ensures Value([a, b, c, d]) == ((DigitValue(a) * 10 + DigitValue(b)) * 10 + DigitValue(c)) * 10 + DigitValue(d)
  {
    assert [a, b, c, d][..3] == [a, b, c];
    assert [a, b, c][..2] == [a, b];
    TwoDigits(a, b);
  }

  const Offset2460Text: string := "2024-01-01 00:00:00 +2460"

  lemma Text2460()
    ensures Offset2460Text == LayoutText("2024", "01", "01", "00", "00", "00", '+', "24", "60")
  {
  }

  lemma Values2460()
    ensures Value("2024") == 2024 && Value("01") == 1 && Value("00") == 0 && Value("24") == 24 && Value("60") == 60
  {
    FourDigits('2', '0', '2', '4');
    TwoDigits('0', '1');
    TwoDigits('0', '0');
    TwoDigits('2', '4');
    TwoDigits('6', '0');
  }

  lemma Scan2460()
    ensures ScanLayout(Offset2460Text) == Some(Fields(2024, 1, 1, 0, 0, 0, 0, '+', 24, 60))
  {
    Text2460();
    Values2460();
    ScanLayoutText("2024", "01", "01", "00", "00", "00", '+', "24", "60");
  }

  /** "+2460" is accepted as an offset of 25 hours, which Format writes as "+2500" and the parser then refuses. */
  lemma Offset2460NotReparsed()
    ensures ParseLayout(Offset2460Text).Ok?
    ensures var t := ParseLayout(Offset2460Text).value;
            t.offset == 1500 && ParseLayout(Format(t)).Err?
  {
    Scan2460();
    var f := Fields(2024, 1, 1, 0, 0, 0, 0, '+', 24, 60);
    assert InRange(f);
    assert ZoneOffset(f) == 1500;
    assert ParseLayout(Offset2460Text) == Ok(FieldsTime(f));
    FormatOffsetRejected(FieldsTime(f));
  }

  lemma ValuesReference()
    ensures Value("2006") == 2006 && Value("01") == 1 && Value("02") == 2 && Value("15") == 15
    ensures Value("04") == 4 && Value("05") == 5 && Value("07") == 7 && Value("00") == 0
  {
    FourDigits('2', '0', '0', '6');
    TwoDigits('0', '1');
    TwoDigits('0', '2');
    TwoDigits('1', '5');
    TwoDigits('0', '4');
    TwoDigits('0', '5');
    TwoDigits('0', '7');
    TwoDigits('0', '0');
  }

  lemma TextReference()
    ensures DateLayout == LayoutText("2006", "01", "02", "15", "04", "05", '-', "07", "00")
  {
  }

  lemma ScanReference()
    ensures ScanLayout(DateLayout) == Some(Fields(2006, 1, 2, 15, 4, 5, 0, '-', 7, 0))
  {
    TextReference();
    ValuesReference();
    ScanLayoutText("2006", "01", "02", "15", "04", "05", '-', "07", "00");
  }

  lemma ReferenceDay()
    ensures DaysFromCivil(Date(2006, 1, 2)) == 13150
  {
    assert LeapsBefore(2006) == 486;
    assert LeapsBefore(1970) == 477;
    assert DaysBeforeMonth(1, 2006) == 0;
  }

  /** The layout itself reads as Go's reference time: 2006-01-02 15:04:05 at seven hours west of UTC. */
  lemma ReferenceTime()
    ensures ParseLayout(DateLayout) == Ok(Time(1136239445, 0, -420))
  {
    ScanReference();
    var f := Fields(2006, 1, 2, 15, 4, 5, 0, '-', 7, 0);
    assert InRange(f);
    ReferenceDay();
    assert ZoneOffset(f) == -420;
    assert FieldsTime(f) == Time(13150 * SecondsPerDay + 15 * 3600 + 4 * 60 + 5 + 420 * 60, 0, -420);
  }

  /**
   * A number of seconds decodes to the instant its value names, truncated
   * toward zero to whole nanoseconds; null decodes to the Unix epoch.
   */
  lemma UnixDecodesValue(held: UnixTimestamp, b: Json, local: int)
    requires b.Number? || b.Null?
    ensures var t := UnmarshalUnix(held, b, local).0.t;
            UnixNanos(t) == Trunc((if b.Number? then b.n else 0.0) * NanosPerSecond as real)
            && Normal(t) && t.offset == local
  {
    var v := if b.Number? then b.n else 0.0;
    var sec := Trunc(v);
    var frac := v - sec as real;
    var scaled := v * NanosPerSecond as real;
    assert scaled == sec as real * NanosPerSecond as real + frac * NanosPerSecond as real;
    if v >= 0.0 {
      assert Trunc(frac * NanosPerSecond as real) == (frac * NanosPerSecond as real).Floor;
    } else {
      assert frac <= 0.0;
    }
  }
}
