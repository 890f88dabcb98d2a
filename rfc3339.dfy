/**
 * time.Parse(time.RFC3339, s), the layout "2006-01-02T15:04:05Z07:00" that
 * request/state_of_mind.go reads start and end times with. Go tries a strict
 * reader first and falls back to its general layout reader; every text the
 * strict reader accepts the general one accepts with the same result, so the
 * general reader is what decides. It reads the date-time of section 5.6 of
 * RFC 3339 with a 'T' separator, an hour of one or two digits, an optional
 * fraction of a second after '.' or ',', and then either 'Z' or a numeric
 * offset "+hh:mm" / "-hh:mm".
 */
module Rfc3339 {
  import opened Wrappers
  import opened Decimal
  import opened Calendar
  import opened Time

  /** The zone at position `p`: 'Z' for UTC, or a sign, two digits, ':', two digits. */
  function ScanZone(s: string, p: nat): (r: Option<(char, int, int, nat)>)
    ensures r.Some? ==> p < r.value.3 <= |s|
  {
    if p < |s| && s[p] == 'Z' then Some(('Z', 0, 0, p + 1))
    else if p + 6 <= |s| && s[p + 3] == ':' && (s[p] == '+' || s[p] == '-') then
      var hour :- Fixed(s, p + 1, 2);
      var minute :- Fixed(s, p + 4, 2);
      Some((s[p], hour.value, minute.value, p + 6))
    else None
  }

  /** Reads "2006-01-02T15:04:05Z07:00" left to right, as the layout's elements say. */
  function ScanRfc3339(s: string): Option<Fields> {
    var year :- Fixed(s, 0, 4);
    var p1 :- Literal(s, year.next, '-');
    var month :- Fixed(s, p1, 2);
    var p2 :- Literal(s, month.next, '-');
    var day :- Fixed(s, p2, 2);
    var p3 :- Literal(s, day.next, 'T');
    var hour :- OneOrTwo(s, p3);
    var p4 :- Literal(s, hour.next, ':');
    var minute :- Fixed(s, p4, 2);
    var p5 :- Literal(s, minute.next, ':');
    var second :- Fixed(s, p5, 2);
    var frac := Fraction(s, second.next);
    var zone :- ScanZone(s, frac.next);
    if zone.3 == |s| then
      Some(Fields(year.value, month.value, day.value, hour.value, minute.value, second.value, frac.value,
                  zone.0, zone.1, zone.2))
    else None
  }

  /**
   * time.Parse(time.RFC3339, s): the same range checks as any layout; 'Z' is
   * an offset of zero. A refusal names the text, and an accepted text has
   * the 'T' separator after its date.
   */
  function ParseRfc3339(s: string): (r: Result<Time, ParseError>)
    ensures r.Err? ==> r.error == ParseError(s)
    ensures r.Ok? ==> |s| > 10 && s[4] == '-' && s[7] == '-' && s[10] == 'T'
  {
    match ScanRfc3339(s)
    case None => Err(ParseError(s))
    case Some(f) => if InRange(f) then Ok(FieldsTime(f)) else Err(ParseError(s))
  }

  /** An RFC 3339 date-time assembled from its fields' digits and a zone text. */
  function Rfc3339Text(ys: string, ms: string, ds: string, hs: string, ns: string, ss: string, zone: string): string {
    ys + "-" + ms + "-" + ds + "T" + hs + ":" + ns + ":" + ss + zone
  }

  function NumericZone(sign: char, zh: string, zm: string): string {
    [sign] + zh + ":" + zm
  }

  predicate DigitFields(ys: string, ms: string, ds: string, hs: string, ns: string, ss: string) {
    && |ys| == 4 && |ms| == 2 && |ds| == 2 && |hs| == 2 && |ns| == 2 && |ss| == 2
    && AllDigits(ys) && AllDigits(ms) && AllDigits(ds) && AllDigits(hs) && AllDigits(ns) && AllDigits(ss)
  }

  /** The date and clock of a text assembled from fixed-width digit fields scan back to the numbers they denote. */
  lemma {:induction false} ScanDateTime(ys: string, ms: string, ds: string, hs: string, ns: string, ss: string, zone: string)
    requires DigitFields(ys, ms, ds, hs, ns, ss)
    requires zone == [] || (zone[0] != '.' && zone[0] != ',')
    ensures var s := Rfc3339Text(ys, ms, ds, hs, ns, ss, zone);
            && Fixed(s, 0, 4) == Some(Scan(Value(ys), 4)) && Literal(s, 4, '-') == Some(5)
            && Fixed(s, 5, 2) == Some(Scan(Value(ms), 7)) && Literal(s, 7, '-') == Some(8)
            && Fixed(s, 8, 2) == Some(Scan(Value(ds), 10)) && Literal(s, 10, 'T') == Some(11)
            && OneOrTwo(s, 11) == Some(Scan(Value(hs), 13)) && Literal(s, 13, ':') == Some(14)
            && Fixed(s, 14, 2) == Some(Scan(Value(ns), 16)) && Literal(s, 16, ':') == Some(17)
            && Fixed(s, 17, 2) == Some(Scan(Value(ss), 19)) && Fraction(s, 19) == Scan(0, 19)
            && s[19..] == zone
  {
    var s := Rfc3339Text(ys, ms, ds, hs, ns, ss, zone);
    assert |s| == 19 + |zone|;
    assert s[0..4] == ys;
    assert s[4] == '-';
    assert s[5..7] == ms;
    assert s[7] == '-';
    assert s[8..10] == ds;
    assert s[10] == 'T' && IsDigit(s[11]) && IsDigit(s[12]);
    assert s[11..13] == hs;
    assert s[13] == ':';
    assert s[14..16] == ns;
    assert s[16] == ':';
    assert s[17..19] == ss;
    assert s[19..] == zone;
    FixedAt(s, 0, ys);
    FixedAt(s, 5, ms);
    FixedAt(s, 8, ds);
    FixedAt(s, 11, hs);
    FixedAt(s, 14, ns);
    FixedAt(s, 17, ss);
  }

  /** With the zone "Z", the text scans to its fields and a zero offset. */
  lemma {:induction false} ScanZulu(ys: string, ms: string, ds: string, hs: string, ns: string, ss: string)
    requires DigitFields(ys, ms, ds, hs, ns, ss)
    ensures ScanRfc3339(Rfc3339Text(ys, ms, ds, hs, ns, ss, "Z"))
            == Some(Fields(Value(ys), Value(ms), Value(ds), Value(hs), Value(ns), Value(ss), 0, 'Z', 0, 0))
  {
    var s := Rfc3339Text(ys, ms, ds, hs, ns, ss, "Z");
    ScanDateTime(ys, ms, ds, hs, ns, ss, "Z");
    assert s[19] == "Z"[0];
    assert ScanZone(s, 19) == Some(('Z', 0, 0, 20));
  }

  /** With a numeric zone, the text scans to its fields and the zone's sign and digits. */
  lemma {:induction false} ScanNumeric(ys: string, ms: string, ds: string, hs: string, ns: string, ss: string,
                                       sign: char, zh: string, zm: string)
    requires DigitFields(ys, ms, ds, hs, ns, ss)
    requires |zh| == 2 && |zm| == 2 && AllDigits(zh) && AllDigits(zm) && (sign == '+' || sign == '-')
    ensures ScanRfc3339(Rfc3339Text(ys, ms, ds, hs, ns, ss, NumericZone(sign, zh, zm)))
            == Some(Fields(Value(ys), Value(ms), Value(ds), Value(hs), Value(ns), Value(ss), 0, sign, Value(zh), Value(zm)))
  {
    var zone := NumericZone(sign, zh, zm);
    var s := Rfc3339Text(ys, ms, ds, hs, ns, ss, zone);
    ScanDateTime(ys, ms, ds, hs, ns, ss, zone);
    assert |zone| == 6 && zone[0] == sign && zone[1..3] == zh && zone[3] == ':' && zone[4..6] == zm;
    assert s[19] == sign && s[22] == ':';
    assert s[20..22] == zh;
    assert s[23..25] == zm;
    FixedAt(s, 20, zh);
    FixedAt(s, 23, zm);
  }

  /**
   * The same fields written in Timestamp's layout and as an RFC 3339
   * date-time with a numeric offset are accepted or refused together, and
   * name the same instant.
   */
  lemma {:induction false} AgreesWithLayout(ys: string, ms: string, ds: string, hs: string, ns: string, ss: string,
                                            sign: char, zh: string, zm: string)
    requires DigitFields(ys, ms, ds, hs, ns, ss)
    requires |zh| == 2 && |zm| == 2 && AllDigits(zh) && AllDigits(zm) && (sign == '+' || sign == '-')
    ensures ParseRfc3339(Rfc3339Text(ys, ms, ds, hs, ns, ss, NumericZone(sign, zh, zm)))
            == (match ParseLayout(LayoutText(ys, ms, ds, hs, ns, ss, sign, zh, zm))
                case Ok(t) => Ok(t)
                case Err(_) => Err(ParseError(Rfc3339Text(ys, ms, ds, hs, ns, ss, NumericZone(sign, zh, zm)))))
  {
    ScanNumeric(ys, ms, ds, hs, ns, ss, sign, zh, zm);
    ScanLayoutText(ys, ms, ds, hs, ns, ss, sign, zh, zm);
  }

  /** "Z" names UTC: the instant of the fields with no shift and an offset of zero. */
  lemma {:induction false} ZuluIsUtc(ys: string, ms: string, ds: string, hs: string, ns: string, ss: string)
    requires DigitFields(ys, ms, ds, hs, ns, ss)
    requires ParseRfc3339(Rfc3339Text(ys, ms, ds, hs, ns, ss, "Z")).Ok?
    ensures var t := ParseRfc3339(Rfc3339Text(ys, ms, ds, hs, ns, ss, "Z")).value;
            t.offset == 0 && 1 <= Value(ms) <= 12
            && t.sec == DaysFromCivil(Date(Value(ys), Value(ms), Value(ds))) * SecondsPerDay
                        + Value(hs) * 3600 + Value(ns) * 60 + Value(ss)
  {
    ScanZulu(ys, ms, ds, hs, ns, ss);
  }

  /**
   * Every text Timestamp's own layout accepts is refused as RFC 3339: the one
   * puts a space after the day where the other needs 'T'.
   */
  lemma LayoutTextRefused(s: string)
    requires ScanLayout(s).Some?
    ensures ParseRfc3339(s).Err?
  {
    assert 10 < |s| && s[10] == ' ';
  }
}
