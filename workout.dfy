/**
 * request/workout.go: the records a workout arrives as, and QtyUnit's own
 * decoder, which takes a quantity either as an object or as the first element
 * of a non-empty array of such objects.
 */
module Workouts {
  import opened Wrappers
  import opened Json
  import opened Time

  /** A quantity and its unit. */
  datatype QtyUnit = QtyUnit(units: string, qty: real)

  const ZeroQty: QtyUnit := QtyUnit("", 0.0)

  /** The Go type the two fields are decoded through (the alias has no UnmarshalJSON of its own). */
  const QtyTypeName: string := "request.QtyUnitAlias"

  const QtyNames: seq<string> := ["units", "qty"]

  function StoreQty(q: QtyUnit, field: nat, v: Json): Step<QtyUnit> {
    if field == 0 then
      var d := DecodeString(v, q.units);
      Continue(q.(units := d.value), d.saved)
    else
      var d := DecodeFloat(v, q.qty);
      Continue(q.(qty := d.value), d.saved)
  }

  /** json.Unmarshal into a QtyUnitAlias that holds `init`. */
  function DecodeQtyObject(j: Json, init: QtyUnit): Result<QtyUnit, JsonError> {
    DecodeStruct(j, QtyTypeName, QtyNames, StoreQty, init)
  }

  /** json.Unmarshal into a fresh []QtyUnitAlias: every element decoded from zero, or None on the first failure. */
  function DecodeQtyItems(items: seq<Json>): (r: Option<seq<QtyUnit>>)
    ensures r.Some? <==> forall k :: 0 <= k < |items| ==> DecodeQtyObject(items[k], ZeroQty).Ok?
    ensures r.Some? ==> |r.value| == |items| && forall k :: 0 <= k < |items| ==> r.value[k] == DecodeQtyObject(items[k], ZeroQty).value
  {
    if items == [] then Some([])
    else
      var head := DecodeQtyObject(items[0], ZeroQty);
      var rest := DecodeQtyItems(items[1..]);
      assert forall k :: 1 <= k < |items| ==> items[k] == items[1..][k - 1];
      if head.Ok? && rest.Some? then Some([head.value] + rest.value) else None
  }

  /**
   * QtyUnit.UnmarshalJSON: first as a single object decoded from zero; then
   * as an array, taking its first element when the array is non-empty and
   * every element decodes; otherwise the error of decoding the value into
   * the receiver as an object.
   */
  function DecodeQtyUnit(held: QtyUnit, j: Json): (r: Result<QtyUnit, JsonError>)
    ensures r.Ok? ==> || r == DecodeQtyObject(j, ZeroQty)
                      || (j.Array? && |j.items| > 0 && r == DecodeQtyObject(j.items[0], ZeroQty))
    ensures r.Err? ==> r == DecodeQtyObject(j, ZeroQty)
  {
    var single := DecodeQtyObject(j, ZeroQty);
    if single.Ok? then single
    else
      QtyErrorIndependent(j, held, ZeroQty);
      var list := if j.Array? then DecodeQtyItems(j.items) else None;
      if list.Some? && |list.value| > 0 then Ok(list.value[0])
      else DecodeQtyObject(j, held)
  }

  /** Decoding errors do not depend on what the fields held before. */
  lemma {:induction false} QtyMembersSaved(members: seq<(string, Json)>, a: QtyUnit, b: QtyUnit, saved: Option<JsonError>)
    ensures DecodeMembers(members, QtyNames, StoreQty, a, saved).Ok?
    ensures DecodeMembers(members, QtyNames, StoreQty, b, saved).Ok?
    ensures DecodeMembers(members, QtyNames, StoreQty, a, saved).value.saved
         == DecodeMembers(members, QtyNames, StoreQty, b, saved).value.saved
    decreases |members|
  {
    if members != [] {
      match MatchField(members[0].0, QtyNames)
      case None =>
        QtyMembersSaved(members[1..], a, b, saved);
      case Some(i) =>
        var sa, sb := StoreQty(a, i, members[0].1), StoreQty(b, i, members[0].1);
        assert sa.saved == sb.saved;
        QtyMembersSaved(members[1..], sa.state, sb.state, FirstError(saved, sa.saved));
    }
  }

  lemma QtyErrorIndependent(j: Json, a: QtyUnit, b: QtyUnit)
    ensures DecodeQtyObject(j, a).Ok? == DecodeQtyObject(j, b).Ok?
    ensures DecodeQtyObject(j, a).Err? ==> DecodeQtyObject(j, a).error == DecodeQtyObject(j, b).error
  {
    if j.Object? {
      QtyMembersSaved(j.members, a, b, None);
    }
  }

  /** null decodes to the zero quantity, whatever the receiver held. */
  lemma QtyNull(held: QtyUnit)
    ensures DecodeQtyUnit(held, Null) == Ok(ZeroQty)
  {
  }

  /** An object that decodes is taken as it is, decoded from zero rather than over the receiver's old contents. */
  lemma QtyObject(held: QtyUnit, j: Json)
    requires DecodeQtyObject(j, ZeroQty).Ok?
    ensures DecodeQtyUnit(held, j) == DecodeQtyObject(j, ZeroQty)
  {
  }

  /** A non-empty array whose elements all decode gives its first element; the others are read and dropped. */
  lemma QtyFirstElement(held: QtyUnit, items: seq<Json>)
    requires |items| > 0 && forall k :: 0 <= k < |items| ==> DecodeQtyObject(items[k], ZeroQty).Ok?
    ensures DecodeQtyUnit(held, Array(items)) == Ok(DecodeQtyObject(items[0], ZeroQty).value)
  {
  }

  /** An object and the one-element array holding it are accepted together and decode to the same quantity. */
  lemma QtyObjectOrSingleton(h1: QtyUnit, h2: QtyUnit, o: Json)
    requires o.Object?
    ensures DecodeQtyUnit(h1, o).Ok? == DecodeQtyUnit(h2, Array([o])).Ok?
    ensures DecodeQtyUnit(h1, o).Ok? ==> DecodeQtyUnit(h1, o) == DecodeQtyUnit(h2, Array([o]))
  {
    QtyErrorIndependent(o, h1, ZeroQty);
    QtyErrorIndependent(Array([o]), h2, ZeroQty);
    assert DecodeQtyObject(Array([o]), ZeroQty).Err?;
  }

  /** An empty array is refused with the error of reading an array into the object. */
  lemma QtyEmptyArray(held: QtyUnit)
    ensures DecodeQtyUnit(held, Array([])) == Err(TypeError("array", QtyTypeName))
  {
  }

  /**
   * The decoder fails exactly when both attempts fail, and then with the
   * error that decoding the value as an object gives; a successful result
   * does not depend on the receiver.
   */
  lemma QtyOutcome(held: QtyUnit, other: QtyUnit, j: Json)
    ensures DecodeQtyUnit(held, j).Err?
            <==> DecodeQtyObject(j, ZeroQty).Err?
                 && !(j.Array? && |j.items| > 0 && forall k :: 0 <= k < |j.items| ==> DecodeQtyObject(j.items[k], ZeroQty).Ok?)
    ensures DecodeQtyUnit(held, j).Err? ==> DecodeQtyUnit(held, j) == DecodeQtyObject(j, ZeroQty)
    ensures DecodeQtyUnit(held, j) == DecodeQtyUnit(other, j)
  {
    QtyErrorIndependent(j, held, ZeroQty);
    QtyErrorIndependent(j, other, ZeroQty);
  }

  /** A member whose key is not "units" in any letter case leaves the unit as decoded from zero: empty. */
  lemma QtyMissingUnits(held: QtyUnit, members: seq<(string, Json)>)
    requires DecodeQtyUnit(held, Object(members)).Ok?
    requires forall k :: 0 <= k < |members| ==> !FoldEq(members[k].0, "units")
    ensures DecodeQtyUnit(held, Object(members)).value.units == ""
  {
    QtyOutcome(held, held, Object(members));
    FieldKept(Object(members), QtyTypeName, QtyNames, StoreQty, ZeroQty, 0, (q: QtyUnit) => q.units);
  }

  /** A member whose key is not "qty" in any letter case leaves the quantity as decoded from zero: 0. */
  lemma QtyMissingQty(held: QtyUnit, members: seq<(string, Json)>)
    requires DecodeQtyUnit(held, Object(members)).Ok?
    requires forall k :: 0 <= k < |members| ==> !FoldEq(members[k].0, "qty")
    ensures DecodeQtyUnit(held, Object(members)).value.qty == 0.0
  {
    QtyOutcome(held, held, Object(members));
    FieldKept(Object(members), QtyTypeName, QtyNames, StoreQty, ZeroQty, 1, (q: QtyUnit) => q.qty);
  }

  // ------------------------------------------------------------- child logs

  /** A point of a workout's route. */
  datatype GpsLog = GpsLog(lat: real, lon: real, altitude: real, timestamp: Option<Timestamp>, course: real,
                           verticalAccuracy: real, horizontalAccuracy: real, courseAccuracy: real,
                           speed: real, speedAccuracy: real)

  /** A step count, distance or energy reading of a workout. */
  datatype StepCountLog = StepCountLog(qty: real, source: string, units: string, date: Option<Timestamp>)

  /** A heart-rate reading of a workout, or of its recovery. */
  datatype HeartRateLog = HeartRateLog(min: real, max: real, avg: real, units: string, source: string,
                                       date: Option<Timestamp>, qty: real)

  /** A workout. Child logs are nil slices when absent, here empty sequences. */
  datatype Workout = Workout(
    name: string, location: string, start: Option<Timestamp>, end: Option<Timestamp>,
    activeEnergy: seq<StepCountLog>, activeEnergyBurned: QtyUnit, intensity: QtyUnit, humidity: QtyUnit,
    distance: QtyUnit, duration: real, stepCount: seq<StepCountLog>, walkingAndRunningDistance: seq<StepCountLog>,
    temperature: QtyUnit, elevationUp: QtyUnit, route: seq<GpsLog>, heartRateData: seq<HeartRateLog>,
    heartRateRecovery: seq<HeartRateLog>, id: string)

  /** Go's zero time.Time: 0001-01-01 00:00:00 UTC. */
  const ZeroTimestamp: Timestamp := Timestamp(Time(-62135596800, 0, 0))

  /**
   * Decoding into a *Timestamp field: null sets it to nil; anything else goes
   * to Timestamp.UnmarshalJSON on the pointed-to value (a new zero one when
   * nil), and an error from it ends the whole decode.
   */
  function DecodeTimestampField(held: Option<Timestamp>, v: Json): (r: Step<Option<Timestamp>>)
    ensures v.Null? ==> r == Continue(None, None)
    ensures r.Continue? ==> r.saved.None?
    ensures !v.Null? ==> (r.Continue? <==> v.String? && ParseLayout(v.s).Ok?)
    ensures r.Continue? && !v.Null? ==> r.state == Some(Timestamp(ParseLayout(v.s).value))
  {
    if v.Null? then Continue(None, None)
    else
      var (ts, e) := UnmarshalTimestamp(held.GetOr(ZeroTimestamp), v);
      if e.Some? then Abort(e.value) else Continue(Some(ts), None)
  }

  const GpsNames: seq<string> := ["latitude", "longitude", "altitude", "timestamp", "course", "verticalAccuracy",
                                  "horizontalAccuracy", "courseAccuracy", "speed", "speedAccuracy"]

  function StoreGps(g: GpsLog, field: nat, v: Json): Step<GpsLog> {
    if field == 3 then
      match DecodeTimestampField(g.timestamp, v)
      case Abort(e) => Abort(e)
      case Continue(t, saved) => Continue(g.(timestamp := t), saved)
    else
      var held := match field
        case 0 => g.lat case 1 => g.lon case 2 => g.altitude case 4 => g.course case 5 => g.verticalAccuracy
        case 6 => g.horizontalAccuracy case 7 => g.courseAccuracy case 8 => g.speed case _ => g.speedAccuracy;
      var d := DecodeFloat(v, held);
      var n := match field
        case 0 => g.(lat := d.value) case 1 => g.(lon := d.value) case 2 => g.(altitude := d.value)
        case 4 => g.(course := d.value) case 5 => g.(verticalAccuracy := d.value)
        case 6 => g.(horizontalAccuracy := d.value) case 7 => g.(courseAccuracy := d.value)
        case 8 => g.(speed := d.value) case _ => g.(speedAccuracy := d.value);
      Continue(n, d.saved)
  }

  /** json.Unmarshal into a GPSLog that holds `init`. */
  function DecodeGpsLog(j: Json, init: GpsLog): Result<GpsLog, JsonError> {
    DecodeStruct(j, "request.GPSLog", GpsNames, StoreGps, init)
  }

  const StepCountNames: seq<string> := ["qty", "source", "units", "date"]

  function StoreStepCount(l: StepCountLog, field: nat, v: Json): Step<StepCountLog> {
    match field
    case 0 => var d := DecodeFloat(v, l.qty); Continue(l.(qty := d.value), d.saved)
    case 1 => var d := DecodeString(v, l.source); Continue(l.(source := d.value), d.saved)
    case 2 => var d := DecodeString(v, l.units); Continue(l.(units := d.value), d.saved)
    case _ =>
      match DecodeTimestampField(l.date, v)
      case Abort(e) => Abort(e)
      case Continue(t, saved) => Continue(l.(date := t), saved)
  }

  /** json.Unmarshal into a StepCountLog that holds `init`. */
  function DecodeStepCountLog(j: Json, init: StepCountLog): Result<StepCountLog, JsonError> {
    DecodeStruct(j, "request.StepCountLog", StepCountNames, StoreStepCount, init)
  }

  const HeartRateNames: seq<string> := ["Min", "Max", "Avg", "units", "source", "date", "qty"]

  function StoreHeartRate(l: HeartRateLog, field: nat, v: Json): Step<HeartRateLog> {
    match field
    case 0 => var d := DecodeFloat(v, l.min); Continue(l.(min := d.value), d.saved)
    case 1 => var d := DecodeFloat(v, l.max); Continue(l.(max := d.value), d.saved)
    case 2 => var d := DecodeFloat(v, l.avg); Continue(l.(avg := d.value), d.saved)
    case 3 => var d := DecodeString(v, l.units); Continue(l.(units := d.value), d.saved)
    case 4 => var d := DecodeString(v, l.source); Continue(l.(source := d.value), d.saved)
    case 5 =>
      (match DecodeTimestampField(l.date, v)
       case Abort(e) => Abort(e)
       case Continue(t, saved) => Continue(l.(date := t), saved))
    case _ => var d := DecodeFloat(v, l.qty); Continue(l.(qty := d.value), d.saved)
  }

  /** json.Unmarshal into a HeartRateLog that holds `init`. */
  function DecodeHeartRateLog(j: Json, init: HeartRateLog): Result<HeartRateLog, JsonError> {
    DecodeStruct(j, "request.HeartRateLog", HeartRateNames, StoreHeartRate, init)
  }

  const ZeroGps: GpsLog := GpsLog(0.0, 0.0, 0.0, None, 0.0, 0.0, 0.0, 0.0, 0.0, 0.0)
  const ZeroStepCount: StepCountLog := StepCountLog(0.0, "", "", None)
  const ZeroHeartRate: HeartRateLog := HeartRateLog(0.0, 0.0, 0.0, "", "", None, 0.0)

  /** A route point without a "timestamp" member (in any letter case) has no timestamp. */
  lemma GpsTimestampAbsent(members: seq<(string, Json)>)
    requires DecodeGpsLog(Object(members), ZeroGps).Ok?
    requires forall k :: 0 <= k < |members| ==> !FoldEq(members[k].0, "timestamp")
    ensures DecodeGpsLog(Object(members), ZeroGps).value.timestamp.None?
  {
    FieldKept(Object(members), "request.GPSLog", GpsNames, StoreGps, ZeroGps, 3, (g: GpsLog) => g.timestamp);
  }

  /** A step count reading without a "date" member has no date. */
  lemma StepCountDateAbsent(members: seq<(string, Json)>)
    requires DecodeStepCountLog(Object(members), ZeroStepCount).Ok?
    requires forall k :: 0 <= k < |members| ==> !FoldEq(members[k].0, "date")
    ensures DecodeStepCountLog(Object(members), ZeroStepCount).value.date.None?
  {
    FieldKept(Object(members), "request.StepCountLog", StepCountNames, StoreStepCount, ZeroStepCount, 3,
              (l: StepCountLog) => l.date);
  }

  /** A heart-rate reading without a "date" member has no date. */
  lemma HeartRateDateAbsent(members: seq<(string, Json)>)
    requires DecodeHeartRateLog(Object(members), ZeroHeartRate).Ok?
    requires forall k :: 0 <= k < |members| ==> !FoldEq(members[k].0, "date")
    ensures DecodeHeartRateLog(Object(members), ZeroHeartRate).value.date.None?
  {
    FieldKept(Object(members), "request.HeartRateLog", HeartRateNames, StoreHeartRate, ZeroHeartRate, 5,
              (l: HeartRateLog) => l.date);
  }

  /** A date member that is a string in the layout gives the parsed time; null gives none; anything else ends the decode. */
  lemma StepCountDatePresent(init: StepCountLog, v: Json)
    ensures var r := DecodeStepCountLog(Object([("date", v)]), init);
            && (v.Null? ==> r == Ok(init.(date := None)))
            && (v.String? && ParseLayout(v.s).Ok? ==> r == Ok(init.(date := Some(Timestamp(ParseLayout(v.s).value)))))
            && (!v.Null? && !(v.String? && ParseLayout(v.s).Ok?) ==> r.Err?)
  {
    assert MatchField("date", StepCountNames) == Some(3);
    var step := StoreStepCount(init, 3, v);
    assert DecodeMembers([("date", v)], StepCountNames, StoreStepCount, init, None)
        == (match step
            case Abort(e) => Err(e)
            case Continue(next, e) => DecodeMembers([], StepCountNames, StoreStepCount, next, FirstError(None, e)));
  }
}
