/**
 * storage/clickhouse/metrics.go: the ClickHouse metric store. Each operation
 * turns the decoded records into a fixed sequence of INSERT statements (its
 * plan) and sends them one at a time, returning at the first one the server
 * refuses; OptimizeTables sends one OPTIMIZE per table. The clock's reading
 * (`now`) and the fresh ECG ids are parameters.
 */
module ClickHouse {
  import opened Wrappers
  import opened Time
  import opened Database
  import opened Metrics
  import opened Workouts
  import opened StatesOfMind
  import opened Ecgs

  /** The time a record is stored with: its own when it has one, else the fallback. */
  function Resolve(date: Option<Timestamp>, fallback: Time): Time {
    if date.Some? then ToTime(date.value) else fallback
  }

  /** Running two plans one after the other is running the second only if the first went through. */
  lemma {:induction false} RunAppend(st: DbState, a: seq<Statement>, b: seq<Statement>, rejects: map<nat, string>)
    ensures Run(st, a + b, rejects)
            == if Run(st, a, rejects).1.Some? then Run(st, a, rejects) else Run(Run(st, a, rejects).0, b, rejects)
    decreases |a|
  {
    if a != [] {
      assert (a + b)[0] == a[0];
      assert (a + b)[1..] == a[1..] + b;
      if st.issued !in rejects {
        RunAppend(Apply(st, a[0]), a[1..], b, rejects);
      }
    } else {
      assert a + b == b;
    }
  }

  // ------------------------------------------------------------------- metrics

  /**
   * The metrics row of one sample: it carries the metric's name, unit and
   * type, and the sample's own timestamp or else now; exactly the value
   * columns of the sample's kind are set, and every other one is zero or empty.
   */
  function MetricRowOf(m: Metric, s: Sample, now: Time, metricType: string): (r: Row)
    ensures r.MetricRow?
    ensures r.metricName == m.name && r.metricUnit == m.unit && r.metricType == metricType
    ensures r.timestamp == (if s.date.Some? then s.date.value.t else now)
    ensures r.qty == (if s.QtySample? then s.qty else 0.0)
    ensures r.min == (if s.MinMaxAvgSample? then s.min else 0.0)
    ensures r.max == (if s.MinMaxAvgSample? then s.max else 0.0)
    ensures r.avg == (if s.MinMaxAvgSample? then s.avg else 0.0)
    ensures r.asleep == (if s.SleepSample? then s.asleep else 0.0)
    ensures r.inBed == (if s.SleepSample? then s.inBed else 0.0)
    ensures r.sleepSource == (if s.SleepSample? then s.sleepSource else "")
    ensures r.inBedSource == (if s.SleepSample? then s.inBedSource else "")
  {
    var ts := Resolve(GetTimestamp(s), now);
    match s
    case QtySample(_, q) => MetricRow(ts, m.name, m.unit, metricType, q, 0.0, 0.0, 0.0, 0.0, 0.0, "", "")
    case MinMaxAvgSample(_, mn, mx, av) => MetricRow(ts, m.name, m.unit, metricType, 0.0, mx, mn, av, 0.0, 0.0, "", "")
    case SleepSample(_, a, b, ss, bs) => MetricRow(ts, m.name, m.unit, metricType, 0.0, 0.0, 0.0, 0.0, a, b, ss, bs)
    case OtherSample(_) => MetricRow(ts, m.name, m.unit, metricType, 0.0, 0.0, 0.0, 0.0, 0.0, 0.0, "", "")
  }

  /** One INSERT per sample of a metric, in order. */
  function SamplePlan(m: Metric, now: Time, metricType: string): seq<Statement> {
    seq(|m.samples|, j requires 0 <= j < |m.samples| => Insert(MetricsTable, MetricRowOf(m, m.samples[j], now, metricType)))
  }

  /** Store's plan: the metrics one after the other, each with its samples. */
  function MetricPlan(metrics: seq<Metric>, now: Time, lookup: string -> string): seq<Statement>
    decreases |metrics|
  {
    if metrics == [] then []
    else SamplePlan(metrics[0], now, lookup(metrics[0].name)) + MetricPlan(metrics[1..], now, lookup)
  }

  /** How many samples the first `i` metrics hold. */
  function SamplesBefore(metrics: seq<Metric>, i: nat): nat
    requires i <= |metrics|
  {
    if i == 0 then 0 else |metrics[0].samples| + SamplesBefore(metrics[1..], i - 1)
  }

  /** Store's plan holds one metrics INSERT per sample, and nothing else. */
  lemma {:induction false} MetricPlanShape(metrics: seq<Metric>, now: Time, lookup: string -> string)
    ensures |MetricPlan(metrics, now, lookup)| == SamplesBefore(metrics, |metrics|)
    ensures forall k :: 0 <= k < |MetricPlan(metrics, now, lookup)| ==>
              MetricPlan(metrics, now, lookup)[k].Insert? && MetricPlan(metrics, now, lookup)[k].table == MetricsTable
    decreases |metrics|
  {
    if metrics != [] {
      var head := SamplePlan(metrics[0], now, lookup(metrics[0].name));
      var rest := MetricPlan(metrics[1..], now, lookup);
      MetricPlanShape(metrics[1..], now, lookup);
      var plan := MetricPlan(metrics, now, lookup);
      assert plan == head + rest;
      forall k | |head| <= k < |plan| ensures plan[k] == rest[k - |head|] {
      }
    }
  }

  /**
   * Sample `j` of metric `i` is statement SamplesBefore(i) + j of Store's
   * plan, and its row carries that metric's name, unit and type.
   */
  lemma {:induction false} MetricPlanRow(metrics: seq<Metric>, now: Time, lookup: string -> string, i: nat, j: nat)
    requires i < |metrics| && j < |metrics[i].samples|
    ensures SamplesBefore(metrics, i) + j < |MetricPlan(metrics, now, lookup)|
    ensures MetricPlan(metrics, now, lookup)[SamplesBefore(metrics, i) + j]
            == Insert(MetricsTable, MetricRowOf(metrics[i], metrics[i].samples[j], now, lookup(metrics[i].name)))
    decreases i
  {
    var head := SamplePlan(metrics[0], now, lookup(metrics[0].name));
    var tail := metrics[1..];
    var rest := MetricPlan(tail, now, lookup);
    var plan := MetricPlan(metrics, now, lookup);
    assert plan == head + rest;
    if i == 0 {
      assert plan[j] == head[j];
    } else {
      assert metrics[i] == tail[i - 1];
      MetricPlanRow(tail, now, lookup, i - 1, j);
      assert SamplesBefore(metrics, i) == |head| + SamplesBefore(tail, i - 1);
      assert plan[SamplesBefore(metrics, i) + j] == rest[SamplesBefore(tail, i - 1) + j];
    }
  }

  // ------------------------------------------------------------------ workouts

  /** The workouts row: the workout's id, name, resolved start and end, and five of its quantities. */
  function WorkoutRowOf(w: Workout, now: Time): (r: Row)
    ensures r.WorkoutRow? && r.activeEnergyQty == w.activeEnergyBurned.qty && r.activeEnergyUnits == w.activeEnergyBurned.units
  {
    WorkoutRow(w.id, w.name, Resolve(w.start, now), Resolve(w.end, now),
               (if w.activeEnergyBurned.qty != 0.0 then w.activeEnergyBurned.qty else 0.0),
               (if w.activeEnergyBurned.units != "" then w.activeEnergyBurned.units else ""),
               w.distance.qty, w.distance.units, w.intensity.qty, w.intensity.units,
               w.humidity.qty, w.humidity.units, w.temperature.qty, w.temperature.units)
  }

  function RouteRowOf(id: string, start: Time, p: GpsLog): Row {
    RouteRow(id, Resolve(p.timestamp, start), p.lat, p.lon, p.altitude, p.course, p.verticalAccuracy,
             p.horizontalAccuracy, p.courseAccuracy, p.speed, p.speedAccuracy)
  }

  function HeartRateRowOf(id: string, start: Time, p: HeartRateLog): Row {
    HeartRateRow(id, Resolve(p.date, start), p.qty, p.min, p.max, p.avg, p.units, p.source)
  }

  function QtyLogRowOf(id: string, start: Time, p: StepCountLog): Row {
    QtyLogRow(id, Resolve(p.date, start), p.qty, p.units, p.source)
  }

  /** The route loop's INSERTs: one per point, in order. */
  function RoutePlan(id: string, start: Time, route: seq<GpsLog>): seq<Statement> {
    seq(|route|, j requires 0 <= j < |route| => Insert(RoutesTable, RouteRowOf(id, start, route[j])))
  }

  /** The INSERTs of the heart-rate loop or the heart-rate recovery loop. */
  function HeartRatePlan(table: Table, id: string, start: Time, logs: seq<HeartRateLog>): seq<Statement> {
    seq(|logs|, j requires 0 <= j < |logs| => Insert(table, HeartRateRowOf(id, start, logs[j])))
  }

  /** The INSERTs of the step count, walking and running distance or active energy loop. */
  function QtyLogPlan(table: Table, id: string, start: Time, logs: seq<StepCountLog>): seq<Statement> {
    seq(|logs|, j requires 0 <= j < |logs| => Insert(table, QtyLogRowOf(id, start, logs[j])))
  }

  /** The number of child-log loops per workout. */
  const Stages: nat := 6

  /** The table child-log loop number `stage` writes to. */
  function StageTable(stage: nat): Table
    requires stage < Stages
  {
    [RoutesTable, HeartRateDataTable, HeartRateRecoveryTable, StepCountLogTable,
     WalkingRunningDistanceTable, ActiveEnergyTable][stage]
  }

  /** The INSERTs of child-log loop number `stage`. */
  function StagePlan(w: Workout, start: Time, stage: nat): seq<Statement>
    requires stage < Stages
  {
    match stage
    case 0 => RoutePlan(w.id, start, w.route)
    case 1 => HeartRatePlan(HeartRateDataTable, w.id, start, w.heartRateData)
    case 2 => HeartRatePlan(HeartRateRecoveryTable, w.id, start, w.heartRateRecovery)
    case 3 => QtyLogPlan(StepCountLogTable, w.id, start, w.stepCount)
    case 4 => QtyLogPlan(WalkingRunningDistanceTable, w.id, start, w.walkingAndRunningDistance)
    case _ => QtyLogPlan(ActiveEnergyTable, w.id, start, w.activeEnergy)
  }

  /** The child-log loops from number `stage` on. */
  function ChildrenFrom(w: Workout, start: Time, stage: nat): seq<Statement>
    requires stage <= Stages
    decreases Stages - stage
  {
    if stage == Stages then [] else StagePlan(w, start, stage) + ChildrenFrom(w, start, stage + 1)
  }

  /** Everything StoreWorkouts sends for one workout: its row, then its child logs. */
  function WorkoutStatements(w: Workout, now: Time): seq<Statement> {
    [Insert(WorkoutsTable, WorkoutRowOf(w, now))] + ChildrenFrom(w, Resolve(w.start, now), 0)
  }

  /** StoreWorkouts' plan. */
  function WorkoutPlan(workouts: seq<Workout>, now: Time): seq<Statement>
    decreases |workouts|
  {
    if workouts == [] then [] else WorkoutStatements(workouts[0], now) + WorkoutPlan(workouts[1..], now)
  }

  function Repeat(t: Table, n: nat): seq<Table> {
    seq(n, _ => t)
  }

  /** The dates of the child logs of loop number `stage`, in order. */
  function StageDates(w: Workout, stage: nat): seq<Option<Timestamp>>
    requires stage < Stages
  {
    match stage
    case 0 => seq(|w.route|, j requires 0 <= j < |w.route| => w.route[j].timestamp)
    case 1 => seq(|w.heartRateData|, j requires 0 <= j < |w.heartRateData| => w.heartRateData[j].date)
    case 2 => seq(|w.heartRateRecovery|, j requires 0 <= j < |w.heartRateRecovery| => w.heartRateRecovery[j].date)
    case 3 => seq(|w.stepCount|, j requires 0 <= j < |w.stepCount| => w.stepCount[j].date)
    case 4 => seq(|w.walkingAndRunningDistance|, j requires 0 <= j < |w.walkingAndRunningDistance| => w.walkingAndRunningDistance[j].date)
    case _ => seq(|w.activeEnergy|, j requires 0 <= j < |w.activeEnergy| => w.activeEnergy[j].date)
  }

  /** The dates of all child logs of a workout: route, heart rate, heart-rate recovery, step count, walking and running distance, active energy. */
  function ChildDates(w: Workout): seq<Option<Timestamp>> {
    StageDates(w, 0) + StageDates(w, 1) + StageDates(w, 2) + StageDates(w, 3) + StageDates(w, 4) + StageDates(w, 5)
  }

  /** The table each child log goes to, in the same order. */
  function ChildTables(w: Workout): seq<Table> {
    Repeat(RoutesTable, |w.route|) + Repeat(HeartRateDataTable, |w.heartRateData|)
    + Repeat(HeartRateRecoveryTable, |w.heartRateRecovery|) + Repeat(StepCountLogTable, |w.stepCount|)
    + Repeat(WalkingRunningDistanceTable, |w.walkingAndRunningDistance|) + Repeat(ActiveEnergyTable, |w.activeEnergy|)
  }

  function DatesFrom(w: Workout, stage: nat): seq<Option<Timestamp>>
    requires stage <= Stages
    decreases Stages - stage
  {
    if stage == Stages then [] else StageDates(w, stage) + DatesFrom(w, stage + 1)
  }

  function TablesFrom(w: Workout, stage: nat): seq<Table>
    requires stage <= Stages
    decreases Stages - stage
  {
    if stage == Stages then [] else Repeat(StageTable(stage), |StageDates(w, stage)|) + TablesFrom(w, stage + 1)
  }

  /** A child-log INSERT into table `t` of a row keyed by workout `id`, stamped with `date` or else `start`. */
  predicate ChildInsert(s: Statement, id: string, t: Table, date: Option<Timestamp>, start: Time) {
    && s.Insert? && (s.row.RouteRow? || s.row.HeartRateRow? || s.row.QtyLogRow?) && s.table == t
    && s.row.workoutId == id && s.row.timestamp == Resolve(date, start)
  }

  lemma StageRows(w: Workout, start: Time, stage: nat)
    requires stage < Stages
    ensures |StagePlan(w, start, stage)| == |StageDates(w, stage)|
    ensures forall k :: 0 <= k < |StagePlan(w, start, stage)| ==>
              ChildInsert(StagePlan(w, start, stage)[k], w.id, StageTable(stage), StageDates(w, stage)[k], start)
  {
  }

  lemma {:induction false} ChildrenFromRows(w: Workout, start: Time, stage: nat)
    requires stage <= Stages
    ensures |ChildrenFrom(w, start, stage)| == |DatesFrom(w, stage)| == |TablesFrom(w, stage)|
    ensures forall k :: 0 <= k < |ChildrenFrom(w, start, stage)| ==>
              ChildInsert(ChildrenFrom(w, start, stage)[k], w.id, TablesFrom(w, stage)[k], DatesFrom(w, stage)[k], start)
    decreases Stages - stage
  {
    if stage < Stages {
      StageRows(w, start, stage);
      ChildrenFromRows(w, start, stage + 1);
      var head := StagePlan(w, start, stage);
      var n := |head|;
      var all := ChildrenFrom(w, start, stage);
      var tables := TablesFrom(w, stage);
      var dates := DatesFrom(w, stage);
      assert all == head + ChildrenFrom(w, start, stage + 1);
      assert tables == Repeat(StageTable(stage), n) + TablesFrom(w, stage + 1);
      assert dates == StageDates(w, stage) + DatesFrom(w, stage + 1);
      forall k | 0 <= k < |all| ensures ChildInsert(all[k], w.id, tables[k], dates[k], start) {
        if k < n {
          assert all[k] == head[k] && tables[k] == StageTable(stage) && dates[k] == StageDates(w, stage)[k];
        } else {
          assert all[k] == ChildrenFrom(w, start, stage + 1)[k - n];
          assert tables[k] == TablesFrom(w, stage + 1)[k - n] && dates[k] == DatesFrom(w, stage + 1)[k - n];
        }
      }
    }
  }

  lemma DatesFromStart(w: Workout)
    ensures DatesFrom(w, 0) == ChildDates(w)
  {
    var d := StageDates(w, 0);
    var d1, d2, d3, d4, d5 := StageDates(w, 1), StageDates(w, 2), StageDates(w, 3), StageDates(w, 4), StageDates(w, 5);
    assert DatesFrom(w, 5) == d5;
    assert DatesFrom(w, 4) == d4 + d5;
    assert DatesFrom(w, 3) == d3 + (d4 + d5);
    assert DatesFrom(w, 2) == d2 + (d3 + (d4 + d5));
    assert DatesFrom(w, 1) == d1 + (d2 + (d3 + (d4 + d5)));
    assert DatesFrom(w, 0) == d + (d1 + (d2 + (d3 + (d4 + d5))));
  }

  lemma TablesFromStart(w: Workout)
    ensures TablesFrom(w, 0) == ChildTables(w)
  {
    var t0 := Repeat(RoutesTable, |w.route|);
    var t1 := Repeat(HeartRateDataTable, |w.heartRateData|);
    var t2 := Repeat(HeartRateRecoveryTable, |w.heartRateRecovery|);
    var t3 := Repeat(StepCountLogTable, |w.stepCount|);
    var t4 := Repeat(WalkingRunningDistanceTable, |w.walkingAndRunningDistance|);
    var t5 := Repeat(ActiveEnergyTable, |w.activeEnergy|);
    assert TablesFrom(w, 5) == t5;
    assert TablesFrom(w, 4) == t4 + t5;
    assert TablesFrom(w, 3) == t3 + (t4 + t5);
    assert TablesFrom(w, 2) == t2 + (t3 + (t4 + t5));
    assert TablesFrom(w, 1) == t1 + (t2 + (t3 + (t4 + t5)));
    assert TablesFrom(w, 0) == t0 + (t1 + (t2 + (t3 + (t4 + t5))));
  }

  /**
   * What StoreWorkouts sends for a workout: its own row first, then one row
   * per child log, route points first, then heart rate, heart-rate recovery,
   * step count, walking and running distance and active energy. Every child
   * row carries the workout's id, and its own date or else the workout's
   * resolved start.
   */
  lemma WorkoutChildren(w: Workout, now: Time)
    ensures var p := WorkoutStatements(w, now);
            && |p| == 1 + |ChildDates(w)| && |ChildTables(w)| == |ChildDates(w)|
            && p[0] == Insert(WorkoutsTable, WorkoutRowOf(w, now))
            && forall k :: 1 <= k < |p| ==>
                 ChildInsert(p[k], w.id, ChildTables(w)[k - 1], ChildDates(w)[k - 1], Resolve(w.start, now))
  {
    var start := Resolve(w.start, now);
    ChildrenFromRows(w, start, 0);
    DatesFromStart(w);
    TablesFromStart(w);
    var p := WorkoutStatements(w, now);
    forall k | 1 <= k < |p| ensures p[k] == ChildrenFrom(w, start, 0)[k - 1] {
    }
  }

  /** Location, duration and elevation gain are never written. */
  lemma WorkoutIgnores(w: Workout, location: string, duration: real, elevationUp: QtyUnit, now: Time)
    ensures WorkoutStatements(w.(location := location, duration := duration, elevationUp := elevationUp), now)
            == WorkoutStatements(w, now)
  {
    var w' := w.(location := location, duration := duration, elevationUp := elevationUp);
    assert WorkoutRowOf(w', now) == WorkoutRowOf(w, now);
    forall stage | 0 <= stage < Stages ensures StagePlan(w', Resolve(w.start, now), stage) == StagePlan(w, Resolve(w.start, now), stage) {
    }
    assert ChildrenFrom(w', Resolve(w.start, now), 0) == ChildrenFrom(w, Resolve(w.start, now), 0) by {
      assert ChildrenFrom(w', Resolve(w.start, now), 6) == ChildrenFrom(w, Resolve(w.start, now), 6);
    }
  }

  // ------------------------------------------------------------ states of mind

  function StateOfMindRowOf(e: StateOfMind, now: Time): Row {
    StateOfMindRow(e.id, Resolve(e.start, now), Resolve(e.end, now), e.valence, e.valenceClassification,
                   e.kind, e.labels, e.associations)
  }

  /** StoreStateOfMind's plan: one row per entry, in order. */
  function StateOfMindPlan(entries: seq<StateOfMind>, now: Time): seq<Statement> {
    seq(|entries|, i requires 0 <= i < |entries| => Insert(StateOfMindTable, StateOfMindRowOf(entries[i], now)))
  }

  // ---------------------------------------------------------------------- ECGs

  const Uint32Modulus: int := 0x1_0000_0000

  /** The time of voltage measurement `i`: its own date, else `i` sampling intervals of whole nanoseconds after the start, else the start. */
  function VoltageTime(e: Ecg, start: Time, i: nat): (r: Time)
    requires i < |e.voltageMeasurements|
    ensures e.voltageMeasurements[i].date.Some? ==> r == e.voltageMeasurements[i].date.value.t
    ensures e.voltageMeasurements[i].date.None? && e.samplingFrequency > 0 ==>
              && UnixNanos(r) == UnixNanos(start) + i * (NanosPerSecond / e.samplingFrequency)
              && Normal(r) && r.offset == start.offset
    ensures e.voltageMeasurements[i].date.None? && e.samplingFrequency <= 0 ==> r == start
  {
    var vm := e.voltageMeasurements[i];
    if vm.date.Some? then UnixToTime(vm.date.value)
    else if e.samplingFrequency > 0 then AddNanos(start, i * (NanosPerSecond / e.samplingFrequency))
    else start
  }

  function VoltageRowOf(e: Ecg, id: string, start: Time, i: nat): Row
    requires i < |e.voltageMeasurements|
  {
    var vm := e.voltageMeasurements[i];
    VoltageRow(id, i % Uint32Modulus, VoltageTime(e, start, i), vm.voltage, vm.units)
  }

  function EcgRowOf(e: Ecg, id: string, now: Time): Row {
    EcgRow(id, e.classification, e.source, e.averageHeartRate, Resolve(e.start, now), Resolve(e.end, now),
           e.numberOfVoltageMeasurements, e.samplingFrequency)
  }

  function VoltagePlan(e: Ecg, id: string, start: Time): seq<Statement> {
    seq(|e.voltageMeasurements|, i requires 0 <= i < |e.voltageMeasurements| => Insert(EcgVoltageTable, VoltageRowOf(e, id, start, i)))
  }

  /** Everything StoreECG sends for one ECG under its fresh id. */
  function EcgStatements(e: Ecg, id: string, now: Time): seq<Statement> {
    [Insert(EcgTable, EcgRowOf(e, id, now))] + VoltagePlan(e, id, Resolve(e.start, now))
  }

  /** StoreECG's plan; `ids` holds the fresh id drawn for each ECG. */
  function EcgPlan(ecgs: seq<Ecg>, ids: seq<string>, now: Time): seq<Statement>
    requires |ids| == |ecgs|
    decreases |ecgs|
  {
    if ecgs == [] then [] else EcgStatements(ecgs[0], ids[0], now) + EcgPlan(ecgs[1..], ids[1..], now)
  }

  /**
   * Undated measurements of an ECG with a positive sampling frequency F lie
   * i * (10^9 div F) nanoseconds after its start, in its start's zone, so
   * consecutive ones are exactly one interval apart.
   */
  lemma VoltageSpacing(e: Ecg, start: Time, i: nat)
    requires i + 1 < |e.voltageMeasurements| && e.samplingFrequency > 0
    requires e.voltageMeasurements[i].date.None? && e.voltageMeasurements[i + 1].date.None?
    ensures UnixNanos(VoltageTime(e, start, i)) == UnixNanos(start) + i * (NanosPerSecond / e.samplingFrequency)
    ensures UnixNanos(VoltageTime(e, start, i + 1)) - UnixNanos(VoltageTime(e, start, i))
            == NanosPerSecond / e.samplingFrequency
    ensures VoltageTime(e, start, i).offset == start.offset
  {
  }

  predicate IsVoltage(s: Statement) {
    s.Insert? && s.row.VoltageRow?
  }

  /** No two voltage rows of a plan share the key (ecg_id, sample_index). */
  predicate VoltageKeysDistinct(plan: seq<Statement>) {
    forall a, b :: 0 <= a < b < |plan| && IsVoltage(plan[a]) && IsVoltage(plan[b]) ==>
      plan[a].row.ecgId != plan[b].row.ecgId || plan[a].row.sampleIndex != plan[b].row.sampleIndex
  }

  /** The voltage rows of one ECG carry its id and their position as sample index. */
  lemma VoltageRowsOfOne(e: Ecg, id: string, now: Time)
    requires |e.voltageMeasurements| <= Uint32Modulus
    ensures var p := EcgStatements(e, id, now);
            && !IsVoltage(p[0])
            && forall k :: 1 <= k < |p| ==> IsVoltage(p[k]) && p[k].row.ecgId == id && p[k].row.sampleIndex == k - 1
  {
  }

  /** Every voltage row of a plan carries one of the plan's ids. */
  lemma {:induction false} VoltageIdsFrom(ecgs: seq<Ecg>, ids: seq<string>, now: Time)
    requires |ids| == |ecgs|
    ensures forall k :: 0 <= k < |EcgPlan(ecgs, ids, now)| && IsVoltage(EcgPlan(ecgs, ids, now)[k]) ==>
              EcgPlan(ecgs, ids, now)[k].row.ecgId in ids
    decreases |ecgs|
  {
    if ecgs != [] {
      VoltageIdsFrom(ecgs[1..], ids[1..], now);
      var head := EcgStatements(ecgs[0], ids[0], now);
      var plan := EcgPlan(ecgs, ids, now);
      forall k | |head| <= k < |plan| ensures plan[k] == EcgPlan(ecgs[1..], ids[1..], now)[k - |head|] {
      }
    }
  }

  /**
   * With a different fresh id per ECG and at most 2^32 measurements each,
   * the (ecg_id, sample_index) keys StoreECG writes are pairwise distinct.
   */
  lemma {:induction false} EcgVoltageKeysDistinct(ecgs: seq<Ecg>, ids: seq<string>, now: Time)
    requires |ids| == |ecgs|
    requires forall a, b :: 0 <= a < b < |ids| ==> ids[a] != ids[b]
    requires forall i :: 0 <= i < |ecgs| ==> |ecgs[i].voltageMeasurements| <= Uint32Modulus
    ensures VoltageKeysDistinct(EcgPlan(ecgs, ids, now))
    decreases |ecgs|
  {
    if ecgs != [] {
      var tail := EcgPlan(ecgs[1..], ids[1..], now);
      var head := EcgStatements(ecgs[0], ids[0], now);
      var plan := EcgPlan(ecgs, ids, now);
      assert forall a, b :: 0 <= a < b < |ids[1..]| ==> ids[1..][a] != ids[1..][b] by {
        forall a, b | 0 <= a < b < |ids[1..]| ensures ids[1..][a] != ids[1..][b] {
          assert ids[1..][a] == ids[a + 1] && ids[1..][b] == ids[b + 1];
        }
      }
      EcgVoltageKeysDistinct(ecgs[1..], ids[1..], now);
      VoltageIdsFrom(ecgs[1..], ids[1..], now);
      VoltageRowsOfOne(ecgs[0], ids[0], now);
      assert ids[0] !in ids[1..] by {
        forall k | 0 <= k < |ids[1..]| ensures ids[1..][k] != ids[0] {
          assert ids[1..][k] == ids[k + 1];
        }
      }
      forall a, b | 0 <= a < b < |plan| && IsVoltage(plan[a]) && IsVoltage(plan[b])
        ensures plan[a].row.ecgId != plan[b].row.ecgId || plan[a].row.sampleIndex != plan[b].row.sampleIndex
      {
        if b < |head| {
        } else if a < |head| {
          assert plan[b] == tail[b - |head|];
        } else {
          assert plan[a] == tail[a - |head|] && plan[b] == tail[b - |head|];
        }
      }
    }
  }

  // ---------------------------------------------------------------- optimizing

  /** One OPTIMIZE per table of `order`, in that order. */
  function OptimizeEach(order: seq<Table>): seq<Statement> {
    seq(|order|, i requires 0 <= i < |order| => Optimize(order[i]))
  }

  /** OptimizeTables' plan: the tables in list order. */
  function OptimizePlan(): seq<Statement> {
    OptimizeEach(OptimizeOrder)
  }

  /** Running OPTIMIZE statements only never changes a table's rows. */
  lemma {:induction false} OptimizeEachRows(st: DbState, order: seq<Table>, rejects: map<nat, string>)
    ensures Run(st, OptimizeEach(order), rejects).0.tables == st.tables
    decreases |order|
  {
    var plan := OptimizeEach(order);
    if order != [] && st.issued !in rejects {
      assert plan[0] == Optimize(order[0]) && plan[1..] == OptimizeEach(order[1..]);
      OptimizeEachRows(Apply(st, plan[0]), order[1..], rejects);
    }
  }

  /** The tables optimized are those of `order` before the first refusal. */
  lemma {:induction false} OptimizeEachOptimized(st: DbState, order: seq<Table>, rejects: map<nat, string>)
    ensures Run(st, OptimizeEach(order), rejects).0.optimized
            == st.optimized + order[..Accepted(st.issued, |order|, rejects)]
    decreases |order|
  {
    var plan := OptimizeEach(order);
    if order == [] || st.issued in rejects {
      assert order[..0] == [];
    } else {
      var st1 := Apply(st, Optimize(order[0]));
      assert plan[0] == Optimize(order[0]) && plan[1..] == OptimizeEach(order[1..]);
      OptimizeEachOptimized(st1, order[1..], rejects);
      var k1 := Accepted(st1.issued, |order| - 1, rejects);
      assert Accepted(st.issued, |order|, rejects) == k1 + 1;
      assert order[..k1 + 1] == [order[0]] + order[1..][..k1];
    }
  }

  /** The run fails exactly when a table is refused, with that table's error. */
  lemma {:induction false} OptimizeEachError(st: DbState, order: seq<Table>, rejects: map<nat, string>)
    ensures var k := Accepted(st.issued, |order|, rejects);
            && (Run(st, OptimizeEach(order), rejects).1.None? <==> k == |order|)
            && (k < |order| ==>
                  Run(st, OptimizeEach(order), rejects).1 == Some(Failure(Optimize(order[k]), rejects[st.issued + k])))
    decreases |order|
  {
    var plan := OptimizeEach(order);
    if order != [] {
      assert plan[0] == Optimize(order[0]);
      if st.issued !in rejects {
        var st1 := Apply(st, Optimize(order[0]));
        assert plan[1..] == OptimizeEach(order[1..]);
        OptimizeEachError(st1, order[1..], rejects);
        var k1 := Accepted(st1.issued, |order| - 1, rejects);
        assert Accepted(st.issued, |order|, rejects) == k1 + 1;
        if k1 < |order| - 1 {
          assert order[1..][k1] == order[k1 + 1];
        }
      }
    }
  }


  // --------------------------------------------------------------------- store

  /** The store: the server it writes to and the database its tables live in. */
  class ClickHouseMetricStore {
    const db: Db
    const database: string

    constructor (db: Db, database: string)
      ensures this.db == db && this.database == database
    {
      this.db := db;
      this.database := database;
    }

    function Name(): (r: string)
      ensures r == "clickhouse"
    {
      "clickhouse"
    }

    /**
     * One statement of a plan sent with ExecContext, a refusal wrapped the way
     * the store reports it: the rest of the plan follows on success, and on a
     * refusal the state and the error are those the plan's run ends with.
     */
    method Exec(s: Statement, ghost plan: seq<Statement>, ghost k: nat) returns (err: Option<string>)
      requires db.Valid() && k < |plan| && plan[k] == s
      modifies db
      ensures db.Valid()
      ensures err.None? ==> Run(old(db.State()), plan[k..], db.rejects) == Run(db.State(), plan[k + 1..], db.rejects)
      ensures err.Some? ==> Returned(Run(old(db.State()), plan[k..], db.rejects)) == (db.State(), err)
    {
      Advance(db.State(), plan, k, db.rejects);
      var e := db.ExecContext(s);
      if e.Some? {
        return Some(ErrorText(s, e.value));
      }
      return None;
    }

    /** Store: one metrics row per sample; `lookup` is request.LookupMetricType. */
    method Store(metrics: seq<Metric>, now: Time, lookup: string -> string) returns (err: Option<string>)
      requires db.Valid()
      modifies db
      ensures db.Valid()
      ensures (db.State(), err) == Returned(Run(old(db.State()), MetricPlan(metrics, now, lookup), db.rejects))
      ensures metrics == [] ==> err.None? && db.State() == old(db.State())
    {
      if |metrics| == 0 {
        return None;
      }
      ghost var goal := Run(db.State(), MetricPlan(metrics, now, lookup), db.rejects);
      var i := 0;
      while i < |metrics|
        invariant 0 <= i <= |metrics| && db.Valid()
        invariant goal == Run(db.State(), MetricPlan(metrics[i..], now, lookup), db.rejects)
      {
        var metric := metrics[i];
        var metricType := lookup(metric.name);
        assert metrics[i..][1..] == metrics[i + 1..];
        RunAppend(db.State(), SamplePlan(metric, now, metricType), MetricPlan(metrics[i + 1..], now, lookup), db.rejects);
        err := StoreSamples(metric, metricType, now);
        if err.Some? {
          return;
        }
        i := i + 1;
      }
      assert metrics[i..] == [];
      return None;
    }

    /** Store's inner loop: the samples of one metric. */
    method StoreSamples(metric: Metric, metricType: string, now: Time) returns (err: Option<string>)
      requires db.Valid()
      modifies db
      ensures db.Valid()
      ensures (db.State(), err) == Returned(Run(old(db.State()), SamplePlan(metric, now, metricType), db.rejects))
    {
      ghost var plan := SamplePlan(metric, now, metricType);
      ghost var goal := Run(db.State(), plan, db.rejects);
      assert plan[0..] == plan;
      var j := 0;
      while j < |metric.samples|
        invariant 0 <= j <= |metric.samples| && db.Valid()
        invariant goal == Run(db.State(), plan[j..], db.rejects)
      {
        var sample := metric.samples[j];
        var timestamp: Time;
        var ts := GetTimestamp(sample);
        if ts.Some? {
          timestamp := ToTime(ts.value);
        } else {
          timestamp := now;
        }
        var qty, max, min, avg, asleep, inBed := 0.0, 0.0, 0.0, 0.0, 0.0, 0.0;
        var sleepSource, inBedSource := "", "";
        match sample {
          case QtySample(_, q) =>
            qty := q;
          case MinMaxAvgSample(_, mn, mx, av) =>
            max, min, avg := mx, mn, av;
          case SleepSample(_, a, b, ss, bs) =>
            asleep, inBed, sleepSource, inBedSource := a, b, ss, bs;
          case OtherSample(_) =>
        }
        var row := MetricRow(timestamp, metric.name, metric.unit, metricType, qty, max, min, avg,
                             asleep, inBed, sleepSource, inBedSource);
        assert plan[j] == Insert(MetricsTable, row);
        err := Exec(Insert(MetricsTable, row), plan, j);
        if err.Some? {
          return;
        }
        j := j + 1;
      }
      assert plan[j..] == [];
      return None;
    }

    /** StoreWorkouts: per workout its row, then six loops over its child logs. */
    method StoreWorkouts(workouts: seq<Workout>, now: Time) returns (err: Option<string>)
      requires db.Valid()
      modifies db
      ensures db.Valid()
      ensures (db.State(), err) == Returned(Run(old(db.State()), WorkoutPlan(workouts, now), db.rejects))
      ensures workouts == [] ==> err.None? && db.State() == old(db.State())
    {
      if |workouts| == 0 {
        return None;
      }
      ghost var goal := Run(db.State(), WorkoutPlan(workouts, now), db.rejects);
      var i := 0;
      while i < |workouts|
        invariant 0 <= i <= |workouts| && db.Valid()
        invariant goal == Run(db.State(), WorkoutPlan(workouts[i..], now), db.rejects)
      {
        assert workouts[i..][0] == workouts[i] && workouts[i..][1..] == workouts[i + 1..];
        RunAppend(db.State(), WorkoutStatements(workouts[i], now), WorkoutPlan(workouts[i + 1..], now), db.rejects);
        err := StoreWorkout(workouts[i], now);
        if err.Some? {
          return;
        }
        i := i + 1;
      }
      assert workouts[i..] == [];
      return None;
    }

    /** One round of StoreWorkouts' loop: the workout's row, then its child logs. */
    method StoreWorkout(workout: Workout, now: Time) returns (err: Option<string>)
      requires db.Valid()
      modifies db
      ensures db.Valid()
      ensures (db.State(), err) == Returned(Run(old(db.State()), WorkoutStatements(workout, now), db.rejects))
    {
      var startTime, endTime: Time;
      if workout.start.Some? {
        startTime := ToTime(workout.start.value);
      } else {
        startTime := now;
      }
      if workout.end.Some? {
        endTime := ToTime(workout.end.value);
      } else {
        endTime := now;
      }
      var activeEnergyQty := if workout.activeEnergyBurned.qty != 0.0 then workout.activeEnergyBurned.qty else 0.0;
      var activeEnergyUnits := if workout.activeEnergyBurned.units != "" then workout.activeEnergyBurned.units else "";
      var row := WorkoutRow(workout.id, workout.name, startTime, endTime, activeEnergyQty, activeEnergyUnits,
                            workout.distance.qty, workout.distance.units, workout.intensity.qty, workout.intensity.units,
                            workout.humidity.qty, workout.humidity.units, workout.temperature.qty, workout.temperature.units);
      assert startTime == Resolve(workout.start, now) && row == WorkoutRowOf(workout, now);
      RunCons(db.State(), Insert(WorkoutsTable, row), ChildrenFrom(workout, startTime, 0), db.rejects);
      var e := db.ExecContext(Insert(WorkoutsTable, row));
      if e.Some? {
        return Some(ErrorText(Insert(WorkoutsTable, row), e.value));
      }
      err := StoreChildLogs(workout, startTime);
    }

    /** The six child-log loops of StoreWorkouts for one workout, in order. */
    method StoreChildLogs(workout: Workout, startTime: Time) returns (err: Option<string>)
      requires db.Valid()
      modifies db
      ensures db.Valid()
      ensures (db.State(), err) == Returned(Run(old(db.State()), ChildrenFrom(workout, startTime, 0), db.rejects))
    {
      ghost var goal := Run(db.State(), ChildrenFrom(workout, startTime, 0), db.rejects);
      RunAppend(db.State(), StagePlan(workout, startTime, 0), ChildrenFrom(workout, startTime, 1), db.rejects);
      err := StoreRoute(workout.id, startTime, workout.route);
      if err.Some? {
        return;
      }
      assert goal == Run(db.State(), ChildrenFrom(workout, startTime, 1), db.rejects);
      RunAppend(db.State(), StagePlan(workout, startTime, 1), ChildrenFrom(workout, startTime, 2), db.rejects);
      err := StoreHeartRates(HeartRateDataTable, workout.id, startTime, workout.heartRateData);
      if err.Some? {
        return;
      }
      assert goal == Run(db.State(), ChildrenFrom(workout, startTime, 2), db.rejects);
      RunAppend(db.State(), StagePlan(workout, startTime, 2), ChildrenFrom(workout, startTime, 3), db.rejects);
      err := StoreHeartRates(HeartRateRecoveryTable, workout.id, startTime, workout.heartRateRecovery);
      if err.Some? {
        return;
      }
      assert goal == Run(db.State(), ChildrenFrom(workout, startTime, 3), db.rejects);
      RunAppend(db.State(), StagePlan(workout, startTime, 3), ChildrenFrom(workout, startTime, 4), db.rejects);
      err := StoreQtyLogs(StepCountLogTable, workout.id, startTime, workout.stepCount);
      if err.Some? {
        return;
      }
      assert goal == Run(db.State(), ChildrenFrom(workout, startTime, 4), db.rejects);
      RunAppend(db.State(), StagePlan(workout, startTime, 4), ChildrenFrom(workout, startTime, 5), db.rejects);
      err := StoreQtyLogs(WalkingRunningDistanceTable, workout.id, startTime, workout.walkingAndRunningDistance);
      if err.Some? {
        return;
      }
      assert goal == Run(db.State(), ChildrenFrom(workout, startTime, 5), db.rejects);
      RunAppend(db.State(), StagePlan(workout, startTime, 5), ChildrenFrom(workout, startTime, 6), db.rejects);
      err := StoreQtyLogs(ActiveEnergyTable, workout.id, startTime, workout.activeEnergy);
    }

    /** StoreWorkouts' route loop. */
    method StoreRoute(workoutId: string, startTime: Time, route: seq<GpsLog>) returns (err: Option<string>)
      requires db.Valid()
      modifies db
      ensures db.Valid()
      ensures (db.State(), err) == Returned(Run(old(db.State()), RoutePlan(workoutId, startTime, route), db.rejects))
    {
      ghost var plan := RoutePlan(workoutId, startTime, route);
      ghost var goal := Run(db.State(), plan, db.rejects);
      assert plan[0..] == plan;
      var j := 0;
      while j < |route|
        invariant 0 <= j <= |route| && db.Valid()
        invariant goal == Run(db.State(), plan[j..], db.rejects)
      {
        var point := route[j];
        var routeTimestamp: Time;
        if point.timestamp.Some? {
          routeTimestamp := ToTime(point.timestamp.value);
        } else {
          routeTimestamp := startTime;
        }
        var row := RouteRow(workoutId, routeTimestamp, point.lat, point.lon, point.altitude, point.course,
                            point.verticalAccuracy, point.horizontalAccuracy, point.courseAccuracy,
                            point.speed, point.speedAccuracy);
        assert plan[j] == Insert(RoutesTable, row);
        err := Exec(Insert(RoutesTable, row), plan, j);
        if err.Some? {
          return;
        }
        j := j + 1;
      }
      assert plan[j..] == [];
      return None;
    }

    /** StoreWorkouts' heart-rate loop and heart-rate recovery loop. */
    method StoreHeartRates(table: Table, workoutId: string, startTime: Time, logs: seq<HeartRateLog>)
      returns (err: Option<string>)
      requires db.Valid()
      modifies db
      ensures db.Valid()
      ensures (db.State(), err) == Returned(Run(old(db.State()), HeartRatePlan(table, workoutId, startTime, logs), db.rejects))
    {
      ghost var plan := HeartRatePlan(table, workoutId, startTime, logs);
      ghost var goal := Run(db.State(), plan, db.rejects);
      assert plan[0..] == plan;
      var j := 0;
      while j < |logs|
        invariant 0 <= j <= |logs| && db.Valid()
        invariant goal == Run(db.State(), plan[j..], db.rejects)
      {
        var point := logs[j];
        var heartRateTimestamp: Time;
        if point.date.Some? {
          heartRateTimestamp := ToTime(point.date.value);
        } else {
          heartRateTimestamp := startTime;
        }
        var row := HeartRateRow(workoutId, heartRateTimestamp, point.qty, point.min, point.max, point.avg,
                                point.units, point.source);
        assert plan[j] == Insert(table, row);
        err := Exec(Insert(table, row), plan, j);
        if err.Some? {
          return;
        }
        j := j + 1;
      }
      assert plan[j..] == [];
      return None;
    }

    /** StoreWorkouts' step count, walking and running distance, and active energy loops. */
    method StoreQtyLogs(table: Table, workoutId: string, startTime: Time, logs: seq<StepCountLog>)
      returns (err: Option<string>)
      requires db.Valid()
      modifies db
      ensures db.Valid()
      ensures (db.State(), err) == Returned(Run(old(db.State()), QtyLogPlan(table, workoutId, startTime, logs), db.rejects))
    {
      ghost var plan := QtyLogPlan(table, workoutId, startTime, logs);
      ghost var goal := Run(db.State(), plan, db.rejects);
      assert plan[0..] == plan;
      var j := 0;
      while j < |logs|
        invariant 0 <= j <= |logs| && db.Valid()
        invariant goal == Run(db.State(), plan[j..], db.rejects)
      {
        var point := logs[j];
        var timestamp: Time;
        if point.date.Some? {
          timestamp := ToTime(point.date.value);
        } else {
          timestamp := startTime;
        }
        var row := QtyLogRow(workoutId, timestamp, point.qty, point.units, point.source);
        assert plan[j] == Insert(table, row);
        err := Exec(Insert(table, row), plan, j);
        if err.Some? {
          return;
        }
        j := j + 1;
      }
      assert plan[j..] == [];
      return None;
    }

    /** StoreStateOfMind: one row per entry. */
    method StoreStateOfMind(entries: seq<StateOfMind>, now: Time) returns (err: Option<string>)
      requires db.Valid()
      modifies db
      ensures db.Valid()
      ensures (db.State(), err) == Returned(Run(old(db.State()), StateOfMindPlan(entries, now), db.rejects))
      ensures entries == [] ==> err.None? && db.State() == old(db.State())
    {
      if |entries| == 0 {
        return None;
      }
      ghost var plan := StateOfMindPlan(entries, now);
      ghost var goal := Run(db.State(), plan, db.rejects);
      assert plan[0..] == plan;
      var i := 0;
      while i < |entries|
        invariant 0 <= i <= |entries| && db.Valid()
        invariant goal == Run(db.State(), plan[i..], db.rejects)
      {
        var entry := entries[i];
        var startTime, endTime: Time;
        if entry.start.Some? {
          startTime := ToTime(entry.start.value);
        } else {
          startTime := now;
        }
        if entry.end.Some? {
          endTime := ToTime(entry.end.value);
        } else {
          endTime := now;
        }
        var row := StateOfMindRow(entry.id, startTime, endTime, entry.valence, entry.valenceClassification,
                                  entry.kind, entry.labels, entry.associations);
        assert plan[i] == Insert(StateOfMindTable, row);
        err := Exec(Insert(StateOfMindTable, row), plan, i);
        if err.Some? {
          return;
        }
        i := i + 1;
      }
      assert plan[i..] == [];
      return None;
    }

    /** StoreECG: per ECG its row under a fresh id, then its voltage measurements; `ids` are the fresh ids. */
    method StoreECG(ecgs: seq<Ecg>, ids: seq<string>, now: Time) returns (err: Option<string>)
      requires |ids| == |ecgs|
      requires db.Valid()
      modifies db
      ensures db.Valid()
      ensures (db.State(), err) == Returned(Run(old(db.State()), EcgPlan(ecgs, ids, now), db.rejects))
      ensures ecgs == [] ==> err.None? && db.State() == old(db.State())
    {
      if |ecgs| == 0 {
        return None;
      }
      ghost var goal := Run(db.State(), EcgPlan(ecgs, ids, now), db.rejects);
      var i := 0;
      while i < |ecgs|
        invariant 0 <= i <= |ecgs| && db.Valid()
        invariant goal == Run(db.State(), EcgPlan(ecgs[i..], ids[i..], now), db.rejects)
      {
        assert ecgs[i..][0] == ecgs[i] && ecgs[i..][1..] == ecgs[i + 1..];
        assert ids[i..][0] == ids[i] && ids[i..][1..] == ids[i + 1..];
        RunAppend(db.State(), EcgStatements(ecgs[i], ids[i], now), EcgPlan(ecgs[i + 1..], ids[i + 1..], now), db.rejects);
        err := StoreEcg(ecgs[i], ids[i], now);
        if err.Some? {
          return;
        }
        i := i + 1;
      }
      assert ecgs[i..] == [];
      return None;
    }

    /** One round of StoreECG's loop: the ECG's row under `id`, then its voltage measurements. */
    method StoreEcg(ecg: Ecg, id: string, now: Time) returns (err: Option<string>)
      requires db.Valid()
      modifies db
      ensures db.Valid()
      ensures (db.State(), err) == Returned(Run(old(db.State()), EcgStatements(ecg, id, now), db.rejects))
    {
      var startTime, endTime: Time;
      if ecg.start.Some? {
        startTime := ToTime(ecg.start.value);
      } else {
        startTime := now;
      }
      if ecg.end.Some? {
        endTime := ToTime(ecg.end.value);
      } else {
        endTime := now;
      }
      var row := EcgRow(id, ecg.classification, ecg.source, ecg.averageHeartRate, startTime, endTime,
                        ecg.numberOfVoltageMeasurements, ecg.samplingFrequency);
      assert startTime == Resolve(ecg.start, now) && row == EcgRowOf(ecg, id, now);
      RunCons(db.State(), Insert(EcgTable, row), VoltagePlan(ecg, id, startTime), db.rejects);
      var e := db.ExecContext(Insert(EcgTable, row));
      if e.Some? {
        return Some(ErrorText(Insert(EcgTable, row), e.value));
      }
      err := StoreVoltages(ecg, id, startTime);
    }

    /** StoreECG's voltage loop. */
    method StoreVoltages(ecg: Ecg, id: string, startTime: Time) returns (err: Option<string>)
      requires db.Valid()
      modifies db
      ensures db.Valid()
      ensures (db.State(), err) == Returned(Run(old(db.State()), VoltagePlan(ecg, id, startTime), db.rejects))
    {
      ghost var plan := VoltagePlan(ecg, id, startTime);
      ghost var goal := Run(db.State(), plan, db.rejects);
      assert plan[0..] == plan;
      var i := 0;
      while i < |ecg.voltageMeasurements|
        invariant 0 <= i <= |ecg.voltageMeasurements| && db.Valid()
        invariant goal == Run(db.State(), plan[i..], db.rejects)
      {
        var vm := ecg.voltageMeasurements[i];
        var ts: Time;
        if vm.date.Some? {
          ts := UnixToTime(vm.date.value);
        } else if ecg.samplingFrequency > 0 {
          var interval := NanosPerSecond / ecg.samplingFrequency;
          ts := AddNanos(startTime, i * interval);
        } else {
          ts := startTime;
        }
        var row := VoltageRow(id, i % Uint32Modulus, ts, vm.voltage, vm.units);
        assert plan[i] == Insert(EcgVoltageTable, row);
        err := Exec(Insert(EcgVoltageTable, row), plan, i);
        if err.Some? {
          return;
        }
        i := i + 1;
      }
      assert plan[i..] == [];
      return None;
    }

    /** OptimizeTables: OPTIMIZE TABLE database.table FINAL for each table in list order. */
    method OptimizeTables() returns (err: Option<string>)
      requires db.Valid()
      modifies db
      ensures db.Valid()
      ensures (db.State(), err) == Returned(Run(old(db.State()), OptimizePlan(), db.rejects))
    {
      var tables := OptimizeOrder;
      err := OptimizeAll(tables);
    }

    /** The loop of OptimizeTables over its list of tables, stopping at the first refusal. */
    method OptimizeAll(tables: seq<Table>) returns (err: Option<string>)
      requires db.Valid()
      modifies db
      ensures db.Valid()
      ensures (db.State(), err) == Returned(Run(old(db.State()), OptimizeEach(tables), db.rejects))
    {
      ghost var plan := OptimizeEach(tables);
      ghost var goal := Run(db.State(), plan, db.rejects);
      assert plan[0..] == plan;
      var i := 0;
      while i < |tables|
        invariant 0 <= i <= |tables| && db.Valid()
        invariant goal == Run(db.State(), plan[i..], db.rejects)
      {
        var table := tables[i];
        err := Exec(Optimize(table), plan, i);
        if err.Some? {
          return;
        }
        i := i + 1;
      }
      assert plan[i..] == [];
      return None;
    }
  }
}
