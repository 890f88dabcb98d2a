/**
 * The database the ClickHouse store writes to, as storage/clickhouse/metrics.go
 * uses it: eleven tables under fixed names, rows appended one INSERT at a time,
 * and OPTIMIZE ... FINAL statements that the engine acts on out of sight (here
 * only logged). Whether the server refuses a statement is decided by a
 * `rejects` oracle that maps statement numbers to the server's error text.
 */
module Database {
  import opened Wrappers
  import opened Time

  datatype Table =
    | MetricsTable | WorkoutsTable | StateOfMindTable | RoutesTable | HeartRateDataTable
    | HeartRateRecoveryTable | StepCountLogTable | WalkingRunningDistanceTable | ActiveEnergyTable
    | EcgTable | EcgVoltageTable

  /** The table names NewClickHouseMetricStore fixes. */
  function TableName(t: Table): string {
    match t
    case MetricsTable => "metrics"
    case WorkoutsTable => "workouts"
    case StateOfMindTable => "state_of_mind"
    case RoutesTable => "workout_routes"
    case HeartRateDataTable => "workout_heart_rate_data"
    case HeartRateRecoveryTable => "workout_heart_rate_recovery"
    case StepCountLogTable => "workout_step_count_log"
    case WalkingRunningDistanceTable => "workout_walking_running_distance"
    case ActiveEnergyTable => "workout_active_energy"
    case EcgTable => "ecg"
    case EcgVoltageTable => "ecg_voltage"
  }

  /** The list OptimizeTables walks. */
  const OptimizeOrder: seq<Table> := [
    MetricsTable, WorkoutsTable, StateOfMindTable, RoutesTable, HeartRateDataTable, HeartRateRecoveryTable,
    StepCountLogTable, WalkingRunningDistanceTable, ActiveEnergyTable, EcgTable, EcgVoltageTable]

  /** The list names every table once, and no two tables share a name. */
  lemma OptimizeOrderComplete()
    ensures |OptimizeOrder| == 11
    ensures forall t: Table :: t in OptimizeOrder
    ensures forall i, j :: 0 <= i < j < |OptimizeOrder| ==> OptimizeOrder[i] != OptimizeOrder[j]
    ensures forall a: Table, b: Table :: TableName(a) == TableName(b) ==> a == b
  {
    forall t: Table ensures t in OptimizeOrder {
      assert OptimizeOrder[TableIndex(t)] == t;
    }
  }

  /** Where a table stands in OptimizeOrder. */
  function TableIndex(t: Table): nat {
    match t
    case MetricsTable => 0
    case WorkoutsTable => 1
    case StateOfMindTable => 2
    case RoutesTable => 3
    case HeartRateDataTable => 4
    case HeartRateRecoveryTable => 5
    case StepCountLogTable => 6
    case WalkingRunningDistanceTable => 7
    case ActiveEnergyTable => 8
    case EcgTable => 9
    case EcgVoltageTable => 10
  }

  /** One row of one of the tables, with the columns the INSERT statements fill. */
  datatype Row =
    | MetricRow(timestamp: Time, metricName: string, metricUnit: string, metricType: string,
                qty: real, max: real, min: real, avg: real, asleep: real, inBed: real,
                sleepSource: string, inBedSource: string)
    | WorkoutRow(id: string, name: string, start: Time, end: Time,
                 activeEnergyQty: real, activeEnergyUnits: string, distanceQty: real, distanceUnits: string,
                 intensityQty: real, intensityUnits: string, humidityQty: real, humidityUnits: string,
                 temperatureQty: real, temperatureUnits: string)
    | RouteRow(workoutId: string, timestamp: Time, lat: real, lon: real, altitude: real, course: real,
               verticalAccuracy: real, horizontalAccuracy: real, courseAccuracy: real,
               speed: real, speedAccuracy: real)
    | HeartRateRow(workoutId: string, timestamp: Time, qty: real, min: real, max: real, avg: real,
                   units: string, source: string)
    | QtyLogRow(workoutId: string, timestamp: Time, qty: real, units: string, source: string)
    | StateOfMindRow(id: string, start: Time, end: Time, valence: real, valenceClassification: string,
                     kind: string, labels: seq<string>, associations: seq<string>)
    | EcgRow(id: string, classification: string, source: string, averageHeartRate: real,
             start: Time, end: Time, numberOfVoltageMeasurements: int, samplingFrequency: int)
    | VoltageRow(ecgId: string, sampleIndex: int, timestamp: Time, voltage: real, units: string)

  /** A statement sent with ExecContext. */
  datatype Statement = Insert(table: Table, row: Row) | Optimize(table: Table)

  /** What the server holds, which tables were optimized in which order, and how many statements it has been sent. */
  datatype DbState = DbState(tables: map<Table, seq<Row>>, optimized: seq<Table>, issued: nat)

  /** The rows of table `t`; every table is created before the store is used, so the default is never read. */
  function Rows(st: DbState, t: Table): seq<Row> {
    if t in st.tables then st.tables[t] else []
  }

  /** A statement the server accepts. */
  function Apply(st: DbState, s: Statement): (r: DbState)
    ensures r.issued == st.issued + 1
  {
    match s
    case Insert(t, row) => st.(tables := st.tables[t := Rows(st, t) + [row]], issued := st.issued + 1)
    case Optimize(t) => st.(optimized := st.optimized + [t], issued := st.issued + 1)
  }

  /** The text each of the store's operations puts before a refused statement's error. */
  function ErrorFormat(s: Statement): string {
    match s
    case Optimize(t) => "failed to optimize table " + TableName(t) + ": "
    case Insert(t, _) =>
      match t
      case MetricsTable => "failed to insert metric: "
      case WorkoutsTable => "failed to insert workout: "
      case StateOfMindTable => "failed to insert state of mind entry: "
      case RoutesTable => "failed to insert route point: "
      case HeartRateDataTable => "failed to insert heart rate data point: "
      case HeartRateRecoveryTable => "failed to insert heart rate recovery data point: "
      case StepCountLogTable => "failed to insert step count log data point: "
      case WalkingRunningDistanceTable => "failed to insert walking and running distance data point: "
      case ActiveEnergyTable => "failed to insert active energy data point: "
      case EcgTable => "failed to insert ECG: "
      case EcgVoltageTable => "failed to insert ECG voltage: "
  }

  function ErrorText(s: Statement, serverError: string): string {
    ErrorFormat(s) + serverError
  }

  /** A refused statement and the error the server gave for it. */
  datatype Failure = Failure(statement: Statement, serverError: string)

  /**
   * Sending the statements of `plan` in order and stopping at the first one
   * the server refuses; the refused statement is reported with its error.
   */
  function Run(st: DbState, plan: seq<Statement>, rejects: map<nat, string>): (r: (DbState, Option<Failure>))
    decreases |plan|
  {
    if plan == [] then (st, None)
    else if st.issued in rejects then (st.(issued := st.issued + 1), Some(Failure(plan[0], rejects[st.issued])))
    else Run(Apply(st, plan[0]), plan[1..], rejects)
  }

  /** The error a store operation returns for a run's outcome: the refused statement's error, wrapped. */
  function Report(f: Option<Failure>): (r: Option<string>)
    ensures r.None? <==> f.None?
  {
    match f
    case None => None
    case Some(Failure(s, e)) => Some(ErrorText(s, e))
  }

  /** What a store operation leaves behind and returns. */
  function Returned(r: (DbState, Option<Failure>)): (DbState, Option<string>) {
    (r.0, Report(r.1))
  }

  /** The loops' step: running what is left of `plan` from its element `k` on. */
  lemma Advance(st: DbState, plan: seq<Statement>, k: nat, rejects: map<nat, string>)
    requires k < |plan|
    ensures Run(st, plan[k..], rejects)
            == if st.issued in rejects then (st.(issued := st.issued + 1), Some(Failure(plan[k], rejects[st.issued])))
               else Run(Apply(st, plan[k]), plan[k + 1..], rejects)
  {
    assert plan[k..][0] == plan[k];
    assert plan[k..][1..] == plan[k + 1..];
  }

  /** The first statement of a plan, sent on its own. */
  lemma RunCons(st: DbState, s: Statement, rest: seq<Statement>, rejects: map<nat, string>)
    ensures Run(st, [s] + rest, rejects)
            == if st.issued in rejects then (st.(issued := st.issued + 1), Some(Failure(s, rejects[st.issued])))
               else Run(Apply(st, s), rest, rejects)
  {
    assert ([s] + rest)[0] == s;
    assert ([s] + rest)[1..] == rest;
  }

  // ------------------------------------------------- an independent description

  /** Every statement of `plan` accepted, one after the other. */
  function ApplyAll(st: DbState, plan: seq<Statement>): (r: DbState)
    ensures r.issued == st.issued + |plan|
    decreases |plan|
  {
    if plan == [] then st else ApplyAll(Apply(st, plan[0]), plan[1..])
  }

  /** How many of `n` statements numbered from `from` on the server accepts before it refuses one. */
  function Accepted(from: nat, n: nat, rejects: map<nat, string>): (k: nat)
    ensures k <= n
    ensures forall j :: from <= j < from + k ==> j !in rejects
    ensures k < n ==> from + k in rejects
    decreases n
  {
    if n == 0 || from in rejects then 0 else 1 + Accepted(from + 1, n - 1, rejects)
  }

  /**
   * Run in closed form: the statements before the first refused one all take
   * effect (rows inserted before a failure stay), the refused one takes none,
   * nothing after it is sent, and the error names the refused statement.
   */
  lemma {:induction false} RunClosedForm(st: DbState, plan: seq<Statement>, rejects: map<nat, string>)
    ensures var k := Accepted(st.issued, |plan|, rejects);
            Run(st, plan, rejects)
            == if k == |plan| then (ApplyAll(st, plan), None)
               else (ApplyAll(st, plan[..k]).(issued := st.issued + k + 1),
                     Some(Failure(plan[k], rejects[st.issued + k])))
    decreases |plan|
  {
    if plan == [] {
    } else if st.issued in rejects {
      assert plan[..0] == [];
    } else {
      var k := Accepted(st.issued, |plan|, rejects);
      var st1 := Apply(st, plan[0]);
      var k1 := Accepted(st1.issued, |plan| - 1, rejects);
      assert k == k1 + 1;
      RunClosedForm(st1, plan[1..], rejects);
      assert Run(st, plan, rejects) == Run(st1, plan[1..], rejects);
      if k1 == |plan| - 1 {
        assert ApplyAll(st, plan) == ApplyAll(st1, plan[1..]);
      } else {
        assert plan[..k][0] == plan[0];
        assert plan[..k][1..] == plan[1..][..k1];
        assert ApplyAll(st, plan[..k]) == ApplyAll(st1, plan[1..][..k1]);
        assert plan[k] == plan[1..][k1];
      }
    }
  }

  /** The rows a plan inserts into table `t`, in order. */
  function InsertedInto(plan: seq<Statement>, t: Table): seq<Row>
    decreases |plan|
  {
    if plan == [] then []
    else (if plan[0].Insert? && plan[0].table == t then [plan[0].row] else []) + InsertedInto(plan[1..], t)
  }

  /** The tables a plan optimizes, in order. */
  function OptimizedBy(plan: seq<Statement>): seq<Table>
    decreases |plan|
  {
    if plan == [] then [] else (if plan[0].Optimize? then [plan[0].table] else []) + OptimizedBy(plan[1..])
  }

  /** One accepted statement adds its row to its own table and to no other. */
  lemma ApplyRows(st: DbState, s: Statement, t: Table)
    ensures Rows(Apply(st, s), t) == Rows(st, t) + (if s.Insert? && s.table == t then [s.row] else [])
  {
    if !(s.Insert? && s.table == t) {
      assert Rows(st, t) + [] == Rows(st, t);
    }
  }

  /** Accepting a whole plan appends to table `t` exactly the rows the plan inserts into it. */
  lemma {:induction false} ApplyAllRows(st: DbState, plan: seq<Statement>, t: Table)
    ensures Rows(ApplyAll(st, plan), t) == Rows(st, t) + InsertedInto(plan, t)
    decreases |plan|
  {
    if plan == [] {
      assert Rows(st, t) + [] == Rows(st, t);
    } else {
      ApplyAllRows(Apply(st, plan[0]), plan[1..], t);
      ApplyRows(st, plan[0], t);
      var added := if plan[0].Insert? && plan[0].table == t then [plan[0].row] else [];
      assert Rows(st, t) + added + InsertedInto(plan[1..], t) == Rows(st, t) + (added + InsertedInto(plan[1..], t));
    }
  }

  /** Accepting a whole plan appends to the optimize log exactly the tables the plan optimizes. */
  lemma {:induction false} ApplyAllOptimized(st: DbState, plan: seq<Statement>)
    ensures ApplyAll(st, plan).optimized == st.optimized + OptimizedBy(plan)
    decreases |plan|
  {
    if plan == [] {
      assert st.optimized + [] == st.optimized;
    } else {
      ApplyAllOptimized(Apply(st, plan[0]), plan[1..]);
      var added := if plan[0].Optimize? then [plan[0].table] else [];
      assert Apply(st, plan[0]).optimized == st.optimized + added;
      assert st.optimized + added + OptimizedBy(plan[1..]) == st.optimized + (added + OptimizedBy(plan[1..]));
    }
  }

  // ----------------------------------------------------------------- the server

  /** The connection pool's server: its tables, its log of OPTIMIZE runs, and the statements it will refuse. */
  class Db {
    var tables: map<Table, seq<Row>>
    var optimized: seq<Table>
    var issued: nat
    const rejects: map<nat, string>

    predicate Valid()
      reads this
    {
      forall t: Table :: t in tables
    }

    function State(): (r: DbState)
      reads this
    {
      DbState(tables, optimized, issued)
    }

    /** A server with every table created and empty. */
    constructor (rejects: map<nat, string>)
      ensures Valid() && this.rejects == rejects
      ensures forall t: Table :: tables[t] == []
      ensures optimized == [] && issued == 0
    {
      OptimizeOrderComplete();
      tables := map t: Table | t in OptimizeOrder :: [];
      optimized := [];
      issued := 0;
      this.rejects := rejects;
    }

    /** db.ExecContext: the statement takes effect unless the server refuses it with an error. */
    method ExecContext(s: Statement) returns (err: Option<string>)
      requires Valid()
      modifies this
      ensures Valid()
      ensures err == if old(issued) in rejects then Some(rejects[old(issued)]) else None
      ensures err.Some? ==> State() == old(State()).(issued := old(issued) + 1)
      ensures err.None? ==> State() == Apply(old(State()), s)
    {
      if issued in rejects {
        err := Some(rejects[issued]);
        issued := issued + 1;
        return;
      }
      match s {
        case Insert(t, row) =>
          tables := tables[t := tables[t] + [row]];
        case Optimize(t) =>
          optimized := optimized + [t];
      }
      issued := issued + 1;
      err := None;
    }
  }
}
