# health-import-server, modelled in Dafny

The server accepts health-data exports (metrics with their samples, workouts
with their child logs, state-of-mind entries) over HTTP. It answers at once
with a summary of what it received. It then writes the data to every
configured metric store. The only store is a ClickHouse writer that
flattens each record into rows of eleven fixed tables.

This project models the ingest core in Dafny and proves properties of the
model:

- `database.dfy` (module `Database`) is the ClickHouse server as the writer
  sees it:
  - one `seq<Row>` per table, in a class `Db`;
  - `ExecContext` as an append that can be refused (a `rejects` oracle maps
    statement numbers to the server's error);
  - a log of the tables OPTIMIZE was run on.

  Every store operation is specified by `Run`, which sends a plan of
  statements in order and stops at the first refusal. `RunClosedForm` gives
  that outcome in closed form.
- `clickhouse.dfy` (module `ClickHouse`) is `storage/clickhouse/metrics.go`:
  - a class `ClickHouseMetricStore` whose methods `Store`, `StoreWorkouts`,
    `StoreStateOfMind`, `StoreECG` and `OptimizeTables` loop over their input
    and issue one statement at a time;
  - the plan functions each method is proved against;
  - lemmas that state what the plans contain: value slots per sample kind,
    child-row order, ids and dates, voltage timestamps and keys, and the
    OPTIMIZE sweep.
- `time.dfy` (module `Time`) is `request/time.go`:
  - `Timestamp` decoding and encoding with the layout
    `2006-01-02 15:04:05 -0700`, following Go's `time.Parse`/`Format` for
    that layout, with a civil-calendar conversion in `calendar.dfy`;
  - `UnixTimestamp` decoding of a number of seconds.
- `rfc3339.dfy` is Go's `time.Parse(time.RFC3339, ·)` (section 5.6 of RFC
  3339), as `request/state_of_mind.go` uses it.
- `state_of_mind.dfy` and `workout.dfy` are the custom decoders of
  `StateOfMind` and `QtyUnit`, and the record shapes with their optional
  timestamps.
- `json.dfy` models JSON as a datatype, with the parts of Go's
  `encoding/json` struct decoding the request types rely on.
- `handler.dfy` (module `Handler`) is `handler.go`:
  - `ServeHTTP`'s status and body;
  - the reply text and a parser that reads its counts back;
  - the background upload loop over the stores, run after the reply.
- `loader.dfy` (module `Loader`) is `loader.go`:
  - stores from a JSON config file, then from the `CLICKHOUSE_*` environment
    variables;
  - the missing-variables error text;
  - the create-tables flag;
  - the skipped-config notice.
- `store.dfy`, `metric.dfy`, `ecg.dfy` and `json_request.dfy` transcribe the
  record and interface types. `wrappers.dfy` and `decimal.dfy` are helpers:
  `Option`/`Result` and decimal digits.

Clock readings, fresh ids, the database server's answers, the store
connection and the environment are parameters:

- `now` is the time `time.Now()` returns;
- `ids` are the fresh ids `uuid.New()` returns, one per ECG;
- `rejects` is what the server refuses;
- `open` is what opening a store returns;
- `env` is the environment.

## Model

| member | source | states |
|---|---|---|
| Database.OptimizeOrderComplete | storage/clickhouse/metrics.go:796-808 | The OPTIMIZE list has 11 entries and names every table exactly once; no two tables share a name. |
| Database.Db.constructor | storage/clickhouse/metrics.go:62-65 | A store starts with every table created and empty, nothing optimized and no statement sent. |
| Database.Db.ExecContext | storage/clickhouse/metrics.go:124-140 | A statement takes effect, appending its row or logging its OPTIMIZE, unless the server refuses it. A refused statement changes no table and returns the server's error. |
| Database.Advance | storage/clickhouse/metrics.go:123-140 | One loop step. A refused statement ends the run with that statement and its error. Otherwise the statement applies and the rest of the plan follows. |
| Database.Report | storage/clickhouse/metrics.go:138-140 | An operation returns an error exactly when a statement was refused. |
| Database.RunClosedForm | storage/clickhouse/metrics.go:138-140 | Early return: every statement before the first refused one takes effect, so rows inserted before the failure stay. The refused statement has no effect, nothing after it is sent, and the error names it. |
| Database.ApplyRows | storage/clickhouse/metrics.go:124-137 | An accepted INSERT appends its row to its own table and changes no other table. |
| Database.ApplyAllRows | storage/clickhouse/metrics.go:83-144 | When a whole plan is accepted, each table gains exactly the rows the plan inserts into it, in plan order. |
| Database.ApplyAllOptimized | storage/clickhouse/metrics.go:810-816 | When a whole plan is accepted, the OPTIMIZE log gains exactly the tables the plan optimizes, in order. |
| ClickHouse.ClickHouseMetricStore.constructor | storage/clickhouse/metrics.go:46-60 | The store holds the server and the database name it was given. The table names it fixes are those of Database.TableName. |
| ClickHouse.ClickHouseMetricStore.Name | storage/clickhouse/metrics.go:70-72 | The store's name is "clickhouse". |
| ClickHouse.ClickHouseMetricStore.Exec | storage/clickhouse/metrics.go:124-140 | One statement of a plan, with a refusal wrapped as the operation reports it. On success the rest of the plan's run follows. On a refusal the new state and the error are those the whole run ends with. |
| ClickHouse.ClickHouseMetricStore.Store | storage/clickhouse/metrics.go:74-147 | The new tables and the error are those of running Store's plan up to the first refusal. An empty metric list returns nil and changes nothing. |
| ClickHouse.ClickHouseMetricStore.StoreSamples | storage/clickhouse/metrics.go:85-143 | The inner loop sends one metrics INSERT per sample of one metric, in order, stopping at the first refusal. |
| ClickHouse.MetricRowOf | storage/clickhouse/metrics.go:86-112 | A sample's row carries the metric's name, unit and type. Its timestamp is the sample's own or else now. qty is set only for a QtySample; min, max and avg only for a MinMaxAvgSample; asleep, inBed and both sources only for a SleepSample. Every other slot is 0 or "". |
| ClickHouse.MetricPlanShape | storage/clickhouse/metrics.go:83-144 | Store's plan holds exactly one metrics INSERT per (metric, sample) pair and nothing else. |
| ClickHouse.MetricPlanRow | storage/clickhouse/metrics.go:83-137 | Sample j of metric i is statement SamplesBefore(i)+j of the plan, so rows come metric by metric and then sample by sample. The row is built from that metric and sample with the metric's looked-up type. |
| ClickHouse.WorkoutRowOf | storage/clickhouse/metrics.go:402-418 | The workout row carries the active-energy quantity and units unchanged (the two closures are identities). |
| ClickHouse.WorkoutIgnores | storage/clickhouse/metrics.go:402-426 | Location, duration and elevationUp are never written: changing them changes no statement. |
| ClickHouse.WorkoutChildren | storage/clickhouse/metrics.go:375-644 | A workout sends its own row first. Then come one row per child log: route points, heart rate, heart-rate recovery, step count, walking and running distance, and active energy, in that order. Every child row carries the workout's id and its own date, or else the workout's resolved start. |
| ClickHouse.ChildrenFromRows | storage/clickhouse/metrics.go:434-644 | Each child-log loop's INSERT k goes to that loop's table, with the workout id and child k's date or the start. |
| ClickHouse.ClickHouseMetricStore.StoreWorkouts | storage/clickhouse/metrics.go:366-647 | The new tables and the error are those of running every workout's statements in order up to the first refusal. An empty list returns nil and changes nothing. |
| ClickHouse.ClickHouseMetricStore.StoreWorkout | storage/clickhouse/metrics.go:375-645 | One round of the loop sends the workout row, then its child logs, stopping at the first refusal. |
| ClickHouse.ClickHouseMetricStore.StoreChildLogs | storage/clickhouse/metrics.go:433-644 | The six child-log loops run in order, stopping at the first refusal. |
| ClickHouse.ClickHouseMetricStore.StoreRoute | storage/clickhouse/metrics.go:434-471 | The route loop sends one routes INSERT per point, in order. |
| ClickHouse.ClickHouseMetricStore.StoreHeartRates | storage/clickhouse/metrics.go:473-545 | The heart-rate and recovery loops send one INSERT per reading, in order. |
| ClickHouse.ClickHouseMetricStore.StoreQtyLogs | storage/clickhouse/metrics.go:547-644 | The step-count, walking and running, and active-energy loops send one INSERT per reading, in order. |
| ClickHouse.ClickHouseMetricStore.StoreStateOfMind | storage/clickhouse/metrics.go:649-700 | The new tables and the error are those of sending one state_of_mind row per entry, with a missing start or end stamped now, up to the first refusal. An empty list returns nil and changes nothing. |
| ClickHouse.ClickHouseMetricStore.StoreECG | storage/clickhouse/metrics.go:702-789 | Each ECG sends its row under its fresh id, then its voltage rows, up to the first refusal. An empty list returns nil and changes nothing. |
| ClickHouse.ClickHouseMetricStore.StoreEcg | storage/clickhouse/metrics.go:710-786 | One round of the loop sends the ECG row, then its voltage measurements. |
| ClickHouse.ClickHouseMetricStore.StoreVoltages | storage/clickhouse/metrics.go:752-786 | The indexed voltage loop sends one ecg_voltage INSERT per measurement, in order. |
| ClickHouse.VoltageTime | storage/clickhouse/metrics.go:752-761 | Measurement i's time is its own date when it has one. Without a date and with F > 0 it is exactly i*(10^9 div F) ns after the start, normalised, in the start's zone. Without a date and with F <= 0 it is the start. |
| ClickHouse.VoltageSpacing | storage/clickhouse/metrics.go:752-761 | With F > 0, an undated measurement i lies exactly i*(10^9 div F) ns after the start, in the start's zone. Consecutive undated measurements are one interval apart. |
| ClickHouse.VoltageRowsOfOne | storage/clickhouse/metrics.go:752-777 | After the ECG row, every row is a voltage row with the ECG's id and sample_index equal to its position. |
| ClickHouse.VoltageIdsFrom | storage/clickhouse/metrics.go:710-777 | Every voltage row carries one of the fresh ids. |
| ClickHouse.EcgVoltageKeysDistinct | storage/clickhouse/metrics.go:710-777 | With pairwise-distinct fresh ids, the (ecg_id, sample_index) keys of all voltage rows StoreECG writes are pairwise distinct. |
| ClickHouse.ClickHouseMetricStore.OptimizeTables | storage/clickhouse/metrics.go:791-820 | The new state and the error are those of running OPTIMIZE over the fixed table list in order, stopping at the first refusal. |
| ClickHouse.ClickHouseMetricStore.OptimizeAll | storage/clickhouse/metrics.go:810-816 | The loop over the list issues one OPTIMIZE per table, stopping at the first refusal. |
| ClickHouse.OptimizeEachRows | storage/clickhouse/metrics.go:810-816 | The OPTIMIZE sweep never changes any table's rows. |
| ClickHouse.OptimizeEachOptimized | storage/clickhouse/metrics.go:810-816 | The tables optimized are exactly the list's tables before the first refusal, in list order. |
| ClickHouse.OptimizeEachError | storage/clickhouse/metrics.go:811-815 | The sweep fails exactly when some table is refused. The error is then that of the first refused table. |
| Time.AddNanos | storage/clickhouse/metrics.go:758 | Adding d nanoseconds gives the instant d ns later, normalised, in the same zone. |
| Time.Format | request/time.go:28-38 | MarshalJSON and String write the layout. For a local year of four digits and an offset under 100 hours the text is 25 characters: digits for the year and the zone, "-", "-", " ", ":", ":", " " where the layout has them, and the offset's sign. |
| Time.UnmarshalTimestamp | request/time.go:14-26 | Decoding succeeds exactly when the value is a JSON string that the single layout accepts. A non-string is a type error. On failure the held time is unchanged; on success it is exactly the parsed time. |
| Time.ParseLayout | request/time.go:20-23 | time.Parse with the single layout. A refused text gives an error naming that text. Every accepted text names a time whose local year is 0 to 9999 and whose offset is at most 25 hours either way. |
| Time.FormatThenParse | request/time.go:28-38 | Parsing what Format (used by MarshalJSON and String) writes gives back the instant and its offset, with the nanoseconds dropped. |
| Time.TimestampRoundTrip | request/time.go:14-30 | Decoding what MarshalJSON writes gives back the same Timestamp when it has no nanoseconds. |
| Time.RedecodeTimestamp | request/time.go:14-30 | A Timestamp decoded from any text, encoded and decoded again, keeps its instant to the whole second, and its zone offset; its nanoseconds are dropped, as the layout does not write them. |
| Time.FormatOffsetRejected | request/time.go:28-30 | A time whose offset is 25 hours or more is formatted with an hour field the parser refuses. |
| Time.Offset2460NotReparsed | request/time.go:20-29 | "2024-01-01 00:00:00 +2460" decodes, to an offset of 25 hours, but its encoding does not decode again. |
| Time.ReferenceTime | request/time.go:8 | The layout read as a time is Go's reference time, 2006-01-02 15:04:05 at seven hours west of UTC. |
| Time.ToTime | request/time.go:32-34 | Returns the held instant unchanged. |
| Time.UnixToTime | request/time.go:60 | Returns the held instant unchanged. |
| Time.Trunc | request/time.go:50-51 | Go's float-to-int64 conversion truncates toward zero: the result is within 1 of v, on v's side of zero. |
| Time.Unix | request/time.go:52 | time.Unix(sec, nsec) is the instant sec*10^9+nsec ns after the epoch, normalised, in the local zone. |
| Time.UnmarshalUnix | request/time.go:45-54 | Decoding fails exactly when the value is neither a number nor null. On failure the held time is unchanged. |
| Time.UnixDecodesValue | request/time.go:45-54 | A number v decodes to v seconds after the epoch, truncated toward zero to whole nanoseconds and so within 1 ns of v. It is normalised with 0 <= nsec < 10^9, in the local zone. null decodes to the epoch. |
| Rfc3339.ScanZulu | request/state_of_mind.go:42 | An RFC 3339 date-time ending in "Z" scans to its date and clock fields and a zero offset. |
| Rfc3339.ScanNumeric | request/state_of_mind.go:42 | An RFC 3339 date-time with a numeric offset scans to its fields and that offset's sign and digits. |
| Rfc3339.ParseRfc3339 | request/state_of_mind.go:42 | time.Parse with the RFC 3339 layout. A refused text gives an error naming that text. An accepted text has "-" at positions 4 and 7 and the 'T' separator at position 10. |
| Rfc3339.AgreesWithLayout | request/state_of_mind.go:42 | The same fields written as an RFC 3339 date-time and in Timestamp's layout are accepted or refused together, and name the same instant. |
| Rfc3339.ZuluIsUtc | request/state_of_mind.go:42 | "Z" names UTC: the fields' instant with no shift and an offset of zero. |
| Rfc3339.LayoutTextRefused | request/state_of_mind.go:42 | Every text Timestamp's space-separated layout accepts is refused as RFC 3339, because that needs a 'T'. |
| StatesOfMind.TimeField | request/state_of_mind.go:40-56 | An empty start or end leaves the field as it was. A non-empty one succeeds exactly when it is an RFC 3339 date-time, and then holds exactly the parsed instant. Otherwise it fails with the parse error for that text. |
| StatesOfMind.DecodeStateOfMind | request/state_of_mind.go:22-59 | A failed member decode is returned as it is. A successful decode holds every field except start and end exactly as the by-name decode of the members left it. |
| StatesOfMind.EntryTimesHidden | request/state_of_mind.go:24-38 | The alias decode never writes the entry's own start and end: those members go to the temporary strings. |
| StatesOfMind.Outcome | request/state_of_mind.go:22-59 | The whole decode returns the member decode's error if any. Otherwise it returns start's parse error, then end's, so start is checked first. Otherwise it returns the decoded entry with each non-empty start and end parsed and each empty one left as the receiver had it. |
| StatesOfMind.StartAbsent | request/state_of_mind.go:40-47 | Without a "start" member the entry's start stays as the receiver had it: nil for a new entry. |
| StatesOfMind.EndAbsent | request/state_of_mind.go:49-56 | Without an "end" member the entry's end stays as the receiver had it. |
| StatesOfMind.SpaceLayoutStartRefused | request/state_of_mind.go:40-45 | A start written in Timestamp's space-separated layout fails the whole decode. |
| Workouts.DecodeQtyItems | request/workout.go:45-46 | The array attempt succeeds exactly when every element decodes from zero, and then holds each element's value in order. |
| Workouts.DecodeQtyUnit | request/workout.go:34-53 | A success is the value decoded as one object from zero, or the first element of an array decoded from zero. A failure is the error of decoding the value as one object. |
| Workouts.QtyNull | request/workout.go:37-41 | null decodes to the zero quantity, whatever the receiver held. |
| Workouts.QtyObject | request/workout.go:37-42 | A value that decodes as an object is taken as decoded from zero, not over the receiver's old contents. |
| Workouts.QtyFirstElement | request/workout.go:45-48 | A non-empty array whose elements all decode gives its first element. |
| Workouts.QtyObjectOrSingleton | request/workout.go:39-48 | An object and the one-element array holding it are accepted together and give the same QtyUnit. |
| Workouts.QtyEmptyArray | request/workout.go:46-52 | An empty array is refused, with the error of decoding an array as the object. |
| Workouts.QtyErrorIndependent | request/workout.go:52 | Whether decoding as the object succeeds, and its error, do not depend on what the receiver held. |
| Workouts.QtyOutcome | request/workout.go:34-53 | Decoding fails exactly when both attempts fail, and then returns the object attempt's error. A result never depends on the receiver. |
| Workouts.QtyMissingUnits | request/workout.go:37-42 | An object with no "units" key in any letter case decodes with units "". |
| Workouts.QtyMissingQty | request/workout.go:37-42 | An object with no "qty" key in any letter case decodes with qty 0. |
| Workouts.DecodeTimestampField | request/workout.go:59-81 | A *Timestamp field: null gives nil. Any other value succeeds exactly when it is a string the layout accepts, and then holds the parsed time. A failure ends the whole decode. |
| Workouts.GpsTimestampAbsent | request/workout.go:59 | A route point without a "timestamp" member has no timestamp. |
| Workouts.StepCountDateAbsent | request/workout.go:72 | A step-count reading without a "date" member has no date. |
| Workouts.HeartRateDateAbsent | request/workout.go:81 | A heart-rate reading without a "date" member has no date. |
| Workouts.StepCountDatePresent | request/workout.go:68-73 | A "date" that is a string in the layout gives the parsed time. null gives none. Anything else ends the decode. |
| Handler.ReplyRoundTrip | handler.go:54-55 | The four counts can be read back out of the reply text. |
| Handler.ReplyInjective | handler.go:54-55 | Different counts give different replies. |
| Handler.Reply | handler.go:54-55 | The reply starts "Processing request. Received " and ends " workouts.". |
| Handler.HandleCounts | handler.go:39-55 | A parsed export is answered with a reply whose counts are its metrics, populated metrics, samples and workouts. |
| Handler.Handle | handler.go:39-55 | handle fails exactly when parsing failed, with the parse error. Otherwise it returns a reply. |
| Handler.RespondRoundTrip | handler.go:20-29 | The status is 200 on success and 500 on failure. The body gives back exactly the message, or the error after "ERROR: ", each with a trailing newline. |
| Handler.Respond | handler.go:20-29 | The status is 200 exactly on success and 500 exactly on failure. The body ends in a newline, and a failure's body starts with "ERROR: ". |
| Handler.ServeHTTP | handler.go:20-93 | The response is Respond(handle). A parse failure makes no upload call. A parsed export is uploaded to the stores with its populated metrics and its workouts, up to the first nil store slot, where the upload panics. |
| Handler.Upload | handler.go:58-90 | The upload's calls are, store by store in order, each store's steps up to its first failure. The loop stops at the first nil slot, where `metricStore.Name()` panics; it panics exactly when the list has a nil slot. |
| Handler.Reach | handler.go:63-64 | The loop reaches every slot before the first nil one, and that slot is nil. |
| Handler.NilSlotPanics | handler.go:63-64 | No store at or after a nil slot is sent any call. |
| Handler.UploadTo | handler.go:63-88 | One store gets Store (when there are populated metrics), then StoreWorkouts (when there are workouts), then OptimizeTables. Its calls stop at its first error. |
| Handler.AttemptsWorkoutsFail | handler.go:75-79 | When StoreWorkouts fails, that store's calls end with it. |
| Handler.AttemptsAllRun | handler.go:66-86 | When the earlier steps succeed, the store is sent all its steps, with OptimizeTables last. |
| Handler.AttemptsShape | handler.go:63-89 | A store's k-th call is its k-th step with that step's response. Every call but the last succeeded. Either all steps were made or the last call failed. |
| Handler.AttemptsMember | handler.go:63-86 | Each of a store's calls is one of its steps, made on that store, returning that store's response. |
| Handler.UploadCall | handler.go:58-90 | Every call of the upload is a step, made on a store before the first nil slot, with that store's response. |
| Handler.UploadArguments | handler.go:58-90 | The upload calls only Store (with the populated metrics, and only when there are some), StoreWorkouts (with all workouts, only when there are some) and OptimizeTables. StoreStateOfMind is never called. |
| Handler.AttemptsKinds | handler.go:66-86 | A store's calls are among those three kinds. |
| Handler.StepKinds | handler.go:66-83 | The steps are only those three kinds, with those arguments and conditions. |
| Handler.UploadPrefix | handler.go:63-89 | The calls on earlier stores stay, in order, as the loop goes on to later stores. |
| Handler.EveryStoreTried | handler.go:68-86 | Every store before the first nil slot is sent its first step, whatever happened to the stores before it. |
| Handler.OptimizeReached | handler.go:66-86 | A store before the first nil slot is asked to optimize exactly when its metrics upload (when sent) and its workouts upload (when sent) succeeded. |
| Handler.OptimizeAttempted | handler.go:82-86 | An OptimizeTables call on a store implies that its earlier steps succeeded. |
| Handler.OnlyOwnAttempts | handler.go:63-89 | Any call recorded for slot i was made on the store in that slot and is one of its own attempts. |
| Handler.OwnAttemptsUpTo | handler.go:63-89 | Every call among the first n stores' calls belongs to one of those stores' own attempts. |
| Decimal.ValueOfDecimal | handler.go:54-55 | The digits %d writes for a count read back as that count. |
| Decimal.DecimalInjective | handler.go:54-55 | Different counts are written with different digits. |
| Decimal.AppendIntFixed | request/time.go:29 | A date or clock field written zero-padded to width 2 or 4 reads back as its value. |
| Calendar.CivilRoundTrip | request/time.go:20-29 | Converting a valid civil date to its day number and back gives the same date. Format writes the date a parsed time was read from. |
| Calendar.DaysFromCivilInjective | request/time.go:20 | Different valid civil dates are different days. |
| Loader.SplitJoin | loader.go:186 | Names without commas are read back from their ", "-join. |
| Loader.MissingMessage | loader.go:185-187 | The error text starts "Missing the following environment variables: [ " and ends " ]". With no names it is just those two. |
| Loader.MissingMessageNames | loader.go:185-187 | The missingEnvironmentError text lists exactly the missing names, in order, between "Missing the following environment variables: [ " and " ]". |
| Loader.MissingExactly | loader.go:126-135 | The missing list holds exactly the unset required variables, each once, in the order DSN, DATABASE, METRICS_TABLE. |
| Loader.ClickHouseFromEnvironment | loader.go:116-158 | With none of DSN, DATABASE and METRICS_TABLE set: no store and no error. With some missing: the missing-variables error. With all set: the outcome of opening a store with the three values. createTables is true iff CLICKHOUSE_CREATE_TABLES is exactly "true", "1" or "yes". |
| Loader.CreateTablesAloneLoadsNothing | loader.go:120-124 | CLICKHOUSE_CREATE_TABLES on its own loads nothing, whatever its value. |
| Loader.StoresFromEnvironment | loader.go:82-94 | The environment gives an empty list, the one store opened, or the loader's error. Every slot of a successful list holds a store. |
| Loader.ClickHouseFromConfig | loader.go:96-106 | A decode error is returned as the loader's error. Otherwise the config holds the decoded dsn and database, an empty metrics table and createTables false, and the result is that of opening a store with it. |
| Loader.ConfigTypeNamed | loader.go:108-114 | A config whose "type" is a string has that type. |
| Loader.ConfigTypeAbsent | loader.go:108-114 | A config without a "type" member, in any letter case, has the empty type; so does null. |
| Loader.FromConfigsOutcome | loader.go:58-79 | The configs load exactly when each of them does. The result then has one slot per config, in order, with an unknown type leaving its slot empty. Otherwise the error is that of the first failing config. |
| Loader.StoresFromConfig | loader.go:43-80 | A missing file gives no stores and no error. Any other read error, or a file that is not JSON, is returned. A document that is not an array of configs is a decode error. Otherwise each config is loaded in turn. |
| Loader.LoadConfigs | loader.go:58-79 | The loop fills a slot per config by index and returns at the first failure. |
| Loader.LoadMetricStores | loader.go:29-41 | The result is the config file's stores followed by the environment's. An error from the config file is returned before the environment is read, and an error from the environment is returned as it is. |
| Json.DecodeStruct | request/workout.go:39 | json.Unmarshal into a struct: null leaves the struct as it held, and anything but an object or null is a type error naming the struct type. |
| Json.MatchField | request/workout.go:28-31 | A member goes to a field whose name equals its key up to letter case as Go folds it (ASCII letters, plus the Kelvin sign for k and the long s for s); a key no field name matches that way is ignored. |
| Loader.TrimSpaceEmpty | loader.go:161 | A loader type trims to "" exactly when it is empty or all white space (unicode.IsSpace). |
| Loader.SkipNotice | loader.go:160-166 | An empty or all-white-space type gets the empty-loader-type notice. Any other gets the unknown-loader-type notice naming it. |

## Left out

- SQL text, the DDL of `createTablesIfNotExist` (storage/clickhouse/metrics.go:149-364) and ClickHouse's ReplacingMergeTree merging. These belong to the external engine. Inserts are appends to per-table sequences, and OPTIMIZE is only logged.
- `sql.Open`, `Ping` and `Close` (storage/clickhouse/metrics.go:37-44, 822-824) are connection I/O. Opening a store is the `open` parameter of the loader, and a store's refusals are the `rejects` oracle.
- `time.Now()` is read once per operation as the parameter `now`. Go reads the clock afresh for each missing timestamp, so two missing times in one call may differ there.
- `uuid.New()` is a list of fresh ids, one per ECG, given to StoreECG.
- All `log.Printf` calls, and `minifyJson` (loader.go:169-179), which only shapes a log line. SkipNotice takes the printed config as a string.
- The `go func()` at handler.go:58 is modelled as a sequential loop run after the reply; concurrency with other requests is not modelled. Reading the body, and the panic at handler.go:34-37, are HTTP I/O.
- `request.Parse`, `Export.PopulatedMetrics`, `Export.TotalSamples`, `LookupMetricType`, and the `Metric`/`Sample` definitions are not part of this model. The handler takes the parse result, the populated metrics and the sample count as given. The store writer takes the type lookup as a function. A sample is one of the four kinds the writer's type switch distinguishes.
- The MetricStore interface becomes a datatype: a store is its name and the error each call returns. The handler sees nothing else of a store.
- Float64 payload values are exact reals and are carried opaquely. UnixTimestamp decoding reads the number as an exact real, so float64 rounding is not modelled.
- `UnixTimestamp.MarshalJSON` and `UnixTimestamp.String` (request/time.go:56-62) render through float64 division and RFC3339Nano; no round trip is claimed for them.
- JSON lexing: a request arrives as a `Json` value. Go's `encoding/json` rules are modelled only as far as the request types use them.
- Parsing with a location other than UTC (`time.ParseInLocation`) is left out; both layouts are parsed as `time.Parse` does, with UTC as the default location. Go's one- or two-digit hour and its optional fraction of a second after the seconds field are modelled for both layouts.
- Time.ParseErrorText: gives only the first part of Go's `*time.ParseError` text, `parsing time "<s>"`. Go goes on to name the layout and the element that failed (`as "2006-01-02 15:04:05 -0700": cannot parse "<rest>" as "<elem>"`). The model keeps which text failed, not where.
- Time.Unix: takes the offset of the Local zone as one fixed parameter `local`. Go's `time.Unix` returns a time in `time.Local`, whose offset can change with the instant (daylight saving time).
- The int64 overflow of `time.Duration(i) * interval` (storage/clickhouse/metrics.go:758) is not modelled; integers are unbounded.
- Time.FormatThenParse: requires the offset to be under 25 hours, because Go's parser accepts offsets up to "+2460" (25 hours) while Format writes that as "+2500", which the parser refuses; Time.Offset2460NotReparsed exhibits the case. It also requires a local year of 0 to 9999, the only years the layout's four-digit field reads back.
- Time.RedecodeTimestamp: requires the decoded offset to be under 25 hours, for the same reason.
- Time.TimestampRoundTrip: requires the offset to be under 25 hours and no nanoseconds, because the layout does not write nanoseconds.
- ClickHouse.VoltageRowsOfOne: requires at most 2^32 measurements per ECG, because `uint32(i)` wraps beyond that.
- ClickHouse.EcgVoltageKeysDistinct: requires the fresh ids to differ, as random UUIDs are taken to. It also requires at most 2^32 measurements per ECG.
- Handler.Upload and Handler.ServeHTTP: a panic on a nil store slot is modelled as the end of the upload with a `panicked` flag. What follows a panic in Go (the whole server process ends) is not modelled.
- `cmd/server/main.go` and `cmd/scripts/test-request-parse/main.go` are flag parsing, serving and printing.

## Notes on the code

- `loader.go:146-151` fills `MetricsTable` and `CreateTables`, which the `ClickHouseConfig` at storage/clickhouse/metrics.go:15-18 does not declare. The loader's `ClickHouseConfig` therefore has all four fields, and a config file supplies only `dsn` and `database`. The store's table names are fixed whatever `CLICKHOUSE_METRICS_TABLE` says.
- Inserts are one row per INSERT statement (storage/clickhouse/metrics.go).
- `Timestamp` accepts one layout (request/time.go:20). State-of-mind start and end are read as RFC 3339 instead.
- A missing timestamp is stamped with the current time; no record is dropped for lacking one.
- ECG ids are random UUIDs (storage/clickhouse/metrics.go:711).
- The handler sends metrics, then workouts, then OPTIMIZE, and never calls StoreStateOfMind. The request schema has no ECG member (request/json.go:12-16).
- ServeHTTP answers every failure with status 500.
- For a config entry of unknown type, the loader leaves a nil slot in its store list (loader.go:58, 65-69). The handler's upload dereferences that slot at handler.go:64 and panics; Handler.NilSlotPanics states what the upload does up to that point.
