/**
 * loader.go: which metric stores the server starts with. Stores come from a
 * JSON config file (an array of configs, each naming its loader type) and
 * then from the CLICKHOUSE_* environment variables; the environment builds a
 * ClickHouse store only when all three of DSN, DATABASE and METRICS_TABLE
 * are set, and names the missing ones otherwise.
 */
module Loader {
  import opened Wrappers
  import opened Json
  import opened Stores

  // ------------------------------------------------------------------ configuration values

  const DsnVariable: string := "CLICKHOUSE_DSN"
  const DatabaseVariable: string := "CLICKHOUSE_DATABASE"
  const MetricsTableVariable: string := "CLICKHOUSE_METRICS_TABLE"
  const CreateTablesVariable: string := "CLICKHOUSE_CREATE_TABLES"

  /** The variables that must all be set, in the order a missing one is reported. */
  const Required: seq<string> := [DsnVariable, DatabaseVariable, MetricsTableVariable]

  /** The process environment as os.LookupEnv sees it: a variable is set exactly when it has an entry. */
  type Environment = map<string, string>

  /**
   * The ClickHouse settings the loader fills in. The environment path sets
   * all four; a config file supplies only the DSN and the database.
   */
  datatype ClickHouseConfig = ClickHouseConfig(dsn: string, database: string, metricsTable: string, createTables: bool)

  /**
   * The errors loading can end with. Opening a store (connecting, pinging and
   * creating its tables) happens outside this model and is given as a
   * function from settings to the store or the error it failed with.
   */
  datatype LoadError =
    | MissingEnvironment(missingVariables: seq<string>)   // missingEnvironmentError
    | OpenFailed(message: string)                         // NewClickHouseMetricStore's error
    | ReadFailed(message: string)                         // reading the config file, other than its absence
    | Malformed(message: string)                          // the config file is not JSON
    | DecodeFailed(error: JsonError)                      // json.Unmarshal's type errors

  type Opener = ClickHouseConfig -> Result<MetricStore, string>

  // ------------------------------------------------------------------ missingEnvironmentError

  /** strings.Join. */
  function Join(parts: seq<string>, sep: string): string
    decreases |parts|
  {
    if parts == [] then ""
    else if |parts| == 1 then parts[0]
    else parts[0] + sep + Join(parts[1..], sep)
  }

  const MissingPrefix: string := "Missing the following environment variables: [ "
  const MissingSuffix: string := " ]"

  /** missingEnvironmentError.Error. */
  function MissingMessage(names: seq<string>): (r: string)
    ensures MissingPrefix <= r && |r| >= |MissingPrefix| + |MissingSuffix|
    ensures r[|r| - |MissingSuffix|..] == MissingSuffix
    ensures names == [] ==> r == MissingPrefix + MissingSuffix
  {
    MissingPrefix + Join(names, ", ") + MissingSuffix
  }

  /** The position of the first ',' in `s`, if any. */
  function Comma(s: string): (r: Option<nat>)
    ensures r.Some? ==> r.value < |s| && s[r.value] == ',' && forall i :: 0 <= i < r.value ==> s[i] != ','
    ensures r.None? ==> forall i :: 0 <= i < |s| ==> s[i] != ','
  {
    if s == [] then None
    else if s[0] == ',' then Some(0)
    else match Comma(s[1..])
      case None => None
      case Some(k) => Some(k + 1)
  }

  /** Cutting a joined list at each ", " again. */
  function SplitList(s: string): seq<string>
    decreases |s|
  {
    match Comma(s)
    case None => [s]
    case Some(k) => [s[..k]] + (if k + 2 <= |s| then SplitList(s[k + 2..]) else [])
  }

  predicate NoComma(name: string) {
    forall i :: 0 <= i < |name| ==> name[i] != ','
  }

  /** Names without commas can be read back from their join. */
  lemma {:induction false} SplitJoin(names: seq<string>)
    requires names != []
    requires forall k :: 0 <= k < |names| ==> NoComma(names[k])
    ensures SplitList(Join(names, ", ")) == names
    decreases |names|
  {
    if |names| == 1 {
      assert Join(names, ", ") == names[0];
    } else {
      var head := names[0];
      var rest := Join(names[1..], ", ");
      var s := head + ", " + rest;
      assert Join(names, ", ") == s;
      assert s[|head|] == ',';
      assert forall i :: 0 <= i < |head| ==> s[i] == head[i];
      assert Comma(s) == Some(|head|);
      assert s[..|head|] == head && s[|head| + 2..] == rest;
      SplitJoin(names[1..]);
    }
  }

  /** The missing names read back from the message. */
  function ReadMissing(message: string): Option<seq<string>> {
    if MissingPrefix <= message && |message| >= |MissingPrefix| + |MissingSuffix|
       && message[|message| - |MissingSuffix|..] == MissingSuffix
    then Some(SplitList(message[|MissingPrefix|..|message| - |MissingSuffix|]))
    else None
  }

  /** The message lists exactly the missing names, in order. */
  lemma MissingMessageNames(names: seq<string>)
    requires names != []
    requires forall k :: 0 <= k < |names| ==> NoComma(names[k])
    ensures ReadMissing(MissingMessage(names)) == Some(names)
  {
    var body := Join(names, ", ");
    var m := MissingMessage(names);
    assert m == MissingPrefix + (body + MissingSuffix);
    assert m[..|MissingPrefix|] == MissingPrefix;
    assert m[|m| - |MissingSuffix|..] == MissingSuffix;
    assert m[|MissingPrefix|..|m| - |MissingSuffix|] == body;
    SplitJoin(names);
  }

  // ------------------------------------------------------------------ the environment

  /** The required variables that are not set, in the order DSN, DATABASE, METRICS_TABLE. */
  function Missing(env: Environment): seq<string> {
    (if DsnVariable !in env then [DsnVariable] else [])
    + (if DatabaseVariable !in env then [DatabaseVariable] else [])
    + (if MetricsTableVariable !in env then [MetricsTableVariable] else [])
  }

  /** A variable's place in the reporting order. */
  function Rank(name: string): nat {
    if name == DsnVariable then 0 else if name == DatabaseVariable then 1 else 2
  }

  /** The missing list names exactly the unset required variables, each once, in reporting order. */
  lemma MissingExactly(env: Environment)
    ensures forall v :: v in Missing(env) <==> v in Required && v !in env
    ensures forall i, j :: 0 <= i < j < |Missing(env)| ==> Rank(Missing(env)[i]) < Rank(Missing(env)[j])
    ensures forall k :: 0 <= k < |Missing(env)| ==> NoComma(Missing(env)[k])
  {
  }

  /** CLICKHOUSE_CREATE_TABLES switches table creation on only with one of three exact spellings. */
  function CreateTables(env: Environment): bool {
    CreateTablesVariable in env
    && (env[CreateTablesVariable] == "true" || env[CreateTablesVariable] == "1" || env[CreateTablesVariable] == "yes")
  }

  /** The outcome of opening a store: the store, or the open error. */
  function Opened(r: Result<MetricStore, string>): Result<Option<MetricStore>, LoadError> {
    match r
    case Ok(s) => Ok(Some(s))
    case Err(e) => Err(OpenFailed(e))
  }

  /**
   * loadClickHouseMetricStoreFromEnvironment: no store and no error when none
   * of the three is set; the missing names when only some are; otherwise the
   * store opened with the four settings.
   */
  method ClickHouseFromEnvironment(env: Environment, open: Opener) returns (r: Result<Option<MetricStore>, LoadError>)
    ensures DsnVariable !in env && DatabaseVariable !in env && MetricsTableVariable !in env ==> r == Ok(None)
    ensures (DsnVariable in env || DatabaseVariable in env || MetricsTableVariable in env) && Missing(env) != []
            ==> r == Err(MissingEnvironment(Missing(env)))
    ensures Missing(env) == [] ==>
              r == Opened(open(ClickHouseConfig(env[DsnVariable], env[DatabaseVariable], env[MetricsTableVariable], CreateTables(env))))
  {
    var dsnSet := DsnVariable in env;
    var databaseSet := DatabaseVariable in env;
    var metricsTableSet := MetricsTableVariable in env;
    var createTablesSet := CreateTablesVariable in env;

    if !dsnSet && !databaseSet && !metricsTableSet {
      return Ok(None);
    }

    var missingVariables: seq<string> := [];
    if !dsnSet {
      missingVariables := missingVariables + [DsnVariable];
    }
    if !databaseSet {
      missingVariables := missingVariables + [DatabaseVariable];
    }
    if !metricsTableSet {
      missingVariables := missingVariables + [MetricsTableVariable];
    }
    assert missingVariables == Missing(env);

    if |missingVariables| > 0 {
      return Err(MissingEnvironment(missingVariables));
    }

    var createTables := false;
    if createTablesSet && (env[CreateTablesVariable] == "true" || env[CreateTablesVariable] == "1" || env[CreateTablesVariable] == "yes") {
      createTables := true;
    }

    var config := ClickHouseConfig(env[DsnVariable], env[DatabaseVariable], env[MetricsTableVariable], createTables);
    var store := open(config);
    match store {
      case Err(e) => return Err(OpenFailed(e));
      case Ok(s) => return Ok(Some(s));
    }
  }

  /** CLICKHOUSE_CREATE_TABLES alone loads nothing, whatever its value. */
  lemma CreateTablesAloneLoadsNothing(value: string)
    ensures Missing(map[CreateTablesVariable := value]) == Required
  {
    var env := map[CreateTablesVariable := value];
    assert DsnVariable !in env && DatabaseVariable !in env && MetricsTableVariable !in env;
  }

  /** LoadMetricStoresFromEnvironment: the environment's store, if it built one, as a list. */
  method StoresFromEnvironment(env: Environment, open: Opener) returns (r: Result<seq<Option<MetricStore>>, LoadError>)
    ensures DsnVariable !in env && DatabaseVariable !in env && MetricsTableVariable !in env ==> r == Ok([])
    ensures (DsnVariable in env || DatabaseVariable in env || MetricsTableVariable in env) && Missing(env) != []
            ==> r == Err(MissingEnvironment(Missing(env)))
    ensures Missing(env) == [] ==>
              var attempt := open(ClickHouseConfig(env[DsnVariable], env[DatabaseVariable], env[MetricsTableVariable], CreateTables(env)));
              r == if attempt.Ok? then Ok([Some(attempt.value)]) else Err(OpenFailed(attempt.error))
    ensures r.Ok? ==> forall k :: 0 <= k < |r.value| ==> r.value[k].Some?
    ensures r == FromEnvironment(env, open)
  {
    var store := ClickHouseFromEnvironment(env, open);
    if store.Err? {
      return Err(store.error);
    }
    var stores: seq<Option<MetricStore>> := [];
    if store.value.Some? {
      stores := stores + [store.value];
      assert stores == [Some(store.value.value)];
    }
    return Ok(stores);
  }

  // ------------------------------------------------------------------ the config file

  /** What reading the config file gives: no file, a read error, text that is not JSON, or a JSON document. */
  datatype ConfigFile = NotFound | Unreadable(message: string) | NotJson(message: string) | Document(doc: Json)

  /** getConfigType: the "type" member of a config, decoded into a Go string. */
  function ConfigType(config: Json): Result<string, JsonError> {
    DecodeStruct(config, "server.configType", ["type"], StoreType, "")
  }

  function StoreType(held: string, field: nat, v: Json): Step<string> {
    var d := DecodeString(v, held);
    Continue(d.value, d.saved)
  }

  /** A config naming its type as a string has that type. */
  lemma ConfigTypeNamed(t: string)
    ensures ConfigType(Object([("type", String(t))])) == Ok(t)
  {
    var members := [("type", String(t))];
    assert MatchField("type", ["type"]) == Some(0);
    assert DecodeString(String(t), "") == Decoded(t, None);
    assert StoreType("", 0, String(t)) == Continue(t, None);
    assert members[1..] == [];
    assert DecodeMembers(members, ["type"], StoreType, "", None) == DecodeMembers([], ["type"], StoreType, t, None);
  }

  /** A config with no "type" member, in any letter case, has the empty type; so does null. */
  lemma ConfigTypeAbsent(config: Json)
    requires config.Null? || config.Object?
    requires config.Object? ==> forall i :: 0 <= i < |config.members| ==> !FoldEq(config.members[i].0, "type")
    ensures ConfigType(config).Ok? ==> ConfigType(config).value == ""
    ensures config.Null? ==> ConfigType(config) == Ok("")
  {
    FieldKept(config, "server.configType", ["type"], StoreType, "", 0, (s: string) => s);
  }

  /** The one loader there is: "clickhouse". */
  const ClickHouseLoaderType: string := "clickhouse"

  /** The fields of the config-file ClickHouseConfig: dsn, then database. */
  function StoreClickHouseField(held: ClickHouseConfig, field: nat, v: Json): Step<ClickHouseConfig> {
    if field == 0 then
      var d := DecodeString(v, held.dsn);
      Continue(held.(dsn := d.value), d.saved)
    else
      var d := DecodeString(v, held.database);
      Continue(held.(database := d.value), d.saved)
  }

  const ClickHouseConfigNames: seq<string> := ["dsn", "database"]

  /** json.Unmarshal of a config entry into a fresh clickhouse.ClickHouseConfig. */
  function DecodeClickHouseConfig(config: Json): Result<ClickHouseConfig, JsonError> {
    DecodeStruct(config, "clickhouse.ClickHouseConfig", ClickHouseConfigNames, StoreClickHouseField,
                 ClickHouseConfig("", "", "", false))
  }

  /**
   * loadClickHouseMetricStoreFromConfig: decode the settings into a fresh
   * config, then open the store. A decode error is returned as it is; the
   * decoded config has only dsn and database filled, as the config file has
   * no other fields, and is what the store is opened with.
   */
  function ClickHouseFromConfig(config: Json, open: Opener): (r: Result<Option<MetricStore>, LoadError>)
    ensures DecodeClickHouseConfig(config).Err? ==> r == Err(DecodeFailed(DecodeClickHouseConfig(config).error))
    ensures DecodeClickHouseConfig(config).Ok? ==>
              var c := DecodeClickHouseConfig(config).value;
              && c == ClickHouseConfig(c.dsn, c.database, "", false)
              && r == Opened(open(c))
  {
    var init := ClickHouseConfig("", "", "", false);
    FieldKept(config, "clickhouse.ClickHouseConfig", ClickHouseConfigNames, StoreClickHouseField, init,
              |ClickHouseConfigNames|, (c: ClickHouseConfig) => c.metricsTable);
    FieldKept(config, "clickhouse.ClickHouseConfig", ClickHouseConfigNames, StoreClickHouseField, init,
              |ClickHouseConfigNames|, (c: ClickHouseConfig) => c.createTables);
    match DecodeClickHouseConfig(config)
    case Err(e) => Err(DecodeFailed(e))
    case Ok(settings) => Opened(open(settings))
  }

  /** One round of the config loop: its type, then its loader; an unknown type leaves the slot empty. */
  function ConfigEntry(config: Json, open: Opener): Result<Option<MetricStore>, LoadError> {
    match ConfigType(config)
    case Err(e) => Err(DecodeFailed(e))
    case Ok(t) => if t == ClickHouseLoaderType then ClickHouseFromConfig(config, open) else Ok(None)
  }

  /** The configs json.Unmarshal puts in a []json.RawMessage: null gives none, an array its elements. */
  function ConfigList(doc: Json): Result<seq<Json>, JsonError> {
    match doc
    case Null => Ok([])
    case Array(items) => Ok(items)
    case _ => Err(TypeError(Kind(doc), "[]json.RawMessage"))
  }

  /** Stores put in front of a result's stores; an error stays as it is. */
  function Prepend(front: seq<Option<MetricStore>>, r: Result<seq<Option<MetricStore>>, LoadError>): Result<seq<Option<MetricStore>>, LoadError> {
    match r
    case Ok(rest) => Ok(front + rest)
    case Err(e) => Err(e)
  }

  lemma PrependTwice(a: seq<Option<MetricStore>>, b: seq<Option<MetricStore>>, r: Result<seq<Option<MetricStore>>, LoadError>)
    ensures Prepend(a, Prepend(b, r)) == Prepend(a + b, r)
  {
    if r.Ok? {
      assert a + (b + r.value) == (a + b) + r.value;
    }
  }

  /** The config loop as a recursion: each config's slot in turn, stopping at the first failure. */
  function FromConfigs(configs: seq<Json>, open: Opener): Result<seq<Option<MetricStore>>, LoadError>
    decreases |configs|
  {
    if configs == [] then Ok([])
    else match ConfigEntry(configs[0], open)
      case Err(e) => Err(e)
      case Ok(slot) => Prepend([slot], FromConfigs(configs[1..], open))
  }

  /**
   * The configs load exactly when each of them does; the result then has one
   * slot per config, in order; otherwise the error is that of the first
   * config that fails.
   */
  lemma {:induction false} FromConfigsOutcome(configs: seq<Json>, open: Opener)
    ensures FromConfigs(configs, open).Ok? <==> forall k :: 0 <= k < |configs| ==> ConfigEntry(configs[k], open).Ok?
    ensures FromConfigs(configs, open).Ok? ==>
              |FromConfigs(configs, open).value| == |configs|
              && forall k :: 0 <= k < |configs| ==> FromConfigs(configs, open).value[k] == ConfigEntry(configs[k], open).value
    ensures FromConfigs(configs, open).Err? ==>
              exists k :: 0 <= k < |configs|
                && (forall j :: 0 <= j < k ==> ConfigEntry(configs[j], open).Ok?)
                && ConfigEntry(configs[k], open) == Err(FromConfigs(configs, open).error)
    decreases |configs|
  {
    if configs != [] {
      FromConfigsOutcome(configs[1..], open);
      if ConfigEntry(configs[0], open).Ok? {
        FromConfigsStep(configs, open);
      }
    }
  }

  /** The step of FromConfigsOutcome when the first config loads: the rest's outcome, shifted by one. */
  lemma FromConfigsStep(configs: seq<Json>, open: Opener)
    requires configs != [] && ConfigEntry(configs[0], open).Ok?
    requires var rest := configs[1..];
             && (FromConfigs(rest, open).Ok? <==> forall k :: 0 <= k < |rest| ==> ConfigEntry(rest[k], open).Ok?)
             && (FromConfigs(rest, open).Ok? ==>
                   |FromConfigs(rest, open).value| == |rest|
                   && forall k :: 0 <= k < |rest| ==> FromConfigs(rest, open).value[k] == ConfigEntry(rest[k], open).value)
             && (FromConfigs(rest, open).Err? ==>
                   exists k :: 0 <= k < |rest|
                     && (forall j :: 0 <= j < k ==> ConfigEntry(rest[j], open).Ok?)
                     && ConfigEntry(rest[k], open) == Err(FromConfigs(rest, open).error))
    ensures FromConfigs(configs, open).Ok? <==> forall k :: 0 <= k < |configs| ==> ConfigEntry(configs[k], open).Ok?
    ensures FromConfigs(configs, open).Ok? ==>
              |FromConfigs(configs, open).value| == |configs|
              && forall k :: 0 <= k < |configs| ==> FromConfigs(configs, open).value[k] == ConfigEntry(configs[k], open).value
    ensures FromConfigs(configs, open).Err? ==>
              exists k :: 0 <= k < |configs|
                && (forall j :: 0 <= j < k ==> ConfigEntry(configs[j], open).Ok?)
                && ConfigEntry(configs[k], open) == Err(FromConfigs(configs, open).error)
  {
    var rest := configs[1..];
    assert forall k :: 0 <= k < |rest| ==> rest[k] == configs[k + 1];
    var r := FromConfigs(rest, open);
    if r.Ok? {
      assert forall k :: 1 <= k < |configs| ==> ConfigEntry(configs[k], open) == ConfigEntry(rest[k - 1], open);
    } else {
      var k :| 0 <= k < |rest| && (forall j :: 0 <= j < k ==> ConfigEntry(rest[j], open).Ok?)
               && ConfigEntry(rest[k], open) == Err(r.error);
      assert ConfigEntry(configs[k + 1], open) == Err(r.error);
      assert forall j :: 0 <= j < k + 1 ==> ConfigEntry(configs[j], open).Ok?;
    }
  }

  /** What LoadMetricStoresFromConfig returns for a config file. */
  function FromConfig(file: ConfigFile, open: Opener): Result<seq<Option<MetricStore>>, LoadError> {
    match file
    case NotFound => Ok([])
    case Unreadable(m) => Err(ReadFailed(m))
    case NotJson(m) => Err(Malformed(m))
    case Document(doc) =>
      match ConfigList(doc)
      case Err(e) => Err(DecodeFailed(e))
      case Ok(configs) => FromConfigs(configs, open)
  }

  /**
   * LoadMetricStoresFromConfig: no file gives no stores and no error; any
   * other read or decode error is returned; otherwise each config in turn,
   * an unknown type leaving its slot empty (FromConfigsOutcome).
   */
  method StoresFromConfig(file: ConfigFile, open: Opener) returns (r: Result<seq<Option<MetricStore>>, LoadError>)
    ensures file.NotFound? ==> r == Ok([])
    ensures file.Unreadable? ==> r == Err(ReadFailed(file.message))
    ensures file.NotJson? ==> r == Err(Malformed(file.message))
    ensures file.Document? && ConfigList(file.doc).Err? ==> r == Err(DecodeFailed(ConfigList(file.doc).error))
    ensures file.Document? && ConfigList(file.doc).Ok? ==> r == FromConfigs(ConfigList(file.doc).value, open)
    ensures r == FromConfig(file, open)
  {
    match file {
      case NotFound => return Ok([]);
      case Unreadable(m) => return Err(ReadFailed(m));
      case NotJson(m) => return Err(Malformed(m));
      case Document(doc) =>
    }
    var decoded := ConfigList(file.doc);
    if decoded.Err? {
      return Err(DecodeFailed(decoded.error));
    }
    r := LoadConfigs(decoded.value, open);
  }

  /** The loop of LoadMetricStoresFromConfig: a slot per config, filled in place. */
  method LoadConfigs(configs: seq<Json>, open: Opener) returns (r: Result<seq<Option<MetricStore>>, LoadError>)
    ensures r == FromConfigs(configs, open)
  {
    var metricStores := new Option<MetricStore>[|configs|](_ => None);
    assert configs[0..] == configs;
    var whole := FromConfigs(configs, open);
    assert whole.Ok? ==> [] + whole.value == whole.value;
    for i := 0 to |configs|
      invariant FromConfigs(configs, open) == Prepend(metricStores[..i], FromConfigs(configs[i..], open))
      invariant forall k :: i <= k < |configs| ==> metricStores[k] == None
    {
      var config := configs[i];
      assert configs[i..][0] == config && configs[i..][1..] == configs[i + 1..];
      var loaderType := ConfigType(config);
      if loaderType.Err? {
        return Err(DecodeFailed(loaderType.error));
      }
      if loaderType.value != ClickHouseLoaderType {
        PrependTwice(metricStores[..i], [None], FromConfigs(configs[i + 1..], open));
        assert metricStores[..i + 1] == metricStores[..i] + [None];
        continue;
      }
      var metricStore := ClickHouseFromConfig(config, open);
      if metricStore.Err? {
        return Err(metricStore.error);
      }
      metricStores[i] := metricStore.value;
      PrependTwice(metricStores[..i], [metricStore.value], FromConfigs(configs[i + 1..], open));
      assert metricStores[..i + 1] == metricStores[..i] + [metricStore.value];
    }
    assert configs[|configs|..] == [];
    assert metricStores[..|configs|] + [] == metricStores[..];
    return Ok(metricStores[..]);
  }

  /** LoadMetricStoresFromEnvironment's result. */
  function FromEnvironment(env: Environment, open: Opener): Result<seq<Option<MetricStore>>, LoadError> {
    if DsnVariable !in env && DatabaseVariable !in env && MetricsTableVariable !in env then Ok([])
    else if Missing(env) != [] then Err(MissingEnvironment(Missing(env)))
    else match open(ClickHouseConfig(env[DsnVariable], env[DatabaseVariable], env[MetricsTableVariable], CreateTables(env)))
      case Ok(s) => Ok([Some(s)])
      case Err(e) => Err(OpenFailed(e))
  }

  /**
   * LoadMetricStores: the config file's stores followed by the environment's;
   * an error from the config file is returned before the environment is read.
   */
  method LoadMetricStores(file: ConfigFile, env: Environment, open: Opener) returns (r: Result<seq<Option<MetricStore>>, LoadError>)
    ensures FromConfig(file, open).Err? ==> r == FromConfig(file, open)
    ensures FromConfig(file, open).Ok? ==> r == Prepend(FromConfig(file, open).value, FromEnvironment(env, open))
  {
    var fromConfig := StoresFromConfig(file, open);
    if fromConfig.Err? {
      return Err(fromConfig.error);
    }
    var fromEnvironment := StoresFromEnvironment(env, open);
    if fromEnvironment.Err? {
      return Err(fromEnvironment.error);
    }
    return Ok(fromConfig.value + fromEnvironment.value);
  }

  // ------------------------------------------------------------------ logUnknownLoaderType

  /** unicode.IsSpace, which strings.TrimSpace trims by. */
  predicate IsSpace(c: char) {
    c == '\t' || c == '\n' || c == '\U{B}' || c == '\U{C}' || c == '\r' || c == ' '
    || c == '\U{85}' || c == '\U{A0}' || c == '\U{1680}' || ('\U{2000}' <= c <= '\U{200A}')
    || c == '\U{2028}' || c == '\U{2029}' || c == '\U{202F}' || c == '\U{205F}' || c == '\U{3000}'
  }

  function TrimLeft(s: string): (r: string)
    ensures |r| <= |s| && r == s[|s| - |r|..]
    ensures r != [] ==> !IsSpace(r[0])
    ensures forall i :: 0 <= i < |s| - |r| ==> IsSpace(s[i])
  {
    if s != [] && IsSpace(s[0]) then TrimLeft(s[1..]) else s
  }

  function TrimRight(s: string): (r: string)
    ensures |r| <= |s| && r == s[..|r|]
    ensures r != [] ==> !IsSpace(r[|r| - 1])
    ensures forall i :: |r| <= i < |s| ==> IsSpace(s[i])
  {
    if s != [] && IsSpace(s[|s| - 1]) then TrimRight(s[..|s| - 1]) else s
  }

  /** strings.TrimSpace. */
  function TrimSpace(s: string): string {
    TrimRight(TrimLeft(s))
  }

  /** A string of white space alone loses all of it from the front. */
  lemma {:induction false} TrimLeftBlank(s: string)
    requires forall i :: 0 <= i < |s| ==> IsSpace(s[i])
    ensures TrimLeft(s) == ""
    decreases |s|
  {
    if s != [] {
      TrimLeftBlank(s[1..]);
    }
  }

  /** A string trims to nothing exactly when every character of it is white space. */
  lemma TrimSpaceEmpty(s: string)
    ensures TrimSpace(s) == "" <==> forall i :: 0 <= i < |s| ==> IsSpace(s[i])
  {
    if forall i :: 0 <= i < |s| ==> IsSpace(s[i]) {
      TrimLeftBlank(s);
    }
  }

  /**
   * logUnknownLoaderType's notice for a skipped config; `shown` is the
   * config as it is printed (minifyJson is not part of this model). A type
   * of white space alone, or none, gets the empty-type notice; any other
   * the unknown-type notice naming it.
   */
  function SkipNotice(loaderType: string, shown: string): (r: string)
    ensures (forall i :: 0 <= i < |loaderType| ==> IsSpace(loaderType[i])) ==>
              r == EmptyTypeNotice + shown + "\n"
    ensures (exists i :: 0 <= i < |loaderType| && !IsSpace(loaderType[i])) ==>
              r == UnknownTypeStart + loaderType + UnknownTypeEnd + shown + "\n"
  {
    TrimSpaceEmpty(loaderType);
    if TrimSpace(loaderType) == "" then EmptyTypeNotice + shown + "\n"
    else UnknownTypeStart + loaderType + UnknownTypeEnd + shown + "\n"
  }

  const EmptyTypeNotice: string := "Encountered an empty loader type. This config will be skipped: "
  const UnknownTypeStart: string := "Encountered an unknown loader type \""
  const UnknownTypeEnd: string := "\". This config will be skipped: "
}
