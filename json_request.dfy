/**
 * request/json.go: the shape of a request body before it is turned into an
 * export. There is no ECG member: ECGs never arrive through this schema.
 */
module JsonRequest {
  import opened Json
  import opened Workouts
  import opened StatesOfMind

  /** A metric as sent: its samples are kept as raw JSON until their kind is known. */
  datatype JsonMetric = JsonMetric(name: string, units: string, data: seq<Json>)

  datatype JsonData = JsonData(metrics: seq<JsonMetric>, workouts: seq<Workout>, stateOfMind: seq<StateOfMind>)

  datatype JsonRequest = JsonRequest(data: JsonData)
}
