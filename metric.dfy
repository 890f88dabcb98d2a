/**
 * The metric records request.Metric and its samples. Their Go definitions are
 * not part of this model; what the store writer reads of them is declared
 * here: a metric's name, unit and samples, and each sample's optional
 * timestamp and the values of its kind.
 */
module Metrics {
  import opened Wrappers
  import opened Time

  datatype Sample =
    | QtySample(date: Option<Timestamp>, qty: real)
    | MinMaxAvgSample(date: Option<Timestamp>, min: real, max: real, avg: real)
    | SleepSample(date: Option<Timestamp>, asleep: real, inBed: real, sleepSource: string, inBedSource: string)
    | OtherSample(date: Option<Timestamp>)   // any other kind: the writer's type switch matches none of its cases

  datatype Metric = Metric(name: string, unit: string, samples: seq<Sample>)

  /** Sample.GetTimestamp. */
  function GetTimestamp(s: Sample): Option<Timestamp> {
    s.date
  }
}
