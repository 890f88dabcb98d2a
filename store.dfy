/**
 * store.go: the MetricStore interface every storage backend implements.
 * A store is seen from outside only through the calls made on it and the
 * error each call returns, so a store is modelled as its name and the
 * response it gives to each call (None for a nil error).
 */
module Stores {
  import opened Wrappers
  import opened Metrics
  import opened Workouts
  import opened StatesOfMind

  /** A call on the interface, with its argument. Close is connection handling and is not modelled. */
  datatype Call =
    | Store(metrics: seq<Metric>)
    | StoreWorkouts(workouts: seq<Workout>)
    | StoreStateOfMind(entries: seq<StateOfMind>)
    | OptimizeTables

  /** A storage backend: what Name returns, and the error (if any) each call returns. */
  datatype MetricStore = MetricStore(name: string, respond: Call -> Option<string>)
}
