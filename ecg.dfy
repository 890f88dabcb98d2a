/** request/ecg.go: an electrocardiogram and its voltage measurements. */
module Ecgs {
  import opened Wrappers
  import opened Time

  /** One voltage measurement; its date, when present, is seconds since the Unix epoch. */
  datatype EcgVoltage = EcgVoltage(date: Option<UnixTimestamp>, voltage: real, units: string)

  datatype Ecg = Ecg(
    classification: string, voltageMeasurements: seq<EcgVoltage>, source: string, averageHeartRate: real,
    start: Option<Timestamp>, numberOfVoltageMeasurements: int, samplingFrequency: int, end: Option<Timestamp>)
}
