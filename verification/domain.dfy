/** The domain records built for every decoded row, as the decoder intends
    them: altitude and signal-to-noise ratio are optional, and the sensor
    reading is one of two variants chosen by the device family. Every record
    is immutable; the datatype constructors are the field-preserving
    constructors of the C# classes. Floating-point values are opaque payloads
    that are copied, never computed on, so `real` stands for them. */
module Domain {
  import opened Wrappers

  /** A storage timestamp, kept as an opaque tick count. */
  datatype Instant = Instant(ticks: int)

  datatype Metadata = Metadata(
    timestamp: Instant,
    deviceId: string,
    applicationId: string,
    gatewayId: string)

  /** `cityName` is only ever filled in by location enrichment, never by the
      row decoder. */
  datatype Positional = Positional(
    latitude: real,
    longitude: real,
    altitude: Option<real>,
    cityName: Option<string>)

  /** `Compact` is the reading of a "py" device (temperature, pressure, light on
      a logarithmic scale); `Extended` is the reading of every other device. */
  datatype SensorData =
    | Compact(temperature: real, pressure: real, lightLogScale: int)
    | Extended(temperature: real, humidity: real, lightLux: int,
               batteryStatus: int, batteryVoltage: real, workMode: string)

  datatype TransmissionalData = TransmissionalData(
    rssi: int,
    snr: Option<real>,
    spreadingFactor: int,
    consumedAirtime: real,
    bandwidth: int,
    frequency: int)

  datatype WeatherPoint = WeatherPoint(
    metadata: Metadata,
    positional: Positional,
    sensorData: SensorData,
    transmissionalData: TransmissionalData)

  /** The sensor family marker: a case-sensitive "py" prefix on the device id. */
  const PyPrefix: string := "py"

  predicate IsCompactFamily(deviceId: string) {
    PyPrefix <= deviceId
  }
}
