/** The record classes exactly as `WeatherPoint.cs` declares them: every field is non-nullable except
    the strings, so an absent altitude or SNR can only be stored as the C#
    default 0. `FromDomain` gives the value these classes can hold of a decoded
    point, taking the default for every field a constructor leaves unassigned. */
module Declared {
  import opened Wrappers
  import D = Domain
  import opened Rows
  import opened Decoder

  datatype Metadata = Metadata(
    timeStamp: D.Instant,
    deviceId: string,
    applicationId: string,
    gatewayId: string)

  datatype Positional = Positional(
    latitude: real,
    longitude: real,
    altitude: real,
    cityName: Option<string>)

  datatype SensorData = SensorData(
    lightLogscale: int,
    lightLux: int,
    temperature: real,
    humidity: real,
    pressure: real,
    batteryStatus: int,
    batteryVoltage: real,
    wordMode: Option<string>)

  datatype TransmissionalData = TransmissionalData(
    rssi: int,
    snr: real,
    spreadingFactor: int,
    consumedAirtime: real,
    bandwidth: int,
    frequency: int)

  datatype WeatherPoint = WeatherPoint(
    metadata: Metadata,
    positional: Positional,
    sensorData: SensorData,
    transmissionalData: TransmissionalData)

  function NewMetadata(timestamp: D.Instant, deviceId: string, applicationId: string,
                       gatewayId: string): (m: Metadata)
    ensures m.timeStamp == timestamp && m.deviceId == deviceId
    ensures m.applicationId == applicationId && m.gatewayId == gatewayId
  {
    Metadata(timestamp, deviceId, applicationId, gatewayId)
  }

  /** The three-argument constructor; the city name stays unset. */
  function NewPositional(latitude: real, longitude: real, altitude: real): (p: Positional)
    ensures p.latitude == latitude && p.longitude == longitude && p.altitude == altitude
    ensures p.cityName == None
  {
    Positional(latitude, longitude, altitude, None)
  }

  /** The eight-argument constructor; its parameter order differs from the
      field order, and `lightLog` lands in `lightLogscale`, `wordMode` in
      `wordMode`. */
  function NewSensorData(temperature: real, humidity: real, pressure: real,
                         lightLog: int, lightLux: int, batteryStatus: int,
                         batteryVoltage: real, wordMode: string): (s: SensorData)
    ensures s.temperature == temperature && s.humidity == humidity && s.pressure == pressure
    ensures s.lightLogscale == lightLog && s.lightLux == lightLux
    ensures s.batteryStatus == batteryStatus && s.batteryVoltage == batteryVoltage
    ensures s.wordMode == Some(wordMode)
  {
    SensorData(lightLog, lightLux, temperature, humidity, pressure,
               batteryStatus, batteryVoltage, Some(wordMode))
  }

  function NewTransmissionalData(rssi: int, snr: real, spreadingFactor: int,
                                 consumedAirtime: real, bandwidth: int,
                                 frequency: int): (t: TransmissionalData)
    ensures t.rssi == rssi && t.snr == snr && t.spreadingFactor == spreadingFactor
    ensures t.consumedAirtime == consumedAirtime
    ensures t.bandwidth == bandwidth && t.frequency == frequency
  {
    TransmissionalData(rssi, snr, spreadingFactor, consumedAirtime, bandwidth, frequency)
  }

  function NewWeatherPoint(metadata: Metadata, positional: Positional,
                           sensorData: SensorData,
                           transmissionalData: TransmissionalData): (w: WeatherPoint)
    ensures w.metadata == metadata && w.positional == positional
    ensures w.sensorData == sensorData && w.transmissionalData == transmissionalData
  {
    WeatherPoint(metadata, positional, sensorData, transmissionalData)
  }

  function OrZero(x: Option<real>): real {
    match x
    case None => 0.0
    case Some(v) => v
  }

  /** Where the decoder calls a declared constructor (altitude present, SNR
      present) the result is that constructor's; elsewhere absent values read
      as the default 0. */
  function FromDomain(p: D.WeatherPoint): (w: WeatherPoint)
    ensures p.positional.altitude.Some? && p.positional.cityName.None? ==>
              w.positional == NewPositional(p.positional.latitude, p.positional.longitude,
                                            p.positional.altitude.value)
    ensures p.positional.altitude.None? ==> w.positional.altitude == 0.0
    ensures p.transmissionalData.snr.Some? ==>
              var t := p.transmissionalData;
              w.transmissionalData ==
                NewTransmissionalData(t.rssi, t.snr.value, t.spreadingFactor,
                                      t.consumedAirtime, t.bandwidth, t.frequency)
    ensures p.transmissionalData.snr.None? ==> w.transmissionalData.snr == 0.0
    ensures w.metadata == NewMetadata(p.metadata.timestamp, p.metadata.deviceId,
                                      p.metadata.applicationId, p.metadata.gatewayId)
    ensures w.positional.latitude == p.positional.latitude
    ensures w.positional.longitude == p.positional.longitude
    ensures w.positional.cityName == p.positional.cityName
    ensures var t := p.transmissionalData;
            var u := w.transmissionalData;
            && u.rssi == t.rssi && u.spreadingFactor == t.spreadingFactor
            && u.consumedAirtime == t.consumedAirtime
            && u.bandwidth == t.bandwidth && u.frequency == t.frequency
    ensures p.sensorData.Compact? ==>
              var s := p.sensorData;
              var u := w.sensorData;
              && u.lightLogscale == s.lightLogScale && u.temperature == s.temperature
              && u.pressure == s.pressure
              && u.lightLux == 0 && u.humidity == 0.0 && u.batteryStatus == 0
              && u.batteryVoltage == 0.0 && u.wordMode == None
    ensures p.sensorData.Extended? ==>
              var s := p.sensorData;
              var u := w.sensorData;
              && u.temperature == s.temperature && u.humidity == s.humidity
              && u.lightLux == s.lightLux && u.batteryStatus == s.batteryStatus
              && u.batteryVoltage == s.batteryVoltage && u.wordMode == Some(s.workMode)
              && u.lightLogscale == 0 && u.pressure == 0.0
  {
    var m := p.metadata;
    var pos := p.positional;
    var t := p.transmissionalData;
    var sensor := match p.sensorData
      case Compact(temp, pressure, lightLog) =>
        SensorData(lightLog, 0, temp, 0.0, pressure, 0, 0.0, None)
      case Extended(temp, humidity, lux, status, voltage, mode) =>
        SensorData(0, lux, temp, humidity, 0.0, status, voltage, Some(mode));
    WeatherPoint(
      NewMetadata(m.timestamp, m.deviceId, m.applicationId, m.gatewayId),
      Positional(pos.latitude, pos.longitude, OrZero(pos.altitude), pos.cityName),
      sensor,
      TransmissionalData(t.rssi, OrZero(t.snr), t.spreadingFactor, t.consumedAirtime,
                         t.bandwidth, t.frequency))
  }

  /** The declared classes cannot tell an absent altitude from 0.0. */
  lemma FromDomainForgetsAltitude(p: D.WeatherPoint)
    requires p.positional.altitude == None
    ensures FromDomain(p.(positional := p.positional.(altitude := Some(0.0)))) == FromDomain(p)
  {
  }

  /** The declared classes cannot tell an absent SNR from 0.0. */
  lemma FromDomainForgetsSnr(p: D.WeatherPoint)
    requires p.transmissionalData.snr == None
    ensures FromDomain(p.(transmissionalData := p.transmissionalData.(snr := Some(0.0))))
              == FromDomain(p)
  {
  }

  /** A row whose altitude is NULL and the same row with altitude 0.0 decode
      to different points, yet the declared classes hold the same value for
      both: the absence the decoder keeps is lost in the declared types. */
  lemma AbsentAltitudeReadsAsZero(row: Row)
    requires Has(row, "altitude", Null)
    requires DecodeRow(row).Success?
    ensures var zeroRow := row["altitude" := Float(0.0)];
            && DecodeRow(zeroRow).Success?
            && DecodeRow(zeroRow) != DecodeRow(row)
            && FromDomain(DecodeRow(zeroRow).value) == FromDomain(DecodeRow(row).value)
  {
    var zeroRow := row["altitude" := Float(0.0)];
    var p := DecodeRow(row).value;
    var q := p.(positional := p.positional.(altitude := Some(0.0)));
    assert Describes(zeroRow, q);
    assert DecodeRow(zeroRow) == Success(q);
    FromDomainForgetsAltitude(p);
  }

  /** The same loss for the signal-to-noise ratio: NULL and 0.0 decode apart
      but are stored alike. */
  lemma AbsentSnrReadsAsZero(row: Row)
    requires Has(row, "snr", Null)
    requires DecodeRow(row).Success?
    ensures var zeroRow := row["snr" := Float(0.0)];
            && DecodeRow(zeroRow).Success?
            && DecodeRow(zeroRow) != DecodeRow(row)
            && FromDomain(DecodeRow(zeroRow).value) == FromDomain(DecodeRow(row).value)
  {
    var zeroRow := row["snr" := Float(0.0)];
    var p := DecodeRow(row).value;
    var q := p.(transmissionalData := p.transmissionalData.(snr := Some(0.0)));
    assert Describes(zeroRow, q);
    assert DecodeRow(zeroRow) == Success(q);
    FromDomainForgetsSnr(p);
  }
}
