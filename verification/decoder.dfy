/** The per-row decoder and the batch loop of the query parser. Each part of a
    point has a relational description (`Describes…`) written from the columns
    alone, and a decoding function that reads the columns in the order the
    parser does; the decoding function succeeds exactly on the rows that have a
    description, and then returns that description. */
module Decoder {
  import opened Wrappers
  import opened Domain
  import opened Rows

  // ---------------------------------------------------------------------
  // Reference descriptions

  ghost predicate DescribesMetadata(row: Row, m: Metadata) {
    && Has(row, "timestamp", Time(m.timestamp))
    && Has(row, "device", Str(m.deviceId))
    && Has(row, "application", Str(m.applicationId))
    && Has(row, "gateway", Str(m.gatewayId))
  }

  ghost predicate DescribesPositional(row: Row, p: Positional) {
    && Has(row, "latitude", Float(p.latitude))
    && Has(row, "longitude", Float(p.longitude))
    && p.cityName == None
    && match p.altitude
       case None => Has(row, "altitude", Null)
       case Some(a) => Has(row, "altitude", Float(a))
  }

  ghost predicate HasInt(row: Row, column: string, i: int, width: Width) {
    Has(row, column, Int(i)) && width.Fits(i)
  }

  ghost predicate DescribesSensorData(row: Row, deviceId: string, s: SensorData) {
    match s
    case Compact(t, p, l) =>
      && IsCompactFamily(deviceId)
      && Has(row, "temperature", Float(t))
      && Has(row, "pressure", Float(p))
      && HasInt(row, "light_log_scale", l, Int16)
    case Extended(t, h, lux, bs, bv, wm) =>
      && !IsCompactFamily(deviceId)
      && Has(row, "temperature", Float(t))
      && Has(row, "humidity", Float(h))
      && HasInt(row, "light_lux", lux, Int16)
      && HasInt(row, "battery_status", bs, Int16)
      && Has(row, "battery_voltage", Float(bv))
      && Has(row, "work_mode", Str(wm))
  }

  /** With no SNR the bandwidth and frequency are read as 16-bit integers, with
      an SNR as 32-bit ones. */
  ghost predicate DescribesTransmission(row: Row, d: TransmissionalData) {
    && HasInt(row, "rssi", d.rssi, Int16)
    && HasInt(row, "spreading_factor", d.spreadingFactor, Int16)
    && Has(row, "consumed_airtime", Float(d.consumedAirtime))
    && match d.snr
       case None =>
         && Has(row, "snr", Null)
         && HasInt(row, "bandwidth", d.bandwidth, Int16)
         && HasInt(row, "frequency", d.frequency, Int16)
       case Some(s) =>
         && Has(row, "snr", Float(s))
         && HasInt(row, "bandwidth", d.bandwidth, Int32)
         && HasInt(row, "frequency", d.frequency, Int32)
  }

  /** `p` is the point that `row` stands for. */
  ghost predicate Describes(row: Row, p: WeatherPoint) {
    && DescribesMetadata(row, p.metadata)
    && DescribesPositional(row, p.positional)
    && DescribesSensorData(row, p.metadata.deviceId, p.sensorData)
    && DescribesTransmission(row, p.transmissionalData)
  }

  // ---------------------------------------------------------------------
  // Decoding, in the parser's reading order

  function DecodeMetadata(row: Row): (r: Result<Metadata, DecodeError>)
    ensures r.Success? ==> DescribesMetadata(row, r.value)
    ensures forall m :: DescribesMetadata(row, m) ==> r == Success(m)
    ensures r.Failure? ==> Genuine(row, r.error)
  {
    var timestamp :- GetDateTime(row, "timestamp");
    var device :- GetString(row, "device");
    var application :- GetString(row, "application");
    var gateway :- GetString(row, "gateway");
    Success(Metadata(timestamp, device, application, gateway))
  }

  /** The null test on `altitude` comes first; latitude and longitude are read
      on both branches. */
  function DecodePositional(row: Row): (r: Result<Positional, DecodeError>)
    ensures r.Success? ==> DescribesPositional(row, r.value)
    ensures r.Success? ==> (r.value.altitude.None? <==> Has(row, "altitude", Null))
    ensures forall p :: DescribesPositional(row, p) ==> r == Success(p)
    ensures r.Failure? ==> Genuine(row, r.error)
  {
    var altitudeIsNull :- IsDBNull(row, "altitude");
    if altitudeIsNull then
      var latitude :- GetReal(row, "latitude");
      var longitude :- GetReal(row, "longitude");
      Success(Positional(latitude, longitude, None, None))
    else
      var latitude :- GetReal(row, "latitude");
      var longitude :- GetReal(row, "longitude");
      var altitude :- GetReal(row, "altitude");
      Success(Positional(latitude, longitude, Some(altitude), None))
  }

  /** A "py" device gets the compact reading, every other device the extended
      one; there is no arm for an unknown family. */
  function DecodeSensorData(row: Row, deviceId: string): (r: Result<SensorData, DecodeError>)
    ensures r.Success? ==> DescribesSensorData(row, deviceId, r.value)
    ensures r.Success? ==> (r.value.Compact? <==> IsCompactFamily(deviceId))
    ensures forall s :: DescribesSensorData(row, deviceId, s) ==> r == Success(s)
    ensures r.Failure? ==> Genuine(row, r.error)
  {
    if IsCompactFamily(deviceId) then
      var temperature :- GetReal(row, "temperature");
      var pressure :- GetReal(row, "pressure");
      var lightLog :- GetInt(row, "light_log_scale", Int16);
      Success(Compact(temperature, pressure, lightLog))
    else
      var temperature :- GetReal(row, "temperature");
      var humidity :- GetReal(row, "humidity");
      var lightLux :- GetInt(row, "light_lux", Int16);
      var batteryStatus :- GetInt(row, "battery_status", Int16);
      var batteryVoltage :- GetReal(row, "battery_voltage");
      var workMode :- GetString(row, "work_mode");
      Success(Extended(temperature, humidity, lightLux, batteryStatus, batteryVoltage, workMode))
  }

  /** The null test on `snr` comes first; it also decides the width at which
      bandwidth and frequency are read. */
  function DecodeTransmission(row: Row): (r: Result<TransmissionalData, DecodeError>)
    ensures r.Success? ==> DescribesTransmission(row, r.value)
    ensures r.Success? ==> (r.value.snr.None? <==> Has(row, "snr", Null))
    ensures r.Success? && r.value.snr.None? ==>
              Int16.Fits(r.value.bandwidth) && Int16.Fits(r.value.frequency)
    ensures forall d :: DescribesTransmission(row, d) ==> r == Success(d)
    ensures r.Failure? ==> Genuine(row, r.error)
  {
    var snrIsNull :- IsDBNull(row, "snr");
    if snrIsNull then
      var rssi :- GetInt(row, "rssi", Int16);
      var spreadingFactor :- GetInt(row, "spreading_factor", Int16);
      var consumedAirtime :- GetReal(row, "consumed_airtime");
      var bandwidth :- GetInt(row, "bandwidth", Int16);
      var frequency :- GetInt(row, "frequency", Int16);
      Success(TransmissionalData(rssi, None, spreadingFactor, consumedAirtime, bandwidth, frequency))
    else
      var rssi :- GetInt(row, "rssi", Int16);
      var snr :- GetReal(row, "snr");
      var spreadingFactor :- GetInt(row, "spreading_factor", Int16);
      var consumedAirtime :- GetReal(row, "consumed_airtime");
      var bandwidth :- GetInt(row, "bandwidth", Int32);
      var frequency :- GetInt(row, "frequency", Int32);
      Success(TransmissionalData(rssi, Some(snr), spreadingFactor, consumedAirtime, bandwidth, frequency))
  }

  /** One loop iteration of the parser: the row becomes one point, or the
      first failing read is reported. A row that describes a point decodes to
      exactly that point, so a failing row describes no point at all. */
  function DecodeRow(row: Row): (r: Result<WeatherPoint, DecodeError>)
    ensures r.Success? ==> Describes(row, r.value)
    ensures forall p :: Describes(row, p) ==> r == Success(p)
    ensures r.Failure? ==> Genuine(row, r.error)
  {
    var metadata :- DecodeMetadata(row);
    var positional :- DecodePositional(row);
    var sensorData :- DecodeSensorData(row, metadata.deviceId);
    var transmissionalData :- DecodeTransmission(row);
    Success(WeatherPoint(metadata, positional, sensorData, transmissionalData))
  }

  /** The parser loop: one point per row, in row order, or the error of the
      first row that fails. There is no per-row recovery, so a failure leaves
      no partial list. */
  method Parse(rows: seq<Row>) returns (r: Result<seq<WeatherPoint>, DecodeError>)
    ensures r.Success? <==> forall i :: 0 <= i < |rows| ==> DecodeRow(rows[i]).Success?
    ensures r.Success? ==> |r.value| == |rows|
    ensures r.Success? ==> forall i :: 0 <= i < |rows| ==> DecodeRow(rows[i]) == Success(r.value[i])
    ensures r.Failure? ==>
              exists i :: 0 <= i < |rows| && DecodeRow(rows[i]) == Failure(r.error) &&
                          forall j :: 0 <= j < i ==> DecodeRow(rows[j]).Success?
  {
    var points: seq<WeatherPoint> := [];
    var i := 0;
    while i < |rows|
      invariant 0 <= i <= |rows|
      invariant |points| == i
      invariant forall j :: 0 <= j < i ==> DecodeRow(rows[j]) == Success(points[j])
    {
      var decoded := DecodeRow(rows[i]);
      if decoded.Failure? {
        return Failure(decoded.error);
      }
      points := points + [decoded.value];
      i := i + 1;
    }
    return Success(points);
  }

  /** The width asymmetry: a frequency that decodes while an SNR is present
      overflows the 16-bit read once the SNR cell is null. */
  lemma NullSnrNarrowsFrequency(row: Row)
    requires exists s :: Has(row, "snr", Float(s))
    requires DecodeTransmission(row).Success?
    requires Int16.Fits(DecodeTransmission(row).value.bandwidth)
    requires !Int16.Fits(DecodeTransmission(row).value.frequency)
    ensures DecodeTransmission(row["snr" := Null]) == Failure(Overflow("frequency", Int16))
  {
  }
}
