# Weather API core, modelled in Dafny

The service answers read-only HTTP queries over LoRa weather-sensor telemetry.
The model covers its three pieces of pure logic:

- **Row decoding.** The loop of `QueryParser.Parse` turns each result row into
  a `WeatherPoint`. A row is a map from column name to a nullable cell. The
  decoder reads the columns in the parser's order, through typed getters that
  fail the way the data reader throws: missing column, NULL, wrong kind, or an
  integer outside the 16- or 32-bit width read. Each part of a point also has
  a reference description written from the columns alone (`Describes…`). The
  decoder succeeds exactly on rows that have a description, and then returns
  that description.
- **Domain records.** `Domain` holds the records as the decoder intends them:
  optional altitude and SNR, and a sensor reading that is `Compact` (device id
  starting with `py`, case-sensitive) or `Extended` (every other id).
  `Declared` holds the classes as `WeatherPoint.cs` declares them, with their
  constructors. There `Altitude` and `Snr` are non-nullable, and
  `SensorData` is one flat class.
- **Device ordinals and city names.** Four handlers map an integer ordinal
  onto the roster of distinct device ids, sorted descending. The model has the
  guard and lookup as written and as intended. It also models extracting a
  city name from component 3 of the first geocoder result, and the two
  location handlers built on it.

Modules: `Wrappers` (Option, Result), `Domain`, `Rows` (cells and typed
getters), `Decoder`, `Declared`, `Roster`, `Locations`.

Inputs that the code fetches from elsewhere are parameters:
- the rows a query returns;
- the roster `/devices` lists;
- the device-to-location map;
- the geocoder, as a total function from coordinates to a parsed response;
- whether the geocoder key is configured.

The model follows the code as written, including these behaviours a reader
might not expect:
- A failing read throws out of `Parse`, so one bad row loses the whole
  batch. Bad rows are not skipped.
- A device id that is neither `py` nor `lht` gets the extended reading.
  There is no strict "unknown family" arm.
- The ordinal guard is `>`, not `>=`. See Findings.
- A missing geocoder component throws. It does not degrade to "no city".
  See Findings.
- A roster device without a location row throws in `/device/{deviceID}/location`.
  See Findings.

## Model

| member | source | states |
|---|---|---|
| `Decoder.DecodeMetadata` | QueryParser.cs:20-25 | On success, the timestamp, device, application and gateway equal the same-named columns, unchanged. Any metadata the columns describe is the one returned. A failure names a column that really is missing, NULL or of the wrong kind. |
| `Decoder.DecodePositional` | QueryParser.cs:27-48 | Altitude is absent exactly when the `altitude` cell is NULL. Latitude and longitude come from their columns on both branches. The city name is never set. The decoder succeeds exactly on rows with a described position. |
| `Decoder.DecodeSensorData` | QueryParser.cs:50-72 | The reading is `Compact` exactly when the id has the `py` prefix. Compact uses only `temperature`, `pressure` and 16-bit `light_log_scale`. Every other id, including unknown families, gets `Extended` from the six columns, with lux and battery status read as 16-bit. |
| `Decoder.DecodeTransmission` | QueryParser.cs:75-102 | SNR is absent exactly when the `snr` cell is NULL. rssi, spreading factor and airtime are read on both branches. Bandwidth and frequency are 16-bit when SNR is NULL and 32-bit otherwise. A value outside the width is a failure. |
| `Decoder.DecodeRow` | QueryParser.cs:20-111 | A decoded point is exactly what the row describes, and every row that describes a point decodes to it. So a row fails exactly when it describes no point, and the failure is a genuine defect of the row. |
| `Decoder.Parse` | QueryParser.cs:16-116 | On success, exactly one point per row, in row order, each the decoding of its row. Success exactly when every row decodes. Otherwise the error is that of the first failing row, and no partial list is returned. |
| `Decoder.NullSnrNarrowsFrequency` | QueryParser.cs:83-100 | A frequency that decodes while SNR is present fails with a 16-bit overflow when the same row's SNR is NULL. |
| `Declared.NewMetadata` | WeatherPoint.cs:10-16 | The four arguments land unchanged in the matching fields. |
| `Declared.NewPositional` | WeatherPoint.cs:33-38 | Latitude, longitude and altitude are stored. The city name is left unset. |
| `Declared.NewSensorData` | WeatherPoint.cs:52-65 | Each argument is stored in its field, with `lightLog` going to `LightLogscale` and `wordMode` to `WordMode`, although the parameter order differs from the field order. |
| `Declared.NewTransmissionalData` | WeatherPoint.cs:77-86 | rssi, snr, spreading factor, airtime, bandwidth and frequency are stored in the same-named fields. |
| `Declared.NewWeatherPoint` | WeatherPoint.cs:97-103 | The four parts are stored unchanged. |
| `Declared.FromDomain` | WeatherPoint.cs:26-87 | Metadata is what the 4-argument `Metadata` constructor builds. Latitude, longitude, city name and the transmission fields other than SNR are copied. When altitude is present, the position is what the 3-argument `Positional` constructor builds. When SNR is present, the transmission is what the 6-argument `TransmissionalData` constructor builds. An absent altitude or SNR is held as 0. A compact reading fills `LightLogscale`, `Temperature` and `Pressure` and leaves the rest at 0 or null. An extended reading fills `Temperature`, `Humidity`, `LightLux`, the battery fields and `WordMode`, and leaves `LightLogscale` and `Pressure` at 0. |
| `Declared.FromDomainForgetsAltitude` | WeatherPoint.cs:30 | A point with no altitude and the same point with altitude 0.0 are held as the same declared value. |
| `Declared.FromDomainForgetsSnr` | WeatherPoint.cs:71 | A point with no SNR and the same point with SNR 0.0 are held as the same declared value. |
| `Declared.AbsentAltitudeReadsAsZero` | WeatherPoint.cs:30 | A row with NULL altitude and the same row with altitude 0.0 decode to different points, but the declared classes hold the same value for both. |
| `Declared.AbsentSnrReadsAsZero` | WeatherPoint.cs:71 | The same loss for SNR: NULL and 0.0 decode to different points but are stored alike. |
| `Roster.DeviceDictionary` | Program.cs:175 | The `/devices` dictionary has keys exactly 0 to n-1, maps key i to the i-th roster id, and has `Count()` equal to the roster length. |
| `Roster.RosterIsDistinct` | Program.cs:173-176 | A roster ordered strictly descending contains no device twice. |
| `Roster.ResolveAsWritten` | Program.cs:193-201 | Under the `>` guard, the lookup throws `KeyNotFound` exactly for a negative ordinal or one equal to the roster length. The exception is the location handler with an empty roster, which answers empty. Whenever it does not throw, the outcome equals the intended resolution. |
| `Roster.GuardLetsCountThrough` | Program.cs:272-278 | With roster `["lht-1","lht-0"]`, ordinals 2 and -1 throw and ordinal 3 answers empty. |
| `Roster.Resolve` | Program.cs:344-352 | The intended resolution: a device exactly when 0 <= ordinal < roster length, and then the entry at that position. Every other ordinal, including any ordinal on an empty roster, is out of range. |
| `Roster.ResolveNamesUniqueDevice` | Program.cs:192-193 | A resolved ordinal names the device that `/devices` lists at that position. On a genuine roster no other position holds that device. |
| `Locations.FirstToken` | Program.cs:256 | The first element of splitting on a space has no space, is a prefix of the input, and is followed in the input by a space or the end. It equals the input when the input has no space. |
| `Locations.FirstTokenOfWord` | Program.cs:334 | A space-free word followed by a space and anything splits back to that word. |
| `Locations.CityNameAsWritten` | Program.cs:256 | The extraction throws exactly when there is no result or the first result has fewer than four components. |
| `Locations.CityName` | Program.cs:334 | The intended extraction: a city exactly when the written extraction succeeds, and then the same one. It has no space, is a prefix of `short_name` of component 3, and equals it when `short_name` has no space. |
| `Locations.DeviceLocationAsWritten` | Program.cs:219-263 | Answers empty without a geocoder key, before the roster matters. With a key it also answers empty on an empty roster and for an ordinal past the count. It throws exactly when the key is configured and either the ordinal lookup throws, or the ordinal's device has no location, or its city extraction throws. A non-empty answer is the single entry from the ordinal's device to its extracted city. Whenever it answers, the intended handler gives the same answer. |
| `Locations.LocationlessDeviceThrows` | Program.cs:244-246 | With roster `["a"]` and no location rows, ordinal 0 throws `DeviceWithoutLocation("a")` as written, while the intended handler answers empty. |
| `Locations.DeviceLocation` | Program.cs:222-237 | The intended handler never throws. It answers non-empty exactly when the key is configured, the ordinal is in range, the device has a location and a city is found, and then answers that one entry. |
| `Locations.DevicesLocationsAsWritten` | Program.cs:301-340 | Empty without a key. Otherwise it succeeds exactly when every device's extraction succeeds, and then has exactly one entry per device key of the location map, under the same key, holding that device's city. |
| `Locations.DevicesLocations` | Program.cs:320-339 | The intended handler: a device has an entry exactly when the key is configured, the device is in the location map and its response has a city. The entry is that city. |

## Findings

| source | as written | input that shows it | evidently intended | confidence | as-written member | corrected member |
|---|---|---|---|---|---|---|
| Program.cs:195 | `deviceID > all_devices.Count()` guards a lookup keyed 0 to Count-1 (same at lines 230, 272, 346) | roster of two devices, ordinal 2 or -1: the indexer throws `KeyNotFoundException` instead of giving the promised empty result | out of range is `deviceID < 0` or `deviceID >= Count()`, answering empty | not executed; high | `Roster.ResolveAsWritten` | `Roster.Resolve` |
| WeatherPoint.cs:30 | `Altitude` is a non-nullable `double`, although the parser's comment says a NULL altitude is left null | a row with NULL altitude and the same row with altitude 0.0 are stored alike | altitude is optional; absent is distinct from 0 | not executed; medium (`WeatherPoint.cs` declares no 2-argument `Positional` constructor, so the default it leaves is inferred) | `Declared.AbsentAltitudeReadsAsZero` | `Decoder.DecodePositional` |
| WeatherPoint.cs:71 | `Snr` is a non-nullable `float`, although the parser's comment says a NULL SNR is not initialised | a row with NULL snr and the same row with snr 0.0 are stored alike | SNR is optional; absent is distinct from 0 | not executed; medium (`WeatherPoint.cs` declares no 5-argument `TransmissionalData` constructor) | `Declared.AbsentSnrReadsAsZero` | `Decoder.DecodeTransmission` |
| Program.cs:256 | `results[0].address_components[3]` is indexed unchecked (same at line 334) | a geocoder response with no results, or with three components: the handler throws | a missing component means no city name for that device | not executed; medium | `Locations.CityNameAsWritten` | `Locations.CityName` |
| Program.cs:246 | `locations[device]` is indexed unchecked after a location query that can return no row for the device | roster `["a"]` where device `a` has no positional row, ordinal 0: `KeyNotFoundException` | a device with no known location answers empty, as the other out-of-range cases do | not executed; medium | `Locations.DeviceLocationAsWritten` | `Locations.DeviceLocation` |

## Left out

- Storage session handling: opening and closing the single shared connection across asynchronous handlers. This is I/O and concurrency.
- SQL text for each route and its assembly with `string.Format`. Rows, roster and locations are taken as given inputs.
- Route registration, environment variables, port parsing and the listening address.
- `GetDistinctStringColumn`, `GetDevicesLocations` and `GetSingleFloatColumn` are not part of this model. The roster dictionary is assumed to map position i to the i-th id of the descending query result. The location map is assumed to give both coordinates for each device it lists.
- The geocoder HTTP request and JSON deserialisation. A failing request and a null `short_name` are not modelled. The geocoder is a total function to an already-parsed response.
- `/device/{deviceID}/average-temp` computes its average in SQL. Its modelled part is the ordinal guard and lookup (`AverageTempEndpoint`). The same holds for `/device/{deviceID}` and `/device/{deviceID}/latest`, whose rows then go through `Parse`.
- `/latest` has no ordinal and is just `Parse`. `/devices/locations` fetches the roster but never uses it, so the model does not take a roster there.
- Floating-point values are opaque `real` payloads that are copied, never computed on. The narrowing of `GetFloat` from a double column is not modelled.
- Conversions the reader may make between cell kinds, such as reading an integer cell through `GetFloat`, are not modelled. A getter accepts only its own kind of cell.
- `DateTime` formatting and the clock-relative defaults of the `since`/`until` parameters.
- `Domain.IsCompactFamily`: `StartsWith("py")` without a comparison argument is culture-sensitive in .NET. The model uses an ordinal prefix test, which differs only on culturally ignorable characters.
- `Roster.IsRoster`: database collation is modelled as code-point lexicographic order.
- `Declared.FromDomain`: the 2-argument `Positional`, 3- and 6-argument `SensorData` and 5-argument `TransmissionalData` overloads the parser calls are not in `WeatherPoint.cs`. Their unassigned fields are taken to keep the C# defaults (0 or null).
- The roster re-fetch race: the roster and the device data come from separate queries. Each handler call is modelled as seeing one roster value.
