/** City-name extraction from an already parsed geocoder response, and the two
    location handlers built on it. The geocoder itself is a parameter: a total
    function from coordinates to the response it returns. */
module Locations {
  import opened Wrappers
  import opened Roster

  datatype AddressComponent = AddressComponent(shortName: string)
  datatype GeocodeResult = GeocodeResult(addressComponents: seq<AddressComponent>)
  datatype GeocodeResponse = GeocodeResponse(results: seq<GeocodeResult>)

  /** A device's last known coordinates, as the location query gives them. */
  datatype Location = Location(latitude: real, longitude: real)

  /** The fixed position of the locality among the address components. */
  const CityComponent: nat := 3

  /** The first element of splitting on " ": everything before the first
      space, or the whole string when it has none. */
  function FirstToken(s: string): (t: string)
    ensures ' ' !in t
    ensures t <= s
    ensures |t| < |s| ==> s[|t|] == ' '
    ensures ' ' !in s ==> t == s
  {
    if |s| == 0 || s[0] == ' ' then "" else [s[0]] + FirstToken(s[1..])
  }

  /** Splitting a word followed by a space and anything gives the word back. */
  lemma {:induction false} FirstTokenOfWord(word: string, rest: string)
    requires ' ' !in word
    ensures FirstToken(word + " " + rest) == word
  {
    if |word| > 0 {
      assert (word + " " + rest)[1..] == word[1..] + " " + rest;
      FirstTokenOfWord(word[1..], rest);
    }
  }

  /** The extraction as written: neither index is checked, so a response with
      no result or with fewer than four components throws. */
  function CityNameAsWritten(response: GeocodeResponse): (r: Result<string, Fault>)
    ensures r.Failure? <==>
              |response.results| == 0 ||
              |response.results[0].addressComponents| <= CityComponent
    ensures r.Failure? ==> r.error == IndexOutOfRange
  {
    if |response.results| == 0 then Failure(IndexOutOfRange)
    else
      var components := response.results[0].addressComponents;
      if |components| <= CityComponent then Failure(IndexOutOfRange)
      else Success(FirstToken(components[CityComponent].shortName))
  }

  /** The intended extraction: a missing component means no city name. */
  function CityName(response: GeocodeResponse): (r: Option<string>)
    ensures r.Some? <==> CityNameAsWritten(response).Success?
    ensures r.Some? ==> r.value == CityNameAsWritten(response).value
    ensures r.Some? ==>
              var shortName := response.results[0].addressComponents[CityComponent].shortName;
              ' ' !in r.value && r.value <= shortName &&
              (' ' !in shortName ==> r.value == shortName)
  {
    if |response.results| > 0 && |response.results[0].addressComponents| > CityComponent then
      Some(FirstToken(response.results[0].addressComponents[CityComponent].shortName))
    else None
  }

  function LocationOf(locations: map<string, Location>, device: string): (r: Result<Location, Fault>)
    ensures r.Success? <==> device in locations
    ensures r.Success? ==> r.value == locations[device]
  {
    if device in locations then Success(locations[device])
    else Failure(DeviceWithoutLocation(device))
  }

  /** `/device/{ordinal}/location` as written. Without a geocoder key it
      answers empty before fetching anything; otherwise it resolves the
      ordinal, looks up the device's location and extracts the city, and any
      of those steps may throw. Whenever it answers, the intended handler
      answers the same. */
  function DeviceLocationAsWritten(keyConfigured: bool, roster: seq<string>,
                                   locations: map<string, Location>,
                                   geocode: Location -> GeocodeResponse,
                                   ordinal: int): (r: Result<map<string, string>, Fault>)
    ensures !keyConfigured ==> r == Success(map[])
    ensures keyConfigured && |roster| == 0 ==> r == Success(map[])
    ensures keyConfigured && ordinal > |roster| ==> r == Success(map[])
    ensures r.Failure? <==>
              keyConfigured &&
              (ResolveAsWritten(DeviceLocationEndpoint, roster, ordinal).Failure? ||
               (0 <= ordinal < |roster| &&
                (roster[ordinal] !in locations ||
                 CityNameAsWritten(geocode(locations[roster[ordinal]])).Failure?)))
    ensures r.Success? && r.value != map[] ==>
              0 <= ordinal < |roster| &&
              var device := roster[ordinal];
              device in locations &&
              CityNameAsWritten(geocode(locations[device])).Success? &&
              r.value == map[device := CityNameAsWritten(geocode(locations[device])).value]
    ensures r.Success? ==> r.value == DeviceLocation(keyConfigured, roster, locations, geocode, ordinal)
  {
    if !keyConfigured then Success(map[])
    else
      var resolved :- ResolveAsWritten(DeviceLocationEndpoint, roster, ordinal);
      match resolved
      case None => Success(map[])
      case Some(device) =>
        var location :- LocationOf(locations, device);
        var city :- CityNameAsWritten(geocode(location));
        Success(map[device := city])
  }

  /** A device listed in the roster but without a location row makes the
      written handler throw, where the intended one answers empty. */
  lemma LocationlessDeviceThrows()
    ensures DeviceLocationAsWritten(true, ["a"], map[], _ => GeocodeResponse([]), 0)
              == Failure(DeviceWithoutLocation("a"))
    ensures DeviceLocation(true, ["a"], map[], _ => GeocodeResponse([]), 0) == map[]
  {
  }

  /** The intended `/device/{ordinal}/location`: never throws; answers the one
      device the ordinal names with its city, or empty. */
  function DeviceLocation(keyConfigured: bool, roster: seq<string>,
                          locations: map<string, Location>,
                          geocode: Location -> GeocodeResponse,
                          ordinal: int): (r: map<string, string>)
    ensures r != map[] <==>
              keyConfigured && Resolve(roster, ordinal).Some? &&
              roster[ordinal] in locations &&
              CityName(geocode(locations[roster[ordinal]])).Some?
    ensures r != map[] ==>
              r == map[roster[ordinal] := CityName(geocode(locations[roster[ordinal]])).value]
  {
    if !keyConfigured then map[]
    else match Resolve(roster, ordinal)
      case None => map[]
      case Some(device) =>
        if device !in locations then map[]
        else match CityName(geocode(locations[device]))
          case None => map[]
          case Some(city) =>
            var answer := map[device := city];
            assert device in answer;
            answer
  }

  /** `/devices/locations` as written: one geocoder lookup per device in the
      location map, in no particular order; the first extraction that throws
      ends the handler with no answer. */
  method DevicesLocationsAsWritten(keyConfigured: bool, locations: map<string, Location>,
                                   geocode: Location -> GeocodeResponse)
    returns (r: Result<map<string, string>, Fault>)
    ensures !keyConfigured ==> r == Success(map[])
    ensures keyConfigured ==>
              (r.Success? <==>
                 forall d :: d in locations ==> CityNameAsWritten(geocode(locations[d])).Success?)
    ensures keyConfigured && r.Success? ==> r.value.Keys == locations.Keys
    ensures r.Success? ==>
              forall d :: d in r.value ==>
                d in locations && CityNameAsWritten(geocode(locations[d])) == Success(r.value[d])
    ensures r.Success? ==> r.value == DevicesLocations(keyConfigured, locations, geocode)
  {
    if !keyConfigured {
      return Success(map[]);
    }
    var cities: map<string, string> := map[];
    var remaining := locations.Keys;
    while remaining != {}
      invariant remaining <= locations.Keys
      invariant cities.Keys == locations.Keys - remaining
      invariant forall d :: d in cities ==> CityNameAsWritten(geocode(locations[d])) == Success(cities[d])
      decreases remaining
    {
      var device :| device in remaining;
      var city := CityNameAsWritten(geocode(locations[device]));
      if city.Failure? {
        return Failure(city.error);
      }
      cities := cities[device := city.value];
      remaining := remaining - {device};
    }
    return Success(cities);
  }

  /** The intended `/devices/locations`: every device whose response carries a
      city component gets an entry under its own key; the others are left out
      instead of failing the whole answer. */
  function DevicesLocations(keyConfigured: bool, locations: map<string, Location>,
                            geocode: Location -> GeocodeResponse): (r: map<string, string>)
    ensures forall d :: d in r <==>
              keyConfigured && d in locations && CityName(geocode(locations[d])).Some?
    ensures forall d :: d in r ==> Some(r[d]) == CityName(geocode(locations[d]))
  {
    if !keyConfigured then map[]
    else map d | d in locations && CityName(geocode(locations[d])).Some? ::
           CityName(geocode(locations[d])).value
  }
}
