/** Device-ordinal resolution in the HTTP handlers. A handler fetches the
    roster (distinct device ids, ordered descending) as a dictionary from
    position to id, guards the caller's ordinal, and then indexes the
    dictionary. */
module Roster {
  import opened Wrappers

  /** Code-point lexicographic order on device ids: `a` sorts before `b`. */
  predicate Below(a: string, b: string)
    decreases |a|
  {
    if |a| == 0 then |b| > 0
    else if |b| == 0 then false
    else if a[0] < b[0] then true
    else a[0] == b[0] && Below(a[1..], b[1..])
  }

  lemma {:induction false} BelowIrreflexive(a: string)
    ensures !Below(a, a)
    decreases |a|
  {
    if |a| > 0 {
      BelowIrreflexive(a[1..]);
    }
  }

  /** What the `/devices` query yields: strictly descending ids. */
  ghost predicate IsRoster(roster: seq<string>) {
    forall i, j :: 0 <= i < j < |roster| ==> Below(roster[j], roster[i])
  }

  lemma RosterIsDistinct(roster: seq<string>)
    requires IsRoster(roster)
    ensures forall i, j :: 0 <= i < j < |roster| ==> roster[i] != roster[j]
  {
    forall i, j | 0 <= i < j < |roster|
      ensures roster[i] != roster[j]
    {
      BelowIrreflexive(roster[i]);
    }
  }

  /** The dictionary keys `0 .. n-1`. */
  function Positions(n: nat): (s: set<int>)
    ensures forall i :: i in s <==> 0 <= i < n
    ensures |s| == n
  {
    if n == 0 then {} else Positions(n - 1) + {n - 1}
  }

  /** The position-to-id dictionary every ordinal endpoint and `/devices`
      itself work from; its `Count()` is the roster length. */
  function DeviceDictionary(roster: seq<string>): (devices: map<int, string>)
    ensures devices.Keys == Positions(|roster|)
    ensures |devices| == |roster|
    ensures forall i :: 0 <= i < |roster| ==> devices[i] == roster[i]
  {
    map i | i in Positions(|roster|) :: roster[i]
  }

  /** What makes a handler throw instead of answering. */
  datatype Fault =
    | KeyNotFound(ordinal: int)
    | DeviceWithoutLocation(device: string)
    | IndexOutOfRange

  /** The dictionary indexer: a missing key throws. */
  function Lookup(devices: map<int, string>, ordinal: int): (r: Result<string, Fault>)
    ensures r.Success? <==> ordinal in devices
    ensures r.Success? ==> r.value == devices[ordinal]
    ensures r.Failure? ==> r.error == KeyNotFound(ordinal)
  {
    if ordinal in devices then Success(devices[ordinal]) else Failure(KeyNotFound(ordinal))
  }

  /** The four handlers that take an ordinal. */
  datatype Endpoint =
    DeviceDataEndpoint | DeviceLocationEndpoint | AverageTempEndpoint | DeviceLatestEndpoint

  /** The out-of-bounds guard as written: `>` against the count, and for the
      location endpoint also an empty roster. */
  predicate GuardRejects(endpoint: Endpoint, count: nat, ordinal: int) {
    if endpoint == DeviceLocationEndpoint then ordinal > count || count == 0
    else ordinal > count
  }

  /** A handler's resolution as written: `Success(None)` is the empty answer,
      `Success(Some(d))` continues with device `d`, `Failure` is the exception
      the lookup throws. The guard's gap: the lookup throws exactly for the
      ordinal equal to the roster length and for negative ordinals (except
      where the location endpoint's empty-roster test already answers);
      wherever it does not throw, it agrees with `Resolve`. */
  function ResolveAsWritten(endpoint: Endpoint, roster: seq<string>, ordinal: int)
    : (r: Result<Option<string>, Fault>)
    ensures r.Failure? <==>
              (ordinal < 0 || ordinal == |roster|) &&
              !(endpoint == DeviceLocationEndpoint && |roster| == 0)
    ensures r.Failure? ==> r.error == KeyNotFound(ordinal)
    ensures r.Success? ==> r.value == Resolve(roster, ordinal)
  {
    var devices := DeviceDictionary(roster);
    if GuardRejects(endpoint, |devices|, ordinal) then Success(None)
    else
      var device :- Lookup(devices, ordinal);
      Success(Some(device))
  }

  /** A concrete case: with two devices, ordinals 2 and -1 reach the lookup. */
  lemma GuardLetsCountThrough()
    ensures ResolveAsWritten(DeviceDataEndpoint, ["lht-1", "lht-0"], 2) == Failure(KeyNotFound(2))
    ensures ResolveAsWritten(AverageTempEndpoint, ["lht-1", "lht-0"], -1) == Failure(KeyNotFound(-1))
    ensures ResolveAsWritten(DeviceLatestEndpoint, ["lht-1", "lht-0"], 3) == Success(None)
  {
  }

  /** The intended resolution: an in-range ordinal names its device, every
      other ordinal (negative, equal to or past the count, or any ordinal on an
      empty roster) is out of range and answers empty. */
  function Resolve(roster: seq<string>, ordinal: int): (r: Option<string>)
    ensures r.Some? <==> 0 <= ordinal < |roster|
    ensures r.Some? ==> r.value == roster[ordinal]
  {
    if 0 <= ordinal < |roster| then Some(roster[ordinal]) else None
  }

  /** Every ordinal endpoint names the device `/devices` lists at that
      position, and on a genuine roster that device sits at no other
      position: the ordinal and the id determine each other. */
  lemma ResolveNamesUniqueDevice(roster: seq<string>, ordinal: int)
    requires IsRoster(roster)
    requires Resolve(roster, ordinal).Some?
    ensures DeviceDictionary(roster)[ordinal] == Resolve(roster, ordinal).value
    ensures forall j :: 0 <= j < |roster| && roster[j] == Resolve(roster, ordinal).value ==> j == ordinal
  {
    RosterIsDistinct(roster);
  }
}
