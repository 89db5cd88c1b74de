/**
 * The network commands of the Node driver: the connection bitmask
 * (bit 0 airplane mode, bit 1 Wi-Fi, bit 2 mobile data), the bitmask setter
 * that only touches the radios whose state differs from the request, and
 * the per-service connectivity query and setter.
 *
 * The device is modelled as an object holding the three radio flags, its API
 * level, and the trace of setter calls the driver has issued to it.  Setters
 * change exactly the flag they name (an idealised device: turning airplane
 * mode on does not switch the other radios off behind the driver's back).
 */
module Network {
  import opened Wrappers
  import opened Text

  const AIRPLANE_MODE_MASK: nat := 1
  const WIFI_MASK: nat := 2
  const DATA_MASK: nat := 4
  const WIFI_KEY_NAME := "wifi"
  const DATA_KEY_NAME := "data"
  const AIRPLANE_MODE_KEY_NAME := "airplaneMode"
  const SUPPORTED_SERVICE_NAMES: seq<string> := [WIFI_KEY_NAME, DATA_KEY_NAME, AIRPLANE_MODE_KEY_NAME]

  // ---------------------------------------------------------------------
  // Bit operations on JavaScript numbers that hold integers
  // ---------------------------------------------------------------------

  /** Bit `k` of the two's complement form of `n` (what `(n & (1 << k)) !== 0` tests). */
  predicate HasBit(n: int, k: nat)
    decreases k
  {
    if k == 0 then n % 2 == 1 else HasBit(n / 2, k - 1)
  }

  /** `a | b` on non-negative integers. */
  function BitOr(a: nat, b: nat): nat
  {
    if a == 0 then b
    else if b == 0 then a
    else 2 * BitOr(a / 2, b / 2) + (if a % 2 == 1 || b % 2 == 1 then 1 else 0)
  }

  /** `~b & a` on non-negative integers. */
  function BitAndNot(a: nat, b: nat): nat
  {
    if a == 0 then 0
    else 2 * BitAndNot(a / 2, b / 2) + (if a % 2 == 1 && b % 2 == 0 then 1 else 0)
  }

  lemma {:induction false} BitOrBits(a: nat, b: nat, k: nat)
    ensures HasBit(BitOr(a, b), k) <==> HasBit(a, k) || HasBit(b, k)
    decreases k
  {
    if a == 0 || b == 0 {
      if k > 0 {
        assert a == 0 ==> HasBit(a, k) == HasBit(0, k - 1);
        assert b == 0 ==> HasBit(b, k) == HasBit(0, k - 1);
        ZeroHasNoBit(k - 1);
      }
    } else if k > 0 {
      var c := BitOr(a / 2, b / 2);
      assert BitOr(a, b) / 2 == c;
      BitOrBits(a / 2, b / 2, k - 1);
    }
  }

  lemma {:induction false} BitAndNotBits(a: nat, b: nat, k: nat)
    ensures HasBit(BitAndNot(a, b), k) <==> HasBit(a, k) && !HasBit(b, k)
    decreases k
  {
    if a == 0 {
      ZeroHasNoBit(k);
    } else if k > 0 {
      var c := BitAndNot(a / 2, b / 2);
      assert BitAndNot(a, b) / 2 == c;
      BitAndNotBits(a / 2, b / 2, k - 1);
    }
  }

  lemma {:induction false} ZeroHasNoBit(k: nat)
    ensures !HasBit(0, k)
    decreases k
  {
    if k > 0 {
      ZeroHasNoBit(k - 1);
    }
  }

  // ---------------------------------------------------------------------
  // Device state
  // ---------------------------------------------------------------------

  datatype Radios = Radios(airplaneMode: bool, wifi: bool, data: bool)

  /** A setter request the driver sends to the device. */
  datatype Call =
    | SetAirplaneMode(on: bool)
    | BroadcastAirplaneMode(on: bool)
    | SetWifiState(on: bool)
    | SetDataState(on: bool)

  /** The radio flags after one setter request. */
  function Apply(s: Radios, c: Call): (r: Radios)
    ensures c.SetAirplaneMode? ==> r == s.(airplaneMode := c.on)
    ensures c.BroadcastAirplaneMode? ==> r == s
    ensures c.SetWifiState? ==> r == s.(wifi := c.on)
    ensures c.SetDataState? ==> r == s.(data := c.on)
  {
    match c
    case SetAirplaneMode(on) => s.(airplaneMode := on)
    case BroadcastAirplaneMode(_) => s
    case SetWifiState(on) => s.(wifi := on)
    case SetDataState(on) => s.(data := on)
  }

  /** The radio flags after a sequence of setter requests, in order. */
  function Replay(s: Radios, calls: seq<Call>): Radios
    decreases |calls|
  {
    if calls == [] then s else Replay(Apply(s, calls[0]), calls[1..])
  }

  lemma {:induction false} ReplayConcat(s: Radios, a: seq<Call>, b: seq<Call>)
    ensures Replay(s, a + b) == Replay(Replay(s, a), b)
    decreases |a|
  {
    if a != [] {
      assert (a + b)[0] == a[0];
      assert (a + b)[1..] == a[1..] + b;
      ReplayConcat(Apply(s, a[0]), a[1..], b);
    } else {
      assert a + b == b;
    }
  }

  lemma ReplayOne(s: Radios, c: Call)
    ensures Replay(s, [c]) == Apply(s, c)
  {
    assert [c][1..] == [];
  }

  class Device {
    var radios: Radios
    const apiLevel: int
    /** Every setter request issued so far, oldest first. */
    var calls: seq<Call>

    constructor (radios: Radios, apiLevel: int)
      ensures this.radios == radios && this.apiLevel == apiLevel && calls == []
    {
      this.radios := radios;
      this.apiLevel := apiLevel;
      calls := [];
    }

    /** Sends one setter request: it is logged and the named flag takes the new value. */
    method Send(c: Call)
      modifies this
      ensures calls == old(calls) + [c]
      ensures radios == Apply(old(radios), c)
    {
      calls := calls + [c];
      radios := Apply(radios, c);
    }
  }

  /** The setter requests a device has received since a given point, and the state they lead to. */
  ghost predicate Issued(d: Device, before: seq<Call>, start: Radios, issued: seq<Call>)
    reads d
  {
    d.calls == before + issued && d.radios == Replay(start, issued)
  }

  /** Sets airplane mode, broadcasting the change below API level 30. */
  method SwitchAirplaneMode(d: Device, on: bool)
    modifies d
    ensures d.calls == old(d.calls) + AirplaneCalls(on, d.apiLevel)
    ensures d.radios == Replay(old(d.radios), AirplaneCalls(on, d.apiLevel))
  {
    ghost var s0 := d.radios;
    d.Send(SetAirplaneMode(on));
    ReplayOne(s0, SetAirplaneMode(on));
    if d.apiLevel < 30 {
      ghost var s1 := d.radios;
      d.Send(BroadcastAirplaneMode(on));
      ReplayOne(s1, BroadcastAirplaneMode(on));
      ReplayConcat(s0, [SetAirplaneMode(on)], [BroadcastAirplaneMode(on)]);
      assert [SetAirplaneMode(on)] + [BroadcastAirplaneMode(on)] == AirplaneCalls(on, d.apiLevel);
    }
  }

  /** The requests that change airplane mode: the setting, then a broadcast below API level 30. */
  function AirplaneCalls(on: bool, apiLevel: int): (r: seq<Call>)
    ensures SetAirplaneMode(on) in r && SetAirplaneMode(!on) !in r
    ensures BroadcastAirplaneMode(on) in r <==> apiLevel < 30
    ensures BroadcastAirplaneMode(!on) !in r
    ensures forall c :: c in r ==> !c.SetWifiState? && !c.SetDataState?
  {
    if apiLevel < 30 then [SetAirplaneMode(on), BroadcastAirplaneMode(on)] else [SetAirplaneMode(on)]
  }

  /** The airplane calls change only the airplane flag. */
  lemma AirplaneCallsState(s: Radios, on: bool, apiLevel: int)
    ensures Replay(s, AirplaneCalls(on, apiLevel)) == s.(airplaneMode := on)
  {
    ReplayOne(s, SetAirplaneMode(on));
    if apiLevel < 30 {
      ReplayOne(s.(airplaneMode := on), BroadcastAirplaneMode(on));
      ReplayConcat(s, [SetAirplaneMode(on)], [BroadcastAirplaneMode(on)]);
      assert [SetAirplaneMode(on)] + [BroadcastAirplaneMode(on)] == AirplaneCalls(on, apiLevel);
    }
  }

  // ---------------------------------------------------------------------
  // getNetworkConnection
  // ---------------------------------------------------------------------

  /**
   * The connection bitmask of a radio state: exactly 1 in airplane mode,
   * otherwise the Wi-Fi and data bits.
   */
  function Connection(s: Radios): (r: nat)
    ensures r < 8
    ensures HasBit(r, 0) == s.airplaneMode
    ensures HasBit(r, 1) == (!s.airplaneMode && s.wifi)
    ensures HasBit(r, 2) == (!s.airplaneMode && s.data)
    ensures s.airplaneMode ==> r == AIRPLANE_MODE_MASK
  {
    // the Wi-Fi and data masks are disjoint, so `|` adds them
    if s.airplaneMode then AIRPLANE_MODE_MASK
    else (if s.wifi then WIFI_MASK else 0) + (if s.data then DATA_MASK else 0)
  }

  /** Outside airplane mode the bitmask decodes back to the radio state. */
  lemma {:induction false} ConnectionRoundTrip(s: Radios)
    requires !s.airplaneMode
    ensures Decode(Connection(s)) == s
  {
  }

  /** Reads the bitmask from the device. */
  method GetNetworkConnection(d: Device) returns (connection: nat)
    ensures connection == Connection(d.radios)
  {
    var airplaneModeOn := d.radios.airplaneMode;
    connection := if airplaneModeOn then AIRPLANE_MODE_MASK else 0;
    if !airplaneModeOn {
      assert BitOr(0, 0) == 0 && BitOr(0, 2) == 2 && BitOr(0, 4) == 4 && BitOr(2, 0) == 2 && BitOr(2, 4) == 6;
      var wifiOn := d.radios.wifi;
      connection := BitOr(connection, if wifiOn then WIFI_MASK else 0);
      var dataOn := d.radios.data;
      connection := BitOr(connection, if dataOn then DATA_MASK else 0);
    }
  }

  // ---------------------------------------------------------------------
  // setNetworkConnection
  // ---------------------------------------------------------------------

  /** The requested bits: 1 airplane mode, 2 Wi-Fi, 4 data. */
  function Decode(n: int): (r: Radios)
    ensures r.airplaneMode == HasBit(n, 0) && r.wifi == HasBit(n, 1) && r.data == HasBit(n, 2)
  {
    Radios(HasBit(n, 0), HasBit(n, 1), HasBit(n, 2))
  }

  /** Wi-Fi and data already read as requested: the setter stops after the airplane step. */
  predicate RadiosMatch(want: Radios, seen: Radios)
  {
    want.wifi == seen.wifi && want.data == seen.data
  }

  /** The airplane step: a change only when the request differs from the observed flag. */
  function AirplaneStep(want: Radios, seen: Radios, apiLevel: int): seq<Call>
  {
    if want.airplaneMode != seen.airplaneMode then AirplaneCalls(want.airplaneMode, apiLevel) else []
  }

  /** The Wi-Fi and data steps, issued only when the two do not both match already. */
  function RadioSteps(want: Radios, seen: Radios): seq<Call>
  {
    if RadiosMatch(want, seen) then []
    else
      (if want.wifi != seen.wifi then [SetWifiState(want.wifi)] else [])
      + (if !want.airplaneMode && want.data != seen.data then [SetDataState(want.data)] else [])
  }

  /** Every request `setNetworkConnection(type)` sends, given the bitmask it read first. */
  function NetworkCalls(kind: int, current: nat, apiLevel: int): seq<Call>
  {
    AirplaneStep(Decode(kind), Decode(current), apiLevel) + RadioSteps(Decode(kind), Decode(current))
  }

  /**
   * The value returned by the early exit: the bitmask read first with the
   * airplane bit set or cleared according to the airplane flag read afterwards.
   */
  function EarlyResult(current: nat, airplaneNow: bool): nat
  {
    if airplaneNow then BitOr(AIRPLANE_MODE_MASK, current) else BitAndNot(current, AIRPLANE_MODE_MASK)
  }

  /** The early result keeps the Wi-Fi and data bits read and carries the airplane flag given. */
  lemma EarlyResultBits(current: nat, airplaneNow: bool)
    requires current < 8
    ensures EarlyResult(current, airplaneNow) < 8
    ensures HasBit(EarlyResult(current, airplaneNow), 0) == airplaneNow
    ensures HasBit(EarlyResult(current, airplaneNow), 1) == HasBit(current, 1)
    ensures HasBit(EarlyResult(current, airplaneNow), 2) == HasBit(current, 2)
  {
    BitOrBits(AIRPLANE_MODE_MASK, current, 0);
    BitOrBits(AIRPLANE_MODE_MASK, current, 1);
    BitOrBits(AIRPLANE_MODE_MASK, current, 2);
    BitAndNotBits(current, AIRPLANE_MODE_MASK, 0);
    BitAndNotBits(current, AIRPLANE_MODE_MASK, 1);
    BitAndNotBits(current, AIRPLANE_MODE_MASK, 2);
    if current == 0 {
    } else if current == 1 {
    } else if current == 2 {
    } else if current == 3 {
    } else if current == 4 {
    } else if current == 5 {
    } else if current == 6 {
    } else {
    }
  }

  /** The value `setNetworkConnection(type)` returns, from the state first read and the state it leaves. */
  function NetworkResult(kind: int, before: Radios, after: Radios): nat
  {
    var current := Connection(before);
    if RadiosMatch(Decode(kind), Decode(current)) then EarlyResult(current, after.airplaneMode)
    else Connection(after)
  }

  /**
   * Sets the radios from a bitmask, changing only what differs from the
   * bitmask read first, and returns the bitmask of the result.
   */
  method SetNetworkConnection(d: Device, kind: int) returns (r: nat)
    modifies d
    ensures d.calls == old(d.calls) + NetworkCalls(kind, Connection(old(d.radios)), d.apiLevel)
    ensures d.radios == Replay(old(d.radios), NetworkCalls(kind, Connection(old(d.radios)), d.apiLevel))
    ensures r == NetworkResult(kind, old(d.radios), d.radios)
  {
    var shouldEnableAirplaneMode := HasBit(kind, 0);
    var shouldEnableWifi := HasBit(kind, 1);
    var shouldEnableDataConnection := HasBit(kind, 2);

    ghost var before := d.calls;
    ghost var start := d.radios;
    var currentState := GetNetworkConnection(d);
    var isAirplaneModeEnabled := HasBit(currentState, 0);
    var isWiFiEnabled := HasBit(currentState, 1);
    var isDataEnabled := HasBit(currentState, 2);
    var want := Radios(shouldEnableAirplaneMode, shouldEnableWifi, shouldEnableDataConnection);
    var seen := Radios(isAirplaneModeEnabled, isWiFiEnabled, isDataEnabled);

    if shouldEnableAirplaneMode != isAirplaneModeEnabled {
      SwitchAirplaneMode(d, shouldEnableAirplaneMode);
    }
    ghost var airplane := AirplaneStep(want, seen, d.apiLevel);
    assert Issued(d, before, start, airplane);

    if shouldEnableWifi == isWiFiEnabled && shouldEnableDataConnection == isDataEnabled {
      assert airplane + [] == airplane;
      if d.radios.airplaneMode {
        return BitOr(AIRPLANE_MODE_MASK, currentState);
      }
      return BitAndNot(currentState, AIRPLANE_MODE_MASK);
    }

    SetRadios(d, want, seen);
    ReplayConcat(start, airplane, RadioSteps(want, seen));
    r := GetNetworkConnection(d);
  }

  /** The Wi-Fi and data steps of the bitmask setter, once they do not both match. */
  method SetRadios(d: Device, want: Radios, seen: Radios)
    requires !RadiosMatch(want, seen)
    modifies d
    ensures d.calls == old(d.calls) + RadioSteps(want, seen)
    ensures d.radios == Replay(old(d.radios), RadioSteps(want, seen))
  {
    ghost var before := d.calls;
    ghost var start := d.radios;
    ghost var wifiStep: seq<Call> := [];
    if want.wifi != seen.wifi {
      d.Send(SetWifiState(want.wifi));
      wifiStep := [SetWifiState(want.wifi)];
      ReplayOne(start, SetWifiState(want.wifi));
    }
    assert Issued(d, before, start, wifiStep);
    ghost var dataStep: seq<Call> := [];
    if want.airplaneMode {
    } else if want.data == seen.data {
    } else {
      ghost var s := d.radios;
      d.Send(SetDataState(want.data));
      dataStep := [SetDataState(want.data)];
      ReplayOne(s, SetDataState(want.data));
      ReplayConcat(start, wifiStep, dataStep);
    }
    assert wifiStep + dataStep == RadioSteps(want, seen);
  }

  /** Airplane mode is requested to change exactly when the request differs from the bitmask read. */
  lemma AirplaneChangedOnlyWhenDiffers(kind: int, current: nat, apiLevel: int)
    ensures SetAirplaneMode(HasBit(kind, 0)) in NetworkCalls(kind, current, apiLevel)
            <==> HasBit(kind, 0) != HasBit(current, 0)
    ensures SetAirplaneMode(!HasBit(kind, 0)) !in NetworkCalls(kind, current, apiLevel)
    ensures BroadcastAirplaneMode(HasBit(kind, 0)) in NetworkCalls(kind, current, apiLevel)
            <==> HasBit(kind, 0) != HasBit(current, 0) && apiLevel < 30
  {
  }

  /** Wi-Fi is requested to change exactly when the requested bit differs from the bit read. */
  lemma WifiToggledOnlyWhenDiffers(kind: int, current: nat, apiLevel: int)
    ensures SetWifiState(HasBit(kind, 1)) in NetworkCalls(kind, current, apiLevel)
            <==> HasBit(kind, 1) != HasBit(current, 1)
    ensures SetWifiState(!HasBit(kind, 1)) !in NetworkCalls(kind, current, apiLevel)
  {
  }

  /**
   * Data is left alone when airplane mode is requested, and otherwise is
   * requested to change exactly when the requested bit differs from the bit read.
   */
  lemma DataToggledOnlyWhenDiffers(kind: int, current: nat, apiLevel: int)
    ensures SetDataState(HasBit(kind, 2)) in NetworkCalls(kind, current, apiLevel)
            <==> !HasBit(kind, 0) && HasBit(kind, 2) != HasBit(current, 2)
    ensures SetDataState(!HasBit(kind, 2)) !in NetworkCalls(kind, current, apiLevel)
  {
  }

  /**
   * When Wi-Fi and data already match, the result keeps their bits from the
   * bitmask read first and carries the airplane flag the device reports.
   */
  lemma EarlyExitResult(kind: int, before: Radios, after: Radios)
    requires RadiosMatch(Decode(kind), Decode(Connection(before)))
    ensures HasBit(NetworkResult(kind, before, after), 0) == after.airplaneMode
    ensures HasBit(NetworkResult(kind, before, after), 1) == HasBit(kind, 1)
    ensures HasBit(NetworkResult(kind, before, after), 2) == HasBit(kind, 2)
  {
    EarlyResultBits(Connection(before), after.airplaneMode);
  }

  /** Starting outside airplane mode, a request without airplane mode ends in exactly the requested radios. */
  lemma RequestReached(kind: int, before: Radios, apiLevel: int)
    requires !before.airplaneMode && !HasBit(kind, 0)
    ensures Replay(before, NetworkCalls(kind, Connection(before), apiLevel)) == Decode(kind)
    ensures NetworkResult(kind, before, Decode(kind)) == Connection(Decode(kind))
  {
    var want := Decode(kind);
    var calls := NetworkCalls(kind, Connection(before), apiLevel);
    ConnectionRoundTrip(before);
    assert AirplaneStep(want, before, apiLevel) == [];
    var w := if want.wifi != before.wifi then [SetWifiState(want.wifi)] else [];
    var dt := if want.data != before.data then [SetDataState(want.data)] else [];
    if RadiosMatch(want, before) {
      assert calls == [];
      assert before == want;
    } else {
      assert calls == w + dt;
      ReplayConcat(before, w, dt);
      if w != [] { ReplayOne(before, w[0]); }
      if dt != [] { ReplayOne(Replay(before, w), dt[0]); }
    }
  }

  /** A request for airplane mode ends in airplane mode, and reports bit 0 set. */
  lemma AirplaneRequestReached(kind: int, before: Radios, apiLevel: int)
    requires HasBit(kind, 0)
    ensures Replay(before, NetworkCalls(kind, Connection(before), apiLevel)).airplaneMode
    ensures HasBit(NetworkResult(kind, before, Replay(before, NetworkCalls(kind, Connection(before), apiLevel))), 0)
  {
    var want := Decode(kind);
    var seen := Decode(Connection(before));
    var a := AirplaneStep(want, seen, apiLevel);
    var rest := RadioSteps(want, seen);
    ReplayConcat(before, a, rest);
    if a != [] {
      AirplaneCallsState(before, true, apiLevel);
    }
    assert Replay(before, a).airplaneMode;
    RadioStepsKeepAirplane(Replay(before, a), want, seen);
  }

  lemma RadioStepsKeepAirplane(s: Radios, want: Radios, seen: Radios)
    ensures Replay(s, RadioSteps(want, seen)).airplaneMode == s.airplaneMode
  {
    var w := if want.wifi != seen.wifi then [SetWifiState(want.wifi)] else [];
    var dt := if !want.airplaneMode && want.data != seen.data then [SetDataState(want.data)] else [];
    if !RadiosMatch(want, seen) {
      ReplayConcat(s, w, dt);
      if w != [] { ReplayOne(s, w[0]); }
      if dt != [] { ReplayOne(Replay(s, w), dt[0]); }
    }
  }

  // ---------------------------------------------------------------------
  // mobileGetConnectivity
  // ---------------------------------------------------------------------

  /** The `services` argument: left out, one name, or a list of names. */
  datatype Services = AllServices | OneService(name: string) | ServiceList(names: seq<string>)

  /** The services argument as a list (the default is every supported service). */
  function CastArray(services: Services): (r: seq<string>)
    ensures services.AllServices? ==> r == SUPPORTED_SERVICE_NAMES
    ensures services.OneService? ==> r == [services.name]
    ensures services.ServiceList? ==> r == services.names
  {
    match services
    case AllServices => SUPPORTED_SERVICE_NAMES
    case OneService(name) => [name]
    case ServiceList(names) => names
  }

  /** The names in `svcs` that are not supported, in order, duplicates kept. */
  function Unsupported(svcs: seq<string>): (r: seq<string>)
    ensures forall x :: x in r <==> x in svcs && x !in SUPPORTED_SERVICE_NAMES
    ensures |r| <= |svcs|
  {
    if svcs == [] then []
    else (if svcs[0] in SUPPORTED_SERVICE_NAMES then [] else [svcs[0]]) + Unsupported(svcs[1..])
  }

  /** The message for unknown service names, singular or plural. */
  function UnknownServicesMessage(unsupported: seq<string>): string
  {
    (if |unsupported| == 1 then "Service name " else "Service names ")
    + JoinWith(unsupported, ',')
    + (if |unsupported| == 1 then " is not known" else " are not known")
    + ". Only the following services are suported: "
    + JoinWith(SUPPORTED_SERVICE_NAMES, ',')
  }

  datatype InvalidArgumentError = InvalidArgumentError(message: string)

  /** The result of a connectivity query: a flag for each requested service only. */
  datatype Connectivity = Connectivity(wifi: Option<bool>, data: Option<bool>, airplaneMode: Option<bool>)

  function Flag(svcs: seq<string>, key: string, on: bool): Option<bool>
  {
    if key in svcs then Some(on) else None
  }

  /** The connectivity query against a radio state. */
  function QueryConnectivity(services: Services, s: Radios): (r: Result<Connectivity, InvalidArgumentError>)
    ensures r.Err? <==> exists x :: x in CastArray(services) && x !in SUPPORTED_SERVICE_NAMES
    ensures r.Err? ==> r.error.message == UnknownServicesMessage(Unsupported(CastArray(services)))
    ensures r.Ok? ==> (r.value.wifi.Some? <==> WIFI_KEY_NAME in CastArray(services))
    ensures r.Ok? ==> (r.value.data.Some? <==> DATA_KEY_NAME in CastArray(services))
    ensures r.Ok? ==> (r.value.airplaneMode.Some? <==> AIRPLANE_MODE_KEY_NAME in CastArray(services))
    ensures r.Ok? ==> r.value.wifi.GetOr(s.wifi) == s.wifi && r.value.data.GetOr(s.data) == s.data
    ensures r.Ok? ==> r.value.airplaneMode.GetOr(s.airplaneMode) == s.airplaneMode
  {
    var svcs := CastArray(services);
    var unsupported := Unsupported(svcs);
    if unsupported != [] then
      assert unsupported[0] in unsupported;
      Err(InvalidArgumentError(UnknownServicesMessage(unsupported)))
    else
      Ok(Connectivity(Flag(svcs, WIFI_KEY_NAME, s.wifi), Flag(svcs, DATA_KEY_NAME, s.data),
                      Flag(svcs, AIRPLANE_MODE_KEY_NAME, s.airplaneMode)))
  }

  /** Reads the requested services from the device. */
  method MobileGetConnectivity(d: Device, services: Services) returns (r: Result<Connectivity, InvalidArgumentError>)
    ensures r == QueryConnectivity(services, d.radios)
  {
    var svcs := CastArray(services);
    var unsupported := Unsupported(svcs);
    if unsupported != [] {
      return Err(InvalidArgumentError(UnknownServicesMessage(unsupported)));
    }
    var wifi := if WIFI_KEY_NAME in svcs then Some(d.radios.wifi) else None;
    var data := if DATA_KEY_NAME in svcs then Some(d.radios.data) else None;
    var airplaneMode := if AIRPLANE_MODE_KEY_NAME in svcs then Some(d.radios.airplaneMode) else None;
    return Ok(Connectivity(wifi, data, airplaneMode));
  }

  /** A single requested name is refused exactly when it is not wifi, data or airplaneMode, with the singular message. */
  lemma OneUnknownService(name: string, s: Radios)
    requires name !in SUPPORTED_SERVICE_NAMES
    ensures QueryConnectivity(OneService(name), s)
            == Err(InvalidArgumentError("Service name " + name + " is not known"
                                        + ". Only the following services are suported: " + "wifi,data,airplaneMode"))
  {
    assert [name][1..] == [];
    assert Unsupported([name]) == [name];
    JoinSingle(name);
    JoinSupported();
  }

  lemma JoinSingle(x: string)
    ensures JoinWith([x], ',') == x
  {
  }

  lemma JoinSupported()
    ensures JoinWith(SUPPORTED_SERVICE_NAMES, ',') == "wifi,data,airplaneMode"
  {
    var t := SUPPORTED_SERVICE_NAMES;
    assert t[1..] == [DATA_KEY_NAME, AIRPLANE_MODE_KEY_NAME];
    assert t[1..][1..] == [AIRPLANE_MODE_KEY_NAME];
    assert JoinWith(t[1..], ',') == DATA_KEY_NAME + "," + AIRPLANE_MODE_KEY_NAME;
  }

  /** The default query reports all three flags. */
  lemma DefaultQueryReportsAll(s: Radios)
    ensures QueryConnectivity(AllServices, s) == Ok(Connectivity(Some(s.wifi), Some(s.data), Some(s.airplaneMode)))
  {
  }

  // ---------------------------------------------------------------------
  // mobileSetConnectivity
  // ---------------------------------------------------------------------

  const NO_SERVICE_MESSAGE := "Either one of [\"wifi\",\"data\",\"airplaneMode\"] options must be provided"

  /** The services named by the arguments that were given, in the order wifi, data, airplaneMode. */
  function GivenServices(wifi: Option<bool>, data: Option<bool>, airplaneMode: Option<bool>): (r: seq<string>)
    ensures WIFI_KEY_NAME in r <==> wifi.Some?
    ensures DATA_KEY_NAME in r <==> data.Some?
    ensures AIRPLANE_MODE_KEY_NAME in r <==> airplaneMode.Some?
    ensures forall x :: x in r ==> x in SUPPORTED_SERVICE_NAMES
  {
    (if wifi.Some? then [WIFI_KEY_NAME] else [])
    + (if data.Some? then [DATA_KEY_NAME] else [])
    + (if airplaneMode.Some? then [AIRPLANE_MODE_KEY_NAME] else [])
  }

  /** True when the argument was given and differs from the flag the query reported. */
  predicate Differs(arg: Option<bool>, seen: Option<bool>)
  {
    arg.Some? && seen != Some(arg.value)
  }

  /**
   * The requests `mobileSetConnectivity` sends as the code is written: the
   * Wi-Fi and data promises start as soon as they are created, but the
   * airplane-mode setter is a function placed in the list handed to
   * `B.all`, which resolves it as a plain value without calling it.
   */
  function SetConnectivityCallsAsWritten(wifi: Option<bool>, data: Option<bool>, airplaneMode: Option<bool>,
                                         seen: Connectivity, apiLevel: int): (r: seq<Call>)
    ensures forall c :: c in r ==> c.SetWifiState? || c.SetDataState?
    ensures forall on :: SetWifiState(on) in r <==> Differs(wifi, seen.wifi) && on == wifi.value
    ensures forall on :: SetDataState(on) in r <==> Differs(data, seen.data) && on == data.value
  {
    (if Differs(wifi, seen.wifi) then [SetWifiState(wifi.value)] else [])
    + (if Differs(data, seen.data) then [SetDataState(data.value)] else [])
  }

  /** As written, a request to change only airplane mode sends nothing. */
  lemma AirplaneRequestIgnored()
    ensures SetConnectivityCallsAsWritten(None, None, Some(true), Connectivity(None, None, Some(false)), 29) == []
    ensures Replay(Radios(false, false, false),
                   SetConnectivityCallsAsWritten(None, None, Some(true), Connectivity(None, None, Some(false)), 29)).airplaneMode == false
  {
  }

  /** The requests `mobileSetConnectivity` is meant to send: every given flag that differs, airplane mode included. */
  function SetConnectivityCalls(wifi: Option<bool>, data: Option<bool>, airplaneMode: Option<bool>,
                                seen: Connectivity, apiLevel: int): (r: seq<Call>)
    ensures forall on :: SetAirplaneMode(on) in r <==> Differs(airplaneMode, seen.airplaneMode) && on == airplaneMode.value
    ensures forall on :: SetWifiState(on) in r <==> Differs(wifi, seen.wifi) && on == wifi.value
    ensures forall on :: SetDataState(on) in r <==> Differs(data, seen.data) && on == data.value
  {
    SetConnectivityCallsAsWritten(wifi, data, airplaneMode, seen, apiLevel)
    + (if Differs(airplaneMode, seen.airplaneMode) then AirplaneCalls(airplaneMode.value, apiLevel) else [])
  }

  /** What the query for the given services reports: the given flags only. */
  function Seen(wifi: Option<bool>, data: Option<bool>, airplaneMode: Option<bool>, s: Radios): Connectivity
  {
    Connectivity(if wifi.Some? then Some(s.wifi) else None,
                 if data.Some? then Some(s.data) else None,
                 if airplaneMode.Some? then Some(s.airplaneMode) else None)
  }

  /** The setter's own query never fails: it asks only for the services given. */
  lemma GivenServicesQuery(wifi: Option<bool>, data: Option<bool>, airplaneMode: Option<bool>, s: Radios)
    ensures QueryConnectivity(ServiceList(GivenServices(wifi, data, airplaneMode)), s) == Ok(Seen(wifi, data, airplaneMode, s))
  {
    var r := QueryConnectivity(ServiceList(GivenServices(wifi, data, airplaneMode)), s);
    assert r.Ok?;
  }

  /**
   * Sets the given services, leaving the others alone; fails when no
   * service is given.
   */
  method MobileSetConnectivity(d: Device, wifi: Option<bool>, data: Option<bool>, airplaneMode: Option<bool>)
    returns (r: Result<(), InvalidArgumentError>)
    modifies d
    ensures wifi.None? && data.None? && airplaneMode.None? ==> r == Err(InvalidArgumentError(NO_SERVICE_MESSAGE)) && unchanged(d)
    ensures !(wifi.None? && data.None? && airplaneMode.None?) ==> r.Ok?
    ensures !(wifi.None? && data.None? && airplaneMode.None?) ==>
              d.calls == old(d.calls) + SetConnectivityCalls(wifi, data, airplaneMode, Seen(wifi, data, airplaneMode, old(d.radios)), d.apiLevel)
    ensures !(wifi.None? && data.None? && airplaneMode.None?) ==>
              d.radios == Replay(old(d.radios), SetConnectivityCalls(wifi, data, airplaneMode, Seen(wifi, data, airplaneMode, old(d.radios)), d.apiLevel))
  {
    if wifi.None? && data.None? && airplaneMode.None? {
      return Err(InvalidArgumentError(NO_SERVICE_MESSAGE));
    }
    var services := GivenServices(wifi, data, airplaneMode);
    var currentState := MobileGetConnectivity(d, ServiceList(services));
    GivenServicesQuery(wifi, data, airplaneMode, d.radios);
    var seen := currentState.value;
    SetDiffering(d, wifi, data, airplaneMode, seen);
    return Ok(());
  }

  /** Sends the setter requests for every given flag that differs from what was seen. */
  method SetDiffering(d: Device, wifi: Option<bool>, data: Option<bool>, airplaneMode: Option<bool>, seen: Connectivity)
    modifies d
    ensures d.calls == old(d.calls) + SetConnectivityCalls(wifi, data, airplaneMode, seen, d.apiLevel)
    ensures d.radios == Replay(old(d.radios), SetConnectivityCalls(wifi, data, airplaneMode, seen, d.apiLevel))
  {
    ghost var start := d.radios;
    SetWifiAndData(d, wifi, data, seen);
    ghost var w := SetConnectivityCallsAsWritten(wifi, data, None, seen, d.apiLevel);
    CallsSplit(wifi, data, airplaneMode, seen, d.apiLevel);
    if Differs(airplaneMode, seen.airplaneMode) {
      SwitchAirplaneMode(d, airplaneMode.value);
      ReplayConcat(start, w, AirplaneCalls(airplaneMode.value, d.apiLevel));
    }
  }

  /** The meant requests are those sent as written, then the airplane-mode requests when that flag differs. */
  lemma CallsSplit(wifi: Option<bool>, data: Option<bool>, airplaneMode: Option<bool>, seen: Connectivity, apiLevel: int)
    ensures Differs(airplaneMode, seen.airplaneMode) ==>
      SetConnectivityCalls(wifi, data, airplaneMode, seen, apiLevel)
      == SetConnectivityCallsAsWritten(wifi, data, None, seen, apiLevel) + AirplaneCalls(airplaneMode.value, apiLevel)
    ensures !Differs(airplaneMode, seen.airplaneMode) ==>
      SetConnectivityCalls(wifi, data, airplaneMode, seen, apiLevel) == SetConnectivityCallsAsWritten(wifi, data, None, seen, apiLevel)
  {
    assert SetConnectivityCallsAsWritten(wifi, data, None, seen, apiLevel)
        == SetConnectivityCallsAsWritten(wifi, data, airplaneMode, seen, apiLevel);
    if !Differs(airplaneMode, seen.airplaneMode) {
      assert SetConnectivityCallsAsWritten(wifi, data, airplaneMode, seen, apiLevel) + [] ==
        SetConnectivityCallsAsWritten(wifi, data, airplaneMode, seen, apiLevel);
    }
  }

  /** The Wi-Fi and data requests, started as soon as they are created. */
  method SetWifiAndData(d: Device, wifi: Option<bool>, data: Option<bool>, seen: Connectivity)
    modifies d
    ensures d.calls == old(d.calls) + SetConnectivityCallsAsWritten(wifi, data, None, seen, d.apiLevel)
    ensures d.radios == Replay(old(d.radios), SetConnectivityCallsAsWritten(wifi, data, None, seen, d.apiLevel))
  {
    ghost var start := d.radios;
    ghost var before := d.calls;
    ghost var w: seq<Call> := [];
    if Differs(wifi, seen.wifi) {
      d.Send(SetWifiState(wifi.value));
      w := [SetWifiState(wifi.value)];
      ReplayOne(start, w[0]);
    }
    assert Issued(d, before, start, w);
    ghost var dt: seq<Call> := [];
    if Differs(data, seen.data) {
      ghost var s := d.radios;
      d.Send(SetDataState(data.value));
      dt := [SetDataState(data.value)];
      ReplayOne(s, dt[0]);
      ReplayConcat(start, w, dt);
    }
    assert Issued(d, before, start, w + dt);
    assert w + dt == SetConnectivityCallsAsWritten(wifi, data, None, seen, d.apiLevel);
  }

  /** After the corrected setter every given flag holds its requested value and the others are unchanged. */
  lemma SetConnectivityReached(wifi: Option<bool>, data: Option<bool>, airplaneMode: Option<bool>, before: Radios, apiLevel: int)
    ensures var after := Replay(before, SetConnectivityCalls(wifi, data, airplaneMode, Seen(wifi, data, airplaneMode, before), apiLevel));
            after.wifi == wifi.GetOr(before.wifi) && after.data == data.GetOr(before.data)
            && after.airplaneMode == airplaneMode.GetOr(before.airplaneMode)
  {
    var seen := Seen(wifi, data, airplaneMode, before);
    var w := SetConnectivityCallsAsWritten(wifi, data, airplaneMode, seen, apiLevel);
    var a := if Differs(airplaneMode, seen.airplaneMode) then AirplaneCalls(airplaneMode.value, apiLevel) else [];
    assert SetConnectivityCalls(wifi, data, airplaneMode, seen, apiLevel) == w + a;
    ReplayConcat(before, w, a);
    WrittenCallsReached(wifi, data, airplaneMode, before, apiLevel);
    if a != [] {
      AirplaneCallsState(Replay(before, w), airplaneMode.value, apiLevel);
    }
  }

  /** The requests as written reach the Wi-Fi and data flags asked for, and leave airplane mode as it was. */
  lemma WrittenCallsReached(wifi: Option<bool>, data: Option<bool>, airplaneMode: Option<bool>, before: Radios, apiLevel: int)
    ensures var after := Replay(before, SetConnectivityCallsAsWritten(wifi, data, airplaneMode, Seen(wifi, data, airplaneMode, before), apiLevel));
            after.wifi == wifi.GetOr(before.wifi) && after.data == data.GetOr(before.data)
            && after.airplaneMode == before.airplaneMode
  {
    var seen := Seen(wifi, data, airplaneMode, before);
    var w := if Differs(wifi, seen.wifi) then [SetWifiState(wifi.value)] else [];
    var dt := if Differs(data, seen.data) then [SetDataState(data.value)] else [];
    assert SetConnectivityCallsAsWritten(wifi, data, airplaneMode, seen, apiLevel) == w + dt;
    ReplayConcat(before, w, dt);
    if w != [] { ReplayOne(before, w[0]); }
    if dt != [] { ReplayOne(Replay(before, w), dt[0]); }
  }

  // ---------------------------------------------------------------------
  // Toggles
  // ---------------------------------------------------------------------

  /** Flips mobile data. */
  method ToggleData(d: Device)
    modifies d
    ensures d.calls == old(d.calls) + [SetDataState(!old(d.radios.data))]
    ensures d.radios == old(d.radios).(data := !old(d.radios.data))
  {
    var isOn := d.radios.data;
    d.Send(SetDataState(!isOn));
  }

  /** Flips Wi-Fi. */
  method ToggleWiFi(d: Device)
    modifies d
    ensures d.calls == old(d.calls) + [SetWifiState(!old(d.radios.wifi))]
    ensures d.radios == old(d.radios).(wifi := !old(d.radios.wifi))
  {
    var isOn := d.radios.wifi;
    d.Send(SetWifiState(!isOn));
  }

  /** Flips airplane mode, broadcasting the change below API level 30. */
  method ToggleFlightMode(d: Device)
    modifies d
    ensures d.calls == old(d.calls) + AirplaneCalls(!old(d.radios.airplaneMode), d.apiLevel)
    ensures d.radios == old(d.radios).(airplaneMode := !old(d.radios.airplaneMode))
  {
    var flightMode := !d.radios.airplaneMode;
    SwitchAirplaneMode(d, flightMode);
    AirplaneCallsState(old(d.radios), flightMode, d.apiLevel);
  }
}
