/** The host's WebUSB facility (`navigator.usb` and `USBDevice`) as far as the driver
    uses it. The host's calls resolve or reject nondeterministically: the bodies pick
    an outcome with `*`, so the driver is verified against every outcome. */
module WebUsb {
  import opened Wrappers
  import opened Bytes

  datatype Direction = In | Out
  datatype Endpoint = Endpoint(endpointNumber: nat, direction: Direction)
  datatype AlternateInterface = AlternateInterface(endpoints: seq<Endpoint>)
  datatype UsbInterface = UsbInterface(alternates: seq<AlternateInterface>)
  datatype Configuration = Configuration(configurationValue: nat, interfaces: seq<UsbInterface>)

  datatype TransferStatus = Ok | Stall
  datatype TransferResult = TransferResult(bytesWritten: nat, status: TransferStatus)

  /** What the driver's calls fail with. */
  datatype Error =
    | HostRejected      // a host call rejected: requestDevice (user cancelled), getDevices,
                        // open, selectConfiguration, claimInterface or transferOut
    | NoDeviceSelected  // requestDevice resolved with no device
    | NoOutEndpoint     // no 'out' endpoint in interfaces[0].alternates[0]
    | NoAlternate       // interfaces[0] has no alternates[0]: reading its endpoints throws
    | NotConnected      // no device, or a falsy endpoint number

  /** One handshake call as the device saw it: which call, its argument, and whether it resolved. */
  datatype DeviceCall =
    | OpenCall(resolved: bool)
    | SelectConfigurationCall(configurationValue: nat, resolved: bool)
    | ClaimInterfaceCall(interfaceNumber: nat, resolved: bool)

  /** One `transferOut` call as the device saw it: endpoint, bytes, and whether the call resolved. */
  datatype Transfer = Transfer(endpointNumber: nat, data: seq<byte>, resolved: bool)

  /** `Array.prototype.find`, as an index: the first element that satisfies `p`. */
  function Find<T>(s: seq<T>, p: T -> bool): (r: Option<nat>)
    ensures r.Some? ==> r.value < |s| && p(s[r.value]) && forall j :: 0 <= j < r.value ==> !p(s[j])
    ensures r.None? ==> forall j :: 0 <= j < |s| ==> !p(s[j])
  {
    if s == [] then None
    else if p(s[0]) then Some(0)
    else match Find(s[1..], p)
      case None => None
      case Some(i) => Some(i + 1)
  }

  predicate IsOut(e: Endpoint)
  {
    e.direction == Out
  }

  /** `configuration?.interfaces[0]?.alternates[0].endpoints.find(e => e.direction === 'out')`,
      then its `endpointNumber`; a missing configuration or interface gives no endpoint, a
      missing alternate throws. */
  function OutEndpoint(configuration: Option<Configuration>): (r: Result<nat, Error>)
    ensures r.Success? <==>
      && configuration.Some?
      && |configuration.value.interfaces| > 0
      && |configuration.value.interfaces[0].alternates| > 0
      && exists j :: 0 <= j < |configuration.value.interfaces[0].alternates[0].endpoints|
           && IsOut(configuration.value.interfaces[0].alternates[0].endpoints[j])
    ensures r == Failure(NoAlternate) <==>
      && configuration.Some?
      && |configuration.value.interfaces| > 0
      && |configuration.value.interfaces[0].alternates| == 0
    ensures r.Failure? ==> r.error == NoOutEndpoint || r.error == NoAlternate
    ensures r.Success? ==>
      var eps := configuration.value.interfaces[0].alternates[0].endpoints;
      exists j :: 0 <= j < |eps| && IsOut(eps[j]) && eps[j].endpointNumber == r.value
        && forall i :: 0 <= i < j ==> !IsOut(eps[i])
  {
    match configuration
    case None => Failure(NoOutEndpoint)
    case Some(c) =>
      if |c.interfaces| == 0 then Failure(NoOutEndpoint)
      else if |c.interfaces[0].alternates| == 0 then Failure(NoAlternate)
      else
        var eps := c.interfaces[0].alternates[0].endpoints;
        match Find(eps, IsOut)
        case None => Failure(NoOutEndpoint)
        case Some(i) => Success(eps[i].endpointNumber)
  }

  /** A `USBDevice`. The identity and the offered configurations are fixed; whether it
      is open, its active configuration and its claimed interfaces change. */
  class UsbDevice {
    const vendorId: nat
    const productId: nat
    const productName: Option<string>
    const configurations: seq<Configuration>
    var configuration: Option<Configuration>
    var isOpen: bool
    var claimed: set<nat>
    /** Every `open`, `selectConfiguration` and `claimInterface` issued to this device, in order. */
    ghost var calls: seq<DeviceCall>
    /** Every `transferOut` issued to this device, in order. */
    ghost var transfers: seq<Transfer>
    /** What each of those `transferOut` calls returned, in the same order. */
    ghost var results: seq<Result<TransferResult, Error>>

    constructor (vendorId: nat, productId: nat, productName: Option<string>,
                 configurations: seq<Configuration>, configuration: Option<Configuration>)
      ensures this.vendorId == vendorId && this.productId == productId
      ensures this.productName == productName && this.configurations == configurations
      ensures this.configuration == configuration
      ensures !isOpen && claimed == {} && calls == [] && transfers == [] && results == []
    {
      this.vendorId, this.productId, this.productName := vendorId, productId, productName;
      this.configurations, this.configuration := configurations, configuration;
      isOpen, claimed, calls, transfers, results := false, {}, [], [], [];
    }

    /** `open()`: resolves, and the device is open, or rejects and nothing changes. */
    method Open() returns (r: Outcome<Error>)
      modifies this`isOpen, this`calls
      ensures calls == old(calls) + [OpenCall(r.Pass?)]
      ensures r.Pass? ==> isOpen
      ensures r.Fail? ==> r.error == HostRejected && isOpen == old(isOpen)
    {
      var resolves: bool := *;
      if resolves {
        isOpen := true;
        r := Pass;
      } else {
        r := Fail(HostRejected);
      }
      calls := calls + [OpenCall(r.Pass?)];
    }

    /** `selectConfiguration(value)`: only an open device can switch, and only to a
        configuration it offers. */
    method SelectConfiguration(value: nat) returns (r: Outcome<Error>)
      modifies this`configuration, this`calls
      ensures calls == old(calls) + [SelectConfigurationCall(value, r.Pass?)]
      ensures r.Pass? ==>
        && old(isOpen) && configuration.Some?
        && configuration.value in configurations && configuration.value.configurationValue == value
      ensures r.Fail? ==> r.error == HostRejected && configuration == old(configuration)
    {
      var resolves: bool := *;
      if resolves && isOpen && exists c :: c in configurations && c.configurationValue == value {
        var c :| c in configurations && c.configurationValue == value;
        configuration := Some(c);
        r := Pass;
      } else {
        r := Fail(HostRejected);
      }
      calls := calls + [SelectConfigurationCall(value, r.Pass?)];
    }

    /** `claimInterface(n)`: only on an open, configured device that has interface n. */
    method ClaimInterface(n: nat) returns (r: Outcome<Error>)
      modifies this`claimed, this`calls
      ensures calls == old(calls) + [ClaimInterfaceCall(n, r.Pass?)]
      ensures r.Pass? ==>
        && isOpen && configuration.Some? && n < |configuration.value.interfaces|
        && claimed == old(claimed) + {n}
      ensures r.Fail? ==> r.error == HostRejected && claimed == old(claimed)
    {
      var resolves: bool := *;
      if resolves && isOpen && configuration.Some? && n < |configuration.value.interfaces| {
        claimed := claimed + {n};
        r := Pass;
      } else {
        r := Fail(HostRejected);
      }
      calls := calls + [ClaimInterfaceCall(n, r.Pass?)];
    }

    /** `transferOut(endpointNumber, data)`: the call is recorded whether it resolves
        (with status 'ok' or 'stall') or rejects. */
    method TransferOut(endpointNumber: nat, data: seq<byte>) returns (r: Result<TransferResult, Error>)
      modifies this`transfers, this`results
      ensures transfers == old(transfers) + [Transfer(endpointNumber, data, r.Success?)]
      ensures results == old(results) + [r]
      ensures r.Success? ==> r.value.bytesWritten <= |data|
      ensures r.Failure? ==> r.error == HostRejected
    {
      var resolves: bool := *;
      if resolves {
        var stalled: bool := *;
        r := if stalled then Success(TransferResult(0, Stall)) else Success(TransferResult(|data|, Ok));
      } else {
        r := Failure(HostRejected);
      }
      transfers := transfers + [Transfer(endpointNumber, data, r.Success?)];
      results := results + [r];
    }
  }

  /** `navigator.usb`: the plugged-in devices and those this origin may use. */
  class Usb {
    const attached: set<UsbDevice>
    /** The devices the user has granted, in the order `getDevices` lists them. */
    var authorized: seq<UsbDevice>
    /** Whether each `getDevices` call resolved, in order. */
    ghost var listings: seq<bool>
    /** What each `requestDevice` call gave, in order. */
    ghost var requests: seq<Result<UsbDevice?, Error>>

    ghost predicate Valid()
      reads this
    {
      forall d :: d in authorized ==> d in attached
    }

    constructor (attached: set<UsbDevice>, authorized: seq<UsbDevice>)
      requires forall d :: d in authorized ==> d in attached
      ensures Valid() && this.attached == attached && this.authorized == authorized
      ensures listings == [] && requests == []
    {
      this.attached, this.authorized := attached, authorized;
      listings, requests := [], [];
    }

    /** `getDevices()`: the granted devices, or a rejection. */
    method GetDevices() returns (r: Result<seq<UsbDevice>, Error>)
      modifies this`listings
      ensures listings == old(listings) + [r.Success?]
      ensures r.Success? ==> r.value == authorized
      ensures r.Failure? ==> r.error == HostRejected
    {
      var resolves: bool := *;
      r := if resolves then Success(authorized) else Failure(HostRejected);
      listings := listings + [r.Success?];
    }

    /** `requestDevice({ filters: [] })`: the user picks any plugged-in device, which is
        then granted; the call can also reject (the user cancelled) or give nothing. */
    method RequestDevice() returns (r: Result<UsbDevice?, Error>)
      requires Valid()
      modifies this`authorized, this`requests
      ensures Valid()
      ensures requests == old(requests) + [r]
      ensures r.Success? && r.value != null ==>
        && r.value in attached && r.value in authorized
        && (authorized == old(authorized) || authorized == old(authorized) + [r.value])
      ensures (r.Success? && r.value == null) || r.Failure? ==> authorized == old(authorized)
      ensures r.Failure? ==> r.error == HostRejected
    {
      var picks: bool := *;
      if picks && attached != {} {
        var d :| d in attached;
        if d !in authorized {
          authorized := authorized + [d];
        }
        r := Success(d);
      } else {
        var resolvesEmpty: bool := *;
        r := if resolvesEmpty then Success(null) else Failure(HostRejected);
      }
      requests := requests + [r];
    }
  }
}
