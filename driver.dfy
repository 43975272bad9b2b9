/** The driver's connection state and the operations that read and change it:
    pairing, silent reconnection, raw sends and the direct print. The module-level
    `device` and `endpointNumber` variables are the two fields of one object. */
module Driver {
  import opened Wrappers
  import opened Bytes
  import opened Commands
  import opened WebUsb
  import Receipt

  /** `d => d.vendorId === vendorId && d.productId === productId` */
  function Matches(vendorId: nat, productId: nat): UsbDevice -> bool
  {
    (d: UsbDevice) => d.vendorId == vendorId && d.productId == productId
  }

  /** The handshake both connection paths issue when every call resolves: `open()`,
      then `selectConfiguration(1)` only when no configuration is active, then
      `claimInterface(0)`. */
  function Script(configured: bool): seq<DeviceCall>
  {
    [OpenCall(true)] + (if configured then [] else [SelectConfigurationCall(1, true)])
      + [ClaimInterfaceCall(0, true)]
  }

  /** The calls one connection attempt issued to its device: the script in order,
      stopping at the first call that rejects, since each `await` rethrows. */
  ghost predicate Handshake(calls: seq<DeviceCall>, configured: bool)
  {
    var s := Script(configured);
    && 0 < |calls| <= |s|
    && calls[..|calls| - 1] == s[..|calls| - 1]
    && calls[|calls| - 1] == s[|calls| - 1].(resolved := calls[|calls| - 1].resolved)
    && (calls[|calls| - 1].resolved ==> |calls| == |s|)
  }

  /** A handshake ran to its end exactly when none of its calls rejected. */
  lemma HandshakeCompletes(calls: seq<DeviceCall>, configured: bool)
    requires Handshake(calls, configured)
    ensures calls == Script(configured) <==> forall i :: 0 <= i < |calls| ==> calls[i].resolved
  {
    var s := Script(configured);
    var k := |calls| - 1;
    if forall i :: 0 <= i < |calls| ==> calls[i].resolved {
      assert calls[k].resolved;
      assert calls == calls[..k] + [calls[k]];
      assert s == s[..k] + [s[k]];
    }
    if calls == s {
      forall i | 0 <= i < |calls|
        ensures calls[i].resolved
      {
        assert s[i].resolved;
      }
    }
  }

  /** What a connection attempt did to device `d`, whose call log held `calls0` and
      whose configuration was active or not (`configured`) before: it issued a
      handshake, and it `connected` exactly when the whole handshake resolved and the
      active configuration has an OUT endpoint. */
  ghost predicate Attempted(d: UsbDevice, calls0: seq<DeviceCall>, configured: bool, connected: bool)
    reads d
  {
    && calls0 <= d.calls
    && Handshake(d.calls[|calls0|..], configured)
    && (connected <==> d.calls[|calls0|..] == Script(configured) && OutEndpoint(d.configuration).Success?)
  }

  /** A connection attempt connects exactly when every host call it issued resolved
      and the active configuration has an OUT endpoint. */
  lemma AttemptOutcome(d: UsbDevice, calls0: seq<DeviceCall>, configured: bool, connected: bool)
    requires Attempted(d, calls0, configured, connected)
    ensures connected <==>
      && (forall i :: |calls0| <= i < |d.calls| ==> d.calls[i].resolved)
      && OutEndpoint(d.configuration).Success?
  {
    var issued := d.calls[|calls0|..];
    HandshakeCompletes(issued, configured);
    assert (forall i :: |calls0| <= i < |d.calls| ==> d.calls[i].resolved)
       <==> (forall i :: 0 <= i < |issued| ==> issued[i].resolved) by {
      forall i | 0 <= i < |issued| ensures issued[i] == d.calls[|calls0| + i] { }
    }
  }

  /** The steps both connection paths share: `open()`, `selectConfiguration(1)` when
      no configuration is active, `claimInterface(0)`, then the number of the first
      OUT endpoint of `interfaces[0].alternates[0]`. The first call that rejects ends
      the attempt; a device that was open, configured or claiming stays so. */
  method Connect(d: UsbDevice) returns (r: Result<nat, Error>)
    modifies d`isOpen, d`configuration, d`claimed, d`calls
    ensures Attempted(d, old(d.calls), old(d.configuration).Some?, r.Success?)
    ensures r.Success? ==> d.isOpen && 0 in d.claimed && OutEndpoint(d.configuration) == Success(r.value)
    ensures r.Failure? ==>
      Failure(r.error) == if d.calls[|old(d.calls)|..] == Script(old(d.configuration).Some?)
                          then OutEndpoint(d.configuration) else Failure(HostRejected)
    ensures old(d.isOpen) ==> d.isOpen
    ensures old(d.claimed) <= d.claimed
    ensures old(d.configuration).Some? ==> d.configuration == old(d.configuration)
  {
    ghost var calls0, configured := d.calls, d.configuration.Some?;
    var opening := d.Open();
    if opening.Fail? {
      assert d.calls[|calls0|..] == [OpenCall(false)];
      return Failure(opening.error);
    }
    if d.configuration.None? {
      var selecting := d.SelectConfiguration(1);
      if selecting.Fail? {
        assert d.calls[|calls0|..] == [OpenCall(true), SelectConfigurationCall(1, false)];
        return Failure(selecting.error);
      }
    }
    var claiming := d.ClaimInterface(0);
    assert d.calls[|calls0|..] == Script(configured)[..|Script(configured)| - 1]
                                  + [ClaimInterfaceCall(0, claiming.Pass?)];
    if claiming.Fail? {
      return Failure(claiming.error);
    }
    r := OutEndpoint(d.configuration);
  }

  class PrinterConnection {
    const usb: Usb
    var device: UsbDevice?
    /** `null` is `None`. */
    var endpointNumber: Option<nat>

    /** Either there is no device and no endpoint, or the device is plugged in, open,
        has interface 0 claimed, and the endpoint is the first OUT endpoint of its
        active configuration. */
    ghost predicate Valid()
      reads this, usb, device
    {
      && usb.Valid()
      && (device == null <==> endpointNumber.None?)
      && (device != null ==>
            && device in usb.attached
            && device.isOpen && 0 in device.claimed
            && OutEndpoint(device.configuration) == Success(endpointNumber.value))
    }

    /** `!device || !endpointNumber` is false: an endpoint number of 0 counts as absent. */
    predicate Ready()
      reads this
    {
      device != null && endpointNumber.Some? && endpointNumber.value != 0
    }

    /** The module's initial state: both variables `null`. */
    constructor (usb: Usb)
      requires usb.Valid()
      ensures Valid() && this.usb == usb
      ensures device == null && endpointNumber == None
    {
      this.usb := usb;
      device, endpointNumber := null, None;
    }

    /** `requestAndConnectDevice`: asks the host for one device, then runs the
        handshake on it. The state is written only once an OUT endpoint has been
        found; every earlier failure is rethrown with the state as it was. No other
        device is touched and no transfer is issued. */
    method RequestAndConnectDevice() returns (r: Result<UsbDevice, Error>)
      requires Valid()
      modifies this, usb`authorized, usb`requests, usb.attached
      ensures Valid()
      ensures |usb.requests| == |old(usb.requests)| + 1
      ensures usb.requests[..|old(usb.requests)|] == old(usb.requests)
      ensures var q: Result<UsbDevice?, Error> := usb.requests[|usb.requests| - 1];
        && (|| usb.authorized == old(usb.authorized)
            || (q.Success? && q.value != null && usb.authorized == old(usb.authorized) + [q.value]))
        && (q.Failure? ==> r == Failure(HostRejected))
        && (q == Success(null) ==> r == Failure(NoDeviceSelected))
        && (q.Success? && q.value != null ==>
              var d := q.value;
              && d in usb.attached
              && Attempted(d, old(d.calls), old(d.configuration).Some?, r.Success?)
              && (r.Success? ==> r.value == d)
              && (r.Failure? ==>
                    Failure(r.error) == if d.calls[|old(d.calls)|..] == Script(old(d.configuration).Some?)
                                        then OutEndpoint(d.configuration) else Failure(HostRejected)))
        && (forall d :: d in usb.attached && !(q.Success? && d == q.value) ==> unchanged(d))
      ensures r.Success? ==>
        && device == r.value
        && OutEndpoint(r.value.configuration) == Success(endpointNumber.value)
      ensures r.Failure? ==> device == old(device) && endpointNumber == old(endpointNumber)
      ensures forall d :: d in usb.attached ==> d.transfers == old(d.transfers) && d.results == old(d.results)
    {
      var selected := usb.RequestDevice();
      if selected.Failure? {
        return Failure(selected.error);
      }
      var d := selected.value;
      if d == null {
        return Failure(NoDeviceSelected);
      }
      r := ConnectSelected(d);
    }

    /** The body of `requestAndConnectDevice` once the user selected `d`: the
        handshake runs, and only when it connects are both variables written. */
    method ConnectSelected(d: UsbDevice) returns (r: Result<UsbDevice, Error>)
      requires Valid() && d in usb.attached
      modifies this, d`isOpen, d`configuration, d`claimed, d`calls
      ensures Valid()
      ensures Attempted(d, old(d.calls), old(d.configuration).Some?, r.Success?)
      ensures r.Success? ==>
        && r.value == d && device == d
        && OutEndpoint(d.configuration) == Success(endpointNumber.value)
      ensures r.Failure? ==>
        && device == old(device) && endpointNumber == old(endpointNumber)
        && Failure(r.error) == if d.calls[|old(d.calls)|..] == Script(old(d.configuration).Some?)
                               then OutEndpoint(d.configuration) else Failure(HostRejected)
    {
      var out := Connect(d);
      if out.Failure? {
        return Failure(out.error);
      }
      device := d;
      endpointNumber := Some(out.value);
      r := Success(d);
    }

    /** `reconnectDevice`: lists the granted devices. With none of that vendor and
        product the state is untouched; otherwise the first match runs the handshake,
        becomes the device when it connects, and leaves both variables `null` when it
        does not. A rejected listing also leaves both `null`. No other device is
        touched and no transfer is issued. */
    method ReconnectDevice(vendorId: nat, productId: nat) returns (ok: bool)
      requires Valid()
      modifies this, usb`listings, usb.attached
      ensures Valid()
      ensures |usb.listings| == |old(usb.listings)| + 1
      ensures usb.listings[..|old(usb.listings)|] == old(usb.listings)
      ensures var listed := usb.listings[|usb.listings| - 1];
        var found := Find(usb.authorized, Matches(vendorId, productId));
        && (!listed ==> !ok && device == null && endpointNumber == None)
        && (listed && found.None? ==> !ok && device == old(device) && endpointNumber == old(endpointNumber))
        && (listed && found.Some? ==>
              var d := usb.authorized[found.value];
              && Attempted(d, old(d.calls), old(d.configuration).Some?, ok)
              && (ok ==> device == d)
              && (!ok ==> device == null && endpointNumber == None))
        && (forall d :: d in usb.attached && !(listed && found.Some? && d == usb.authorized[found.value])
              ==> unchanged(d))
      ensures forall d :: d in usb.attached ==> d.transfers == old(d.transfers) && d.results == old(d.results)
      ensures ok ==> device != null && device.vendorId == vendorId && device.productId == productId
    {
      var devices := usb.GetDevices();
      if devices.Failure? {
        device, endpointNumber := null, None;
        return false;
      }
      var found := Find(devices.value, Matches(vendorId, productId));
      assert devices.value == usb.authorized && usb.listings[|usb.listings| - 1];
      if found.None? {
        return false;
      }
      ok := Adopt(devices.value[found.value]);
    }

    /** The body of `reconnectDevice` once a granted device `d` matched: it becomes
        the device at once, then the handshake runs; when that fails, the handler
        resets both variables to `null`. */
    method Adopt(d: UsbDevice) returns (ok: bool)
      requires Valid() && d in usb.attached
      modifies this, d`isOpen, d`configuration, d`claimed, d`calls
      ensures Valid()
      ensures Attempted(d, old(d.calls), old(d.configuration).Some?, ok)
      ensures ok ==> device == d
      ensures !ok ==> device == null && endpointNumber == None
    {
      device := d;
      var out := Connect(d);
      if out.Failure? {
        device, endpointNumber := null, None;
        return false;
      }
      endpointNumber := Some(out.value);
      ok := true;
    }

    /** `sendData`: refuses without a device or with a falsy endpoint number, issuing
        nothing; otherwise issues exactly one transfer of `data` to the endpoint and
        returns its result unchecked. */
    method SendData(data: seq<byte>) returns (r: Result<TransferResult, Error>)
      requires Valid()
      modifies (if device == null then {} else {device})`transfers
      modifies (if device == null then {} else {device})`results
      ensures Valid()
      ensures !Ready() ==> r == Failure(NotConnected)
      ensures !Ready() && device != null ==>
        device.transfers == old(device.transfers) && device.results == old(device.results)
      ensures Ready() ==>
        && device.transfers == old(device.transfers) + [Transfer(endpointNumber.value, data, r.Success?)]
        && device.results == old(device.results) + [r]
        && (r.Failure? ==> r.error == HostRejected)
    {
      if !Ready() {
        return Failure(NotConnected);
      }
      r := device.TransferOut(endpointNumber.value, data);
    }

    /** `printDirect`: without a device it fails before any transfer. Otherwise the
        first transfer is the pin-2 drawer kick and, only if that call resolved, the
        second is the receipt buffer; nothing else is sent. */
    method PrintDirect(sale: Receipt.Sale, settings: Receipt.Settings, cashierName: string,
                       localeDate: string -> string) returns (r: Outcome<Error>)
      requires Valid()
      modifies (if device == null then {} else {device})`transfers
      modifies (if device == null then {} else {device})`results
      ensures Valid()
      ensures !Ready() ==> r == Fail(NotConnected)
      ensures !Ready() && device != null ==>
        device.transfers == old(device.transfers) && device.results == old(device.results)
      ensures Ready() ==>
        var ep := endpointNumber.value;
        || (device.transfers == old(device.transfers) + [Transfer(ep, CD_KICK_2, false)]
            && r == Fail(HostRejected))
        || (device.transfers == old(device.transfers)
              + [Transfer(ep, CD_KICK_2, true),
                 Transfer(ep, Receipt.ReceiptBytes(sale, settings, cashierName, localeDate), r.Pass?)]
            && (r.Fail? ==> r.error == HostRejected))
    {
      if device == null {
        return Fail(NotConnected);
      }
      ghost var before := device.transfers;
      var kick := SendData(CD_KICK_2);
      if kick.Failure? {
        return Fail(kick.error);
      }
      ghost var kicked := device.transfers;
      assert Ready() && kicked == before + [Transfer(endpointNumber.value, CD_KICK_2, true)];
      var receiptData := Receipt.BuildReceipt(sale, settings, cashierName, localeDate);
      assert Valid() && Ready();
      var sent := SendData(receiptData);
      assert device.transfers == kicked + [Transfer(endpointNumber.value, receiptData, sent.Success?)];
      if sent.Failure? {
        return Fail(sent.error);
      }
      r := Pass;
    }
  }
}
