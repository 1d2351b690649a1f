/** Finding Open DMX USB adapters among the serial ports the transport lists: keep the
    ports whose USB vendor and product ids are those of the adapter, in listing order. */
module DeviceRegistry {
  import opened Wrappers

  /** The USB vendor id of Enttec (an FTDI chip). */
  const VendorId: string := "0403"
  /** The USB product id of the Open DMX USB. */
  const ProductId: string := "6001"

  /** A serial port as the transport lists it; ports that are not USB have no ids. */
  datatype PortInfo = PortInfo(path: string, vendorId: Option<string>, productId: Option<string>)

  /** getFirstAvailableDevice found nothing. */
  datatype RegistryError = DeviceNotFound

  predicate IsOpenDmx(p: PortInfo) {
    p.vendorId == Some(VendorId) && p.productId == Some(ProductId)
  }

  /** listDevices: the paths of the matching ports, in the order they were listed. */
  function ListDevices(ports: seq<PortInfo>): (paths: seq<string>)
    ensures |paths| <= |ports|
    decreases |ports|
  {
    if ports == [] then []
    else (if IsOpenDmx(ports[0]) then [ports[0].path] else []) + ListDevices(ports[1..])
  }

  /** getFirstAvailableDevice: the first path listDevices returns, or an error when there
      is none. */
  function GetFirstAvailableDevice(ports: seq<PortInfo>): (r: Result<string, RegistryError>)
    ensures r.Success? ==> r.value in ListDevices(ports)
    ensures r.Failure? ==> r.error == DeviceNotFound
  {
    var devices := ListDevices(ports);
    if |devices| == 0 then Failure(DeviceNotFound) else Success(devices[0])
  }

  /** A path is listed exactly when some listed port with that path matches. */
  lemma {:induction false} ListDevicesMembers(ports: seq<PortInfo>, path: string)
    ensures path in ListDevices(ports) <==>
      exists i :: 0 <= i < |ports| && IsOpenDmx(ports[i]) && ports[i].path == path
    decreases |ports|
  {
    if ports != [] {
      ListDevicesMembers(ports[1..], path);
      if exists i :: 0 <= i < |ports[1..]| && IsOpenDmx(ports[1..][i]) && ports[1..][i].path == path {
        var i :| 0 <= i < |ports[1..]| && IsOpenDmx(ports[1..][i]) && ports[1..][i].path == path;
        assert ports[i + 1] == ports[1..][i];
      }
      if exists i :: 0 <= i < |ports| && IsOpenDmx(ports[i]) && ports[i].path == path {
        var i :| 0 <= i < |ports| && IsOpenDmx(ports[i]) && ports[i].path == path;
        if i > 0 {
          assert ports[1..][i - 1] == ports[i];
        }
      }
    }
  }

  /** Listing keeps the order of the ports: listing two runs of ports one after the other
      gives the two lists one after the other. */
  lemma {:induction false} ListDevicesConcat(a: seq<PortInfo>, b: seq<PortInfo>)
    ensures ListDevices(a + b) == ListDevices(a) + ListDevices(b)
    decreases |a|
  {
    if a != [] {
      assert (a + b)[0] == a[0];
      assert (a + b)[1..] == a[1..] + b;
      ListDevicesConcat(a[1..], b);
    } else {
      assert a + b == b;
    }
  }

  /** The index of the first matching port, or |ports| when none matches. */
  function FirstMatch(ports: seq<PortInfo>): (k: nat)
    ensures k <= |ports|
    ensures forall j :: 0 <= j < k ==> !IsOpenDmx(ports[j])
    ensures k < |ports| ==> IsOpenDmx(ports[k])
    decreases |ports|
  {
    if ports == [] || IsOpenDmx(ports[0]) then 0 else 1 + FirstMatch(ports[1..])
  }

  /** The listing is empty exactly when no port matches, and otherwise starts with the
      path of the first matching port. */
  lemma {:induction false} ListDevicesHead(ports: seq<PortInfo>)
    ensures var k := FirstMatch(ports);
      (ListDevices(ports) == [] <==> k == |ports|) &&
      (k < |ports| ==> ListDevices(ports)[0] == ports[k].path)
    decreases |ports|
  {
    if ports != [] && !IsOpenDmx(ports[0]) {
      ListDevicesHead(ports[1..]);
    }
  }

  /** getFirstAvailableDevice fails exactly when no port matches, and otherwise returns
      the path of the earliest matching port. */
  lemma FirstAvailableIsEarliestMatch(ports: seq<PortInfo>)
    ensures GetFirstAvailableDevice(ports).Failure? <==>
      forall i :: 0 <= i < |ports| ==> !IsOpenDmx(ports[i])
    ensures GetFirstAvailableDevice(ports).Success? ==>
      exists i :: 0 <= i < |ports| && IsOpenDmx(ports[i]) &&
        ports[i].path == GetFirstAvailableDevice(ports).value &&
        forall j :: 0 <= j < i ==> !IsOpenDmx(ports[j])
  {
    ListDevicesHead(ports);
    var k := FirstMatch(ports);
    if k < |ports| {
      assert IsOpenDmx(ports[k]) && ports[k].path == GetFirstAvailableDevice(ports).value;
    }
  }

  // ---------------------------------------------------------------------------
  // The older JavaScript version filters with a lodash matcher: a port matches a pattern
  // when each property the pattern names has the pattern's value.

  /** The value of a named property of a port, if it has one. */
  function Property(p: PortInfo, key: string): Option<string> {
    if key == "path" then Some(p.path)
    else if key == "vendorId" then p.vendorId
    else if key == "productId" then p.productId
    else None
  }

  predicate Matches(pattern: seq<(string, string)>, p: PortInfo) {
    forall i :: 0 <= i < |pattern| ==> Property(p, pattern[i].0) == Some(pattern[i].1)
  }

  /** The pattern { vendorId, productId } of the adapter. */
  const Identity: seq<(string, string)> := [("vendorId", VendorId), ("productId", ProductId)]

  /** listDevices of the JavaScript version: filter by the matcher, then take each port's
      "path" property. */
  function ListDevicesByPattern(ports: seq<PortInfo>): (paths: seq<string>)
    ensures |paths| <= |ports|
    decreases |ports|
  {
    if ports == [] then []
    else
      (if Matches(Identity, ports[0]) then [Property(ports[0], "path").value] else []) +
      ListDevicesByPattern(ports[1..])
  }

  lemma IdentityMatch(p: PortInfo)
    ensures Matches(Identity, p) <==> IsOpenDmx(p)
  {
    if IsOpenDmx(p) {
      forall i | 0 <= i < |Identity| ensures Property(p, Identity[i].0) == Some(Identity[i].1) {
        if i == 0 { assert Identity[0].0 == "vendorId"; } else { assert Identity[1].0 == "productId"; }
      }
    }
    if Matches(Identity, p) {
      assert Property(p, Identity[0].0) == Some(VendorId);
      assert Property(p, Identity[1].0) == Some(ProductId);
    }
  }

  /** The matcher-based listing of the JavaScript version returns the same paths as the
      explicit comparison of the TypeScript version, for every list of ports. */
  lemma {:induction false} ListingsAgree(ports: seq<PortInfo>)
    ensures ListDevicesByPattern(ports) == ListDevices(ports)
    decreases |ports|
  {
    if ports != [] {
      IdentityMatch(ports[0]);
      ListingsAgree(ports[1..]);
    }
  }
}
