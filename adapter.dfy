/**
 * The adapter operations of the four real platforms (Linux, Android, macOS
 * and the stub for unsupported targets). Getters forward to the platform's
 * native adapter; every setter, `is_present` and `get_ad_datas` fail with
 * `NotSupported` without calling anything; listing devices wraps each native
 * id in a device of the adapter's tag; looking a device up by address is a
 * first-match scan over that listing.
 */
module BluetoothAdapter {
  import opened Native
  import opened Bluetooth

  /** The operations the real adapters answer with `NotSupported`. */
  predicate Unsupported(op: AdapterOp) {
    AdapterSort(op) == UnitSort || op.IsPresent? || op.GetAdDatas?
  }

  /**
   * Every adapter operation other than listing devices, looking one up and
   * opening a discovery session. The unsupported ones (every setter, the
   * operations whose result is unit, plus `is_present` and `get_ad_datas`)
   * fail with `NotSupported` and leave every stack untouched; the rest are
   * answered by the adapter's own stack.
   */
  function AdapterOperation(w: Stacks, a: Adapter, op: AdapterOp): (r: Reply<Value>)
    requires a.tag != Mock
    ensures Unsupported(op) ==> r.result == Err(NotSupported) && r.after == w
    ensures !Unsupported(op) ==> r.result == Answer(w, a.tag, AdapterCall(a.native, op))
    ensures !Unsupported(op) ==> r.after == Logged(w, a.tag, AdapterCall(a.native, op))
    ensures r.result == Err(NotSupported) <==> Unsupported(op)
    ensures op.GetId? ==> r.result.Ok? && r.result.value.Text?
  {
    match op
    case GetId | GetAddress | GetName | GetAlias | GetClass | IsPowered | IsDiscoverable
       | IsPairable | GetPairableTimeout | GetDiscoverableTimeout | IsDiscovering | GetUuids
       | GetVendorIdSource | GetVendorId | GetProductId | GetDeviceId | GetModalias =>
      Dispatch(w, a.tag, AdapterCall(a.native, op))
    case SetAddress(_) | SetName(_) | SetAlias(_) | SetClass(_) | SetPowered(_)
       | IsPresent | SetPresent(_) | SetDiscoverable(_) | SetPairable(_)
       | SetPairableTimeout(_) | SetDiscoverableTimeout(_) | SetDiscovering(_)
       | SetCanStartDiscovery(_) | SetCanStopDiscovery(_) | SetUuids(_) | SetModalias(_)
       | GetAdDatas | SetAdDatas(_) =>
      Reply(Err(NotSupported), w)
  }

  /** The Android and macOS adapters initialise a fresh native adapter while listing devices. */
  predicate InitsWhileListing(tag: Tag) {
    tag == Android || tag == Mac
  }

  /** `devices` holds one device per native id, in order, each tagged `tag`. */
  predicate ListsDevices(tag: Tag, ids: seq<NativeId>, devices: seq<Device>) {
    && |devices| == |ids|
    && forall i :: 0 <= i < |ids| ==> devices[i] == Device(tag, ids[i])
  }

  /** One device per native id, in order, each tagged `tag`. */
  function DevicesOf(tag: Tag, ids: seq<NativeId>): seq<Device>
  {
    seq(|ids|, i requires 0 <= i < |ids| => Device(tag, ids[i]))
  }

  /** The Android and macOS tail of `get_devices`: initialise, then wrap. */
  function WrapAfterInit(w: Stacks, tag: Tag, ids: seq<NativeId>): (r: Reply<seq<Device>>)
  {
    var init := Dispatch(w, tag, AdapterInitCall);
    match init.result
    case Err(e) => Reply(Err(e), init.after)
    case Ok(_) => Reply(Ok(DevicesOf(tag, ids)), init.after)
  }

  /**
   * `get_devices`: a failed listing is returned as it is; Android and macOS
   * then initialise a native adapter and fail with its error if that fails;
   * otherwise one device per listed id, in order, each with the adapter's tag.
   */
  function GetDevices(w: Stacks, a: Adapter): (r: Reply<seq<Device>>)
    requires a.tag != Mock
    ensures var listing := Answer(w, a.tag, AdapterDevicesCall(a.native));
            var listed := Logged(w, a.tag, AdapterDevicesCall(a.native));
            match listing
            case Err(e) => r.result == Err(e) && r.after == listed
            case Ok(ids) =>
              if InitsWhileListing(a.tag) then
                && r.after == Logged(listed, a.tag, AdapterInitCall)
                && match Answer(listed, a.tag, AdapterInitCall)
                   case Err(e) => r.result == Err(e)
                   case Ok(_) => r.result.Ok? && ListsDevices(a.tag, ids.texts, r.result.value)
              else
                r.after == listed && r.result.Ok? && ListsDevices(a.tag, ids.texts, r.result.value)
  {
    var listed := Dispatch(w, a.tag, AdapterDevicesCall(a.native));
    match listed.result
    case Err(e) => Reply(Err(e), listed.after)
    case Ok(ids) =>
      match a.tag
      case Bluez => Reply(Ok(DevicesOf(Bluez, ids.texts)), listed.after)
      case Android => WrapAfterInit(listed.after, Android, ids.texts)
      case Mac => WrapAfterInit(listed.after, Mac, ids.texts)
      case Empty => Reply(Ok(DevicesOf(Empty, ids.texts)), listed.after)
  }

  /**
   * `create_discovery_session`: initialise a native adapter, open a session
   * on it, and wrap the session with the adapter's tag; either failure is
   * returned as it is.
   */
  function CreateDiscoverySession(w: Stacks, a: Adapter): (r: Reply<Session>)
    requires a.tag != Mock
    ensures var w1 := Logged(w, a.tag, AdapterInitCall);
            match Answer(w, a.tag, AdapterInitCall)
            case Err(e) => r.result == Err(e) && r.after == w1
            case Ok(made) =>
              && r.after == Logged(w1, a.tag, SessionCreateCall(made.text))
              && match Answer(w1, a.tag, SessionCreateCall(made.text))
                 case Err(e) => r.result == Err(e)
                 case Ok(session) => r.result == Ok(Session(a.tag, session.text))
  {
    var init := Dispatch(w, a.tag, AdapterInitCall);
    match init.result
    case Err(e) => Reply(Err(e), init.after)
    case Ok(made) =>
      var created := Dispatch(init.after, a.tag, SessionCreateCall(made.text));
      match created.result
      case Err(e) => Reply(Err(e), created.after)
      case Ok(session) => Reply(Ok(Session(a.tag, session.text)), created.after)
  }

  // ---------------------------------------------------------------------
  // Looking a device up by address

  /** The address query `get_device` sends to device `d`. */
  function AddressQuery(d: Device): Sent {
    Sent(d.tag, DeviceCall(d.native, DeviceOp.GetAddress))
  }

  /** The address queries sent to the devices `ds`, in order. */
  function AddressQueries(ds: seq<Device>): seq<Sent>
  {
    seq(|ds|, i requires 0 <= i < |ds| => AddressQuery(ds[i]))
  }

  /** The stacks once the first `j` devices of `ds` have been asked for their address. */
  function Asked(w: Stacks, ds: seq<Device>, j: nat): Stacks
    requires j <= |ds|
  {
    Stacks(w.oracle, w.log + AddressQueries(ds[..j]))
  }

  /** What device `j` answers when asked for its address after devices `0..j-1`. */
  function AddressAnswer(w: Stacks, ds: seq<Device>, j: nat): (r: Result<Value>)
    requires j < |ds|
    ensures r.Ok? ==> r.value.Text?
  {
    Answer(Asked(w, ds, j), ds[j].tag, DeviceCall(ds[j].native, DeviceOp.GetAddress))
  }

  /** Device `j` reported an address, and not the one looked for. */
  predicate Mismatch(w: Stacks, ds: seq<Device>, address: string, j: nat)
    requires j < |ds|
  {
    AddressAnswer(w, ds, j).Ok? && AddressAnswer(w, ds, j).value.text != address
  }

  /**
   * The loop of `get_device` over an already listed `ds`: ask each device for
   * its address in order; stop at the first failure, returning it, or at the
   * first device whose address is `address`, returning it; `None` when no
   * device matches.
   */
  function Scan(w: Stacks, ds: seq<Device>, address: string): (r: Reply<Option<Device>>)
    ensures r.result.Ok? && r.result.value.Some? ==> r.result.value.value in ds
    decreases |ds|
  {
    if ds == [] then Reply(Ok(None), w)
    else
      var asked := DeviceOperation(w, ds[0], DeviceOp.GetAddress);
      match asked.result
      case Err(e) => Reply(Err(e), asked.after)
      case Ok(v) =>
        if v.text == address then Reply(Ok(Some(ds[0])), asked.after)
        else Scan(asked.after, ds[1..], address)
  }

  lemma AskedNone(w: Stacks, ds: seq<Device>)
    ensures Asked(w, ds, 0) == w
  {
    assert ds[..0] == [];
    assert w.log + [] == w.log;
  }

  lemma AskedStep(w: Stacks, ds: seq<Device>, j: nat)
    requires j < |ds|
    ensures Logged(Asked(w, ds, j), ds[j].tag, DeviceCall(ds[j].native, DeviceOp.GetAddress))
         == Asked(w, ds, j + 1)
  {
    assert AddressQueries(ds[..j + 1]) == AddressQueries(ds[..j]) + [AddressQuery(ds[j])];
  }

  /** Asking the first device, then `j` of the rest, is asking `j + 1` of them. */
  lemma AskedShift(w: Stacks, ds: seq<Device>, j: nat)
    requires j < |ds|
    ensures Asked(Logged(w, ds[0].tag, DeviceCall(ds[0].native, DeviceOp.GetAddress)), ds[1..], j)
         == Asked(w, ds, j + 1)
  {
    assert [AddressQuery(ds[0])] + AddressQueries(ds[1..][..j]) == AddressQueries(ds[..j + 1]);
    assert (w.log + [AddressQuery(ds[0])]) + AddressQueries(ds[1..][..j])
        == w.log + ([AddressQuery(ds[0])] + AddressQueries(ds[1..][..j]));
  }

  /** Devices that report another address are passed over, and only cost their query. */
  lemma {:induction false} ScanSkipsMismatches(w: Stacks, ds: seq<Device>, address: string, k: nat)
    requires k <= |ds|
    requires forall j :: 0 <= j < k ==> Mismatch(w, ds, address, j)
    ensures Scan(w, ds, address) == Scan(Asked(w, ds, k), ds[k..], address)
    decreases k
  {
    AskedNone(w, ds);
    if k > 0 {
      var w1 := Logged(w, ds[0].tag, DeviceCall(ds[0].native, DeviceOp.GetAddress));
      assert Mismatch(w, ds, address, 0);
      assert Scan(w, ds, address) == Scan(w1, ds[1..], address);
      forall j | 0 <= j < k - 1
        ensures Mismatch(w1, ds[1..], address, j)
      {
        AskedShift(w, ds, j);
        assert Mismatch(w, ds, address, j + 1);
      }
      ScanSkipsMismatches(w1, ds[1..], address, k - 1);
      AskedShift(w, ds, k - 1);
      assert ds[1..][k - 1..] == ds[k..];
    }
  }

  /** The first device that reports `address`, all earlier ones having reported another, is the one found. */
  lemma ScanFindsFirstMatch(w: Stacks, ds: seq<Device>, address: string, k: nat)
    requires k < |ds|
    requires forall j :: 0 <= j < k ==> Mismatch(w, ds, address, j)
    requires AddressAnswer(w, ds, k) == Ok(Text(address))
    ensures Scan(w, ds, address) == Reply(Ok(Some(ds[k])), Asked(w, ds, k + 1))
  {
    ScanSkipsMismatches(w, ds, address, k);
    AskedStep(w, ds, k);
  }

  /**
   * A device that fails to report its address, all earlier ones having
   * reported another, ends the lookup with that failure, whatever later
   * devices would have answered.
   */
  lemma ScanStopsAtFirstFailure(w: Stacks, ds: seq<Device>, address: string, k: nat)
    requires k < |ds|
    requires forall j :: 0 <= j < k ==> Mismatch(w, ds, address, j)
    requires AddressAnswer(w, ds, k).Err?
    ensures Scan(w, ds, address) == Reply(Err(AddressAnswer(w, ds, k).error), Asked(w, ds, k + 1))
  {
    ScanSkipsMismatches(w, ds, address, k);
    AskedStep(w, ds, k);
  }

  /** When every device reports another address the result is `None`, not a failure. */
  lemma ScanNotFound(w: Stacks, ds: seq<Device>, address: string)
    requires forall j :: 0 <= j < |ds| ==> Mismatch(w, ds, address, j)
    ensures Scan(w, ds, address) == Reply(Ok(None), Asked(w, ds, |ds|))
  {
    ScanSkipsMismatches(w, ds, address, |ds|);
  }

  /** Everything `get_devices` sends goes to the adapter's own stack. */
  lemma GetDevicesStaysOnStack(w: Stacks, a: Adapter, t: Tag)
    requires a.tag != Mock && t != a.tag
    ensures CallsTo(GetDevices(w, a).after.log, t) == CallsTo(w.log, t)
  {
    var listed := Logged(w, a.tag, AdapterDevicesCall(a.native));
    CallsToAppend(w.log, Sent(a.tag, AdapterDevicesCall(a.native)), t);
    CallsToAppend(listed.log, Sent(a.tag, AdapterInitCall), t);
  }

  /** A scan over devices of one stack sends nothing to any other stack. */
  lemma {:induction false} ScanStaysOnStack(w: Stacks, ds: seq<Device>, address: string, tag: Tag, t: Tag)
    requires forall i :: 0 <= i < |ds| ==> ds[i].tag == tag
    requires t != tag
    ensures CallsTo(Scan(w, ds, address).after.log, t) == CallsTo(w.log, t)
    decreases |ds|
  {
    if ds != [] {
      var w1 := Logged(w, ds[0].tag, DeviceCall(ds[0].native, DeviceOp.GetAddress));
      CallsToAppend(w.log, AddressQuery(ds[0]), t);
      ScanStaysOnStack(w1, ds[1..], address, tag, t);
    }
  }

  /** `None` is returned only when every device reported another address. */
  lemma {:induction false} ScanNoneOnlyIfNoMatch(w: Stacks, ds: seq<Device>, address: string)
    requires Scan(w, ds, address).result == Ok(None)
    ensures forall j :: 0 <= j < |ds| ==> Mismatch(w, ds, address, j)
    decreases |ds|
  {
    if ds != [] {
      AskedNone(w, ds);
      var w1 := Logged(w, ds[0].tag, DeviceCall(ds[0].native, DeviceOp.GetAddress));
      assert Mismatch(w, ds, address, 0);
      ScanNoneOnlyIfNoMatch(w1, ds[1..], address);
      forall j | 0 < j < |ds|
        ensures Mismatch(w, ds, address, j)
      {
        AskedShift(w, ds, j - 1);
        assert Mismatch(w1, ds[1..], address, j - 1);
      }
    }
  }

  /**
   * `get_device`: list the devices, failing as `get_devices` fails; then ask
   * each device for its address in order, returning the first failure or the
   * first device whose address matches, and `None` when none does.
   */
  method GetDevice(w: Stacks, a: Adapter, address: string) returns (r: Result<Option<Device>>, after: Stacks)
    requires a.tag != Mock
    ensures GetDevices(w, a).result.Err? ==> r == Err(GetDevices(w, a).result.error)
    ensures GetDevices(w, a).result.Err? ==> after == GetDevices(w, a).after
    ensures GetDevices(w, a).result.Ok? ==>
              r == Scan(GetDevices(w, a).after, GetDevices(w, a).result.value, address).result
    ensures GetDevices(w, a).result.Ok? ==>
              after == Scan(GetDevices(w, a).after, GetDevices(w, a).result.value, address).after
    ensures r.Ok? && r.value.Some? ==> r.value.value.tag == a.tag
    ensures forall t :: t != a.tag ==> CallsTo(after.log, t) == CallsTo(w.log, t)
  {
    var listed := GetDevices(w, a);
    forall t | t != a.tag
      ensures CallsTo(listed.after.log, t) == CallsTo(w.log, t)
    {
      GetDevicesStaysOnStack(w, a, t);
    }
    if listed.result.Err? {
      return Err(listed.result.error), listed.after;
    }
    var devices := listed.result.value;
    forall t | t != a.tag
      ensures CallsTo(Scan(listed.after, devices, address).after.log, t) == CallsTo(listed.after.log, t)
    {
      ScanStaysOnStack(listed.after, devices, address, a.tag, t);
    }
    after := listed.after;
    var i := 0;
    while i < |devices|
      invariant 0 <= i <= |devices|
      invariant Scan(listed.after, devices, address) == Scan(after, devices[i..], address)
    {
      var asked := DeviceOperation(after, devices[i], DeviceOp.GetAddress);
      after := asked.after;
      if asked.result.Err? {
        return Err(asked.result.error), after;
      }
      if asked.result.value.text == address {
        return Ok(Some(devices[i])), after;
      }
      assert devices[i..][1..] == devices[i + 1..];
      i := i + 1;
    }
    return Ok(None), after;
  }
}
