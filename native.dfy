/**
 * The native Bluetooth stacks seen from the facade: which stack backs a
 * handle, the calls the facade can send to a stack, the values a stack can
 * answer with, and the stacks themselves as an oracle plus a log of every
 * call they have received.
 *
 * The stacks (the Linux D-Bus stack, the Android stack, the macOS stack, the
 * stub used on unsupported platforms and the in-memory fake used by tests)
 * are foreign code; nothing here says how they answer, only what shape their
 * answers have.
 */
module Native {

  /** Which native stack backs a handle; fixed when the handle is built. */
  datatype Tag = Bluez | Android | Mac | Empty | Mock

  datatype Option<+T> = None | Some(value: T)

  /**
   * The failures the facade can report. The first three are the facade's own
   * sentinels; every failure a native stack reports is a `Backend` failure,
   * forwarded without inspection.
   */
  datatype Error =
    | NotSupportedOnReal   // a test-only operation on a handle that is not a mock
    | NotSupportedOnMock   // a mock constructor given a parent that is not a mock
    | NotSupported         // an adapter operation the real platforms do not offer
    | Backend(message: string)

  datatype Result<+T> = Ok(value: T) | Err(error: Error)

  newtype uint8 = x: int | 0 <= x < 0x100
  newtype uint16 = x: int | 0 <= x < 0x1_0000
  newtype uint32 = x: int | 0 <= x < 0x1_0000_0000
  newtype int16 = x: int | -0x8000 <= x < 0x8000

  /** The opaque identifier of a native object (an object path, a handle string). */
  type NativeId = string

  /** Every kind of value a native call can produce. */
  datatype Value =
    | Unit
    | Text(text: string)
    | Flag(flag: bool)
    | Word16(word16: uint16)
    | Word32(word32: uint32)
    | Signed16(signed16: int16)
    | Texts(texts: seq<string>)
    | Bytes(bytes: seq<uint8>)
    | ManufacturerData(byCompany: map<uint16, seq<uint8>>)
    | ServiceData(byUuid: map<string, seq<uint8>>)
    | Modalias(source: string, vendor: uint32, product: uint32, device: uint32)

  /** The result type a native call is declared with. */
  datatype Sort =
    | UnitSort | TextSort | FlagSort | Word16Sort | Word32Sort | Signed16Sort
    | TextsSort | BytesSort | ManufacturerDataSort | ServiceDataSort | ModaliasSort

  predicate HasSort(v: Value, s: Sort) {
    match s
    case UnitSort => v.Unit?
    case TextSort => v.Text?
    case FlagSort => v.Flag?
    case Word16Sort => v.Word16?
    case Word32Sort => v.Word32?
    case Signed16Sort => v.Signed16?
    case TextsSort => v.Texts?
    case BytesSort => v.Bytes?
    case ManufacturerDataSort => v.ManufacturerData?
    case ServiceDataSort => v.ServiceData?
    case ModaliasSort => v.Modalias?
  }

  /** Some value of each sort. */
  function DefaultOf(s: Sort): (v: Value)
    ensures HasSort(v, s)
  {
    match s
    case UnitSort => Unit
    case TextSort => Text("")
    case FlagSort => Flag(false)
    case Word16Sort => Word16(0)
    case Word32Sort => Word32(0)
    case Signed16Sort => Signed16(0)
    case TextsSort => Texts([])
    case BytesSort => Bytes([])
    case ManufacturerDataSort => ManufacturerData(map[])
    case ServiceDataSort => ServiceData(map[])
    case ModaliasSort => Modalias("", 0, 0, 0)
  }

  // ---------------------------------------------------------------------
  // The operations of each kind of native object

  datatype SessionOp = StartDiscovery | StopDiscovery

  /** The production operations of a device, apart from listing its services. */
  datatype DeviceOp =
    | GetId | GetAddress | GetName | GetIcon | GetClass | GetAppearance | GetUuids
    | IsPaired | IsConnected | IsTrusted | IsBlocked | GetAlias | IsLegacyPairing
    | GetVendorIdSource | GetVendorId | GetProductId | GetDeviceId | GetModalias
    | GetRssi | GetTxPower | GetManufacturerData | GetServiceData
    | Connect | Disconnect | ConnectProfile(uuid: string) | DisconnectProfile(uuid: string)
    | Pair | CancelPairing

  /** The test-only operations of a device, apart from `set_id`. */
  datatype DeviceTestOp =
    | SetAddress(address: string)
    | SetName(name: Option<string>)
    | SetIcon(icon: string)
    | SetClass(deviceClass: uint32)
    | SetAppearance(appearance: uint16)
    | SetUuids(uuids: seq<string>)
    | SetPaired(paired: bool)
    | SetConnected(connected: bool)
    | IsConnectable
    | SetConnectable(connectable: bool)
    | SetTrusted(trusted: bool)
    | SetBlocked(blocked: bool)
    | SetAlias(alias: string)
    | SetLegacyPairing(legacyPairing: bool)
    | SetModalias(modalias: string)
    | SetRssi(rssi: int16)
    | SetTxPower(txPower: int16)
    | SetManufacturerData(manufacturerData: map<uint16, seq<uint8>>)
    | SetServiceData(serviceData: map<string, seq<uint8>>)

  /** The production operations of a GATT service, apart from its two listings. */
  datatype ServiceOp = GetId | GetUuid | IsPrimary

  datatype ServiceTestOp = SetUuid(uuid: string) | SetPrimary(primary: bool)

  /** The production operations of a GATT characteristic, apart from listing its descriptors. */
  datatype CharacteristicOp =
    | GetId | GetUuid | GetValue | IsNotifying | GetFlags
    | ReadValue | WriteValue(values: seq<uint8>) | StartNotify | StopNotify

  datatype CharacteristicTestOp =
    | SetUuid(uuid: string)
    | SetValue(value: seq<uint8>)
    | SetNotifying(notifying: bool)
    | SetFlags(flags: seq<string>)

  datatype DescriptorOp =
    | GetId | GetUuid | GetValue | GetFlags | ReadValue | WriteValue(values: seq<uint8>)

  datatype DescriptorTestOp =
    | SetUuid(uuid: string)
    | SetValue(value: seq<uint8>)
    | SetFlags(flags: seq<string>)

  /** The operations of an adapter, apart from device listing and discovery sessions. */
  datatype AdapterOp =
    | GetId
    | GetAddress | SetAddress(address: string)
    | GetName | SetName(name: string)
    | GetAlias | SetAlias(alias: string)
    | GetClass | SetClass(adapterClass: uint32)
    | IsPowered | SetPowered(powered: bool)
    | IsPresent | SetPresent(present: bool)
    | IsDiscoverable | SetDiscoverable(discoverable: bool)
    | IsPairable | SetPairable(pairable: bool)
    | GetPairableTimeout | SetPairableTimeout(pairableTimeout: uint32)
    | GetDiscoverableTimeout | SetDiscoverableTimeout(discoverableTimeout: uint32)
    | IsDiscovering | SetDiscovering(discovering: bool)
    | SetCanStartDiscovery(canStartDiscovery: bool)
    | SetCanStopDiscovery(canStopDiscovery: bool)
    | GetUuids | SetUuids(uuids: seq<string>)
    | GetVendorIdSource | GetVendorId | GetProductId | GetDeviceId
    | GetModalias | SetModalias(modalias: string)
    | GetAdDatas | SetAdDatas(adDatas: seq<string>)

  /** One call into a native stack, naming the native object it is made on. */
  datatype NativeCall =
    | SessionCall(session: NativeId, sessionOp: SessionOp)
    | DeviceCall(device: NativeId, deviceOp: DeviceOp)
    | DeviceTestCall(device: NativeId, deviceTestOp: DeviceTestOp)
    | DeviceSetIdCall(device: NativeId, newId: string)
    | DeviceServicesCall(device: NativeId)
    | ServiceCall(service: NativeId, serviceOp: ServiceOp)
    | ServiceTestCall(service: NativeId, serviceTestOp: ServiceTestOp)
    | ServiceSetIdCall(service: NativeId, newId: string)
    | ServiceIncludesCall(service: NativeId)
    | ServiceCharacteristicsCall(service: NativeId)
    | CharacteristicCall(characteristic: NativeId, characteristicOp: CharacteristicOp)
    | CharacteristicTestCall(characteristic: NativeId, characteristicTestOp: CharacteristicTestOp)
    | CharacteristicSetIdCall(characteristic: NativeId, newId: string)
    | CharacteristicDescriptorsCall(characteristic: NativeId)
    | DescriptorCall(descriptor: NativeId, descriptorOp: DescriptorOp)
    | DescriptorTestCall(descriptor: NativeId, descriptorTestOp: DescriptorTestOp)
    | DescriptorSetIdCall(descriptor: NativeId, newId: string)
    | AdapterCall(adapter: NativeId, adapterOp: AdapterOp)
    | AdapterDevicesCall(adapter: NativeId)   // the native `get_device_list`
    | AdapterInitCall                         // the stack's static adapter `init`
    | SessionCreateCall(adapter: NativeId)    // the stack's `create_session`

  function DeviceSort(op: DeviceOp): Sort {
    match op
    case GetId | GetAddress | GetName | GetIcon | GetAlias | GetVendorIdSource => TextSort
    case GetClass | GetVendorId | GetProductId | GetDeviceId => Word32Sort
    case GetAppearance => Word16Sort
    case GetUuids => TextsSort
    case IsPaired | IsConnected | IsTrusted | IsBlocked | IsLegacyPairing => FlagSort
    case GetModalias => ModaliasSort
    case GetRssi | GetTxPower => Signed16Sort
    case GetManufacturerData => ManufacturerDataSort
    case GetServiceData => ServiceDataSort
    case Connect | Disconnect | ConnectProfile(_) | DisconnectProfile(_) | Pair | CancelPairing => UnitSort
  }

  function ServiceSort(op: ServiceOp): Sort {
    match op
    case GetId | GetUuid => TextSort
    case IsPrimary => FlagSort
  }

  function CharacteristicSort(op: CharacteristicOp): Sort {
    match op
    case GetId | GetUuid => TextSort
    case GetValue | ReadValue => BytesSort
    case IsNotifying => FlagSort
    case GetFlags => TextsSort
    case WriteValue(_) | StartNotify | StopNotify => UnitSort
  }

  function DescriptorSort(op: DescriptorOp): Sort {
    match op
    case GetId | GetUuid => TextSort
    case GetValue | ReadValue => BytesSort
    case GetFlags => TextsSort
    case WriteValue(_) => UnitSort
  }

  function AdapterSort(op: AdapterOp): Sort {
    match op
    case GetId | GetAddress | GetName | GetAlias | GetVendorIdSource => TextSort
    case GetClass | GetPairableTimeout | GetDiscoverableTimeout
       | GetVendorId | GetProductId | GetDeviceId => Word32Sort
    case IsPowered | IsPresent | IsDiscoverable | IsPairable | IsDiscovering => FlagSort
    case GetUuids | GetAdDatas => TextsSort
    case GetModalias => ModaliasSort
    case SetAddress(_) | SetName(_) | SetAlias(_) | SetClass(_) | SetPowered(_) | SetPresent(_)
       | SetDiscoverable(_) | SetPairable(_) | SetPairableTimeout(_) | SetDiscoverableTimeout(_)
       | SetDiscovering(_) | SetCanStartDiscovery(_) | SetCanStopDiscovery(_)
       | SetUuids(_) | SetModalias(_) | SetAdDatas(_) => UnitSort
  }

  /** The result type each native call is declared with. */
  function SortOf(c: NativeCall): Sort {
    match c
    case SessionCall(_, _) => UnitSort
    case DeviceCall(_, op) => DeviceSort(op)
    case DeviceTestCall(_, op) => if op.IsConnectable? then FlagSort else UnitSort
    case DeviceSetIdCall(_, _) => UnitSort
    case DeviceServicesCall(_) => TextsSort
    case ServiceCall(_, op) => ServiceSort(op)
    case ServiceTestCall(_, _) => UnitSort
    case ServiceSetIdCall(_, _) => UnitSort
    case ServiceIncludesCall(_) => TextsSort
    case ServiceCharacteristicsCall(_) => TextsSort
    case CharacteristicCall(_, op) => CharacteristicSort(op)
    case CharacteristicTestCall(_, _) => UnitSort
    case CharacteristicSetIdCall(_, _) => UnitSort
    case CharacteristicDescriptorsCall(_) => TextsSort
    case DescriptorCall(_, op) => DescriptorSort(op)
    case DescriptorTestCall(_, _) => UnitSort
    case DescriptorSetIdCall(_, _) => UnitSort
    case AdapterCall(_, op) => AdapterSort(op)
    case AdapterDevicesCall(_) => TextsSort
    case AdapterInitCall => TextSort
    case SessionCreateCall(_) => TextSort
  }

  /** The calls declared without a `Result`: `get_id` and `set_id` cannot fail. */
  predicate Infallible(c: NativeCall) {
    || (c.DeviceCall? && c.deviceOp.GetId?)
    || (c.ServiceCall? && c.serviceOp.GetId?)
    || (c.CharacteristicCall? && c.characteristicOp.GetId?)
    || (c.DescriptorCall? && c.descriptorOp.GetId?)
    || (c.AdapterCall? && c.adapterOp.GetId?)
    || c.DeviceSetIdCall? || c.ServiceSetIdCall? || c.CharacteristicSetIdCall? || c.DescriptorSetIdCall?
  }

  /** What the type system guarantees of an answer to call `c`. */
  predicate Conforms(c: NativeCall, r: Result<Value>) {
    match r
    case Ok(v) => HasSort(v, SortOf(c))
    case Err(e) => e.Backend? && !Infallible(c)
  }

  // ---------------------------------------------------------------------
  // The stacks

  /** A call as it reaches a stack: which stack, and what is asked of it. */
  datatype Sent = Sent(tag: Tag, call: NativeCall)

  ghost predicate Typed(f: (seq<NativeCall>, Sent) -> Result<Value>) {
    forall history: seq<NativeCall>, s: Sent :: Conforms(s.call, f(history, s))
  }

  /**
   * How the stacks answer: given every call a stack has received so far and the
   * new call, the answer. Any behaviour is allowed, including state that
   * earlier calls (the fake's setters, say) have changed, as long as the
   * answer has the declared type.
   */
  type Oracle = f: (seq<NativeCall>, Sent) -> Result<Value> | Typed(f)
    witness (history: seq<NativeCall>, s: Sent) => Ok(DefaultOf(SortOf(s.call)))

  /** The stacks: how they answer, and every call sent to any of them, in order. */
  datatype Stacks = Stacks(oracle: Oracle, log: seq<Sent>)

  /** The outcome of a facade operation: its result and the stacks afterwards. */
  datatype Reply<+T> = Reply(result: Result<T>, after: Stacks)

  /** The calls stack `t` has received, in order. */
  function CallsTo(log: seq<Sent>, t: Tag): seq<NativeCall>
  {
    if log == [] then []
    else
      var last := log[|log| - 1];
      CallsTo(log[..|log| - 1], t) + (if last.tag == t then [last.call] else [])
  }

  lemma CallsToAppend(log: seq<Sent>, s: Sent, t: Tag)
    ensures CallsTo(log + [s], t) == CallsTo(log, t) + (if s.tag == t then [s.call] else [])
  {
    assert (log + [s])[..|log|] == log;
  }

  /** The answer stack `tag` gives to `call` now. */
  function Answer(w: Stacks, tag: Tag, call: NativeCall): (r: Result<Value>)
    ensures Conforms(call, r)
  {
    w.oracle(CallsTo(w.log, tag), Sent(tag, call))
  }

  /** The stacks once `call` has been sent to stack `tag`. */
  function Logged(w: Stacks, tag: Tag, call: NativeCall): Stacks {
    Stacks(w.oracle, w.log + [Sent(tag, call)])
  }

  /** Sending one call: the addressed stack answers, and the call is logged. */
  function Send(w: Stacks, tag: Tag, call: NativeCall): (r: Reply<Value>)
    ensures Conforms(call, r.result)
  {
    Reply(Answer(w, tag, call), Logged(w, tag, call))
  }
}
