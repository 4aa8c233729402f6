/**
 * The handle types of the facade and their operations: discovery sessions,
 * devices, GATT services, characteristics and descriptors. Every handle is a
 * tag naming the stack that backs it plus the native object it wraps. Every
 * production operation goes to the handle's own stack and returns what that
 * stack answers; every test-only operation goes to the fake stack when the
 * handle is a mock and fails with `NotSupportedOnReal` otherwise; every
 * child handle is built with its parent's tag.
 */
module Bluetooth {
  import opened Native

  datatype Adapter = Adapter(tag: Tag, native: NativeId)
  datatype Session = Session(tag: Tag, native: NativeId)
  datatype Device = Device(tag: Tag, native: NativeId)
  datatype Service = Service(tag: Tag, native: NativeId)
  datatype Characteristic = Characteristic(tag: Tag, native: NativeId)
  datatype Descriptor = Descriptor(tag: Tag, native: NativeId)

  // ---------------------------------------------------------------------
  // Routing

  /**
   * Production routing: one arm per stack, each forwarding to the stack of
   * that arm. The call reaches exactly the stack named by `tag`, once, and its
   * answer comes back unchanged.
   */
  function Dispatch(w: Stacks, tag: Tag, call: NativeCall): (r: Reply<Value>)
    ensures r.result == Answer(w, tag, call)
    ensures r.after == Logged(w, tag, call)
  {
    match tag
    case Bluez => Send(w, Bluez, call)
    case Android => Send(w, Android, call)
    case Mac => Send(w, Mac, call)
    case Empty => Send(w, Empty, call)
    case Mock => Send(w, Mock, call)
  }

  /** Routing never reaches a stack other than the handle's own. */
  lemma {:induction false} DispatchReachesOnlyOwnStack(w: Stacks, tag: Tag, call: NativeCall, t: Tag)
    ensures CallsTo(Dispatch(w, tag, call).after.log, t)
         == if t == tag then CallsTo(w.log, t) + [call] else CallsTo(w.log, t)
  {
    CallsToAppend(w.log, Sent(tag, call), t);
  }

  /**
   * Test-only routing: a mock handle forwards to the fake stack; any other
   * handle gets `NotSupportedOnReal` and no stack is called.
   */
  function TestDispatch(w: Stacks, tag: Tag, call: NativeCall): (r: Reply<Value>)
    ensures tag == Mock ==> r.result == Answer(w, Mock, call) && r.after == Logged(w, Mock, call)
    ensures tag != Mock ==> r.result == Err(NotSupportedOnReal) && r.after == w
    ensures r.result == Err(NotSupportedOnReal) <==> tag != Mock
  {
    match tag
    case Mock => Send(w, Mock, call)
    case _ => Reply(Err(NotSupportedOnReal), w)
  }

  // ---------------------------------------------------------------------
  // Discovery sessions

  /** `start_discovery` and `stop_discovery`. */
  function SessionOperation(w: Stacks, s: Session, op: SessionOp): (r: Reply<Value>)
    ensures r.result == Answer(w, s.tag, SessionCall(s.native, op))
    ensures r.after == Logged(w, s.tag, SessionCall(s.native, op))
    ensures r.result.Ok? ==> r.result.value == Unit
  {
    Dispatch(w, s.tag, SessionCall(s.native, op))
  }

  // ---------------------------------------------------------------------
  // Devices

  /** A mock device can only be made from a mock adapter. */
  function CreateMockDevice(adapter: Adapter, device: NativeId): (r: Result<Device>)
    ensures r.Ok? <==> adapter.tag == Mock
    ensures r.Ok? ==> r.value == Device(Mock, device)
    ensures r.Err? ==> r.error == NotSupportedOnMock
  {
    match adapter.tag
    case Mock => Ok(Device(Mock, device))
    case _ => Err(NotSupportedOnMock)
  }

  /** Every production operation of a device except listing its services. */
  function DeviceOperation(w: Stacks, d: Device, op: DeviceOp): (r: Reply<Value>)
    ensures r.result == Answer(w, d.tag, DeviceCall(d.native, op))
    ensures r.after == Logged(w, d.tag, DeviceCall(d.native, op))
    ensures r.result.Ok? ==> HasSort(r.result.value, DeviceSort(op))
    ensures op.GetId? ==> r.result.Ok?
  {
    Dispatch(w, d.tag, DeviceCall(d.native, op))
  }

  /** Every test-only operation of a device except `set_id`. */
  function DeviceTestOperation(w: Stacks, d: Device, op: DeviceTestOp): (r: Reply<Value>)
    ensures d.tag == Mock ==> r.result == Answer(w, Mock, DeviceTestCall(d.native, op))
    ensures d.tag == Mock ==> r.after == Logged(w, Mock, DeviceTestCall(d.native, op))
    ensures d.tag != Mock ==> r.result == Err(NotSupportedOnReal) && r.after == w
    ensures r.result == Err(NotSupportedOnReal) <==> d.tag != Mock
  {
    TestDispatch(w, d.tag, DeviceTestCall(d.native, op))
  }

  /** `set_id`: forwarded to the fake on a mock, a silent no-op on any other device. */
  function SetDeviceId(w: Stacks, d: Device, id: string): (after: Stacks)
    ensures d.tag == Mock ==> after == Logged(w, Mock, DeviceSetIdCall(d.native, id))
    ensures d.tag != Mock ==> after == w
  {
    match d.tag
    case Mock => Send(w, Mock, DeviceSetIdCall(d.native, id)).after
    case _ => w
  }

  /** `children` holds one service per native id, in order, each tagged `tag`. */
  predicate ListsServices(tag: Tag, ids: seq<NativeId>, children: seq<Service>) {
    && |children| == |ids|
    && forall i :: 0 <= i < |ids| ==> children[i] == Service(tag, ids[i])
  }

  /**
   * `get_gatt_services`: a failed listing is returned as it is; otherwise one
   * service per listed id, in order, each with the device's tag.
   */
  function GetGattServices(w: Stacks, d: Device): (r: Reply<seq<Service>>)
    ensures r.after == Logged(w, d.tag, DeviceServicesCall(d.native))
    ensures match Answer(w, d.tag, DeviceServicesCall(d.native))
            case Err(e) => r.result == Err(e)
            case Ok(ids) => r.result.Ok? && ListsServices(d.tag, ids.texts, r.result.value)
  {
    var listed := Dispatch(w, d.tag, DeviceServicesCall(d.native));
    match listed.result
    case Err(e) => Reply(Err(e), listed.after)
    case Ok(ids) =>
      Reply(Ok(seq(|ids.texts|, i requires 0 <= i < |ids.texts| => CreateService(d, ids.texts[i]))),
            listed.after)
  }

  // ---------------------------------------------------------------------
  // GATT services

  /** `create_service`: the service takes the device's tag. */
  function CreateService(device: Device, service: NativeId): (s: Service)
    ensures s.tag == device.tag && s.native == service
  {
    match device.tag
    case Bluez => Service(Bluez, service)
    case Android => Service(Android, service)
    case Mac => Service(Mac, service)
    case Empty => Service(Empty, service)
    case Mock => Service(Mock, service)
  }

  /** A mock service can only be made from a mock device. */
  function CreateMockService(device: Device, service: NativeId): (r: Result<Service>)
    ensures r.Ok? <==> device.tag == Mock
    ensures r.Ok? ==> r.value == Service(Mock, service)
    ensures r.Err? ==> r.error == NotSupportedOnMock
  {
    match device.tag
    case Mock => Ok(Service(Mock, service))
    case _ => Err(NotSupportedOnMock)
  }

  function ServiceOperation(w: Stacks, s: Service, op: ServiceOp): (r: Reply<Value>)
    ensures r.result == Answer(w, s.tag, ServiceCall(s.native, op))
    ensures r.after == Logged(w, s.tag, ServiceCall(s.native, op))
    ensures r.result.Ok? ==> HasSort(r.result.value, ServiceSort(op))
    ensures op.GetId? ==> r.result.Ok?
  {
    Dispatch(w, s.tag, ServiceCall(s.native, op))
  }

  function ServiceTestOperation(w: Stacks, s: Service, op: ServiceTestOp): (r: Reply<Value>)
    ensures s.tag == Mock ==> r.result == Answer(w, Mock, ServiceTestCall(s.native, op))
    ensures s.tag == Mock ==> r.after == Logged(w, Mock, ServiceTestCall(s.native, op))
    ensures s.tag != Mock ==> r.result == Err(NotSupportedOnReal) && r.after == w
    ensures r.result == Err(NotSupportedOnReal) <==> s.tag != Mock
  {
    TestDispatch(w, s.tag, ServiceTestCall(s.native, op))
  }

  function SetServiceId(w: Stacks, s: Service, id: string): (after: Stacks)
    ensures s.tag == Mock ==> after == Logged(w, Mock, ServiceSetIdCall(s.native, id))
    ensures s.tag != Mock ==> after == w
  {
    match s.tag
    case Mock => Send(w, Mock, ServiceSetIdCall(s.native, id)).after
    case _ => w
  }

  /**
   * `get_includes`: the listing comes from the service's own stack, but each
   * included service is built from `device`, so it carries the tag of
   * `device` whatever the tag of `s`.
   */
  function GetIncludes(w: Stacks, s: Service, device: Device): (r: Reply<seq<Service>>)
    ensures r.after == Logged(w, s.tag, ServiceIncludesCall(s.native))
    ensures match Answer(w, s.tag, ServiceIncludesCall(s.native))
            case Err(e) => r.result == Err(e)
            case Ok(ids) => r.result.Ok? && ListsServices(device.tag, ids.texts, r.result.value)
  {
    var listed := Dispatch(w, s.tag, ServiceIncludesCall(s.native));
    match listed.result
    case Err(e) => Reply(Err(e), listed.after)
    case Ok(ids) =>
      Reply(Ok(seq(|ids.texts|, i requires 0 <= i < |ids.texts| => CreateService(device, ids.texts[i]))),
            listed.after)
  }

  /** `children` holds one characteristic per native id, in order, each tagged `tag`. */
  predicate ListsCharacteristics(tag: Tag, ids: seq<NativeId>, children: seq<Characteristic>) {
    && |children| == |ids|
    && forall i :: 0 <= i < |ids| ==> children[i] == Characteristic(tag, ids[i])
  }

  function GetGattCharacteristics(w: Stacks, s: Service): (r: Reply<seq<Characteristic>>)
    ensures r.after == Logged(w, s.tag, ServiceCharacteristicsCall(s.native))
    ensures match Answer(w, s.tag, ServiceCharacteristicsCall(s.native))
            case Err(e) => r.result == Err(e)
            case Ok(ids) => r.result.Ok? && ListsCharacteristics(s.tag, ids.texts, r.result.value)
  {
    var listed := Dispatch(w, s.tag, ServiceCharacteristicsCall(s.native));
    match listed.result
    case Err(e) => Reply(Err(e), listed.after)
    case Ok(ids) =>
      Reply(Ok(seq(|ids.texts|, i requires 0 <= i < |ids.texts| => CreateCharacteristic(s, ids.texts[i]))),
            listed.after)
  }

  // ---------------------------------------------------------------------
  // GATT characteristics

  /** `create_characteristic`: the characteristic takes the service's tag. */
  function CreateCharacteristic(service: Service, characteristic: NativeId): (c: Characteristic)
    ensures c.tag == service.tag && c.native == characteristic
  {
    match service.tag
    case Bluez => Characteristic(Bluez, characteristic)
    case Android => Characteristic(Android, characteristic)
    case Mac => Characteristic(Mac, characteristic)
    case Empty => Characteristic(Empty, characteristic)
    case Mock => Characteristic(Mock, characteristic)
  }

  function CreateMockCharacteristic(service: Service, characteristic: NativeId): (r: Result<Characteristic>)
    ensures r.Ok? <==> service.tag == Mock
    ensures r.Ok? ==> r.value == Characteristic(Mock, characteristic)
    ensures r.Err? ==> r.error == NotSupportedOnMock
  {
    match service.tag
    case Mock => Ok(Characteristic(Mock, characteristic))
    case _ => Err(NotSupportedOnMock)
  }

  /** Every production operation of a characteristic except listing its descriptors. */
  function CharacteristicOperation(w: Stacks, c: Characteristic, op: CharacteristicOp): (r: Reply<Value>)
    ensures r.result == Answer(w, c.tag, CharacteristicCall(c.native, op))
    ensures r.after == Logged(w, c.tag, CharacteristicCall(c.native, op))
    ensures r.result.Ok? ==> HasSort(r.result.value, CharacteristicSort(op))
    ensures op.GetId? ==> r.result.Ok?
  {
    Dispatch(w, c.tag, CharacteristicCall(c.native, op))
  }

  function CharacteristicTestOperation(w: Stacks, c: Characteristic, op: CharacteristicTestOp): (r: Reply<Value>)
    ensures c.tag == Mock ==> r.result == Answer(w, Mock, CharacteristicTestCall(c.native, op))
    ensures c.tag == Mock ==> r.after == Logged(w, Mock, CharacteristicTestCall(c.native, op))
    ensures c.tag != Mock ==> r.result == Err(NotSupportedOnReal) && r.after == w
    ensures r.result == Err(NotSupportedOnReal) <==> c.tag != Mock
  {
    TestDispatch(w, c.tag, CharacteristicTestCall(c.native, op))
  }

  function SetCharacteristicId(w: Stacks, c: Characteristic, id: string): (after: Stacks)
    ensures c.tag == Mock ==> after == Logged(w, Mock, CharacteristicSetIdCall(c.native, id))
    ensures c.tag != Mock ==> after == w
  {
    match c.tag
    case Mock => Send(w, Mock, CharacteristicSetIdCall(c.native, id)).after
    case _ => w
  }

  /** `children` holds one descriptor per native id, in order, each tagged `tag`. */
  predicate ListsDescriptors(tag: Tag, ids: seq<NativeId>, children: seq<Descriptor>) {
    && |children| == |ids|
    && forall i :: 0 <= i < |ids| ==> children[i] == Descriptor(tag, ids[i])
  }

  function GetGattDescriptors(w: Stacks, c: Characteristic): (r: Reply<seq<Descriptor>>)
    ensures r.after == Logged(w, c.tag, CharacteristicDescriptorsCall(c.native))
    ensures match Answer(w, c.tag, CharacteristicDescriptorsCall(c.native))
            case Err(e) => r.result == Err(e)
            case Ok(ids) => r.result.Ok? && ListsDescriptors(c.tag, ids.texts, r.result.value)
  {
    var listed := Dispatch(w, c.tag, CharacteristicDescriptorsCall(c.native));
    match listed.result
    case Err(e) => Reply(Err(e), listed.after)
    case Ok(ids) =>
      Reply(Ok(seq(|ids.texts|, i requires 0 <= i < |ids.texts| => CreateDescriptor(c, ids.texts[i]))),
            listed.after)
  }

  // ---------------------------------------------------------------------
  // GATT descriptors

  /** `create_descriptor`: the descriptor takes the characteristic's tag. */
  function CreateDescriptor(characteristic: Characteristic, descriptor: NativeId): (x: Descriptor)
    ensures x.tag == characteristic.tag && x.native == descriptor
  {
    match characteristic.tag
    case Bluez => Descriptor(Bluez, descriptor)
    case Android => Descriptor(Android, descriptor)
    case Mac => Descriptor(Mac, descriptor)
    case Empty => Descriptor(Empty, descriptor)
    case Mock => Descriptor(Mock, descriptor)
  }

  function CreateMockDescriptor(characteristic: Characteristic, descriptor: NativeId): (r: Result<Descriptor>)
    ensures r.Ok? <==> characteristic.tag == Mock
    ensures r.Ok? ==> r.value == Descriptor(Mock, descriptor)
    ensures r.Err? ==> r.error == NotSupportedOnMock
  {
    match characteristic.tag
    case Mock => Ok(Descriptor(Mock, descriptor))
    case _ => Err(NotSupportedOnMock)
  }

  function DescriptorOperation(w: Stacks, x: Descriptor, op: DescriptorOp): (r: Reply<Value>)
    ensures r.result == Answer(w, x.tag, DescriptorCall(x.native, op))
    ensures r.after == Logged(w, x.tag, DescriptorCall(x.native, op))
    ensures r.result.Ok? ==> HasSort(r.result.value, DescriptorSort(op))
    ensures op.GetId? ==> r.result.Ok?
  {
    Dispatch(w, x.tag, DescriptorCall(x.native, op))
  }

  function DescriptorTestOperation(w: Stacks, x: Descriptor, op: DescriptorTestOp): (r: Reply<Value>)
    ensures x.tag == Mock ==> r.result == Answer(w, Mock, DescriptorTestCall(x.native, op))
    ensures x.tag == Mock ==> r.after == Logged(w, Mock, DescriptorTestCall(x.native, op))
    ensures x.tag != Mock ==> r.result == Err(NotSupportedOnReal) && r.after == w
    ensures r.result == Err(NotSupportedOnReal) <==> x.tag != Mock
  {
    TestDispatch(w, x.tag, DescriptorTestCall(x.native, op))
  }

  function SetDescriptorId(w: Stacks, x: Descriptor, id: string): (after: Stacks)
    ensures x.tag == Mock ==> after == Logged(w, Mock, DescriptorSetIdCall(x.native, id))
    ensures x.tag != Mock ==> after == w
  {
    match x.tag
    case Mock => Send(w, Mock, DescriptorSetIdCall(x.native, id)).after
    case _ => w
  }

  // ---------------------------------------------------------------------
  // Relations between operations

  /**
   * On a mock parent the mock constructors build exactly what the production
   * constructors build; on any other parent they refuse.
   */
  lemma MockConstructorsAgree(d: Device, s: Service, c: Characteristic, id: NativeId)
    ensures d.tag == Mock ==> CreateMockService(d, id) == Ok(CreateService(d, id))
    ensures s.tag == Mock ==> CreateMockCharacteristic(s, id) == Ok(CreateCharacteristic(s, id))
    ensures c.tag == Mock ==> CreateMockDescriptor(c, id) == Ok(CreateDescriptor(c, id))
    ensures d.tag != Mock ==> CreateMockService(d, id) == Err(NotSupportedOnMock)
    ensures s.tag != Mock ==> CreateMockCharacteristic(s, id) == Err(NotSupportedOnMock)
    ensures c.tag != Mock ==> CreateMockDescriptor(c, id) == Err(NotSupportedOnMock)
  {
  }

  /**
   * `get_includes` asks the service's own stack, yet tags what it returns
   * with the device argument's tag: given a device of another stack, every
   * included service carries a tag different from the service it came from.
   */
  lemma IncludesTakeTheDeviceTag(w: Stacks, s: Service, device: Device)
    requires device.tag != s.tag
    requires Answer(w, s.tag, ServiceIncludesCall(s.native)).Ok?
    ensures GetIncludes(w, s, device).result.Ok?
    ensures forall x :: x in GetIncludes(w, s, device).result.value ==> x.tag == device.tag && x.tag != s.tag
  {
  }
}
