# Bluetooth facade: backend dispatch and object identity

This project models the facade layer of the `devices` crate (Servo's
Bluetooth support). The facade gives a single API over five native Bluetooth
stacks:

- BlueZ on Linux;
- the Android stack;
- CoreBluetooth on macOS;
- an empty stub for unsupported platforms;
- an in-memory fake used by tests.

Every handle (adapter, discovery session, device, GATT service,
characteristic, descriptor) records which stack backs it. The model covers
four things:

- how each operation is routed to that stack;
- how child handles inherit their parent's stack;
- what the test-only operations do on real handles;
- how the real adapters list devices, look one up by address and open
  discovery sessions.

The model has three modules:

- `Native` (`native.dfy`) holds the stack tags, the facade's error values,
  the calls the facade can send to a stack and the values a stack answers
  with. All the stacks together are a `Stacks` value: an oracle that answers
  each call, plus a log of every call sent. The oracle may base each answer
  on the earlier calls to the same stack. It is typed: an answer has the
  shape the Rust signature declares, a failure is a `Backend` error, and
  `get_id` and `set_id` never fail. "No stack is called" is stated as
  `after == w`. "Only the handle's own stack is called" is stated with
  `CallsTo`, which is the log filtered to one stack.
- `Bluetooth` (`bluetooth.dfy`) models `src/bluetooth.rs`. It holds:
  - the handle types;
  - the two routing macros, as `Dispatch` and `TestDispatch`;
  - the per-handle operations;
  - the `create_*` and `create_mock_*` constructors;
  - the enumerators that build child handles.
- `BluetoothAdapter` (`adapter.dfy`) models the four real adapter
  implementations in `src/adapter.rs`. It covers the forwarding getters, the
  operations that answer `NotSupported`, `get_devices`,
  `create_discovery_session`, and `get_device`. `get_device` is a method
  with a loop, proved equal to the recursive specification `Scan`.

## Model

| member | source | states |
|---|---|---|
| Bluetooth.Dispatch | src/bluetooth.rs:173-241 | a production call is answered by the stack named by the handle's tag, the answer is returned unchanged, and exactly that one call is appended to the log |
| Bluetooth.DispatchReachesOnlyOwnStack | src/bluetooth.rs:173-189 | after routing, the history of the handle's own stack has grown by exactly the call, and the history of every other stack is unchanged |
| Bluetooth.TestDispatch | src/bluetooth.rs:243-257 | a test-only call on a mock handle goes to the fake stack; on any other handle it fails with `NotSupportedOnReal` and calls no stack; the result is `NotSupportedOnReal` exactly when the handle is not a mock |
| Bluetooth.SessionOperation | src/bluetooth.rs:262-271 | `start_discovery` and `stop_discovery` are answered by the session's own stack; success carries no value |
| Bluetooth.CreateMockDevice | src/bluetooth.rs:275-285 | succeeds exactly when the adapter is a mock, giving a mock device with the given id; otherwise fails with `NotSupportedOnMock` |
| Bluetooth.DeviceOperation | src/bluetooth.rs:287-505 | every production device operation is answered by the device's own stack; a success has the declared result type; `get_id` never fails |
| Bluetooth.DeviceTestOperation | src/bluetooth.rs:303-476 | every device test setter, and `is_connectable`, goes to the fake on a mock device; on a real device it fails with `NotSupportedOnReal` and calls no stack |
| Bluetooth.SetDeviceId | src/bluetooth.rs:291-297 | `set_id` is forwarded to the fake on a mock device, and is a silent no-op that calls no stack on any other device |
| Bluetooth.GetGattServices | src/bluetooth.rs:478-481 | a failed listing is returned unchanged; otherwise one service per listed id, in order, each with the device's tag and that id |
| Bluetooth.CreateService | src/bluetooth.rs:509-535 | the service takes the device's tag and the given native id |
| Bluetooth.CreateMockService | src/bluetooth.rs:536-546 | succeeds exactly when the device is a mock, giving a mock service; otherwise fails with `NotSupportedOnMock` |
| Bluetooth.ServiceOperation | src/bluetooth.rs:548-571 | `get_id`, `get_uuid` and `is_primary` are answered by the service's own stack with the declared result type; `get_id` never fails |
| Bluetooth.ServiceTestOperation | src/bluetooth.rs:564-576 | `set_uuid` and `set_primary` go to the fake on a mock service, and fail with `NotSupportedOnReal` without calling any stack otherwise |
| Bluetooth.SetServiceId | src/bluetooth.rs:552-558 | `set_id` is forwarded on a mock service and is a no-op on any other service |
| Bluetooth.GetIncludes | src/bluetooth.rs:578-581 | the listing comes from the service's own stack; a failure is returned unchanged; otherwise one service per id, in order, each with the tag of the device argument |
| Bluetooth.GetGattCharacteristics | src/bluetooth.rs:583-589 | a failed listing is returned unchanged; otherwise one characteristic per listed id, in order, each with the service's tag |
| Bluetooth.CreateCharacteristic | src/bluetooth.rs:593-621 | the characteristic takes the service's tag and the given native id |
| Bluetooth.CreateMockCharacteristic | src/bluetooth.rs:622-635 | succeeds exactly when the service is a mock; otherwise fails with `NotSupportedOnMock` |
| Bluetooth.CharacteristicOperation | src/bluetooth.rs:637-706 | every production characteristic operation is answered by its own stack with the declared result type; `get_id` never fails |
| Bluetooth.CharacteristicTestOperation | src/bluetooth.rs:653-683 | the characteristic test setters go to the fake on a mock, and fail with `NotSupportedOnReal` without calling any stack otherwise |
| Bluetooth.SetCharacteristicId | src/bluetooth.rs:641-647 | `set_id` is forwarded on a mock characteristic and is a no-op otherwise |
| Bluetooth.GetGattDescriptors | src/bluetooth.rs:685-690 | a failed listing is returned unchanged; otherwise one descriptor per listed id, in order, each with the characteristic's tag |
| Bluetooth.CreateDescriptor | src/bluetooth.rs:710-737 | the descriptor takes the characteristic's tag and the given native id |
| Bluetooth.CreateMockDescriptor | src/bluetooth.rs:738-751 | succeeds exactly when the characteristic is a mock; otherwise fails with `NotSupportedOnMock` |
| Bluetooth.DescriptorOperation | src/bluetooth.rs:753-798 | every production descriptor operation is answered by its own stack with the declared result type; `get_id` never fails |
| Bluetooth.DescriptorTestOperation | src/bluetooth.rs:769-790 | the descriptor test setters go to the fake on a mock, and fail with `NotSupportedOnReal` without calling any stack otherwise |
| Bluetooth.SetDescriptorId | src/bluetooth.rs:757-763 | `set_id` is forwarded on a mock descriptor and is a no-op otherwise |
| Bluetooth.MockConstructorsAgree | src/bluetooth.rs:509-546 | on a mock parent, `create_mock_service`, `create_mock_characteristic` and `create_mock_descriptor` build exactly what the production constructors build; on any other parent they fail with `NotSupportedOnMock` |
| Bluetooth.IncludesTakeTheDeviceTag | src/bluetooth.rs:578-581 | given a device of another stack, every service `get_includes` returns carries the device's tag, not the tag of the service that listed it |
| BluetoothAdapter.AdapterOperation | src/adapter.rs:134-291 | each getter is answered by the adapter's own stack; each setter, `set_can_start_discovery`, `set_can_stop_discovery`, `is_present`, `get_ad_datas` and `set_ad_datas` fails with `NotSupported` and calls no stack; the result is `NotSupported` exactly for those operations |
| BluetoothAdapter.GetDevices | src/adapter.rs:303-307 | a failed listing is returned unchanged; Android and macOS then initialise a native adapter, and a failed initialisation fails the call; otherwise one device per listed id, in order, each with the adapter's tag |
| BluetoothAdapter.CreateDiscoverySession | src/adapter.rs:248-252 | initialises a native adapter and opens a session on it; either failure is returned unchanged; the session carries the adapter's tag |
| BluetoothAdapter.Scan | src/adapter.rs:145-153 | a device returned by the address scan is one of the scanned devices |
| BluetoothAdapter.ScanSkipsMismatches | src/adapter.rs:145-153 | devices that report another address are passed over, and only their address query is sent |
| BluetoothAdapter.ScanFindsFirstMatch | src/adapter.rs:145-153 | the first device that reports the address is returned, and no later device is queried |
| BluetoothAdapter.ScanStopsAtFirstFailure | src/adapter.rs:145-153 | a failed address query, reached before any match, aborts the lookup with that failure, whatever later devices would answer |
| BluetoothAdapter.ScanNotFound | src/adapter.rs:145-153 | when every device reports another address, the result is `Ok(None)`, and every device has been queried once |
| BluetoothAdapter.ScanNoneOnlyIfNoMatch | src/adapter.rs:145-153 | `Ok(None)` is returned only when every device reported an address different from the one looked for |
| BluetoothAdapter.ScanStaysOnStack | src/adapter.rs:145-153 | scanning devices of one stack sends nothing to any other stack |
| BluetoothAdapter.GetDevicesStaysOnStack | src/adapter.rs:467-471 | everything `get_devices` sends goes to the adapter's own stack |
| BluetoothAdapter.GetDevice | src/adapter.rs:145-153 | a `get_devices` failure is returned unchanged; otherwise the result and the final stacks are those of the first-match `Scan` over the listed devices; a found device has the adapter's tag; no other stack is called |

## Left out

- The fake stack's own behaviour is not part of this model. It is the test library behind the `Mock` tag, so the model does not capture round trips such as `set_uuid` followed by `get_uuid`. The model only says which calls reach the fake.
- The adapter's `Mock` implementation (`src/adapter.rs:785-964`) is left out. As written it cannot build: it reads `set.0`, calls setters without their argument, and matches the adapter on itself. Every adapter operation therefore requires `a.tag != Mock`.
- `BluetoothAdapter::new` and `new_mock` are left out. They call native constructors whose behaviour is not part of this model.
- The platform `cfg` gating is left out. The model keeps all five arms of every routing match, while a real build compiles in at most one real stack plus the fake.
- Reference counting (`Arc`) is left out, and so are the concrete types of the native objects.
- Every `create_discovery_session` builds its session on a fresh native adapter (`src/adapter.rs:249-250`, `411-412`, `573-574`, `738-739`). The model passes that adapter's id to the stack in `SessionCreateCall`, but the `Session` handle does not keep it. Likewise the native adapter that Android and macOS devices are built from is not kept in the `Device` handle. A handle is its tag plus an opaque native id. The native constructors (`BluetoothGATTServiceBluez::new`, `FakeBluetoothGATTService::new_empty`, ...) are modelled as pure wrapping that calls no stack.
- The extra `None` offset argument that BlueZ receives on `read_value` and `write_value` is left out. It is a constant, and the model records the call without it.
- Error message texts are not modelled. Each sentinel error is its own constructor of `Error`, and every stack failure is `Backend(message)`.
- Thread safety and any concurrency between calls are left out.
- `get_id` returns a plain string in the source. The model returns it inside a `Result` and proves the result is always `Ok`.
- `Bluetooth.GetIncludes` follows the code: `get_includes` (`src/bluetooth.rs:578-581`) does not check that `device` comes from the same stack as `self`, and the model does not either; the included services take the device argument's tag (see `Bluetooth.IncludesTakeTheDeviceTag`).
