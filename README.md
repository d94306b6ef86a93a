# gateway-owm: a Dafny model of the weather gateway's device bookkeeping

gateway-owm publishes the current OpenWeatherMap reading for one place on an
xAAL home-automation bus. It does this through four virtual sensors (a
thermometer, a hygrometer, a barometer and a wind gauge) and a gateway device
that lists them. This project models the bookkeeping in `main.go` and proves
what it promises:

- **getConfigAddr** (`Registry.Resolve`, `Bridge.Service.GetConfigAddr`) is
  the read-through registry of device addresses kept in the configuration
  (`config.Devices`). An empty or missing entry gets a freshly generated
  identifier, which is stored and returned. An existing entry is returned
  unchanged.
- **setup** (`Model.Setup`, `Bridge.Service.Setup`) resolves the addresses
  under "temperature", "humidity", "pressure", "wind" and "addr". It appends
  the four sensors to `_devs` and marks the wind gauge's gust attributes
  unsupported. Then it runs the registration loop: collect each address, give
  the device its static metadata (`setupDev`) and register it with the engine.
  Last, it builds the gateway, whose `embedded` attribute is the collected
  address list, and registers it.
- **update** (`Model.Update`, `Bridge.Service.Update`) runs one sync cycle. It
  writes a weather reading into the four sensors: temperature, humidity,
  pressure, then wind strength converted from m/s to km/h and wind angle. Each
  device is notified right after its writes.

Structure:

- `devices.dfy` (module `Devices`): devices as values, with attribute writes,
  unsupported attributes and the static metadata of `setupDev`.
- `registry.dfy` (module `Registry`): the address registry. A missing key reads
  as `""`, as a Go map read does. `Resolve` is one `getConfigAddr` call and
  `ResolveAll` is a run of them.
- `engine.dfy` (module `Engine`): the calls into the xAAL engine, recorded as a
  trace of `AddDevice` and `NotifyAttributesChange` calls. Each call carries the
  device as it is at the time of the call.
- `model.dfy` (module `Model`): the process state, with `Setup` and `Update` as
  functions of it, and the lemmas about them.
- `bridge.dfy` (module `Bridge`): class `Service` holds the globals as mutable
  fields (`devices`, `devs`, the engine trace, the generator's draw count).
  Its methods do what the Go functions do, step by step. Each is proved to
  leave exactly the state the matching `Model` function describes.

The random UUID generator is a function `uuid: nat -> string`. The n-th
identifier the process draws is `uuid(n)`, and the draw count is part of the
state. Nothing is required of the generator except where a lemma says so.
`NonEmptyIds` says the generator never yields `""`. `DistinctIds` says it
never repeats. The code does not enforce distinctness, so every result that
needs it takes `DistinctIds` as a hypothesis.

The weather reading is an input record (`Model.Snapshot`). `update` ignores the
error of `CurrentByName` (main.go:147) and writes whatever the client holds, so
a failed fetch does not skip the cycle; the model has no fetch-failure path
either.

## Model

| member | source | states |
|---|---|---|
| Registry.Resolve | main.go:138-144 | The result is what the registry holds under the key afterwards. An assigned entry is returned, the map is unchanged and no identifier is drawn. An empty or missing entry gets the next generated identifier, which is stored and returned. |
| Registry.ResolveOnlyTouchesKey | main.go:139-140 | A call adds at most its own key. Every other key keeps its presence and its value. |
| Registry.ResolveIdempotent | main.go:138-144 | Calling getConfigAddr a second time with the same key returns the same address and changes nothing: same map, no new draw. |
| Registry.ResolveKeepsAssigned | main.go:139-140 | An address already assigned under any key survives a call for any key. |
| Registry.ResolveAll | main.go:104-114 | A run of getConfigAddr calls returns one address per key and never un-draws identifiers. |
| Registry.ResolveAllChain | main.go:104-114 | Separate getConfigAddr calls, each starting from the registry and draw count the previous one left, give the same addresses, final registry and draw count as one run over the keys. |
| Registry.ResolveAllFrame | main.go:139-140 | Keys outside the run keep their entries, and assigned entries never change. |
| Registry.ResolveAllStored | main.go:139-143 | With a generator of non-empty identifiers, every returned address is non-empty and is what the registry finally holds under its key. |
| Registry.ResolveAllDraws | main.go:139-140 | On distinct keys without addresses, the run draws exactly one identifier per key, consecutively and in key order. |
| Devices.LastWriteWins | main.go:148-158 | Of two SetAttributeValue writes to the same attribute, only the second remains. |
| Devices.WritesCommute | main.go:157-158 | Writes to two different attributes can be done in either order. |
| Devices.WithMetadata | main.go:26-32 | setupDev applied to each device of the list keeps the list's length and each device's kind, address, attributes and unsupported set. It sets the vendor, product, info, URL and version metadata. |
| Devices.SetupDev | main.go:26-32 | setupDev sets the vendor, product, info, URL and version metadata and leaves the kind, address, attributes and unsupported set as they were. |
| Devices.Addresses | main.go:116-118 | The addresses collected by the loop, in list order, one per device. |
| Model.WindGauge | main.go:108-110 | The wind gauge is a fresh wind gauge at the given address whose unsupported set is exactly "gustAngle" and "gustStrength". |
| Model.GatewayDevice | main.go:114-123 | The gateway is at its address with nothing unsupported. Its only attribute is `embedded`, the addresses of the listed devices in list order, and it carries all five metadata fields. |
| Model.Setup | main.go:102-124 | setup appends four devices to the list and only appends to the engine calls: one call per listed device, then the gateway's. Its other properties are stated by SetupBuildsSensors, SetupDeviceMetadata, SetupGatewayEmbedsDevices, SetupRegisters, SetupKeepsAssigned, SetupTouchesOnlyItsKeys and SetupFreshAddressesDistinct. |
| Model.WindStrength | main.go:156 | The wind speed in m/s times 3.6, the speed in km/h; WindStrengthExamples gives two worked values. |
| Model.Update | main.go:146-159 | A cycle keeps the registry, the draw count and the length of the list, and appends exactly four engine calls. Its other properties are stated by UpdateWrites, UpdateNotifiesInOrder, UpdateNeverNotifiesGateway, UpdateForgetsEarlierReading and UpdatePreservesDeployed. |
| Model.Sensors | main.go:104-111 | The four sensors are, in order, a thermometer, hygrometer, barometer and wind gauge, at the four given addresses. |
| Model.SetupAllocation | main.go:104-114 | setup makes five getConfigAddr calls and returns five addresses. |
| Model.SetupAllocationOfCalls | main.go:104-114 | The four sensor calls followed by the gateway's call in source order yield exactly SetupAllocation's addresses, registry and draw count. |
| Model.AllKeysDistinct | main.go:104-114 | The five registry keys setup uses are pairwise distinct. |
| Model.SetupBuildsSensors | main.go:104-111 | Starting from an empty device list, setup leaves exactly four devices of the four sensor kinds in order. Each one's address is the non-empty value now stored under its key: "temperature", "humidity", "pressure", "wind". |
| Model.SensorAddressesStored | main.go:104-111 | With a generator of non-empty identifiers, each sensor's address is the value setup leaves stored under its key. |
| Model.DeployedAt | main.go:104-111 | Four sensors of the sensor kinds, in order, at the addresses stored under their keys form the deployed state, and their address list is the four stored values in key order. |
| Model.SetupDeviceMetadata | main.go:108-119 | setup keeps the devices already listed apart from giving them the metadata, appends four devices, every listed device carries the static metadata, and the fourth one appended is the wind gauge with "gustAngle" and "gustStrength" unsupported. |
| Model.SetupGatewayEmbedsDevices | main.go:114-123 | The gateway's address is the non-empty value stored under "addr". Its only attribute is `embedded`, which equals the addresses of the listed devices in list order. It has nothing unsupported and carries all five metadata fields: vendor, product, info, URL and version. |
| Model.SetupRegisters | main.go:117-124 | setup registers every listed device in list order, each with its metadata, and then the gateway. It notifies nothing. |
| Model.SetupKeepsAssigned | main.go:139-143 | Any address already in the configuration is unchanged by setup, so a restarted gateway keeps its device identities. |
| Model.SetupTouchesOnlyItsKeys | main.go:104-114 | setup changes the registry only under its five keys. |
| Model.SetupFreshAddressesDistinct | main.go:104-114 | On a first run with a generator that never repeats, setup draws exactly five identifiers and the five stored addresses are pairwise distinct. |
| Model.UpdateWrites | main.go:148-158 | One cycle writes temperature, humidity and pressure into devices 0-2. Device 3 gets windStrength, the wind speed times 3.6, and windAngle. Nothing else changes: not the registry, not the draw count, not the other devices, and no field other than the attributes. |
| Model.UpdateNotifiesInOrder | main.go:147-159 | One cycle notifies exactly devices 0, 1, 2 and 3, in that order, each with its new values. It registers nothing. |
| Model.SensorsAppended | main.go:149-159 | Four notified devices taken from a list that starts with the four sensors are sensors in sensor order, never a gateway. |
| Model.UpdateNeverNotifiesGateway | main.go:149-159 | When the list starts with the four sensors, a cycle makes exactly four notifications. Each is for the sensor of the matching kind, never the gateway. |
| Model.WindGaugeLastReadingWins | main.go:157-158 | Writing a second reading into the wind gauge replaces both wind attributes of the first. |
| Model.UpdateForgetsEarlierReading | main.go:148-158 | The device values after two cycles are those after the second cycle alone. |
| Model.UpdatePreservesDeployed | main.go:146-159 | A cycle keeps the four sensors, their kinds and their addresses as stored in the registry. |
| Model.ResolvePreservesDeployed | main.go:138-144 | A later getConfigAddr call for any key leaves the deployed sensors at their registry addresses. |
| Model.WindStrengthExamples | main.go:156 | 10 m/s is reported as 36 km/h and 5 m/s as 18 km/h. |
| Model.CycleNotifiesOnlySensors | main.go:147-159 | After a setup that registered four sensors and notified nothing, a cycle notifies exactly their addresses in order, and no other address. |
| Model.FirstCycleNeverNotifiesGateway | main.go:102-159 | On a first run with a generator that never repeats, setup followed by one cycle notifies the four sensor addresses in list order and never the gateway's address. |
| Bridge.Service.constructor | main.go:40-43 | The process starts with the loaded registry, no devices, no engine calls and no identifiers drawn. |
| Bridge.Service.GetConfigAddr | main.go:138-144 | The in-place registry update and returned address are exactly Resolve's. |
| Bridge.Service.AddSensors | main.go:104-111 | The four getConfigAddr calls happen in source order. The four sensors are appended to `_devs` in order, and the wind gauge has its gust attributes unsupported. |
| Bridge.Service.RegisterDevices | main.go:116-121 | The loop returns the devices' addresses in list order and gives every device its metadata in place. It registers each device in list order, carrying its metadata. |
| Bridge.Service.Setup | main.go:102-124 | The state after setup (registry, draw count, device list, engine calls) is exactly Model.Setup of the state before. |
| Bridge.Service.Update | main.go:146-159 | The state after a cycle is exactly Model.Update of the state before. The in-place writes and the notification after each device's writes are in source order. |

## Left out

- `main` (main.go:46-99): flag parsing, the version flag, loading and saving
  the configuration file, starting `engine.Run`, and waiting for a signal. These
  are process control, I/O and concurrency. The loaded registry is a parameter
  of `Loaded` and of the constructor.
- `version()` (main.go:20-22) formats the engine's build data. The version
  string is a parameter.
- `engine.AddTimer` (main.go:127): the periodic scheduling of `update` is
  concurrency. Each cycle is one call of `Update`.
- The OpenWeatherMap client (`owm.NewCurrent` and `CurrentByName`,
  main.go:131-134 and main.go:147) is network I/O. The reading is the input
  `Snapshot`, and the client's initialization failure (fatal at startup) is
  not modelled.
- Logging (main.go:141 and main.go:160-166) is left out.
- `utils.GetRandomUUID` is the function `uuid` of the draw number. Its
  randomness and uniqueness are not modelled. Distinctness of the generated
  addresses is proved only under the `DistinctIds` hypothesis, because the code
  does not enforce it.
- `float64` arithmetic and the "round to 1 decimal" TODOs (main.go:148 and
  main.go:157) are not modelled. Readings and the wind conversion use exact
  reals, and no rounding is applied because the code applies none.
- The xAAL schemas (`schemas.Thermometer` and the others) and the internals of
  `SetAttributeValue` and `AddUnsupportedAttribute` are library code. A device
  is its kind, its address, a map of attribute values, a set of unsupported
  attributes and its metadata. A new device has no values. Writing an attribute
  is a map update. The library's per-schema attribute lists and any validation
  it does are not modelled.
- Devices are values, not shared pointers. In Go the engine holds the same
  `*device.Device` objects as `_devs`, so it sees later writes. Here each engine
  call records the device as it is at that moment, and aliasing is not
  modelled.
- Bridge.Service.Update: requires at least four devices in `_devs`. With fewer,
  the Go code panics on the index, and it is only scheduled after setup has
  appended four.
- Go's nil-map panic on `config.Devices` (main.go:140) is not modelled, because
  a Dafny map always exists.
- Model.SetupAllocation: setup's five getConfigAddr calls are interleaved with
  building the sensors. The model resolves them as one run over the five keys.
  The calls touch only the registry, so the results are the same, and
  `Bridge.Service.Setup` proves the step-by-step version equal to it.
