/**
  The gateway's process state and its two operations as functions of it:
  setup (building and registering the devices) and update (one sync cycle
  mapping a weather reading onto the devices and notifying them), with the
  properties they promise.
 */
module Model {
  import opened Devices
  import opened Registry
  import opened Engine

  /**
    What main.go keeps in globals: the role-to-address registry of the
    configuration, the number of identifiers generated so far, the device
    list _devs, and the calls made into the engine so far.
   */
  datatype State = State(registry: map<string, string>, draws: nat, devs: seq<Device>, trace: seq<Call>)

  /** One OpenWeatherMap reading as the client leaves it: Main.Temp, Main.Humidity, Main.Pressure, Wind.Speed, Wind.Deg. */
  datatype Snapshot = Snapshot(temp: real, humidity: int, pressure: real, windSpeed: real, windDeg: real)

  /** Registry keys of the four sensors, in the order setup resolves and lists them. */
  const SensorKeys: seq<string> := ["temperature", "humidity", "pressure", "wind"]
  const SensorKinds: seq<Kind> := [Thermometer, Hygrometer, Barometer, Windgauge]
  const GatewayKey := "addr"
  const AllKeys: seq<string> := SensorKeys + [GatewayKey]

  /** The state after the configuration is loaded and before setup runs. */
  function Loaded(registry: map<string, string>): State {
    State(registry, 0, [], [])
  }

  /** The wind gauge, which reports neither gust angle nor gust strength. */
  function WindGauge(addr: string): (r: Device)
    ensures r == NewDevice(Windgauge, addr).(unsupported := {"gustAngle", "gustStrength"})
  {
    AddUnsupportedAttribute(AddUnsupportedAttribute(NewDevice(Windgauge, addr), "gustAngle"), "gustStrength")
  }

  /** The gateway device: its embedded attribute lists the addresses of devs. */
  function GatewayDevice(addr: string, devs: seq<Device>, version: string): (r: Device)
    ensures r.kind == Gateway && r.address == addr && r.unsupported == {}
    ensures r.attributes == map["embedded" := AddressList(Addresses(devs))]
    ensures r.vendorId == VendorId && r.productId == ProductId && r.info == Info
    ensures r.url == Url && r.version == version
  {
    SetupDev(SetAttributeValue(NewDevice(Gateway, addr), "embedded", AddressList(Addresses(devs))), version)
  }

  /** The four sensors built from their addresses: thermometer, hygrometer, barometer, wind gauge. */
  function Sensors(addrs: seq<string>): (r: seq<Device>)
    requires |addrs| == |SensorKeys|
    ensures |r| == |SensorKeys|
    ensures forall i :: 0 <= i < |r| ==> r[i].kind == SensorKinds[i] && r[i].address == addrs[i]
  {
    [NewDevice(Thermometer, addrs[0]), NewDevice(Hygrometer, addrs[1]),
     NewDevice(Barometer, addrs[2]), WindGauge(addrs[3])]
  }

  /**
    The five getConfigAddr calls of setup, in source order. They touch only
    the registry, so resolving them together before the devices are built
    yields the same addresses as the interleaved calls.
   */
  function SetupAllocation(s: State, uuid: nat -> string): (a: Allocation)
    ensures |a.addrs| == |AllKeys|
  {
    ResolveAll(s.registry, AllKeys, uuid, s.draws)
  }

  /** _devs after setup: the four sensors appended, each carrying the static metadata. */
  function SetupDevs(s: State, uuid: nat -> string, version: string): seq<Device> {
    WithMetadata(s.devs + Sensors(SetupAllocation(s, uuid).addrs[..4]), version)
  }

  /** The gateway setup registers last. */
  function SetupGateway(s: State, uuid: nat -> string, version: string): Device {
    var a := SetupAllocation(s, uuid);
    GatewayDevice(a.addrs[4], s.devs + Sensors(a.addrs[..4]), version)
  }

  /** setup: resolve the addresses, append the sensors, register them in list order, then the gateway. */
  function Setup(s: State, uuid: nat -> string, version: string): (r: State)
    // four devices are appended, and the engine calls are only ever appended to:
    // one per listed device, then the gateway's
    ensures |r.devs| == |s.devs| + |SensorKeys|
    ensures |r.trace| == |s.trace| + |r.devs| + 1 && r.trace[..|s.trace|] == s.trace
  {
    var a := SetupAllocation(s, uuid);
    var devs := SetupDevs(s, uuid, version);
    State(a.devices, a.draws, devs,
          s.trace + CallsFor(AddDevice, devs) + [Call(AddDevice, SetupGateway(s, uuid, version))])
  }

  /** Wind speed in m/s converted to km/h, whatever unit system is configured. */
  function WindStrength(speed: real): (r: real)
    ensures r == 3.6 * speed
  {
    speed * 3600.0 / 1000.0
  }

  function WroteThermometer(d: Device, w: Snapshot): Device {
    SetAttributeValue(d, "temperature", Real(w.temp))
  }

  function WroteHygrometer(d: Device, w: Snapshot): Device {
    SetAttributeValue(d, "humidity", Int(w.humidity))
  }

  function WroteBarometer(d: Device, w: Snapshot): Device {
    SetAttributeValue(d, "pressure", Real(w.pressure))
  }

  function WroteWindGauge(d: Device, w: Snapshot): Device {
    SetAttributeValue(SetAttributeValue(d, "windStrength", Real(WindStrength(w.windSpeed))), "windAngle", Real(w.windDeg))
  }

  /** update: write the reading into the first four devices, notifying each right after its writes. */
  function Update(s: State, w: Snapshot): (r: State)
    requires |s.devs| >= 4
    // the registry, the draw count and the length of the list stay; four calls are appended
    ensures r.registry == s.registry && r.draws == s.draws && |r.devs| == |s.devs|
    ensures |r.trace| == |s.trace| + 4 && r.trace[..|s.trace|] == s.trace
  {
    var devs := s.devs[0 := WroteThermometer(s.devs[0], w)]
                      [1 := WroteHygrometer(s.devs[1], w)]
                      [2 := WroteBarometer(s.devs[2], w)]
                      [3 := WroteWindGauge(s.devs[3], w)];
    s.(devs := devs, trace := s.trace + CallsFor(NotifyAttributesChange, devs[..4]))
  }

  /** rs are the results of setup's four getConfigAddr calls for the sensors, in source order. */
  ghost predicate SensorCalls(m: map<string, string>, uuid: nat -> string, draws: nat, rs: seq<Resolution>) {
    && |rs| == 4
    && rs[0] == Resolve(m, "temperature", uuid, draws)
    && rs[1] == Resolve(rs[0].devices, "humidity", uuid, rs[0].draws)
    && rs[2] == Resolve(rs[1].devices, "pressure", uuid, rs[1].draws)
    && rs[3] == Resolve(rs[2].devices, "wind", uuid, rs[2].draws)
  }

  /** The four sensor calls of setup followed by the gateway's call are SetupAllocation. */
  lemma SetupAllocationOfCalls(s: State, uuid: nat -> string, rs: seq<Resolution>, g: Resolution)
    requires SensorCalls(s.registry, uuid, s.draws, rs)
    requires g == Resolve(rs[3].devices, GatewayKey, uuid, rs[3].draws)
    ensures SetupAllocation(s, uuid)
         == Allocation([rs[0].addr, rs[1].addr, rs[2].addr, rs[3].addr, g.addr], g.devices, g.draws)
  {
    var all := [rs[0], rs[1], rs[2], rs[3], g];
    assert AllKeys == ["temperature", "humidity", "pressure", "wind", "addr"];
    assert Chain(s.registry, AllKeys, uuid, s.draws, all) by {
      forall i | 0 < i < 5
        ensures all[i] == Resolve(all[i - 1].devices, AllKeys[i], uuid, all[i - 1].draws)
      {
      }
    }
    ResolveAllChain(s.registry, AllKeys, uuid, s.draws, all);
  }

  /** The state after setup: four sensors whose addresses are the ones persisted under their keys. */
  ghost predicate Deployed(s: State) {
    && |s.devs| == |SensorKeys|
    && forall i :: 0 <= i < |SensorKeys| ==>
         && s.devs[i].kind == SensorKinds[i]
         && Assigned(s.registry, SensorKeys[i])
         && s.devs[i].address == s.registry[SensorKeys[i]]
  }

  // ----- setup -----

  /** The five keys setup resolves are distinct. */
  lemma AllKeysDistinct()
    ensures forall i, j :: 0 <= i < j < |AllKeys| ==> AllKeys[i] != AllKeys[j]
  {
    assert AllKeys == ["temperature", "humidity", "pressure", "wind", "addr"];
    assert "humidity"[0] != "pressure"[0] && "wind"[0] != "addr"[0];
  }

  /** From an empty device list, setup yields the four sensors in order, at their registry addresses. */
  lemma SetupBuildsSensors(s: State, uuid: nat -> string, version: string)
    requires s.devs == []
    requires NonEmptyIds(uuid)
    ensures var r := Setup(s, uuid, version);
      && Deployed(r)
      && Addresses(r.devs) == [Lookup(r.registry, "temperature"), Lookup(r.registry, "humidity"),
                               Lookup(r.registry, "pressure"), Lookup(r.registry, "wind")]
  {
    var a := SetupAllocation(s, uuid);
    var devs := SetupDevs(s, uuid, version);
    var r := Setup(s, uuid, version);
    assert r.registry == a.devices && r.devs == devs;
    SensorAddressesStored(s, uuid);
    assert |devs| == 4;
    forall i | 0 <= i < 4
      ensures devs[i].kind == SensorKinds[i] && devs[i].address == a.addrs[i]
    {
    }
    DeployedAt(r, a.addrs);
  }

  /** Four sensors at the addresses stored under their keys are deployed, and list those addresses in order. */
  lemma DeployedAt(r: State, addrs: seq<string>)
    requires |r.devs| == 4 && |addrs| >= 4
    requires forall i :: 0 <= i < 4 ==> r.devs[i].kind == SensorKinds[i] && r.devs[i].address == addrs[i]
    requires forall i :: 0 <= i < 4 ==> Assigned(r.registry, SensorKeys[i]) && r.registry[SensorKeys[i]] == addrs[i]
    ensures Deployed(r)
    ensures Addresses(r.devs) == [Lookup(r.registry, "temperature"), Lookup(r.registry, "humidity"),
                                  Lookup(r.registry, "pressure"), Lookup(r.registry, "wind")]
  {
    assert SensorKeys == ["temperature", "humidity", "pressure", "wind"];
  }

  /** With a generator of non-empty identifiers, each sensor's address is stored under its key. */
  lemma SensorAddressesStored(s: State, uuid: nat -> string)
    requires NonEmptyIds(uuid)
    ensures var a := SetupAllocation(s, uuid);
      forall i :: 0 <= i < 4 ==> Assigned(a.devices, SensorKeys[i]) && a.devices[SensorKeys[i]] == a.addrs[i]
  {
    var a := SetupAllocation(s, uuid);
    ResolveAllStored(s.registry, AllKeys, uuid, s.draws);
    forall i | 0 <= i < 4
      ensures Assigned(a.devices, SensorKeys[i]) && a.devices[SensorKeys[i]] == a.addrs[i]
    {
      assert SensorKeys[i] == AllKeys[i];
    }
  }

  /** Every device setup lists carries the static metadata; the wind gauge reports no gust angle or strength. */
  lemma SetupDeviceMetadata(s: State, uuid: nat -> string, version: string)
    ensures var devs := Setup(s, uuid, version).devs;
      && |devs| == |s.devs| + 4
      && (forall i :: 0 <= i < |s.devs| ==> HasMetadataOf(devs[i], s.devs[i], version))
      && (forall i :: 0 <= i < |devs| ==>
            devs[i].vendorId == VendorId && devs[i].productId == ProductId && devs[i].info == Info
            && devs[i].url == Url && devs[i].version == version)
      && devs[|s.devs| + 3].kind == Windgauge
      && {"gustAngle", "gustStrength"} <= devs[|s.devs| + 3].unsupported
  {
  }

  /**
    The gateway's address is the one under "addr" and its embedded attribute
    is the list of the listed devices' addresses, in list order.
   */
  lemma SetupGatewayEmbedsDevices(s: State, uuid: nat -> string, version: string)
    requires NonEmptyIds(uuid)
    ensures var r := Setup(s, uuid, version);
      var gw := SetupGateway(s, uuid, version);
      && gw.kind == Gateway
      && gw.address == Lookup(r.registry, GatewayKey) && gw.address != ""
      && gw.attributes == map["embedded" := AddressList(Addresses(r.devs))]
      && gw.unsupported == {}
      && gw.vendorId == VendorId && gw.productId == ProductId && gw.info == Info
      && gw.url == Url && gw.version == version
  {
    var a := SetupAllocation(s, uuid);
    ResolveAllStored(s.registry, AllKeys, uuid, s.draws);
    assert AllKeys[4] == GatewayKey;
    var devs := s.devs + Sensors(a.addrs[..4]);
    assert Addresses(SetupDevs(s, uuid, version)) == Addresses(devs);
  }

  /** setup registers every listed device in list order, then the gateway, and notifies nothing. */
  lemma SetupRegisters(s: State, uuid: nat -> string, version: string)
    ensures var r := Setup(s, uuid, version);
      && Registered(r.trace) == Registered(s.trace) + r.devs + [SetupGateway(s, uuid, version)]
      && Notified(r.trace) == Notified(s.trace)
  {
    var r := Setup(s, uuid, version);
    var gw := Call(AddDevice, SetupGateway(s, uuid, version));
    var added := CallsFor(AddDevice, r.devs);
    CallsOfAppend(s.trace + added, [gw], AddDevice);
    CallsOfAppend(s.trace, added, AddDevice);
    CallsOfAppend(s.trace + added, [gw], NotifyAttributesChange);
    CallsOfAppend(s.trace, added, NotifyAttributesChange);
    CallsOfCallsFor(AddDevice, r.devs, NotifyAttributesChange);
    assert CallsOf([gw], AddDevice) == [gw.device];
    assert CallsOf([gw], NotifyAttributesChange) == [];
  }

  /** An address already persisted under any key survives setup: device identity is stable across restarts. */
  lemma SetupKeepsAssigned(s: State, uuid: nat -> string, version: string, key: string)
    requires Assigned(s.registry, key)
    ensures Lookup(Setup(s, uuid, version).registry, key) == Lookup(s.registry, key)
  {
    ResolveAllFrame(s.registry, AllKeys, uuid, s.draws, key);
  }

  /** setup changes the registry only under its five keys. */
  lemma SetupTouchesOnlyItsKeys(s: State, uuid: nat -> string, version: string, key: string)
    requires key !in AllKeys
    ensures Lookup(Setup(s, uuid, version).registry, key) == Lookup(s.registry, key)
  {
    ResolveAllFrame(s.registry, AllKeys, uuid, s.draws, key);
  }

  /**
    On a first run (none of the five keys persisted) with a generator that
    never repeats, setup draws five identifiers and the five addresses are
    pairwise distinct, so the gateway is not among its embedded devices.
   */
  lemma SetupFreshAddressesDistinct(s: State, uuid: nat -> string, version: string)
    requires NonEmptyIds(uuid) && DistinctIds(uuid)
    requires forall k :: k in AllKeys ==> !Assigned(s.registry, k)
    ensures var r := Setup(s, uuid, version);
      && r.draws == s.draws + 5
      && forall i, j :: 0 <= i < j < |AllKeys| ==> Lookup(r.registry, AllKeys[i]) != Lookup(r.registry, AllKeys[j])
  {
    var a := SetupAllocation(s, uuid);
    assert Unassigned(s.registry, AllKeys) by {
      AllKeysDistinct();
    }
    ResolveAllDraws(s.registry, AllKeys, uuid, s.draws);
    ResolveAllStored(s.registry, AllKeys, uuid, s.draws);
    forall i, j | 0 <= i < j < |AllKeys|
      ensures Lookup(a.devices, AllKeys[i]) != Lookup(a.devices, AllKeys[j])
    {
      assert a.addrs[i] == uuid(s.draws + i) && a.addrs[j] == uuid(s.draws + j);
    }
  }

  // ----- update -----

  /** update writes the five readings, the wind converted to km/h, and changes nothing else. */
  lemma UpdateWrites(s: State, w: Snapshot)
    requires |s.devs| >= 4
    ensures var r := Update(s, w);
      && r.registry == s.registry && r.draws == s.draws
      && |r.devs| == |s.devs| && r.devs[4..] == s.devs[4..]
      && r.devs[0].attributes == s.devs[0].attributes["temperature" := Real(w.temp)]
      && r.devs[1].attributes == s.devs[1].attributes["humidity" := Int(w.humidity)]
      && r.devs[2].attributes == s.devs[2].attributes["pressure" := Real(w.pressure)]
      && r.devs[3].attributes == s.devs[3].attributes["windStrength" := Real(3.6 * w.windSpeed)]
                                                       ["windAngle" := Real(w.windDeg)]
      && forall i :: 0 <= i < |s.devs| ==>
           r.devs[i] == s.devs[i].(attributes := r.devs[i].attributes)
  {
  }

  /**
    update notifies exactly the first four devices, once each, in list order,
    each carrying its new values; it registers nothing.
   */
  lemma UpdateNotifiesInOrder(s: State, w: Snapshot)
    requires |s.devs| >= 4
    ensures var r := Update(s, w);
      && CallsOf(r.trace, NotifyAttributesChange) == CallsOf(s.trace, NotifyAttributesChange) + r.devs[..4]
      && Notified(r.trace) == Notified(s.trace) + Addresses(s.devs[..4])
      && Registered(r.trace) == Registered(s.trace)
  {
    var r := Update(s, w);
    var notified := r.devs[..4];
    var calls := CallsFor(NotifyAttributesChange, notified);
    assert CallsOf(r.trace, NotifyAttributesChange) == CallsOf(s.trace, NotifyAttributesChange) + notified by {
      CallsOfAppend(s.trace, calls, NotifyAttributesChange);
      CallsOfCallsFor(NotifyAttributesChange, notified, AddDevice);
    }
    assert Registered(r.trace) == Registered(s.trace) by {
      CallsOfAppend(s.trace, calls, AddDevice);
      CallsOfCallsFor(NotifyAttributesChange, notified, AddDevice);
      assert CallsOf(s.trace, AddDevice) + [] == CallsOf(s.trace, AddDevice);
    }
    assert Addresses(notified) == Addresses(s.devs[..4]);
    AddressesAppend(CallsOf(s.trace, NotifyAttributesChange), notified);
  }

  /** The four devices appended after `before` are the sensors when devs starts with the four sensors. */
  lemma SensorsAppended(before: seq<Device>, devs: seq<Device>)
    requires |devs| >= 4 && forall j :: 0 <= j < 4 ==> devs[j].kind == SensorKinds[j]
    ensures var after := before + devs[..4];
      forall i :: |before| <= i < |after| ==> after[i].kind == SensorKinds[i - |before|] && after[i].kind != Gateway
  {
    var after := before + devs[..4];
    forall i | |before| <= i < |after|
      ensures after[i].kind == SensorKinds[i - |before|] && after[i].kind != Gateway
    {
      assert after[i] == devs[i - |before|];
    }
  }

  /** With the four sensors at the head of the list, every device a cycle notifies is a sensor, never the gateway. */
  lemma UpdateNeverNotifiesGateway(s: State, w: Snapshot)
    requires |s.devs| >= 4 && forall i :: 0 <= i < 4 ==> s.devs[i].kind == SensorKinds[i]
    ensures var before := CallsOf(s.trace, NotifyAttributesChange);
      var after := CallsOf(Update(s, w).trace, NotifyAttributesChange);
      && |after| == |before| + 4
      && forall i :: |before| <= i < |after| ==> after[i].kind == SensorKinds[i - |before|] && after[i].kind != Gateway
  {
    var r := Update(s, w);
    UpdateNotifiesInOrder(s, w);
    UpdateWrites(s, w);
    SensorsAppended(CallsOf(s.trace, NotifyAttributesChange), r.devs);
  }

  /** A second reading written into the wind gauge replaces the first one entirely. */
  lemma WindGaugeLastReadingWins(d: Device, w1: Snapshot, w2: Snapshot)
    ensures WroteWindGauge(WroteWindGauge(d, w1), w2) == WroteWindGauge(d, w2)
  {
    var strength1, angle1 := Real(WindStrength(w1.windSpeed)), Real(w1.windDeg);
    var strength2, angle2 := Real(WindStrength(w2.windSpeed)), Real(w2.windDeg);
    var once := SetAttributeValue(d, "windStrength", strength1);
    assert "windStrength" != "windAngle" by { assert |"windStrength"| != |"windAngle"|; }
    WritesCommute(once, "windAngle", angle1, "windStrength", strength2);
    LastWriteWins(d, "windStrength", strength1, strength2);
    LastWriteWins(SetAttributeValue(d, "windStrength", strength2), "windAngle", angle1, angle2);
  }

  /** The devices after a cycle depend on that cycle's reading only: no earlier reading survives. */
  lemma UpdateForgetsEarlierReading(s: State, w1: Snapshot, w2: Snapshot)
    requires |s.devs| >= 4
    ensures Update(Update(s, w1), w2).devs == Update(s, w2).devs
  {
    var u := Update(s, w1).devs;
    LastWriteWins(s.devs[0], "temperature", Real(w1.temp), Real(w2.temp));
    LastWriteWins(s.devs[1], "humidity", Int(w1.humidity), Int(w2.humidity));
    LastWriteWins(s.devs[2], "pressure", Real(w1.pressure), Real(w2.pressure));
    WindGaugeLastReadingWins(s.devs[3], w1, w2);
    assert u[0] == WroteThermometer(s.devs[0], w1) && u[1] == WroteHygrometer(s.devs[1], w1);
    assert u[2] == WroteBarometer(s.devs[2], w1) && u[3] == WroteWindGauge(s.devs[3], w1);
  }

  /** update keeps the devices at their registry addresses. */
  lemma UpdatePreservesDeployed(s: State, w: Snapshot)
    requires Deployed(s)
    ensures Deployed(Update(s, w))
  {
    var r := Update(s, w);
    forall i | 0 <= i < |SensorKeys|
      ensures r.devs[i].kind == SensorKinds[i] && r.devs[i].address == s.devs[i].address
    {
    }
  }

  /** Resolving any key leaves the devices at their registry addresses. */
  lemma ResolvePreservesDeployed(s: State, key: string, uuid: nat -> string)
    requires Deployed(s)
    ensures Deployed(s.(registry := Resolve(s.registry, key, uuid, s.draws).devices))
  {
    var m := Resolve(s.registry, key, uuid, s.draws).devices;
    forall i | 0 <= i < |SensorKeys|
      ensures Assigned(m, SensorKeys[i]) && m[SensorKeys[i]] == s.registry[SensorKeys[i]]
    {
      ResolveKeepsAssigned(s.registry, key, SensorKeys[i], uuid, s.draws);
    }
  }

  /** 10 m/s of wind is reported as 36 km/h, and 5 m/s as 18 km/h. */
  lemma WindStrengthExamples()
    ensures WindStrength(10.0) == 36.0
    ensures WindStrength(5.0) == 18.0
  {
  }

  /**
    A cycle after a setup that registered four sensors and notified nothing
    notifies exactly those four, so an address outside them is never notified.
   */
  lemma CycleNotifiesOnlySensors(s: State, w: Snapshot, other: string)
    requires |s.devs| == 4 && Notified(s.trace) == []
    requires other !in Addresses(s.devs)
    ensures var r := Update(s, w);
      && Notified(r.trace) == Addresses(s.devs)
      && other !in Notified(r.trace)
  {
    UpdateNotifiesInOrder(s, w);
    assert s.devs[..4] == s.devs;
    assert Notified(Update(s, w).trace) == [] + Addresses(s.devs);
  }

  /**
    A first run followed by one cycle notifies the four sensors in order and
    never the gateway, when the generator never repeats.
   */
  lemma FirstCycleNeverNotifiesGateway(registry: map<string, string>, uuid: nat -> string, version: string, w: Snapshot)
    requires NonEmptyIds(uuid) && DistinctIds(uuid)
    requires forall k :: k in AllKeys ==> !Assigned(registry, k)
    ensures var ready := Setup(Loaded(registry), uuid, version);
      var r := Update(ready, w);
      && Notified(r.trace) == Addresses(ready.devs)
      && Lookup(r.registry, GatewayKey) !in Notified(r.trace)
  {
    var ready := Setup(Loaded(registry), uuid, version);
    SetupBuildsSensors(Loaded(registry), uuid, version);
    SetupRegisters(Loaded(registry), uuid, version);
    SetupFreshAddressesDistinct(Loaded(registry), uuid, version);
    assert Notified(ready.trace) == Notified([]) == [];
    var gw := Lookup(ready.registry, GatewayKey);
    assert gw !in Addresses(ready.devs) by {
      forall i | 0 <= i < 4 ensures Addresses(ready.devs)[i] != gw {
        assert Addresses(ready.devs)[i] == Lookup(ready.registry, AllKeys[i]);
        assert gw == Lookup(ready.registry, AllKeys[4]);
      }
    }
    CycleNotifiesOnlySensors(ready, w, gw);
  }
}
