/**
  The package-level state of the gateway process (config.Devices, _devs and
  the engine it talks to) and the three operations that change it in place:
  getConfigAddr, setup and update. Each method is proved to have exactly the
  effect the corresponding function of module Model describes.
 */
module Bridge {
  import opened Devices
  import opened Registry
  import opened Engine
  import opened Model

  /** Appending four devices one by one appends the four of them. */
  lemma AppendFour(xs: seq<Device>, a: Device, b: Device, c: Device, d: Device)
    ensures xs + [a] + [b] + [c] + [d] == xs + [a, b, c, d]
  {
  }

  /** Four calls appended one by one are the calls for the four devices. */
  lemma CallsForFour(t: seq<Call>, kind: CallKind, a: Device, b: Device, c: Device, d: Device)
    ensures t + [Call(kind, a)] + [Call(kind, b)] + [Call(kind, c)] + [Call(kind, d)]
         == t + CallsFor(kind, [a, b, c, d])
  {
  }

  class Service {
    /** config.Devices: the role-to-address map persisted in the configuration file. */
    var devices: map<string, string>
    /** How many identifiers the UUID generator has produced so far. */
    var draws: nat
    /** _devs: the sensors, in the order setup appended them. */
    var devs: seq<Device>
    /** The calls made into the engine so far. */
    var trace: seq<Call>
    /** The UUID generator: its n-th identifier is uuid(n). */
    const uuid: nat -> string
    /** The version string every device reports. */
    const version: string

    function Current(): State
      reads this
    {
      State(devices, draws, devs, trace)
    }

    /** The process right after the configuration is loaded. */
    constructor (devices: map<string, string>, uuid: nat -> string, version: string)
      ensures Current() == Loaded(devices)
      ensures this.uuid == uuid && this.version == version
    {
      this.devices := devices;
      this.draws := 0;
      this.devs := [];
      this.trace := [];
      this.uuid := uuid;
      this.version := version;
    }

    /** getConfigAddr: the address under key, generating and storing one if there is none. */
    method GetConfigAddr(key: string) returns (addr: string)
      modifies this`devices, this`draws
      ensures Resolution(addr, devices, draws) == Resolve(old(devices), key, uuid, old(draws))
    {
      if Lookup(devices, key) == "" {
        devices := devices[key := uuid(draws)];
        draws := draws + 1;
      }
      addr := devices[key];
    }

    /** setup: build the four sensors and the gateway, then register them all with the engine. */
    method Setup()
      modifies this
      ensures Current() == Model.Setup(old(Current()), uuid, version)
    {
      ghost var s := Current();
      ghost var rs, addrs := AddSensors();
      var g := GetConfigAddr(GatewayKey);
      SetupAllocationOfCalls(s, uuid, rs, Resolution(g, devices, draws));
      var gw := NewDevice(Gateway, g);
      var addresses := RegisterDevices();
      gw := SetAttributeValue(gw, "embedded", AddressList(addresses));
      gw := SetupDev(gw, version);
      trace := trace + [Call(AddDevice, gw)];
    }

    /** The first half of setup: resolve the four sensors' addresses and append the sensors to _devs. */
    method AddSensors() returns (ghost rs: seq<Resolution>, ghost addrs: seq<string>)
      modifies this`devices, this`draws, this`devs
      ensures SensorCalls(old(devices), uuid, old(draws), rs)
      ensures devices == rs[3].devices && draws == rs[3].draws
      ensures addrs == [rs[0].addr, rs[1].addr, rs[2].addr, rs[3].addr]
      ensures devs == old(devs) + Sensors(addrs)
    {
      ghost var before := devs;
      var t := GetConfigAddr("temperature");
      ghost var rt := Resolution(t, devices, draws);
      devs := devs + [NewDevice(Thermometer, t)];
      var h := GetConfigAddr("humidity");
      ghost var rh := Resolution(h, devices, draws);
      devs := devs + [NewDevice(Hygrometer, h)];
      var p := GetConfigAddr("pressure");
      ghost var rp := Resolution(p, devices, draws);
      devs := devs + [NewDevice(Barometer, p)];
      var w := GetConfigAddr("wind");
      ghost var rw := Resolution(w, devices, draws);
      var wind := NewDevice(Windgauge, w);
      wind := AddUnsupportedAttribute(wind, "gustAngle");
      wind := AddUnsupportedAttribute(wind, "gustStrength");
      devs := devs + [wind];
      rs, addrs := [rt, rh, rp, rw], [t, h, p, w];
      assert wind == WindGauge(w);
      AppendFour(before, NewDevice(Thermometer, t), NewDevice(Hygrometer, h), NewDevice(Barometer, p), wind);
    }

    /** The registration loop of setup: collect each address, give each device its metadata, register it. */
    method RegisterDevices() returns (addresses: seq<string>)
      modifies this`devs, this`trace
      ensures addresses == Addresses(old(devs))
      ensures devs == WithMetadata(old(devs), version)
      ensures trace == old(trace) + CallsFor(AddDevice, devs)
    {
      addresses := [];
      var i := 0;
      while i < |devs|
        invariant 0 <= i <= |devs| == |old(devs)|
        invariant |addresses| == i && forall j :: 0 <= j < i ==> addresses[j] == old(devs)[j].address
        invariant forall j :: 0 <= j < i ==> devs[j] == SetupDev(old(devs)[j], version)
        invariant forall j :: i <= j < |devs| ==> devs[j] == old(devs)[j]
        invariant |trace| == |old(trace)| + i && trace[..|old(trace)|] == old(trace)
        invariant forall j :: 0 <= j < i ==> trace[|old(trace)| + j] == Call(AddDevice, devs[j])
      {
        addresses := addresses + [devs[i].address];
        devs := devs[i := SetupDev(devs[i], version)];
        trace := trace + [Call(AddDevice, devs[i])];
        i := i + 1;
      }
      assert trace == old(trace) + CallsFor(AddDevice, devs);
    }

    /** update: write one weather reading into the four sensors, notifying each right after its writes. */
    method Update(w: Snapshot)
      requires |devs| >= 4
      modifies this`devs, this`trace
      ensures Current() == Model.Update(old(Current()), w)
    {
      var t := SetAttributeValue(devs[0], "temperature", Real(w.temp));
      devs := devs[0 := t];
      trace := trace + [Call(NotifyAttributesChange, t)];
      var h := SetAttributeValue(devs[1], "humidity", Int(w.humidity));
      devs := devs[1 := h];
      trace := trace + [Call(NotifyAttributesChange, h)];
      var p := SetAttributeValue(devs[2], "pressure", Real(w.pressure));
      devs := devs[2 := p];
      trace := trace + [Call(NotifyAttributesChange, p)];
      var wind := w.windSpeed * 3600.0 / 1000.0;
      var g := SetAttributeValue(devs[3], "windStrength", Real(wind));
      g := SetAttributeValue(g, "windAngle", Real(w.windDeg));
      devs := devs[3 := g];
      trace := trace + [Call(NotifyAttributesChange, g)];
      CallsForFour(old(trace), NotifyAttributesChange, t, h, p, g);
      assert devs[..4] == [t, h, p, g];
    }
  }
}
