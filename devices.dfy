/**
  The virtual xAAL devices the gateway publishes: their kind, bus address,
  attribute values, unsupported attributes and static descriptive metadata.
  A device is a value here; the operations below return the updated device.
 */
module Devices {

  /** The schema a device is built from (thermometer.basic, hygrometer.basic, ...). */
  datatype Kind = Thermometer | Hygrometer | Barometer | Windgauge | Gateway

  /** An attribute value: a float64 reading, an integer reading, or a list of addresses. */
  datatype Value = Real(x: real) | Int(n: int) | AddressList(addrs: seq<string>)

  datatype Device = Device(
    kind: Kind,
    address: string,
    attributes: map<string, Value>,
    unsupported: set<string>,
    vendorId: string,
    productId: string,
    info: string,
    url: string,
    version: string)

  const VendorId := "ERIA"
  const ProductId := "OpenWeatherMap"
  const Info := "gateway.owm@OpenWeatherMap"
  const Url := "https://www.openweathermap.org"

  /** A freshly built device of the given schema: no value set, nothing unsupported, no metadata. */
  function NewDevice(kind: Kind, address: string): Device {
    Device(kind, address, map[], {}, "", "", "", "", "")
  }

  function SetAttributeValue(d: Device, name: string, v: Value): Device {
    d.(attributes := d.attributes[name := v])
  }

  /** Of two writes to one attribute, the second wins. */
  lemma LastWriteWins(d: Device, name: string, v1: Value, v2: Value)
    ensures SetAttributeValue(SetAttributeValue(d, name, v1), name, v2) == SetAttributeValue(d, name, v2)
  {
    assert d.attributes[name := v1][name := v2] == d.attributes[name := v2];
  }

  /** Writes to two different attributes can be done in either order. */
  lemma WritesCommute(d: Device, n1: string, v1: Value, n2: string, v2: Value)
    requires n1 != n2
    ensures SetAttributeValue(SetAttributeValue(d, n1, v1), n2, v2)
         == SetAttributeValue(SetAttributeValue(d, n2, v2), n1, v1)
  {
    assert d.attributes[n1 := v1][n2 := v2] == d.attributes[n2 := v2][n1 := v1];
  }

  function AddUnsupportedAttribute(d: Device, name: string): Device {
    d.(unsupported := d.unsupported + {name})
  }

  /** The static metadata every device of the gateway carries (setupDev). */
  function SetupDev(d: Device, version: string): (r: Device)
    ensures HasMetadataOf(r, d, version)
  {
    d.(vendorId := VendorId, productId := ProductId, info := Info, url := Url, version := version)
  }

  /** True when d carries the gateway's static metadata and nothing else differs from `before`. */
  predicate HasMetadataOf(d: Device, before: Device, version: string) {
    && d.kind == before.kind
    && d.address == before.address
    && d.attributes == before.attributes
    && d.unsupported == before.unsupported
    && d.vendorId == VendorId && d.productId == ProductId && d.info == Info
    && d.url == Url && d.version == version
  }

  /** setupDev applied to every device of a list, in place. */
  function WithMetadata(devs: seq<Device>, version: string): (r: seq<Device>)
    ensures |r| == |devs|
    ensures forall i :: 0 <= i < |devs| ==> HasMetadataOf(r[i], devs[i], version)
  {
    seq(|devs|, i requires 0 <= i < |devs| => SetupDev(devs[i], version))
  }

  /**
    The addresses of a device list, accumulated by appending one address per
    device, as the registration loop of setup does.
   */
  function Addresses(devs: seq<Device>): (r: seq<string>)
    ensures |r| == |devs|
    ensures forall i :: 0 <= i < |devs| ==> r[i] == devs[i].address
  {
    if devs == [] then [] else Addresses(devs[..|devs| - 1]) + [devs[|devs| - 1].address]
  }
}
