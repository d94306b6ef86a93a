/**
  The calls the gateway makes into the xAAL engine, recorded as a trace.
  Each call carries the device as it is at the time of the call.
 */
module Engine {
  import opened Devices

  /** engine.AddDevice and engine.NotifyAttributesChange. */
  datatype CallKind = AddDevice | NotifyAttributesChange

  datatype Call = Call(kind: CallKind, device: Device)

  /** The device of a call of the given kind, nothing for a call of another kind. */
  function DeviceOf(c: Call, kind: CallKind): seq<Device> {
    if c.kind == kind then [c.device] else []
  }

  /** The devices passed to calls of one kind, in call order. */
  function CallsOf(trace: seq<Call>, kind: CallKind): (r: seq<Device>)
    ensures |r| <= |trace|
  {
    if trace == [] then [] else DeviceOf(trace[0], kind) + CallsOf(trace[1..], kind)
  }

  /** The devices registered with the engine, in registration order. */
  function Registered(trace: seq<Call>): seq<Device> {
    CallsOf(trace, AddDevice)
  }

  /** The addresses notified to the engine, in notification order. */
  function Notified(trace: seq<Call>): seq<string> {
    Addresses(CallsOf(trace, NotifyAttributesChange))
  }

  /** One call of the given kind per device, in list order. */
  function CallsFor(kind: CallKind, devs: seq<Device>): (r: seq<Call>)
    ensures |r| == |devs|
    ensures forall i :: 0 <= i < |devs| ==> r[i] == Call(kind, devs[i])
  {
    seq(|devs|, i requires 0 <= i < |devs| => Call(kind, devs[i]))
  }

  /** Filtering a trace distributes over concatenation. */
  lemma {:induction false} CallsOfAppend(a: seq<Call>, b: seq<Call>, kind: CallKind)
    ensures CallsOf(a + b, kind) == CallsOf(a, kind) + CallsOf(b, kind)
  {
    if a == [] {
      assert a + b == b;
    } else {
      calc {
        CallsOf(a + b, kind);
        DeviceOf(a[0], kind) + CallsOf((a + b)[1..], kind);
        { assert (a + b)[1..] == a[1..] + b; }
        DeviceOf(a[0], kind) + CallsOf(a[1..] + b, kind);
        { CallsOfAppend(a[1..], b, kind); }
        DeviceOf(a[0], kind) + (CallsOf(a[1..], kind) + CallsOf(b, kind));
        CallsOf(a, kind) + CallsOf(b, kind);
      }
    }
  }

  /** A run of calls of one kind contributes exactly its devices, and nothing to other kinds. */
  lemma {:induction false} CallsOfCallsFor(kind: CallKind, devs: seq<Device>, other: CallKind)
    ensures CallsOf(CallsFor(kind, devs), kind) == devs
    ensures other != kind ==> CallsOf(CallsFor(kind, devs), other) == []
  {
    if devs != [] {
      assert CallsFor(kind, devs)[1..] == CallsFor(kind, devs[1..]);
      CallsOfCallsFor(kind, devs[1..], other);
    }
  }

  /** The addresses of two lists put together are the two address lists put together. */
  lemma AddressesAppend(a: seq<Device>, b: seq<Device>)
    ensures Addresses(a + b) == Addresses(a) + Addresses(b)
  {
  }
}
