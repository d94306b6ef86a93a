/**
  The role-to-address registry kept in the configuration (config.Devices) and
  the read-through lookup that fills it (getConfigAddr).

  The random UUID source is an arbitrary function of the draw number: the
  n-th identifier the process generates is uuid(n). Nothing is required of it
  unless a lemma says so.
 */
module Registry {

  /** Reading a Go map at a missing key yields the empty string. */
  function Lookup(m: map<string, string>, key: string): string {
    if key in m then m[key] else ""
  }

  /** An empty string counts as "no address yet", exactly like a missing key. */
  predicate Assigned(m: map<string, string>, key: string) {
    Lookup(m, key) != ""
  }

  /** Every draw of the generator yields a non-empty identifier. */
  ghost predicate NonEmptyIds(uuid: nat -> string) {
    forall n: nat :: uuid(n) != ""
  }

  /** Distinct draws yield distinct identifiers (the code does not enforce this). */
  ghost predicate DistinctIds(uuid: nat -> string) {
    forall a: nat, b: nat :: a != b ==> uuid(a) != uuid(b)
  }

  /** The returned address, the registry afterwards and the number of identifiers drawn so far. */
  datatype Resolution = Resolution(addr: string, devices: map<string, string>, draws: nat)

  /** getConfigAddr: the address stored under key, allocating uuid(draws) when there is none. */
  function Resolve(m: map<string, string>, key: string, uuid: nat -> string, draws: nat): (r: Resolution)
    // the result is what the registry now holds under key
    ensures Lookup(r.devices, key) == r.addr
    // an address already there is returned and nothing changes, no identifier is drawn
    ensures Assigned(m, key) ==> r.addr == m[key] && r.devices == m && r.draws == draws
    // otherwise the next identifier is drawn and stored
    ensures !Assigned(m, key) ==> r.addr == uuid(draws) && r.draws == draws + 1
  {
    if Lookup(m, key) == "" then
      var devices := m[key := uuid(draws)];
      Resolution(devices[key], devices, draws + 1)
    else
      Resolution(m[key], m, draws)
  }

  /** The addresses returned by a run of getConfigAddr calls, the registry afterwards and the draw count. */
  datatype Allocation = Allocation(addrs: seq<string>, devices: map<string, string>, draws: nat)

  /** No key repeats and none has an address yet. */
  predicate Unassigned(m: map<string, string>, keys: seq<string>) {
    && (forall i, j :: 0 <= i < j < |keys| ==> keys[i] != keys[j])
    && (forall k :: k in keys ==> !Assigned(m, k))
  }

  /** getConfigAddr called on each key in turn; one address returned per call. */
  function ResolveAll(m: map<string, string>, keys: seq<string>, uuid: nat -> string, draws: nat): (r: Allocation)
    ensures |r.addrs| == |keys|
    ensures r.draws >= draws
    decreases |keys|
  {
    if keys == [] then Allocation([], m, draws)
    else
      var first := Resolve(m, keys[0], uuid, draws);
      var rest := ResolveAll(first.devices, keys[1..], uuid, first.draws);
      Allocation([first.addr] + rest.addrs, rest.devices, rest.draws)
  }

  /** rs are the results of calling getConfigAddr on each key of keys in turn, starting from m and draws. */
  ghost predicate Chain(m: map<string, string>, keys: seq<string>, uuid: nat -> string, draws: nat, rs: seq<Resolution>) {
    && |rs| == |keys|
    && (|rs| > 0 ==> rs[0] == Resolve(m, keys[0], uuid, draws))
    && forall i :: 0 < i < |rs| ==> rs[i] == Resolve(rs[i - 1].devices, keys[i], uuid, rs[i - 1].draws)
  }

  /** A run of separate getConfigAddr calls is what ResolveAll describes. */
  lemma {:induction false} ResolveAllChain(m: map<string, string>, keys: seq<string>, uuid: nat -> string, draws: nat, rs: seq<Resolution>)
    requires Chain(m, keys, uuid, draws, rs)
    ensures var r := ResolveAll(m, keys, uuid, draws);
      && r.addrs == seq(|rs|, i requires 0 <= i < |rs| => rs[i].addr)
      && r.devices == (if rs == [] then m else rs[|rs| - 1].devices)
      && r.draws == (if rs == [] then draws else rs[|rs| - 1].draws)
    decreases |keys|
  {
    if keys != [] {
      var rest := rs[1..];
      assert Chain(rs[0].devices, keys[1..], uuid, rs[0].draws, rest) by {
        forall i | 0 < i < |rest|
          ensures rest[i] == Resolve(rest[i - 1].devices, keys[1..][i], uuid, rest[i - 1].draws)
        {
          assert rest[i] == rs[i + 1] && rest[i - 1] == rs[i];
        }
      }
      ResolveAllChain(rs[0].devices, keys[1..], uuid, rs[0].draws, rest);
    }
  }

  /** Keys outside the run keep their entry; an address already there never changes. */
  lemma {:induction false} ResolveAllFrame(m: map<string, string>, keys: seq<string>, uuid: nat -> string, draws: nat, k: string)
    ensures var r := ResolveAll(m, keys, uuid, draws);
      && (k !in keys ==> Lookup(r.devices, k) == Lookup(m, k))
      && (Assigned(m, k) ==> Lookup(r.devices, k) == Lookup(m, k))
    decreases |keys|
  {
    if keys != [] {
      var first := Resolve(m, keys[0], uuid, draws);
      ResolveOnlyTouchesKey(m, keys[0], uuid, draws);
      ResolveAllFrame(first.devices, keys[1..], uuid, first.draws, k);
      if k !in keys {
        assert k != keys[0] && k !in keys[1..];
      }
    }
  }

  /** With a generator of non-empty identifiers, each call returned what the registry finally holds under its key. */
  lemma {:induction false} ResolveAllStored(m: map<string, string>, keys: seq<string>, uuid: nat -> string, draws: nat)
    requires NonEmptyIds(uuid)
    ensures var r := ResolveAll(m, keys, uuid, draws);
      forall i :: 0 <= i < |keys| ==> r.addrs[i] != "" && Lookup(r.devices, keys[i]) == r.addrs[i]
    decreases |keys|
  {
    if keys != [] {
      var r := ResolveAll(m, keys, uuid, draws);
      var first := Resolve(m, keys[0], uuid, draws);
      ResolveAllStored(first.devices, keys[1..], uuid, first.draws);
      ResolveAllFrame(first.devices, keys[1..], uuid, first.draws, keys[0]);
      forall i | 0 <= i < |keys| ensures r.addrs[i] != "" && Lookup(r.devices, keys[i]) == r.addrs[i] {
        if i > 0 {
          assert r.addrs[i] == ResolveAll(first.devices, keys[1..], uuid, first.draws).addrs[i - 1];
          assert keys[i] == keys[1..][i - 1];
        }
      }
    }
  }

  /** On distinct keys without addresses, the calls draw consecutive identifiers, one per key. */
  lemma {:induction false} ResolveAllDraws(m: map<string, string>, keys: seq<string>, uuid: nat -> string, draws: nat)
    requires Unassigned(m, keys)
    ensures var r := ResolveAll(m, keys, uuid, draws);
      r.draws == draws + |keys| && forall i :: 0 <= i < |keys| ==> r.addrs[i] == uuid(draws + i)
    decreases |keys|
  {
    if keys != [] {
      var r := ResolveAll(m, keys, uuid, draws);
      var first := Resolve(m, keys[0], uuid, draws);
      ResolveOnlyTouchesKey(m, keys[0], uuid, draws);
      forall k | k in keys[1..] ensures !Assigned(first.devices, k) {
        assert k in keys && k != keys[0];
      }
      ResolveAllDraws(first.devices, keys[1..], uuid, first.draws);
      forall i | 0 <= i < |keys| ensures r.addrs[i] == uuid(draws + i) {
        if i > 0 {
          assert r.addrs[i] == ResolveAll(first.devices, keys[1..], uuid, first.draws).addrs[i - 1];
        }
      }
    }
  }

  /** Calling getConfigAddr twice returns the same address, and the second call changes nothing. */
  lemma ResolveIdempotent(m: map<string, string>, key: string, uuid: nat -> string, draws: nat)
    requires NonEmptyIds(uuid)
    ensures var first := Resolve(m, key, uuid, draws);
            Resolve(first.devices, key, uuid, first.draws) == first
  {
    var first := Resolve(m, key, uuid, draws);
    assert Assigned(first.devices, key) by {
      if !Assigned(m, key) {
        assert first.addr == uuid(draws);
      }
    }
  }

  /** getConfigAddr changes only the entry for its key: every other entry, present or not, stays as it was. */
  lemma ResolveOnlyTouchesKey(m: map<string, string>, key: string, uuid: nat -> string, draws: nat)
    ensures var r := Resolve(m, key, uuid, draws);
      && r.devices.Keys == m.Keys + {key}
      && forall k :: k != key ==> (k in r.devices <==> k in m) && Lookup(r.devices, k) == Lookup(m, k)
  {
  }

  /** Once an address is assigned, resolving any key leaves it as it was. */
  lemma ResolveKeepsAssigned(m: map<string, string>, key: string, other: string, uuid: nat -> string, draws: nat)
    requires Assigned(m, other)
    ensures Lookup(Resolve(m, key, uuid, draws).devices, other) == Lookup(m, other)
  {
  }
}
