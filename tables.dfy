/**
 The two tables of the port mapper as values, and what each operation does to
 them: binding a service to an L3 port, scrubbing a service's allocations,
 collecting empty L3 ports and evicting the services of unavailable ones.
 The methods of PortMapper are proved against these functions, and the
 lemmas here show that each step keeps the binding invariant `Bound`.
 */
module Tables {
  import opened Model

  /** L3 port ID -> L3 port. */
  type Ports = map<string, L3Port>

  /** Service key -> service model. */
  type Services = map<Key, ServiceModel>

  /** Every requested port number is free on `l3` (isPortSuitableFor). */
  predicate Suitable(l3: L3Port, req: seq<L4Port>)
  {
    forall i :: 0 <= i < |req| ==> L4PortFree(l3, req[i])
  }

  function PortNumbers(req: seq<L4Port>): set<int32>
  {
    set i | 0 <= i < |req| :: req[i].port
  }

  /** Suitability is exactly "no requested port number is allocated". */
  lemma SuitableIffDisjoint(l3: L3Port, req: seq<L4Port>)
    ensures Suitable(l3, req) <==> PortNumbers(req) !! l3.allocations.Keys
  {
    if !Suitable(l3, req) {
      var i :| 0 <= i < |req| && !L4PortFree(l3, req[i]);
      assert req[i].port in PortNumbers(req);
    }
  }

  /** Port number `pn` on L3 port `id` is allocated to `key`. */
  ghost predicate Occupies(ports: Ports, id: string, pn: int32, key: Key)
  {
    id in ports && pn in ports[id].allocations && ports[id].allocations[pn] == key
  }

  /**
   The binding invariant: every port a mapped service requests is allocated
   to that service on the L3 port its model names. A service that requests
   no port at all is not constrained (its L3 port may have been collected).
   */
  ghost predicate Bound(services: Services, ports: Ports)
  {
    forall k, i :: k in services && 0 <= i < |services[k].ports| ==>
      Occupies(ports, services[k].l3PortId, services[k].ports[i].port, k)
  }

  /** The allocation table of `id`, empty when `id` is not tracked. */
  function AllocationsOf(ports: Ports, id: string): map<int32, Key>
  {
    if id in ports then ports[id].allocations else map[]
  }

  /**
   `alloc` after writing `key` at each requested port number, in order: the
   requested numbers now belong to `key`, every other entry is kept.
   */
  function Allocate(alloc: map<int32, Key>, req: seq<L4Port>, key: Key): (r: map<int32, Key>)
    ensures r.Keys == alloc.Keys + PortNumbers(req)
    ensures forall pn :: pn in PortNumbers(req) ==> r[pn] == key
    ensures forall pn :: pn in alloc && pn !in PortNumbers(req) ==> r[pn] == alloc[pn]
    decreases |req|
  {
    if req == [] then alloc
    else
      var init := req[..|req| - 1];
      assert PortNumbers(req) == PortNumbers(init) + {req[|req| - 1].port} by {
        forall pn | pn in PortNumbers(req) ensures pn in PortNumbers(init) + {req[|req| - 1].port} {
          var i :| 0 <= i < |req| && req[i].port == pn;
          if i < |req| - 1 { assert init[i] == req[i]; }
        }
        forall pn | pn in PortNumbers(init) ensures pn in PortNumbers(req) {
          var i :| 0 <= i < |init| && init[i].port == pn;
          assert req[i] == init[i];
        }
      }
      Allocate(alloc, init, key)[req[|req| - 1].port := key]
  }

  /** Allocating one more requested port is one more write. */
  lemma AllocateSnoc(alloc: map<int32, Key>, req: seq<L4Port>, i: nat, key: Key)
    requires i < |req|
    ensures Allocate(alloc, req[..i + 1], key) == Allocate(alloc, req[..i], key)[req[i].port := key]
  {
    assert req[..i + 1][..i] == req[..i];
  }

  /**
   The tracked ports after `key` is bound to L3 port `id` with ports `req`
   (the allocation loop of MapService).
   */
  function Bind(ports: Ports, id: string, req: seq<L4Port>, key: Key): (r: Ports)
    ensures r.Keys == ports.Keys + {id}
    ensures forall other :: other in ports && other != id ==> r[other] == ports[other]
    ensures forall i :: 0 <= i < |req| ==> Occupies(r, id, req[i].port, key)
    ensures Suitable(L3Port(AllocationsOf(ports, id)), req) ==>
              forall pn :: pn in AllocationsOf(ports, id) ==> Occupies(r, id, pn, AllocationsOf(ports, id)[pn])
  {
    SuitableIffDisjoint(L3Port(AllocationsOf(ports, id)), req);
    var r := ports[id := L3Port(Allocate(AllocationsOf(ports, id), req, key))];
    assert forall i :: 0 <= i < |req| ==> req[i].port in PortNumbers(req);
    r
  }

  /** The tracked ports after a pinned but untracked L3 port is registered empty. */
  function Stage(ports: Ports, pin: Option<string>): (r: Ports)
    ensures pin.Some? ==> pin.value in r
    ensures forall id :: id in r <==> id in ports || (pin.Some? && id == pin.value)
    ensures forall id :: id in ports ==> r[id] == ports[id]
    ensures forall id :: id in r && id !in ports ==> r[id].allocations == map[]
  {
    if pin.Some? && pin.value !in ports then ports[pin.value := L3Port(map[])] else ports
  }

  /**
   The pin settles MapService's choice: it names a port other than "" that
   is untracked or tracked and suitable.
   */
  ghost predicate PinResolves(ports: Ports, pin: Option<string>, req: seq<L4Port>)
  {
    pin.Some? && pin.value != "" && (pin.value !in ports || Suitable(ports[pin.value], req))
  }

  /**
   MapService asks the provisioner exactly when the pin (if any) names a
   tracked port and no tracked port is suitable.
   */
  ghost predicate NeedsProvisioning(ports: Ports, pin: Option<string>, req: seq<L4Port>)
  {
    (pin.None? || pin.value in ports) && forall id :: id in ports ==> !Suitable(ports[id], req)
  }

  /**
   The L3 ports MapService may bind to: the pin when it resolves; else the
   provisioned port when nothing tracked fits; else any suitable port among
   the tracked ones and the freshly registered pin.
   */
  ghost predicate ChosenPort(ports: Ports, pin: Option<string>, req: seq<L4Port>, provision: Provision, chosen: string)
  {
    if PinResolves(ports, pin, req) then chosen == pin.value
    else if NeedsProvisioning(ports, pin, req) then provision == Provisioned(chosen)
    else chosen in Stage(ports, pin) && Suitable(Stage(ports, pin)[chosen], req)
  }

  /** A resolving pin never needs the provisioner. */
  lemma PinResolvesWithoutProvisioning(ports: Ports, pin: Option<string>, req: seq<L4Port>)
    requires PinResolves(ports, pin, req)
    ensures !NeedsProvisioning(ports, pin, req)
  {
    if pin.value in ports {
      assert Suitable(ports[pin.value], req);
    }
  }

  /**
   The provisioner is needed exactly when the pin does not resolve and no
   port is suitable once the pin is registered.
   */
  lemma NeedsProvisioningIff(ports: Ports, pin: Option<string>, req: seq<L4Port>)
    ensures NeedsProvisioning(ports, pin, req) <==>
              !PinResolves(ports, pin, req) &&
              forall id :: id in Stage(ports, pin) ==> !Suitable(Stage(ports, pin)[id], req)
  {
    var staged := Stage(ports, pin);
    if pin.Some? && pin.value !in ports {
      assert staged[pin.value].allocations == map[];
      assert Suitable(staged[pin.value], req);
    }
    if PinResolves(ports, pin, req) {
      PinResolvesWithoutProvisioning(ports, pin, req);
    }
  }

  /** First fit before provisioning: a suitable tracked port rules the provisioner out. */
  lemma SuitablePortWithoutProvisioning(ports: Ports, pin: Option<string>, req: seq<L4Port>, id: string)
    requires id in ports && Suitable(ports[id], req)
    ensures !NeedsProvisioning(ports, pin, req)
  {
  }

  /**
   Whatever MapService chooses can take all requested port numbers, given a
   provisioner that returns an untracked ID.
   */
  lemma ChosenPortSuitable(ports: Ports, pin: Option<string>, req: seq<L4Port>, provision: Provision, chosen: string)
    requires ChosenPort(ports, pin, req, provision, chosen)
    requires provision.Provisioned? ==> provision.id !in ports
    ensures Suitable(L3Port(AllocationsOf(Stage(ports, pin), chosen)), req)
  {
    var staged := Stage(ports, pin);
    if PinResolves(ports, pin, req) {
      if chosen in ports {
        assert staged[chosen] == ports[chosen];
      }
    } else if NeedsProvisioning(ports, pin, req) {
      assert chosen !in staged;
    }
  }

  /**
   A pin naming a tracked port that conflicts is not chosen, given a
   provisioner that returns an untracked ID.
   */
  lemma ConflictingPinAvoided(ports: Ports, pin: Option<string>, req: seq<L4Port>, provision: Provision, chosen: string)
    requires ChosenPort(ports, pin, req, provision, chosen)
    requires provision.Provisioned? ==> provision.id !in ports
    requires pin.Some? && pin.value in ports && !Suitable(ports[pin.value], req)
    ensures chosen != pin.value
  {
    if !NeedsProvisioning(ports, pin, req) {
      assert Stage(ports, pin)[pin.value] == ports[pin.value];
    }
  }

  /**
   Binding a service to the port MapService chooses never changes the owner
   of an allocation that existed before, given a provisioner that returns an
   untracked ID.
   */
  lemma BindKeepsEntries(ports: Ports, pin: Option<string>, req: seq<L4Port>, provision: Provision, chosen: string, key: Key)
    requires ChosenPort(ports, pin, req, provision, chosen)
    requires provision.Provisioned? ==> provision.id !in ports
    ensures forall other, pn :: other in ports && pn in ports[other].allocations ==>
              Occupies(Bind(Stage(ports, pin), chosen, req, key), other, pn, ports[other].allocations[pn])
  {
    var staged := Stage(ports, pin);
    ChosenPortSuitable(ports, pin, req, provision, chosen);
    var r := Bind(staged, chosen, req, key);
    forall other, pn | other in ports && pn in ports[other].allocations
      ensures Occupies(r, other, pn, ports[other].allocations[pn])
    {
      assert staged[other] == ports[other];
      if other == chosen {
        assert pn in AllocationsOf(staged, chosen);
      }
    }
  }

  /**
   A resolving pin is chosen without the provisioner; an untracked pin ends
   up holding exactly the service's allocations.
   */
  lemma PinnedPortChosen(ports: Ports, pin: Option<string>, req: seq<L4Port>, provision: Provision, chosen: string, key: Key)
    requires ChosenPort(ports, pin, req, provision, chosen)
    requires PinResolves(ports, pin, req)
    ensures chosen == pin.value && !NeedsProvisioning(ports, pin, req)
    ensures pin.value !in ports ==>
              Bind(Stage(ports, pin), chosen, req, key)[chosen] == L3Port(Allocate(map[], req, key))
  {
    PinResolvesWithoutProvisioning(ports, pin, req);
  }

  /** Binding to a freshly registered empty port is binding to an untracked ID. */
  lemma BindEmplaced(ports: Ports, id: string, req: seq<L4Port>, key: Key)
    requires id !in ports
    ensures Bind(ports[id := L3Port(map[])], id, req, key) == Bind(ports, id, req, key)
  {
  }

  /** Binding keeps the binding invariant when the chosen port is suitable. */
  lemma BindKeepsBound(services: Services, ports: Ports, id: string, req: seq<L4Port>, key: Key)
    requires Bound(services, ports)
    requires Suitable(L3Port(AllocationsOf(ports, id)), req)
    ensures Bound(services[key := ServiceModel(id, req)], Bind(ports, id, req, key))
  {
    var s' := services[key := ServiceModel(id, req)];
    var p' := Bind(ports, id, req, key);
    forall k, i | k in s' && 0 <= i < |s'[k].ports|
      ensures Occupies(p', s'[k].l3PortId, s'[k].ports[i].port, k)
    {
      if k != key {
        assert Occupies(ports, services[k].l3PortId, services[k].ports[i].port, k);
      }
    }
  }

  /** Registering an empty pinned port keeps the binding invariant. */
  lemma StageKeepsBound(services: Services, ports: Ports, pin: Option<string>)
    requires Bound(services, ports)
    ensures Bound(services, Stage(ports, pin))
  {
    var p' := Stage(ports, pin);
    forall k, i | k in services && 0 <= i < |services[k].ports|
      ensures Occupies(p', services[k].l3PortId, services[k].ports[i].port, k)
    {
      assert Occupies(ports, services[k].l3PortId, services[k].ports[i].port, k);
    }
  }

  /** An allocation table without the entries owned by `key`. */
  function ScrubAllocations(alloc: map<int32, Key>, key: Key): (r: map<int32, Key>)
    ensures key !in r.Values
    ensures forall pn :: pn in r ==> pn in alloc && r[pn] == alloc[pn]
    ensures forall pn :: pn in alloc && alloc[pn] != key ==> pn in r
  {
    map pn | pn in alloc && alloc[pn] != key :: alloc[pn]
  }

  /**
   The tracked ports after every allocation of `key` is removed (UnmapService):
   the same port IDs, no entry owned by `key`, every other entry kept.
   */
  function Scrub(ports: Ports, key: Key): (r: Ports)
    ensures r.Keys == ports.Keys
    ensures forall id :: id in r ==> key !in r[id].allocations.Values
    ensures forall id, pn :: id in r && pn in r[id].allocations ==> Occupies(ports, id, pn, r[id].allocations[pn])
    ensures forall id, pn :: id in ports && pn in ports[id].allocations && ports[id].allocations[pn] != key ==>
              Occupies(r, id, pn, ports[id].allocations[pn])
  {
    map id | id in ports :: L3Port(ScrubAllocations(ports[id].allocations, key))
  }

  /** Scrubbing twice is scrubbing once (UnmapService is idempotent). */
  lemma ScrubIdempotent(ports: Ports, key: Key)
    ensures Scrub(Scrub(ports, key), key) == Scrub(ports, key)
  {
    var once := Scrub(ports, key);
    forall id | id in once ensures Scrub(once, key)[id] == once[id] {
      assert ScrubAllocations(once[id].allocations, key) == once[id].allocations;
    }
  }

  /** Unmapping keeps the binding invariant for the services that remain. */
  lemma ScrubKeepsBound(services: Services, ports: Ports, key: Key)
    requires Bound(services, ports)
    ensures Bound(services - {key}, Scrub(ports, key))
  {
    var s' := services - {key};
    var p' := Scrub(ports, key);
    forall k, i | k in s' && 0 <= i < |s'[k].ports|
      ensures Occupies(p', s'[k].l3PortId, s'[k].ports[i].port, k)
    {
      assert Occupies(ports, services[k].l3PortId, services[k].ports[i].port, k);
    }
  }

  /** The tracked L3 ports that hold at least one allocation. */
  function UsedIds(ports: Ports): set<string>
  {
    set id | id in ports && ports[id].allocations != map[]
  }

  /**
   The tracked ports after garbage collection (GetUsedL3Ports): exactly the
   ports with an empty allocation table are gone, the rest are unchanged.
   */
  function CollectGarbage(ports: Ports): (r: Ports)
    ensures forall id :: id in r <==> id in ports && ports[id].allocations != map[]
    ensures forall id :: id in r ==> r[id] == ports[id]
  {
    map id | id in UsedIds(ports) :: ports[id]
  }

  /** A second collection changes nothing and reports the same ports. */
  lemma CollectGarbageIdempotent(ports: Ports)
    ensures CollectGarbage(CollectGarbage(ports)) == CollectGarbage(ports)
    ensures UsedIds(CollectGarbage(ports)) == UsedIds(ports)
  {
  }

  /** Collection keeps the binding invariant: a bound service's port is never empty. */
  lemma CollectKeepsBound(services: Services, ports: Ports)
    requires Bound(services, ports)
    ensures Bound(services, CollectGarbage(ports))
  {
    var p' := CollectGarbage(ports);
    forall k, i | k in services && 0 <= i < |services[k].ports|
      ensures Occupies(p', services[k].l3PortId, services[k].ports[i].port, k)
    {
      assert Occupies(ports, services[k].l3PortId, services[k].ports[i].port, k);
      assert services[k].ports[i].port in ports[services[k].l3PortId].allocations;
    }
  }

  /** The tracked ports whose IDs are in `valid`, unchanged. */
  function Restrict(ports: Ports, valid: set<string>): (r: Ports)
    ensures forall id :: id in r <==> id in ports && id in valid
    ensures forall id :: id in r ==> r[id] == ports[id]
  {
    map id | id in ports && id in valid :: ports[id]
  }

  /** The keys owning some allocation on one of the ports `ids`. */
  function Owners(ports: Ports, ids: set<string>): set<Key>
  {
    set id, pn | id in ids && id in ports && pn in ports[id].allocations :: ports[id].allocations[pn]
  }

  /** Dropping one more port adds exactly that port's owners. */
  lemma OwnersStep(ports: Ports, ids: set<string>, id: string)
    requires id in ports
    ensures Owners(ports, ids + {id}) == Owners(ports, ids) + ports[id].allocations.Values
  {
    var alloc := ports[id].allocations;
    forall k | k in alloc.Values ensures k in Owners(ports, ids + {id}) {
      var pn :| pn in alloc && alloc[pn] == k;
    }
  }

  /** The IDs listed in `ids`. */
  function Elements(ids: seq<string>): set<string>
  {
    set id | id in ids
  }

  /**
   The services SetAvailableL3Ports evicts: the mapped services that own an
   allocation on a tracked port whose ID is not in `valid`.
   */
  function Evicted(services: Services, ports: Ports, valid: set<string>): (r: set<Key>)
    ensures forall k :: k in r <==>
      k in services && exists id :: id in ports && id !in valid && k in ports[id].allocations.Values
  {
    var removed := ports.Keys - valid;
    forall k | k in Owners(ports, removed)
      ensures exists id :: id in ports && id !in valid && k in ports[id].allocations.Values
    {
      var id, pn :| id in removed && id in ports && pn in ports[id].allocations && ports[id].allocations[pn] == k;
    }
    forall k, id | id in ports && id !in valid && k in ports[id].allocations.Values
      ensures k in Owners(ports, removed)
    {
      var pn :| pn in ports[id].allocations && ports[id].allocations[pn] == k;
    }
    services.Keys * Owners(ports, removed)
  }

  /**
   Removing the evicted services is removing the owners on dropped ports,
   and keeping the valid ports is dropping the others.
   */
  lemma EvictedAsOwners(services: Services, ports: Ports, valid: set<string>)
    ensures services - Evicted(services, ports, valid) == services - Owners(ports, ports.Keys - valid)
    ensures Restrict(ports, valid) == ports - (ports.Keys - valid)
  {
  }

  /**
   Eviction keeps the binding invariant: a remaining service with a port
   owns nothing on a removed port, so its own L3 port is kept.
   */
  lemma EvictionKeepsBound(services: Services, ports: Ports, valid: set<string>)
    requires Bound(services, ports)
    ensures Bound(services - Evicted(services, ports, valid), Restrict(ports, valid))
  {
    var s' := services - Evicted(services, ports, valid);
    var p' := Restrict(ports, valid);
    forall k, i | k in s' && 0 <= i < |s'[k].ports|
      ensures Occupies(p', s'[k].l3PortId, s'[k].ports[i].port, k)
    {
      var id, pn := services[k].l3PortId, services[k].ports[i].port;
      assert Occupies(ports, id, pn, k);
      assert k in ports[id].allocations.Values;
    }
  }
}
