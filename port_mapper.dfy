/**
 The port mapper: it owns the service table and the L3 port table and maps
 services onto L3 ports so that no port number is handed out twice on one
 L3 port. Each method is proved against the value-level functions of module
 Tables and keeps the object invariant Valid().
 */
module Controller {
  import opened Model
  import opened Tables

  class PortMapper {
    /** The key encoding of service identifiers. */
    const codec: KeyCodec
    /** Service key -> service model. */
    var services: Services
    /** L3 port ID -> L3 port. */
    var l3ports: Ports

    /**
     The codec round-trips, every service key decodes (so eviction never
     hits its internal-error panic), and every mapped service holds its
     ports on the L3 port its model names.
     */
    ghost predicate Valid()
      reads this
    {
      && RoundTrips(codec)
      && Decodable(codec, services.Keys)
      && Bound(services, l3ports)
    }

    constructor (codec: KeyCodec)
      requires RoundTrips(codec)
      ensures Valid()
      ensures this.codec == codec && services == map[] && l3ports == map[]
    {
      this.codec := codec;
      services := map[];
      l3ports := map[];
    }

    /** The key the service is stored under; it decodes back to the service's identifier. */
    function ServiceKey(svc: Service): (r: Key)
      ensures RoundTrips(codec) ==> codec.decode(r) == Some(svc.id)
    {
      codec.encode(svc.id)
    }

    /** Registers `portID` with an empty allocation table, replacing any entry. */
    method EmplaceL3Port(portID: string)
      modifies this
      ensures l3ports == old(l3ports)[portID := L3Port(map[])]
      ensures services == old(services)
    {
      l3ports := l3ports[portID := L3Port(map[])];
    }

    /** Asks the provisioner for a new L3 port and registers it. */
    method CreateNewL3Port(provision: Provision) returns (r: Result<string>)
      modifies this
      ensures services == old(services)
      ensures provision.Provisioned? ==>
                r == Ok(provision.id) && l3ports == old(l3ports)[provision.id := L3Port(map[])]
      ensures provision.ProvisionFailed? ==>
                r == Err(Backend(provision.message)) && l3ports == old(l3ports)
    {
      match provision
      case ProvisionFailed(message) =>
        return Err(Backend(message));
      case Provisioned(id) =>
        EmplaceL3Port(id);
        return Ok(id);
    }

    /** Copies a service's port list into (protocol, port) pairs, keeping the order. */
    method CopyPorts(ports: seq<ServicePort>) returns (r: seq<L4Port>)
      ensures |r| == |ports|
      ensures forall i :: 0 <= i < |ports| ==> r[i].protocol == ports[i].protocol && r[i].port == ports[i].port
      ensures r == L4Ports(ports)
    {
      r := [];
      for i := 0 to |ports|
        invariant |r| == i
        invariant forall j :: 0 <= j < i ==> r[j] == L4Port(ports[j].protocol, ports[j].port)
      {
        r := r + [L4Port(ports[i].protocol, ports[i].port)];
      }
    }

    /** True iff every requested port number is free on `l3port`. */
    method IsPortSuitableFor(l3port: L3Port, ports: seq<L4Port>) returns (ok: bool)
      ensures ok <==> forall i :: 0 <= i < |ports| ==> ports[i].port !in l3port.allocations
      ensures ok <==> Suitable(l3port, ports)
    {
      for i := 0 to |ports|
        invariant forall j :: 0 <= j < i ==> L4PortFree(l3port, ports[j])
      {
        if !L4PortFree(l3port, ports[i]) {
          return false;
        }
      }
      return true;
    }

    /**
     Some tracked L3 port suitable for `ports`, in no particular order, or
     NoSuitablePort exactly when none is.
     */
    method FindL3PortFor(ports: seq<L4Port>) returns (r: Result<string>)
      ensures r.Ok? ==> r.value in l3ports && Suitable(l3ports[r.value], ports)
      ensures r.Err? ==> r.error == NoSuitablePort
      ensures r.Err? <==> forall id :: id in l3ports ==> !Suitable(l3ports[id], ports)
    {
      var todo := l3ports.Keys;
      while todo != {}
        invariant todo <= l3ports.Keys
        invariant forall id :: id in l3ports && id !in todo ==> !Suitable(l3ports[id], ports)
        decreases todo
      {
        var id :| id in todo;
        var ok := IsPortSuitableFor(l3ports[id], ports);
        if ok {
          return Ok(id);
        }
        todo := todo - {id};
      }
      return Err(NoSuitablePort);
    }

    /**
     The first step of MapService: the pinned L3 port if it is untracked
     (it is then registered empty) or tracked and suitable, else "".
     */
    method ResolvePin(svc: Service, ports: seq<L4Port>) returns (portID: string)
      modifies this
      ensures services == old(services)
      ensures l3ports == Stage(old(l3ports), PinnedPort(svc))
      ensures portID != "" <==> PinResolves(old(l3ports), PinnedPort(svc), ports)
      ensures portID != "" ==> portID == PinnedPort(svc).value
    {
      portID := "";
      if svc.annotations.Some? {
        var annotations := svc.annotations.value;
        portID := if AnnotationInboundPort in annotations then annotations[AnnotationInboundPort] else "";
        if portID in l3ports {
          // a tracked port may have conflicting allocations
          var ok := IsPortSuitableFor(l3ports[portID], ports);
          if !ok {
            portID := "";
          }
        } else {
          EmplaceL3Port(portID);
        }
      }
    }

    /**
     The fallback of MapService: a suitable tracked port if there is one,
     else a port from the provisioner (`provision` is its answer).
     */
    method FindOrCreateL3Port(ports: seq<L4Port>, provision: Provision) returns (r: Result<string>, ghost provisioned: bool)
      modifies this
      ensures services == old(services)
      ensures provisioned <==> forall id :: id in old(l3ports) ==> !Suitable(old(l3ports)[id], ports)
      ensures !provisioned ==>
                r.Ok? && r.value in old(l3ports) && Suitable(old(l3ports)[r.value], ports) && l3ports == old(l3ports)
      ensures provisioned && provision.Provisioned? ==>
                r == Ok(provision.id) && l3ports == old(l3ports)[provision.id := L3Port(map[])]
      ensures provisioned && provision.ProvisionFailed? ==>
                r == Err(Backend(provision.message)) && l3ports == old(l3ports)
    {
      provisioned := false;
      r := FindL3PortFor(ports);
      if r.Err? {
        // the only error FindL3PortFor reports is NoSuitablePort
        provisioned := true;
        r := CreateNewL3Port(provision);
      }
    }

    /**
     Maps `svc` onto an L3 port: the pinned port if it is new or suitable,
     else any suitable tracked port, else a port from the provisioner
     (`provision` is its answer; `provisioned` tells whether it was asked).
     */
    method MapService(svc: Service, provision: Provision) returns (outcome: Outcome, ghost provisioned: bool)
      requires Valid()
      requires provision.Provisioned? ==> provision.id !in l3ports
      modifies this
      ensures Valid()
      // the provisioner is asked exactly when no pin resolved and no tracked port fits
      ensures provisioned <==> NeedsProvisioning(old(l3ports), PinnedPort(svc), L4Ports(svc.ports))
      // a failure comes only from the provisioner, and changes nothing
      ensures outcome.Fail? <==> provisioned && provision.ProvisionFailed?
      ensures outcome.Fail? ==>
                outcome.error == Backend(provision.message) &&
                services == old(services) && l3ports == old(l3ports)
      // on success: the model is stored and only the chosen port gains entries
      ensures !provisioned ==> outcome.Pass?
      ensures outcome.Pass? ==>
                var key := ServiceKey(svc);
                && key in services
                && services[key].l3PortId in l3ports
                && services == old(services)[key := ServiceModel(services[key].l3PortId, L4Ports(svc.ports))]
                && ChosenPort(old(l3ports), PinnedPort(svc), L4Ports(svc.ports), provision, services[key].l3PortId)
                && l3ports == Bind(Stage(old(l3ports), PinnedPort(svc)), services[key].l3PortId, L4Ports(svc.ports), key)
    {
      var key := ServiceKey(svc);
      var ports := CopyPorts(svc.ports);
      var chosen;
      chosen, provisioned := ChooseL3Port(svc, ports, key, provision);
      if chosen.Err? {
        return Fail(chosen.error), provisioned;
      }
      BindService(key, chosen.value, ports);
      DecodableInsert(codec, old(services).Keys, svc.id);
      outcome := Pass;
    }

    /**
     The choice of MapService: the pinned port if it resolves, else a
     suitable tracked port, else a port from the provisioner. Binding `key`
     to the chosen port afterwards is binding it in the staged table.
     */
    method ChooseL3Port(svc: Service, ports: seq<L4Port>, key: Key, provision: Provision)
      returns (chosen: Result<string>, ghost provisioned: bool)
      requires Bound(services, l3ports)
      requires provision.Provisioned? ==> provision.id !in l3ports
      modifies this
      ensures services == old(services)
      ensures provisioned <==> NeedsProvisioning(old(l3ports), PinnedPort(svc), ports)
      ensures chosen.Err? <==> provisioned && provision.ProvisionFailed?
      ensures chosen.Err? ==> chosen.error == Backend(provision.message) && l3ports == old(l3ports)
      ensures chosen.Ok? ==>
                && chosen.value in l3ports
                && ChosenPort(old(l3ports), PinnedPort(svc), ports, provision, chosen.value)
                && Suitable(l3ports[chosen.value], ports)
                && Bound(services, l3ports)
                && Bind(l3ports, chosen.value, ports, key) == Bind(Stage(old(l3ports), PinnedPort(svc)), chosen.value, ports, key)
    {
      ghost var pin := PinnedPort(svc);
      ghost var staged := Stage(l3ports, pin);
      StageKeepsBound(services, l3ports, pin);
      provisioned := false;

      // first, see if the service has a preferred port
      var portID := ResolvePin(svc, ports);
      NeedsProvisioningIff(old(l3ports), pin, ports);

      if portID == "" {
        // second, an existing port without conflicts; third, a new port
        chosen, provisioned := FindOrCreateL3Port(ports, provision);
        if chosen.Err? {
          return;
        }
        portID := chosen.value;
        if provisioned {
          // the provisioned port is registered: binding to it is binding to an untracked ID
          BindEmplaced(staged, portID, ports, key);
          StageKeepsBound(old(services), staged, Some(portID));
        }
      }

      ChosenPortSuitable(old(l3ports), pin, ports, provision, portID);
      assert l3ports[portID] == L3Port(AllocationsOf(staged, portID));
      chosen := Ok(portID);
    }

    /**
     The last step of MapService: stores the service model and writes `key`
     at each requested port number of L3 port `portID`, in order.
     */
    method BindService(key: Key, portID: string, ports: seq<L4Port>)
      requires portID in l3ports
      requires Bound(services, l3ports) && Suitable(l3ports[portID], ports)
      modifies this
      ensures services == old(services)[key := ServiceModel(portID, ports)]
      ensures l3ports == Bind(old(l3ports), portID, ports, key)
      ensures Bound(services, l3ports)
    {
      BindKeepsBound(services, l3ports, portID, ports, key);
      services := services[key := ServiceModel(portID, ports)];
      AllocatePorts(portID, ports, key);
    }

    /** The allocation loop of MapService: `key` at each requested port number, in order. */
    method AllocatePorts(portID: string, ports: seq<L4Port>, key: Key)
      requires portID in l3ports
      modifies this
      ensures services == old(services)
      ensures l3ports == old(l3ports)[portID := L3Port(Allocate(old(l3ports)[portID].allocations, ports, key))]
    {
      ghost var base := l3ports[portID].allocations;
      var i := 0;
      while i < |ports|
        invariant 0 <= i <= |ports|
        invariant l3ports == old(l3ports)[portID := L3Port(Allocate(base, ports[..i], key))]
        invariant services == old(services)
      {
        AllocateSnoc(base, ports, i, key);
        l3ports := l3ports[portID := L3Port(l3ports[portID].allocations[ports[i].port := key])];
        i := i + 1;
      }
      assert ports[..i] == ports;
    }

    /** The L3 port the service is mapped to, or ServiceNotMapped. */
    method GetServiceL3Port(id: ServiceId) returns (r: Result<string>)
      ensures codec.encode(id) in services ==> r == Ok(services[codec.encode(id)].l3PortId)
      ensures codec.encode(id) !in services ==> r == Err(ServiceNotMapped)
    {
      var key := codec.encode(id);
      if key !in services {
        return Err(ServiceNotMapped);
      }
      return Ok(services[key].l3PortId);
    }

    /** Not implemented in this design: always fails. */
    method GetLBConfiguration() returns (outcome: Outcome)
      ensures outcome == Fail(NotImplemented)
    {
      return Fail(NotImplemented);
    }

    /**
     Drops every tracked L3 port without allocations and returns the IDs of
     the others, each once, in no particular order.
     */
    method GetUsedL3Ports() returns (r: Result<seq<string>>)
      requires Valid()
      modifies this
      ensures Valid()
      ensures r.Ok?
      ensures forall id :: id in r.value <==> id in UsedIds(old(l3ports))
      ensures NoDuplicates(r.value)
      ensures l3ports == CollectGarbage(old(l3ports))
      ensures services == old(services)
    {
      var result := [];
      var todo := l3ports.Keys;
      while todo != {}
        invariant todo <= old(l3ports).Keys
        invariant forall id :: id in l3ports <==>
                    id in old(l3ports) && (id in todo || old(l3ports)[id].allocations != map[])
        invariant forall id :: id in l3ports ==> l3ports[id] == old(l3ports)[id]
        invariant forall id :: id in result <==>
                    id in old(l3ports) && id !in todo && old(l3ports)[id].allocations != map[]
        invariant NoDuplicates(result)
        invariant services == old(services)
        decreases todo
      {
        var id :| id in todo;
        todo := todo - {id};
        if |l3ports[id].allocations| == 0 {
          l3ports := l3ports - {id};
          continue;
        }
        result := result + [id];
      }
      assert l3ports == CollectGarbage(old(l3ports));
      CollectKeepsBound(services, old(l3ports));
      return Ok(result);
    }

    /**
     Forgets the service and removes every allocation it owns on any L3 port;
     the set of tracked L3 ports is unchanged. Always succeeds.
     */
    method UnmapService(id: ServiceId) returns (outcome: Outcome)
      requires Valid()
      modifies this
      ensures Valid()
      ensures outcome == Pass
      ensures services == old(services) - {codec.encode(id)}
      ensures l3ports == Scrub(old(l3ports), codec.encode(id))
    {
      var key := codec.encode(id);
      services := services - {key};
      var todo := l3ports.Keys;
      while todo != {}
        invariant todo <= old(l3ports).Keys
        invariant l3ports.Keys == old(l3ports).Keys
        invariant forall pid :: pid in todo ==> l3ports[pid] == old(l3ports)[pid]
        invariant forall pid :: pid in l3ports && pid !in todo ==>
                    l3ports[pid].allocations == ScrubAllocations(old(l3ports)[pid].allocations, key)
        invariant services == old(services) - {key}
        decreases todo
      {
        var pid :| pid in todo;
        todo := todo - {pid};
        ScrubPort(pid, key);
      }
      assert l3ports == Scrub(old(l3ports), key);
      ScrubKeepsBound(old(services), old(l3ports), key);
      return Pass;
    }

    /** The inner loop of UnmapService: drops the entries of `key` on one L3 port. */
    method ScrubPort(pid: string, key: Key)
      requires pid in l3ports
      modifies this
      ensures services == old(services)
      ensures l3ports == old(l3ports)[pid := L3Port(ScrubAllocations(old(l3ports)[pid].allocations, key))]
    {
      ghost var orig := l3ports[pid].allocations;
      var numbers := l3ports[pid].allocations.Keys;
      while numbers != {}
        invariant numbers <= orig.Keys
        invariant pid in l3ports && l3ports == old(l3ports)[pid := l3ports[pid]]
        invariant forall pn :: pn in l3ports[pid].allocations <==>
                    pn in orig && (pn in numbers || orig[pn] != key)
        invariant forall pn :: pn in l3ports[pid].allocations ==> l3ports[pid].allocations[pn] == orig[pn]
        invariant services == old(services)
        decreases numbers
      {
        var pn :| pn in numbers;
        numbers := numbers - {pn};
        if l3ports[pid].allocations[pn] == key {
          l3ports := l3ports[pid := L3Port(l3ports[pid].allocations - {pn})];
        }
      }
      assert l3ports[pid].allocations == ScrubAllocations(orig, key);
    }

    /** The set of available port IDs (the validPorts map of SetAvailableL3Ports). */
    method ValidPortSet(portIDs: seq<string>) returns (valid: set<string>)
      ensures forall id :: id in valid <==> id in portIDs
      ensures valid == Elements(portIDs)
    {
      valid := {};
      for i := 0 to |portIDs|
        invariant forall id :: id in valid <==> id in portIDs[..i]
      {
        valid := valid + {portIDs[i]};
      }
      assert portIDs[..|portIDs|] == portIDs;
    }

    /**
     Keeps only the tracked L3 ports whose IDs are in `portIDs`; every mapped
     service owning an allocation on a dropped port is forgotten and its
     identifier reported, each once, in no particular order.
     */
    method SetAvailableL3Ports(portIDs: seq<string>) returns (r: Result<seq<ServiceId>>)
      requires Valid()
      modifies this
      ensures Valid()
      ensures r.Ok?
      ensures l3ports == Restrict(old(l3ports), Elements(portIDs))
      ensures services == old(services) - Evicted(old(services), old(l3ports), Elements(portIDs))
      ensures forall id :: id in r.value <==> codec.encode(id) in Evicted(old(services), old(l3ports), Elements(portIDs))
      ensures NoDuplicates(r.value)
    {
      var validPorts := ValidPortSet(portIDs);

      var result: seq<ServiceId> := [];
      ghost var dropped: set<string> := {};
      var todo := l3ports.Keys;
      while todo != {}
        invariant todo <= old(l3ports).Keys
        invariant forall pid :: pid in old(l3ports) ==> (pid in dropped <==> pid !in todo && pid !in validPorts)
        invariant dropped <= old(l3ports).Keys
        invariant l3ports == old(l3ports) - dropped
        invariant services == old(services) - Owners(old(l3ports), dropped)
        invariant forall x :: x in result <==>
                    codec.encode(x) in old(services) && codec.encode(x) in Owners(old(l3ports), dropped)
        invariant forall x :: x in result ==> codec.encode(x) !in services
        invariant Decodable(codec, services.Keys)
        invariant NoDuplicates(result)
        decreases todo
      {
        var pid :| pid in todo;
        todo := todo - {pid};
        if pid in validPorts {
          continue;
        }
        // the port is no longer available: evict the services using it
        OwnersStep(old(l3ports), dropped, pid);
        result := EvictPort(pid, result);
        dropped := dropped + {pid};
      }

      assert dropped == old(l3ports).Keys - validPorts;
      EvictedAsOwners(old(services), old(l3ports), validPorts);
      EvictionKeepsBound(old(services), old(l3ports), validPorts);
      return Ok(result);
    }

    /**
     One dropped port of SetAvailableL3Ports: forgets every mapped service
     owning one of its allocations, appending its identifier to `result`
     (once even when it owns several entries), then forgets the port.
     */
    method EvictPort(pid: string, result: seq<ServiceId>) returns (result': seq<ServiceId>)
      requires pid in l3ports
      requires RoundTrips(codec) && Decodable(codec, services.Keys)
      requires NoDuplicates(result)
      requires forall x :: x in result ==> codec.encode(x) !in services
      modifies this
      ensures l3ports == old(l3ports) - {pid}
      ensures services == old(services) - old(l3ports)[pid].allocations.Values
      ensures forall x :: x in result' <==>
                x in result || (codec.encode(x) in old(services) && codec.encode(x) in old(l3ports)[pid].allocations.Values)
      ensures forall x :: x in result' ==> codec.encode(x) !in services
      ensures Decodable(codec, services.Keys)
      ensures NoDuplicates(result')
    {
      var allocations := l3ports[pid].allocations;
      result' := result;
      ghost var seen: set<Key> := {};
      var numbers := allocations.Keys;
      while numbers != {}
        invariant numbers <= allocations.Keys
        invariant forall pn :: pn in allocations && pn !in numbers ==> allocations[pn] in seen
        invariant seen <= allocations.Values
        invariant services == old(services) - seen
        invariant l3ports == old(l3ports)
        invariant forall x :: x in result' <==>
                    x in result || (codec.encode(x) in old(services) && codec.encode(x) in seen)
        invariant forall x :: x in result' ==> codec.encode(x) !in services
        invariant NoDuplicates(result')
        decreases numbers
      {
        var pn :| pn in numbers;
        numbers := numbers - {pn};
        var serviceKey := allocations[pn];
        // the existence check reports a service with several allocations once
        if serviceKey in services {
          var decoded := codec.decode(serviceKey);
          // decoding a key taken from the service table cannot fail: the
          // internal-error panic is unreachable
          assert decoded.Some?;
          var id := decoded.value;
          forall x | codec.encode(x) == serviceKey ensures x == id {
            EncodeInjective(codec, x, id);
          }
          services := services - {serviceKey};
          result' := result' + [id];
        }
        seen := seen + {serviceKey};
      }
      assert seen == allocations.Values;
      l3ports := l3ports - {pid};
    }
  }

  /** Two services without a pin: `s1` requests ports 80 and 443, `s2` port 80. */
  const FirstService := Service(ServiceId("default", "s1"), None,
                                [ServicePort("http", "TCP", 80), ServicePort("https", "TCP", 443)])
  const SecondService := Service(ServiceId("default", "s2"), None, [ServicePort("http", "TCP", 80)])

  /** On a fresh port mapper nothing is tracked: `s1` gets the provisioned port A1. */
  method MapFirstService(codec: KeyCodec) returns (mapper: PortMapper)
    requires RoundTrips(codec)
    ensures fresh(mapper) && mapper.Valid() && mapper.codec == codec
    ensures mapper.services == map[codec.encode(FirstService.id) := ServiceModel("A1", L4Ports(FirstService.ports))]
    ensures mapper.l3ports == map["A1" := L3Port(map[80 := codec.encode(FirstService.id), 443 := codec.encode(FirstService.id)])]
  {
    ghost var key, req := codec.encode(FirstService.id), L4Ports(FirstService.ports);
    assert req[0].port == 80 && req[1].port == 443 && PortNumbers(req) == {80, 443};
    mapper := new PortMapper(codec);
    assert NeedsProvisioning(map[], None, req);
    var outcome, provisioned := mapper.MapService(FirstService, Provisioned("A1"));
    assert mapper.services[key].l3PortId == "A1";
    assert mapper.l3ports == Bind(map[], "A1", req, key);
    assert Allocate(map[], req, key) == map[80 := key, 443 := key];
  }

  /** A1 has port 80 taken: `s2` gets the provisioned port A2. */
  method MapSecondService(mapper: PortMapper)
    requires mapper.Valid()
    requires mapper.services == map[mapper.codec.encode(FirstService.id) := ServiceModel("A1", L4Ports(FirstService.ports))]
    requires mapper.l3ports == map["A1" := L3Port(map[80 := mapper.codec.encode(FirstService.id), 443 := mapper.codec.encode(FirstService.id)])]
    modifies mapper
    ensures mapper.Valid()
    ensures mapper.services == old(mapper.services)[mapper.codec.encode(SecondService.id) := ServiceModel("A2", L4Ports(SecondService.ports))]
    ensures mapper.l3ports == old(mapper.l3ports)["A2" := L3Port(map[80 := mapper.codec.encode(SecondService.id)])]
  {
    ghost var key, req := mapper.codec.encode(SecondService.id), L4Ports(SecondService.ports);
    assert req[0].port == 80 && |req| == 1 && PortNumbers(req) == {80};
    assert !Suitable(mapper.l3ports["A1"], req);
    assert NeedsProvisioning(mapper.l3ports, None, req);
    var outcome, provisioned := mapper.MapService(SecondService, Provisioned("A2"));
    assert mapper.services[key].l3PortId == "A2";
    assert Allocate(map[], req, key) == map[80 := key];
  }

  /**
   The walk-through of the port mapper: `s1` on A1, `s2` on A2; declaring
   only A1 available evicts `s2` alone and keeps `s1` on A1.
   */
  method TwoServicesEviction(codec: KeyCodec)
    returns (evicted: Result<seq<ServiceId>>, first: Result<string>, second: Result<string>)
    requires RoundTrips(codec)
    ensures evicted == Ok([SecondService.id])
    ensures first == Ok("A1")
    ensures second == Err(ServiceNotMapped)
  {
    var mapper := MapFirstService(codec);
    MapSecondService(mapper);
    ghost var k1, k2 := codec.encode(FirstService.id), codec.encode(SecondService.id);
    assert k1 != k2 by { EncodeInjective(codec, FirstService.id, SecondService.id); }
    assert mapper.l3ports["A2"].allocations[80] == k2;
    assert mapper.l3ports["A2"].allocations.Values == {k2};
    assert Elements(["A1"]) == {"A1"};
    assert Evicted(mapper.services, mapper.l3ports, {"A1"}) == {k2};
    evicted := mapper.SetAvailableL3Ports(["A1"]);
    forall x ensures x in evicted.value <==> x == SecondService.id {
      EncodeInjective(codec, x, SecondService.id);
    }
    NoDuplicatesSingleton(evicted.value, SecondService.id);
    first := mapper.GetServiceL3Port(FirstService.id);
    second := mapper.GetServiceL3Port(SecondService.id);
  }
}
