# Port mapper of the ch-k8s-lbaas controller, in Dafny

The load-balancer controller maps Kubernetes services of type LoadBalancer
onto L3 ports (floating addresses) of the cloud. Each service exposes a list
of L4 ports, meaning (protocol, port number) pairs. Several services may share
an L3 port as long as no port number is handed out twice on it. The port mapper
owns two in-memory tables:

- `services`: service key -> service model. The model is the L3 port ID plus
  the requested (protocol, port) pairs.
- `l3ports`: L3 port ID -> allocation table. The table maps a port number to
  the key of the service that owns it.

This project models the port mapper (`PortMapperImpl`) and its operations:

- `MapService`: the pinned port first, then a first fit among the tracked
  ports, then a newly provisioned port.
- `UnmapService`.
- `GetServiceL3Port`.
- `GetUsedL3Ports`, which also drops the empty L3 ports.
- `SetAvailableL3Ports`, which drops the L3 ports the cloud no longer offers
  and evicts their services.
- `GetLBConfiguration`, which is not implemented.

Layout:

- `model.dfy` (module `Model`) holds the values. These are service
  identifiers and the key codec, L4 ports, service models, allocation tables,
  the service descriptor handed in by the controller, and the error values.
- `tables.dfy` (module `Tables`) describes both tables as values. It has one
  function per table update: `Bind`, `Stage`, `Scrub`, `CollectGarbage`,
  `Restrict` and `Evicted`. It also holds lemmas showing that every update
  keeps the binding invariant `Bound`: every port a mapped service requests is
  allocated to it on the L3 port its model names.
- `port_mapper.dfy` (module `Controller`) holds the class `PortMapper`. Its
  two fields are reassigned by methods with loops. Each public operation is
  proved against the functions of `Tables` and keeps `Valid()`. The module ends with
  a walk-through of two services and one eviction.

Go map iteration order is unspecified. Each loop over a map is therefore
modelled as repeatedly picking an arbitrary remaining key (`:|`). The lists it
returns are described by their element sets plus the absence of duplicates.

The model reproduces these behaviours of the code as they are:

- A non-nil annotation map without the inbound-port key pins the empty port
  ID `""`. If `""` is not tracked yet, it is registered.
- A service's own earlier allocations count as conflicts when it is mapped
  again.
- Mapping again does not remove the old allocation entries.
- Eviction leaves the evicted service's entries on ports that stay.

The interface comment of `UnmapService` says it also releases L3 ports that
are no longer used. The code does not do that; only `GetUsedL3Ports` drops
empty ports. The model follows the code.

The interface comment of `SetAvailableL3Ports` says every service mapped to
a port outside the list is unmapped. The code instead evicts every mapped
service that owns an allocation entry on a dropped port. The two differ in
two ways:

- A service without ports whose model names a dropped port stays mapped and
  is not reported.
- A remapped service whose model names a kept port is still evicted when it
  has a stale entry on a dropped port.

The model follows the code.

## Model

| member | source | states |
|---|---|---|
| Model.PinnedPort | pkg/controller/port_mapper.go:131-132 | no pin for a nil annotation map; otherwise the inbound-port annotation, or "" when the key is missing |
| Model.DecodableInsert | pkg/controller/port_mapper.go:173-174 | storing a service under its encoded key keeps every service key decodable |
| Model.EncodeInjective | pkg/controller/port_mapper.go:246-258 | two identifiers with the same key are equal, so a decoded key names exactly one service |
| Tables.SuitableIffDisjoint | pkg/controller/port_mapper.go:92-101 | an L3 port is suitable exactly when none of the requested port numbers is allocated on it |
| Tables.Allocate | pkg/controller/port_mapper.go:175-178 | after the allocation loop, the table holds the old port numbers plus the requested ones; every requested number belongs to the service and every other entry is kept |
| Tables.AllocateSnoc | pkg/controller/port_mapper.go:176-178 | allocating one more requested port is one more write to the table |
| Tables.Bind | pkg/controller/port_mapper.go:173-178 | binding adds the chosen port to the tracked IDs and leaves other ports unchanged; every requested number on the chosen port maps to the key; on a suitable port, every earlier entry is kept |
| Tables.Stage | pkg/controller/port_mapper.go:131-152 | an untracked pin is registered with an empty table; tracked ports are unchanged and nothing else is added |
| Tables.PinResolvesWithoutProvisioning | pkg/controller/port_mapper.go:136-157 | a pin that is untracked, or tracked and suitable, never leads to provisioning |
| Tables.NeedsProvisioningIff | pkg/controller/port_mapper.go:155-171 | the provisioner is needed exactly when the pin does not resolve and no port is suitable once the pin is registered |
| Tables.SuitablePortWithoutProvisioning | pkg/controller/port_mapper.go:157-163 | a suitable tracked port rules the provisioner out (first fit comes before provisioning) |
| Tables.ChosenPortSuitable | pkg/controller/port_mapper.go:129-171 | whatever port the choice settles on can take every requested port number, given a provisioner that returns an untracked ID |
| Tables.ConflictingPinAvoided | pkg/controller/port_mapper.go:136-149 | a pin naming a tracked, conflicting port is not chosen: the service moves to a different port |
| Tables.PinnedPortChosen | pkg/controller/port_mapper.go:131-152 | a resolving pin is chosen without the provisioner; an untracked pin ends up holding exactly the service's allocations |
| Tables.BindKeepsEntries | pkg/controller/port_mapper.go:173-178 | mapping a service never changes the owner of an allocation entry that existed before, given a provisioner that returns an untracked ID |
| Tables.BindEmplaced | pkg/controller/port_mapper.go:77-90 | binding to a freshly registered empty port is binding to an untracked ID |
| Tables.BindKeepsBound | pkg/controller/port_mapper.go:173-178 | binding to a suitable port keeps the binding invariant |
| Tables.StageKeepsBound | pkg/controller/port_mapper.go:150-152 | registering an empty pinned port keeps the binding invariant |
| Tables.ScrubAllocations | pkg/controller/port_mapper.go:211-215 | after the scrub, the key owns nothing in the table, and every other entry is kept unchanged |
| Tables.Scrub | pkg/controller/port_mapper.go:210-216 | the tracked IDs stay the same, no entry is owned by the key, and every entry owned by another key is kept |
| Tables.ScrubIdempotent | pkg/controller/port_mapper.go:207-218 | scrubbing twice is scrubbing once |
| Tables.ScrubKeepsBound | pkg/controller/port_mapper.go:207-218 | unmapping keeps the binding invariant for the remaining services |
| Tables.CollectGarbage | pkg/controller/port_mapper.go:197-201 | exactly the ports with an empty table are dropped; the others are unchanged |
| Tables.CollectGarbageIdempotent | pkg/controller/port_mapper.go:195-205 | a second collection changes nothing and reports the same ports |
| Tables.CollectKeepsBound | pkg/controller/port_mapper.go:195-205 | a port a mapped service holds numbers on is never collected |
| Tables.Restrict | pkg/controller/port_mapper.go:233-261 | the tracked ports are exactly the old ones whose IDs are available, and their tables are unchanged |
| Tables.OwnersStep | pkg/controller/port_mapper.go:246-259 | the owners on one more dropped port are the old owners plus that port's owners |
| Tables.Evicted | pkg/controller/port_mapper.go:233-261 | a key is evicted exactly when it is mapped and owns an allocation on a tracked port that is not available |
| Tables.EvictedAsOwners | pkg/controller/port_mapper.go:246-261 | removing the evicted services is removing the owners on dropped ports, and keeping the available ports is dropping the others |
| Tables.EvictionKeepsBound | pkg/controller/port_mapper.go:220-265 | eviction keeps the binding invariant: a remaining service with ports still has its L3 port |
| Controller.PortMapper.constructor | pkg/controller/port_mapper.go:65-71 | a new port mapper has empty tables and is valid |
| Controller.PortMapper.ServiceKey | pkg/controller/port_mapper.go:73-75 | the key the service is stored under decodes back to its identifier |
| Controller.PortMapper.EmplaceL3Port | pkg/controller/port_mapper.go:86-90 | the ID is registered with an empty table, replacing any entry; services are unchanged |
| Controller.PortMapper.CreateNewL3Port | pkg/controller/port_mapper.go:77-84 | a provisioned ID is registered empty and returned; a provisioner error is returned and nothing changes |
| Controller.PortMapper.CopyPorts | pkg/controller/port_mapper.go:121-127 | the (protocol, port) pairs of the service's port list, in order |
| Controller.PortMapper.IsPortSuitableFor | pkg/controller/port_mapper.go:92-101 | true if and only if every requested port number is free on the L3 port |
| Controller.PortMapper.FindL3PortFor | pkg/controller/port_mapper.go:103-115 | returns a tracked, suitable port; returns NoSuitablePort exactly when no tracked port is suitable |
| Controller.PortMapper.ResolvePin | pkg/controller/port_mapper.go:129-153 | registers an untracked pin; returns the pin exactly when it resolves, otherwise "" |
| Controller.PortMapper.FindOrCreateL3Port | pkg/controller/port_mapper.go:155-171 | the provisioner is asked exactly when no tracked port is suitable; a found port leaves the tables unchanged; a provisioned port is registered empty; a provisioner error changes nothing |
| Controller.PortMapper.MapService | pkg/controller/port_mapper.go:117-181 | keeps Valid(); asks the provisioner exactly when no pin resolves and no tracked port fits; fails only on a provisioner error and then changes nothing; on success, stores the model with the requested ports on a tracked, chosen port and binds every requested number to the key |
| Controller.PortMapper.ChooseL3Port | pkg/controller/port_mapper.go:129-171 | the pin, the first fit or the provisioned port, as described by ChosenPort; the chosen port is tracked and suitable, and the binding invariant is kept |
| Controller.PortMapper.BindService | pkg/controller/port_mapper.go:173-178 | stores the service model and binds the requested numbers; the binding invariant is kept |
| Controller.PortMapper.AllocatePorts | pkg/controller/port_mapper.go:175-178 | the chosen port's table becomes Allocate of its old table; nothing else changes |
| Controller.PortMapper.GetServiceL3Port | pkg/controller/port_mapper.go:183-189 | returns the stored L3 port ID when the key is mapped and ServiceNotMapped otherwise; changes nothing |
| Controller.PortMapper.GetLBConfiguration | pkg/controller/port_mapper.go:191-193 | always fails with "not implemented" |
| Controller.PortMapper.GetUsedL3Ports | pkg/controller/port_mapper.go:195-205 | returns exactly the tracked IDs with allocations, each once; the L3 port table becomes CollectGarbage of the old one; services are unchanged; Valid() is kept |
| Controller.PortMapper.UnmapService | pkg/controller/port_mapper.go:207-218 | always succeeds; the key leaves the service table and the L3 port table becomes Scrub of the old one; Valid() is kept |
| Controller.PortMapper.ScrubPort | pkg/controller/port_mapper.go:211-215 | one L3 port's table loses the key's entries; nothing else changes |
| Controller.PortMapper.ValidPortSet | pkg/controller/port_mapper.go:223-229 | the set of the listed port IDs |
| Controller.PortMapper.SetAvailableL3Ports | pkg/controller/port_mapper.go:220-265 | keeps exactly the available ports, unchanged; forgets exactly the evicted services; returns each evicted identifier once; Valid() is kept |
| Controller.PortMapper.EvictPort | pkg/controller/port_mapper.go:245-261 | forgets the mapped owners of one dropped port and reports each of them once, then drops the port; the body asserts that decoding a stored key cannot fail |
| Controller.MapFirstService | pkg/controller/port_mapper.go:155-181 | on an empty mapper, a service with ports 80 and 443 is bound to the provisioned port A1 |
| Controller.MapSecondService | pkg/controller/port_mapper.go:155-181 | when A1 already holds port 80, a second service requesting port 80 is bound to the provisioned port A2 |
| Controller.TwoServicesEviction | pkg/controller/port_mapper.go:220-265 | after those two mappings, declaring only A1 available returns exactly the second service; the first stays on A1 and the second is no longer mapped |

## Left out

- Logging through klog (lines 144-147 and 221-247) has no effect on the tables and is not modelled.
- The Kubernetes object is replaced by a descriptor: the service identifier, an optional annotation map (None stands for a nil map) and the port list. `model.FromService` is not part of this model.
- The key encoding `ToKey`/`FromKey` of the `model` package is not part of this model. It is a pair of functions given to the constructor, which requires only that decoding undoes encoding. With that assumption, the panic at line 255 is unreachable, and an assertion in EvictPort proves so.
- The `L4PortFree` method of the `model` package is not part of this model. It is taken to mean "the port number is not a key of the allocation table", which matches the writes at line 177.
- The cloud backend (`openstack.L3PortManager.ProvisionPort`) is replaced by its answer, passed to MapService as a parameter: a new port ID or an error message.
- Controller.PortMapper.MapService: requires the provisioned ID, when there is one, to be untracked. `emplaceL3Port` would overwrite a tracked entry, and the binding invariant would not survive that. The promise that existing entries keep their owner holds only under this assumption.
- Controller.PortMapper.MapService: the `else if err != nil` branch after `findL3PortFor` (lines 168-170) is unreachable, because `findL3PortFor` fails only with ErrNoSuitablePort. It has no counterpart.
- Tables.Bound: constrains only services with at least one port. A service without ports may name an L3 port that GetUsedL3Ports later drops, as the code allows.
- Go's unspecified map iteration order is modelled as an arbitrary choice, so no method commits to which suitable port `findL3PortFor` returns or to the order of returned lists.
- The mock of the port mapper in pkg/controller/testing/mock.go only forwards calls to a test double and is not modelled.
- Port numbers are 32-bit integers (`int32`); no arithmetic is done on them.
