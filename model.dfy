/**
 The values the port mapper works with: service identifiers and their string
 keys, L4 ports, the per-service model, the per-address allocation table,
 the service descriptor handed in by the controller, and error values.
 */
module Model {

  /** Kubernetes port numbers are 32-bit signed integers. */
  newtype int32 = x: int | -0x8000_0000 <= x < 0x8000_0000

  /** The string key a service identifier is encoded to; used as map key. */
  type Key = string

  datatype Option<T> = None | Some(value: T)

  /** The error values the port mapper returns. */
  datatype Error =
    | ServiceNotMapped
    | NoSuitablePort
    | NotImplemented
    | Backend(message: string)  // an error reported by the address provisioner

  datatype Result<T> = Ok(value: T) | Err(error: Error)

  /** A Go `error` return: nil or an error value. */
  datatype Outcome = Pass | Fail(error: Error)

  /** Names a service (namespace and name). */
  datatype ServiceId = ServiceId(namespace: string, name: string)

  /**
   The key encoding of service identifiers. Its implementation lives outside
   the port mapper, so it is a pair of total functions; all the port mapper
   relies on is that decoding undoes encoding (RoundTrips).
   */
  datatype KeyCodec = KeyCodec(encode: ServiceId -> Key, decode: Key -> Option<ServiceId>)

  ghost predicate RoundTrips(codec: KeyCodec)
  {
    forall id :: codec.decode(codec.encode(id)) == Some(id)
  }

  /** Every key in `keys` decodes to an identifier that encodes back to it. */
  ghost predicate Decodable(codec: KeyCodec, keys: set<Key>)
  {
    forall k :: k in keys ==> codec.decode(k).Some? && codec.encode(codec.decode(k).value) == k
  }

  /** Adding the key of an identifier keeps a key set decodable. */
  lemma DecodableInsert(codec: KeyCodec, keys: set<Key>, id: ServiceId)
    requires RoundTrips(codec) && Decodable(codec, keys)
    ensures Decodable(codec, keys + {codec.encode(id)})
  {
    assert codec.decode(codec.encode(id)) == Some(id);
  }

  /** Encoding is collision-free: distinct identifiers never share a key. */
  lemma EncodeInjective(codec: KeyCodec, a: ServiceId, b: ServiceId)
    requires RoundTrips(codec)
    ensures codec.encode(a) == codec.encode(b) ==> a == b
  {
    assert codec.decode(codec.encode(a)) == Some(a);
    assert codec.decode(codec.encode(b)) == Some(b);
  }

  /** A (protocol, port number) pair a service exposes. */
  datatype L4Port = L4Port(protocol: string, port: int32)

  /** The bookkeeping for a mapped service: its L3 port and requested L4 ports. */
  datatype ServiceModel = ServiceModel(l3PortId: string, ports: seq<L4Port>)

  /** An L3 port: which service key occupies each port number. */
  datatype L3Port = L3Port(allocations: map<int32, Key>)

  /** The port number of `p` is not yet allocated on `l3`; the protocol plays no part. */
  predicate L4PortFree(l3: L3Port, p: L4Port)
  {
    p.port !in l3.allocations
  }

  /** One entry of a Kubernetes service's port list. */
  datatype ServicePort = ServicePort(name: string, protocol: string, port: int32)

  /**
   The service descriptor: its identifier, its annotations (None stands for
   a nil annotation map) and its port list.
   */
  datatype Service = Service(id: ServiceId, annotations: Option<map<string, string>>, ports: seq<ServicePort>)

  const AnnotationInboundPort := "cah-loadbalancer.k8s.cloudandheat.com/inbound-port"

  /**
   The L3 port a service asks for. A non-nil annotation map without the
   inbound-port key yields the empty string, as a Go map lookup does.
   */
  function PinnedPort(svc: Service): (r: Option<string>)
    ensures r.None? <==> svc.annotations.None?
    ensures r.Some? && AnnotationInboundPort in svc.annotations.value ==>
              r.value == svc.annotations.value[AnnotationInboundPort]
    ensures r.Some? && AnnotationInboundPort !in svc.annotations.value ==> r.value == ""
  {
    match svc.annotations
    case None => None
    case Some(annotations) =>
      Some(if AnnotationInboundPort in annotations then annotations[AnnotationInboundPort] else "")
  }

  /** The (protocol, port) pairs of a service's port list, in order. */
  function L4Ports(ports: seq<ServicePort>): seq<L4Port>
  {
    seq(|ports|, i requires 0 <= i < |ports| => L4Port(ports[i].protocol, ports[i].port))
  }

  /** What the address provisioner answers when asked for a new L3 port. */
  datatype Provision = Provisioned(id: string) | ProvisionFailed(message: string)

  predicate NoDuplicates<T(==)>(s: seq<T>)
  {
    forall i, j :: 0 <= i < j < |s| ==> s[i] != s[j]
  }

  /** A duplicate-free sequence whose only element is `a` is `[a]`. */
  lemma NoDuplicatesSingleton<T>(s: seq<T>, a: T)
    requires NoDuplicates(s)
    requires forall x :: x in s <==> x == a
    ensures s == [a]
  {
    assert a in s;
    var i :| 0 <= i < |s| && s[i] == a;
    // every position holds `a`, so every position is i
    forall j | 0 <= j < |s| ensures s[j] == a && j == i {
      assert s[j] in s;
    }
    assert s[0] == a && s[|s| - 1] == a;
  }
}
