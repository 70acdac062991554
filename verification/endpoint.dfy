/** Endpoint identity (client/src/pool/endpoint.rs): the key connection
    pools use, and the HTTP version a connection to it may speak. */
module Endpoints {
  import opened Http

  /** The four octets of an IPv4 address. */
  type Ipv4Octets = s: seq<byte> | |s| == 4 witness [0, 0, 0, 0]

  /** The sixteen octets of an IPv6 address. */
  type Ipv6Octets = s: seq<byte> | |s| == 16
    witness [0, 0, 0, 0, 0, 0, 0, 0, 0, 0, 0, 0, 0, 0, 0, 0]

  /** A `u32`, as IPv6 flow information and scope ids are. */
  newtype U32 = x: int | 0 <= x < 0x1_0000_0000

  /** `std::net::SocketAddr`. An IPv6 socket address also carries its flow
      information and scope id, and both take part in its equality, so
      two link-local addresses on different interfaces are different
      pool keys. */
  datatype SocketAddr =
    | V4(octets4: Ipv4Octets, port: Port)
    | V6(octets6: Ipv6Octets, port: Port, flowinfo: U32, scopeId: U32)

  /** `Endpoint`. Equality is Dafny's structural equality, as the derived
      `PartialEq`/`Hash` make it in the source. */
  datatype Endpoint =
    | Secure(addr: SocketAddr, serverName: string, maxVersion: HttpVersion)
    | Address(addr: SocketAddr, maxVersion: HttpVersion)
    | Unix(path: string)
  {
    /** `Endpoint::version`. A TLS endpoint reports its stored version as
        it is; a plaintext endpoint reports at least HTTP/1.1; a Unix
        socket always speaks HTTP/1.1. */
    function Version(): (v: HttpVersion)
      ensures Secure? ==> v == maxVersion
      ensures Address? ==> v == MaxVersion(maxVersion, Http11)
      ensures Unix? ==> v == Http11
    {
      match this
      case Secure(_, _, version) => version
      case Address(_, version) =>
        (match version
         case Http2 => Http2
         case Http3 => Http3
         case _ => Http11)
      case Unix(_) => Http11
    }
  }

  /** The versions a plaintext or Unix endpoint can report. */
  predicate IsNormalVersion(v: HttpVersion) {
    v == Http11 || v == Http2 || v == Http3
  }

  /** Plaintext and Unix endpoints only ever report HTTP/1.1, HTTP/2 or
      HTTP/3, and an `Address` re-wrapped with its own reported version
      reports that version again. */
  lemma NormalisedVersionIsFixpoint(e: Endpoint, a: SocketAddr)
    requires !e.Secure?
    ensures IsNormalVersion(e.Version())
    ensures Address(a, e.Version()).Version() == e.Version()
  {
  }

  /** A TLS endpoint keeps even a pre-HTTP/1.1 version: nothing normalises
      it. */
  lemma SecureKeepsLegacyVersion(a: SocketAddr, name: string)
    ensures Secure(a, name, Http10).Version() == Http10
    ensures Secure(a, name, Http09).Version() == Http09
  {
  }

  /** A plaintext endpoint keeps the multiplexed versions and rounds every
      older one up to HTTP/1.1. */
  lemma AddressVersionTable(a: SocketAddr, v: HttpVersion)
    ensures v.IsMultiplexed() ==> Address(a, v).Version() == v
    ensures !v.IsMultiplexed() ==> Address(a, v).Version() == Http11
  {
  }

  /** Endpoints are equal exactly when they are the same variant with equal
      fields. */
  lemma EndpointEqualityIsStructural(e1: Endpoint, e2: Endpoint)
    ensures e1 == e2 <==>
      match e1
      case Secure(a, n, v) => e2.Secure? && e2.addr == a && e2.serverName == n && e2.maxVersion == v
      case Address(a, v) => e2.Address? && e2.addr == a && e2.maxVersion == v
      case Unix(p) => e2.Unix? && e2.path == p
  {
  }

  /** An instant on a monotonic clock. */
  type Instant = nat

  /** `EndpointState`: how a pool currently stands towards an endpoint. */
  datatype EndpointState =
    | Existing(active: nat)
    | Connecting(waiting: nat)
    | NotExisting
    | Error(since: Instant)
}
