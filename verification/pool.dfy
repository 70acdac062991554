/** The pool interface (client/src/pool/mod.rs): the two ownership modes
    of a pooled connection and the state report of `NoPool`, the pool that
    keeps nothing. */
module Pool {
  import opened Http
  import opened Endpoints

  /** A connection handed out by the exclusive pool (HTTP/1.1, single
      owner) or the shared pool (HTTP/2 and HTTP/3, reference counted).
      The connection itself is opaque here; `id` stands for it. */
  datatype Connection =
    | Exclusive(id: nat)
    | Shared(id: nat)

  /** The set of endpoints a list mentions. */
  function Mentioned(es: seq<Endpoint>): set<Endpoint> {
    set e | e in es
  }

  /** `NoPool::get_endpoints_state`: every listed endpoint is reported as
      `NotExisting`. The map is collected in list order, so a later
      duplicate overwrites an earlier one; since every value is the same,
      duplicates simply collapse into one key. */
  function EndpointsState(es: seq<Endpoint>): (m: map<Endpoint, EndpointState>)
    ensures m.Keys == Mentioned(es)
    ensures forall e :: e in m ==> m[e] == NotExisting
    ensures |m| <= |es|
    decreases |es|
  {
    if |es| == 0 then map[]
    else
      var init := es[..|es| - 1];
      assert es == init + [es[|es| - 1]];
      EndpointsState(init)[es[|es| - 1] := NotExisting]
  }

  /** The report depends only on which endpoints are listed, not on their
      order or repetition; an empty list gives an empty report. */
  lemma StateReportDependsOnlyOnSet(a: seq<Endpoint>, b: seq<Endpoint>)
    requires Mentioned(a) == Mentioned(b)
    ensures EndpointsState(a) == EndpointsState(b)
    ensures a == [] ==> EndpointsState(b) == map[]
  {
  }

  /** Two IPv6 endpoints that differ only in their scope id are reported
      under two keys, as they are distinct keys of the source's map. */
  lemma ScopeIdsKeepKeysApart(ip: Ipv6Octets, port: Port, flow: U32, s1: U32, s2: U32, v: HttpVersion)
    requires s1 != s2
    ensures var e1 := Address(V6(ip, port, flow, s1), v);
      var e2 := Address(V6(ip, port, flow, s2), v);
      var m := EndpointsState([e1, e2]);
      e1 in m && e2 in m && |m| == 2
  {
    var e1 := Address(V6(ip, port, flow, s1), v);
    var e2 := Address(V6(ip, port, flow, s2), v);
    assert Mentioned([e1, e2]) == {e1, e2};
  }
}
