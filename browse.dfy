/**
 * The browse-side peer registry: the map from service full name to peer
 * that the browse thread of `start_browse` keeps while BROWSING is set,
 * updated by resolved and removed service events, and re-emitted as a
 * "peers" list after each of them.
 */
module Browse {
  import opened Wrappers
  import opened Protocol
  import PeerNames

  /** The service events the browse thread receives. */
  datatype ServiceEvent =
    | ServiceResolved(fullname: string, host: string, port: U16)
    | ServiceRemoved(fullname: string)
    | OtherEvent   // search started or stopped, found but not resolved, or a receive timeout

  /** The thread's `peers` map, keyed by service full name. */
  type Registry = map<string, Peer>

  /** Whether `e` is about the service called `k`. */
  predicate Names(e: ServiceEvent, k: string) {
    !e.OtherEvent? && e.fullname == k
  }

  /** Whether the thread emits a peers list after `e`. */
  predicate Emits(e: ServiceEvent) {
    !e.OtherEvent?
  }

  /** The peer a resolved event describes. */
  function PeerOf(e: ServiceEvent): Peer
    requires e.ServiceResolved?
  {
    Peer(PeerNames.ShortName(e.fullname), e.host, e.port)
  }

  /**
   * One event applied to the registry: a resolved service is inserted or
   * overwritten, a removed one deleted, and no other key is touched.
   */
  function Apply(m: Registry, e: ServiceEvent): (r: Registry)
    ensures e.ServiceResolved? ==> e.fullname in r && r[e.fullname] == PeerOf(e)
    ensures e.ServiceRemoved? ==> e.fullname !in r
    ensures forall k :: !Names(e, k) ==> (k in r <==> k in m) && (k in m ==> r[k] == m[k])
  {
    match e
    case ServiceResolved(fullname, _, _) => m[fullname := PeerOf(e)]
    case ServiceRemoved(fullname) => m - {fullname}
    case OtherEvent => m
  }

  /** The registry after `events`, starting from the empty map. */
  ghost function RegistryAfter(events: seq<ServiceEvent>): Registry {
    if events == [] then map[]
    else Apply(RegistryAfter(events[..|events| - 1]), events[|events| - 1])
  }

  /** The registry as it stood after each event that is followed by an emit. */
  ghost function Snapshots(events: seq<ServiceEvent>): seq<Registry> {
    if events == [] then []
    else
      Snapshots(events[..|events| - 1])
      + (if Emits(events[|events| - 1]) then [RegistryAfter(events)] else [])
  }

  /** `list` holds the values of `m`, the i-th being the value of key `keys[i]`, one per key. */
  ghost predicate EnumeratesBy(list: seq<Peer>, m: Registry, keys: seq<string>) {
    && |keys| == |list|
    && (forall i, j :: 0 <= i < j < |keys| ==> keys[i] != keys[j])
    && (forall k :: k in keys <==> k in m)
    && (forall i :: 0 <= i < |keys| ==> keys[i] in m && list[i] == m[keys[i]])
  }

  /** `list` holds exactly the values of `m`, one per key, in some order. */
  ghost predicate ListsValues(list: seq<Peer>, m: Registry) {
    exists keys :: EnumeratesBy(list, m, keys)
  }

  /** A sequence without repetitions has as many distinct elements as it is long. */
  lemma {:induction false} DistinctCardinality(keys: seq<string>)
    requires forall i, j :: 0 <= i < j < |keys| ==> keys[i] != keys[j]
    ensures |set k | k in keys| == |keys|
  {
    if keys != [] {
      var tail := keys[1..];
      DistinctCardinality(tail);
      assert (set k | k in keys) == (set k | k in tail) + {keys[0]};
      assert keys[0] !in tail by {
        forall i | 0 <= i < |tail| ensures tail[i] != keys[0] {
          assert tail[i] == keys[i + 1];
        }
      }
    }
  }

  /** `peers.values().cloned().collect()`: the values of `m` in the map's iteration order. */
  method ValuesList(m: Registry) returns (list: seq<Peer>, ghost keys: seq<string>)
    ensures EnumeratesBy(list, m, keys)
    ensures |list| == |m|
  {
    list, keys := [], [];
    var rest := m.Keys;
    while rest != {}
      invariant rest <= m.Keys
      invariant |keys| == |list|
      invariant forall i, j :: 0 <= i < j < |keys| ==> keys[i] != keys[j]
      invariant forall k :: k in keys <==> k in m && k !in rest
      invariant forall i :: 0 <= i < |keys| ==> keys[i] in m && list[i] == m[keys[i]]
      decreases rest
    {
      var k :| k in rest;
      list, keys := list + [m[k]], keys + [k];
      rest := rest - {k};
    }
    DistinctCardinality(keys);
    assert (set k | k in keys) == m.Keys;
  }

  /**
   * The browse thread's loop over the events it received while BROWSING
   * stayed set: the registry it ends with, and the peers lists it emitted.
   */
  method BrowseLoop(events: seq<ServiceEvent>) returns (peers: Registry, emitted: seq<seq<Peer>>)
    ensures peers == RegistryAfter(events)
    ensures |emitted| == |Snapshots(events)|
    ensures forall j :: 0 <= j < |emitted| ==> ListsValues(emitted[j], Snapshots(events)[j])
  {
    peers, emitted := map[], [];
    var i := 0;
    while i < |events|
      invariant 0 <= i <= |events|
      invariant peers == RegistryAfter(events[..i])
      invariant |emitted| == |Snapshots(events[..i])|
      invariant forall j :: 0 <= j < |emitted| ==> ListsValues(emitted[j], Snapshots(events[..i])[j])
    {
      assert events[..i + 1][..i] == events[..i];
      match events[i] {
        case ServiceResolved(fullname, host, port) =>
          var short := PeerNames.ShortName(fullname);
          peers := peers[fullname := Peer(short, host, port)];
          var list, keys := ValuesList(peers);
          emitted := emitted + [list];
        case ServiceRemoved(fullname) =>
          peers := peers - {fullname};
          var list, keys := ValuesList(peers);
          emitted := emitted + [list];
        case OtherEvent =>
      }
      i := i + 1;
    }
    assert events[..|events|] == events;
  }

  /** The event that last named `k`, if any. */
  ghost function LastNaming(events: seq<ServiceEvent>, k: string): Option<ServiceEvent> {
    if events == [] then None
    else if Names(events[|events| - 1], k) then Some(events[|events| - 1])
    else LastNaming(events[..|events| - 1], k)
  }

  /**
   * Last write wins: a key is in the registry exactly when the last event
   * that named it was a resolution, and then it maps to the peer that
   * resolution described.
   */
  lemma {:induction false} RegistryIsLastResolution(events: seq<ServiceEvent>, k: string)
    ensures k in RegistryAfter(events) <==> LastNaming(events, k).Some? && LastNaming(events, k).value.ServiceResolved?
    ensures k in RegistryAfter(events) ==> RegistryAfter(events)[k] == PeerOf(LastNaming(events, k).value)
  {
    if events != [] {
      RegistryIsLastResolution(events[..|events| - 1], k);
    }
  }

  /** Every registered peer is named by the short name of its own key. */
  lemma {:induction false} RegistryNamesByKey(events: seq<ServiceEvent>)
    ensures forall k :: k in RegistryAfter(events) ==> RegistryAfter(events)[k].name == PeerNames.ShortName(k)
  {
    if events != [] {
      RegistryNamesByKey(events[..|events| - 1]);
    }
  }
}
