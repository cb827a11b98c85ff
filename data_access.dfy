/**
 * The in-memory catalogue: a list of ports and a list of direct routes,
 * queried by departure port and by (departure, arrival) pair.
 */
module DataAccess {
  import opened Entities

  /** The routes of `routes` that depart `port`, in catalogue order (a LINQ `Where`). */
  function RoutesFrom(routes: seq<ShippingRoute>, port: string): seq<ShippingRoute>
  {
    if routes == [] then []
    else (if routes[0].portCodeFrom == port then [routes[0]] else []) + RoutesFrom(routes[1..], port)
  }

  /** RoutesFrom returns exactly the catalogue routes that depart `port`. */
  lemma {:induction false} RoutesFromMembers(routes: seq<ShippingRoute>, port: string)
    ensures forall e :: e in RoutesFrom(routes, port) <==> e in routes && e.portCodeFrom == port
  {
    if routes != [] {
      RoutesFromMembers(routes[1..], port);
      assert routes == [routes[0]] + routes[1..];
    }
  }

  /**
   * RoutesFrom keeps catalogue order: filtering a catalogue made of two parts
   * gives the first part's matches followed by the second part's.
   */
  lemma {:induction false} RoutesFromConcat(a: seq<ShippingRoute>, b: seq<ShippingRoute>, port: string)
    ensures RoutesFrom(a + b, port) == RoutesFrom(a, port) + RoutesFrom(b, port)
  {
    if a != [] {
      assert (a + b)[1..] == a[1..] + b;
      RoutesFromConcat(a[1..], b, port);
    } else {
      assert a + b == b;
    }
  }

  /** A route matches a (from, to) query when both of its ports agree. */
  predicate Connects(e: ShippingRoute, from: string, to: string)
  {
    e.portCodeFrom == from && e.portCodeTo == to
  }

  /** The first route of `routes` from `from` to `to`, or None (a LINQ `FirstOrDefault`). */
  function FirstRoute(routes: seq<ShippingRoute>, from: string, to: string): Option<ShippingRoute>
  {
    if routes == [] then None
    else if Connects(routes[0], from, to) then Some(routes[0])
    else FirstRoute(routes[1..], from, to)
  }

  /** FirstRoute finds a match exactly when one exists, and then the one at the lowest index. */
  lemma {:induction false} FirstRouteSpec(routes: seq<ShippingRoute>, from: string, to: string)
    ensures FirstRoute(routes, from, to).None? <==> forall k :: 0 <= k < |routes| ==> !Connects(routes[k], from, to)
    ensures FirstRoute(routes, from, to).Some? ==>
              exists k :: 0 <= k < |routes| && routes[k] == FirstRoute(routes, from, to).value &&
                          Connects(routes[k], from, to) &&
                          forall m :: 0 <= m < k ==> !Connects(routes[m], from, to)
  {
    if routes != [] && !Connects(routes[0], from, to) {
      FirstRouteSpec(routes[1..], from, to);
      assert forall k :: 1 <= k < |routes| ==> routes[k] == routes[1..][k - 1];
      if FirstRoute(routes, from, to).Some? {
        var k :| 0 <= k < |routes[1..]| && routes[1..][k] == FirstRoute(routes, from, to).value &&
                 Connects(routes[1..][k], from, to) &&
                 forall m :: 0 <= m < k ==> !Connects(routes[1..][m], from, to);
        assert routes[k + 1] == routes[1..][k];
      }
    }
  }

  /** RoutesFrom keeps each departing route exactly as often as the catalogue holds it and drops the others. */
  lemma {:induction false} RoutesFromCount(routes: seq<ShippingRoute>, port: string, e: ShippingRoute)
    ensures multiset(RoutesFrom(routes, port))[e] ==
            if e.portCodeFrom == port then multiset(routes)[e] else 0
  {
    if routes != [] {
      RoutesFromCount(routes[1..], port, e);
      assert routes == [routes[0]] + routes[1..];
    }
  }

  /** A catalogue without repeated routes gives a query result without repeated routes. */
  lemma {:induction false} RoutesFromDistinct(routes: seq<ShippingRoute>, port: string)
    requires Distinct(routes)
    ensures Distinct(RoutesFrom(routes, port))
  {
    if routes != [] {
      var tail := routes[1..];
      assert Distinct(tail) by {
        forall i, j | 0 <= i < j < |tail| ensures tail[i] != tail[j] {
          assert tail[i] == routes[i + 1] && tail[j] == routes[j + 1];
        }
      }
      RoutesFromDistinct(tail, port);
      RoutesFromMembers(tail, port);
      assert routes[0] !in tail by {
        forall k | 0 <= k < |tail| ensures tail[k] != routes[0] {
          assert tail[k] == routes[k + 1];
        }
      }
    }
  }

  /** In a sequence without repetitions every element occurs at most once. */
  lemma {:induction false} DistinctCountAtMostOne<T>(s: seq<T>, x: T)
    requires Distinct(s)
    ensures multiset(s)[x] <= 1
  {
    if s != [] {
      var tail := s[1..];
      assert s == [s[0]] + tail;
      assert Distinct(tail) by {
        forall i, j | 0 <= i < j < |tail| ensures tail[i] != tail[j] {
          assert tail[i] == s[i + 1] && tail[j] == s[j + 1];
        }
      }
      DistinctCountAtMostOne(tail, x);
      if s[0] == x {
        assert x !in tail by {
          forall k | 0 <= k < |tail| ensures tail[k] != x {
            assert tail[k] == s[k + 1];
          }
        }
      }
    }
  }

  /** The catalogue. Its two lists are replaced wholesale by the Populate methods. */
  class RouteDataRepository {
    var portCollection: seq<Port>
    var shippingRouteCollection: seq<ShippingRoute>

    constructor ()
      ensures portCollection == [] && shippingRouteCollection == []
    {
      portCollection := [];
      shippingRouteCollection := [];
    }

    method PopulatePorts(ports: seq<Port>)
      modifies this
      ensures ListPorts() == ports
      ensures shippingRouteCollection == old(shippingRouteCollection)
    {
      portCollection := ports;
    }

    method PopulateShippingRoutes(routes: seq<ShippingRoute>)
      modifies this
      ensures shippingRouteCollection == routes
      ensures forall p :: ListAllDirectShippingRoutesForPort(p) == RoutesFrom(routes, p)
      ensures forall f, t :: RetrieveDirectShippingRouteBetweenPorts(f, t) == FirstRoute(routes, f, t)
      ensures portCollection == old(portCollection)
    {
      shippingRouteCollection := routes;
    }

    function ListPorts(): seq<Port>
      reads this
    {
      portCollection
    }

    /** All routes departing `portCodeFrom`; empty when the port has none or is unknown. */
    function ListAllDirectShippingRoutesForPort(portCodeFrom: string): (r: seq<ShippingRoute>)
      reads this
      ensures forall e :: e in r <==> e in shippingRouteCollection && e.portCodeFrom == portCodeFrom
      ensures (forall e :: e in shippingRouteCollection ==> e.portCodeFrom != portCodeFrom) ==> r == []
    {
      RoutesFromMembers(shippingRouteCollection, portCodeFrom);
      var r := RoutesFrom(shippingRouteCollection, portCodeFrom);
      assert r != [] ==> r[0] in r;
      r
    }

    /** The first catalogue route from `portCodeFrom` to `portCodeTo`, or None when there is none. */
    function RetrieveDirectShippingRouteBetweenPorts(portCodeFrom: string, portCodeTo: string): (r: Option<ShippingRoute>)
      reads this
      ensures r.None? <==> forall e :: e in shippingRouteCollection ==> !Connects(e, portCodeFrom, portCodeTo)
      ensures r.Some? ==> r.value in shippingRouteCollection && Connects(r.value, portCodeFrom, portCodeTo)
      ensures r.Some? ==>
                exists k :: 0 <= k < |shippingRouteCollection| && shippingRouteCollection[k] == r.value &&
                            forall m :: 0 <= m < k ==> !Connects(shippingRouteCollection[m], portCodeFrom, portCodeTo)
    {
      FirstRouteSpec(shippingRouteCollection, portCodeFrom, portCodeTo);
      FirstRoute(shippingRouteCollection, portCodeFrom, portCodeTo)
    }
  }
}
