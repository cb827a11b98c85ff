/**
 * What an indirect query finds. ExploreFrom, ExploreRoutes and ExploreRoute
 * follow the depth-first search branch for branch; IsIndirectJourney says
 * independently what a simple journey between two ports under the filters
 * is. The lemmas prove that the search finds only such journeys, finds all
 * of them when no route takes negative days, finds none twice when the
 * catalogue repeats no route, and never goes deeper than the number of
 * ports with departing routes.
 */
module Exploration {
  import opened Entities
  import opened DataAccess
  import opened Journeys

  /** The value the C# code uses for "filter not set". */
  const Unset: int := -1

  /** The per-query context of an indirect search: destination and the three optional filters. */
  datatype Filters = Filters(portCodeTo: string, minStops: int, maxStops: int, maxJourneyDays: int)

  /** The ports a list of routes departs from. */
  function Departures(routes: seq<ShippingRoute>): set<string>
  {
    set k | 0 <= k < |routes| :: routes[k].portCodeFrom
  }

  lemma DeparturesAppend(routes: seq<ShippingRoute>, e: ShippingRoute)
    ensures Departures(routes + [e]) == Departures(routes) + {e.portCodeFrom}
  {
    var s := routes + [e];
    forall p | p in Departures(s) ensures p in Departures(routes) + {e.portCodeFrom} {
      var k :| 0 <= k < |s| && s[k].portCodeFrom == p;
      if k < |routes| { assert routes[k] == s[k]; }
    }
    forall p | p in Departures(routes) ensures p in Departures(s) {
      var k :| 0 <= k < |routes| && routes[k].portCodeFrom == p;
      assert s[k] == routes[k];
    }
    assert s[|routes|] == e;
  }

  /** Taking a route from an unvisited catalogue port leaves one port fewer still to depart from. */
  lemma DescentShrinks(cat: seq<ShippingRoute>, path: seq<ShippingRoute>, e: ShippingRoute)
    requires e in cat && e.portCodeFrom !in Departures(path)
    ensures |Departures(cat) - Departures(path + [e])| == |Departures(cat) - Departures(path)| - 1
  {
    DeparturesAppend(path, e);
    var k :| 0 <= k < |cat| && cat[k] == e;
    assert e.portCodeFrom in Departures(cat);
    assert Departures(cat) - Departures(path + [e]) == (Departures(cat) - Departures(path)) - {e.portCodeFrom};
  }

  /** The journeys deposited by exploring from `port`, having travelled `path` so far. */
  function ExploreFrom(cat: seq<ShippingRoute>, q: Filters, port: string, path: seq<ShippingRoute>): seq<seq<ShippingRoute>>
    requires port !in Departures(path)
    decreases |Departures(cat) - Departures(path)|, 2, 0
  {
    RoutesFromMembers(cat, port);
    ExploreRoutes(cat, q, port, path, RoutesFrom(cat, port))
  }

  /** One unfolding of ExploreFrom: the branches over the routes leaving `port`. */
  lemma ExploreFromUnfold(cat: seq<ShippingRoute>, q: Filters, port: string, path: seq<ShippingRoute>)
    requires port !in Departures(path)
    ensures forall e :: e in RoutesFrom(cat, port) ==> e in cat && e.portCodeFrom == port
    ensures ExploreFrom(cat, q, port, path) == ExploreRoutes(cat, q, port, path, RoutesFrom(cat, port))
  {
    RoutesFromMembers(cat, port);
  }

  /** The journeys deposited by the branches over `routes`, all departing `port`. */
  function ExploreRoutes(cat: seq<ShippingRoute>, q: Filters, port: string, path: seq<ShippingRoute>,
                         routes: seq<ShippingRoute>): seq<seq<ShippingRoute>>
    requires port !in Departures(path)
    requires forall e :: e in routes ==> e in cat && e.portCodeFrom == port
    decreases |Departures(cat) - Departures(path)|, 1, |routes|
  {
    if routes == [] then []
    else ExploreRoutes(cat, q, port, path, routes[..|routes| - 1]) + ExploreRoute(cat, q, port, path, routes[|routes| - 1])
  }

  /** The journeys deposited by the branch that takes route `e` out of `port`. */
  function ExploreRoute(cat: seq<ShippingRoute>, q: Filters, port: string, path: seq<ShippingRoute>,
                        e: ShippingRoute): seq<seq<ShippingRoute>>
    requires port !in Departures(path)
    requires e in cat && e.portCodeFrom == port
    decreases |Departures(cat) - Departures(path)|, 0, 0
  {
    if e.portCodeTo == port then []
    else if q.maxJourneyDays != Unset && Days(path) + e.travelDays > q.maxJourneyDays then []
    else if q.maxStops != Unset && |path| + 1 > q.maxStops then []
    else if e.portCodeTo == q.portCodeTo then
      if q.minStops == Unset || |path| + 1 >= q.minStops then [path + [e]] else []
    else if e.portCodeTo in Departures(path) then []
    else
      DescentShrinks(cat, path, e);
      DeparturesAppend(path, e);
      ExploreFrom(cat, q, e.portCodeTo, path + [e])
  }

  // The cases of one branch.

  /** The branch goes no further than the day and stop limits allow. */
  predicate Within(q: Filters, path: seq<ShippingRoute>, e: ShippingRoute)
  {
    (q.maxJourneyDays == Unset || Days(path) + e.travelDays <= q.maxJourneyDays) &&
    (q.maxStops == Unset || |path| + 1 <= q.maxStops)
  }

  /** A self-loop, or a branch over the day or stop limit, deposits nothing. */
  lemma ExploreRoutePruned(cat: seq<ShippingRoute>, q: Filters, port: string, path: seq<ShippingRoute>, e: ShippingRoute)
    requires port !in Departures(path) && e in cat && e.portCodeFrom == port
    requires e.portCodeTo == port || !Within(q, path, e)
    ensures ExploreRoute(cat, q, port, path, e) == []
  {
  }

  /** A branch reaching the destination within the limits deposits the journey when it has enough stops. */
  lemma ExploreRouteArrives(cat: seq<ShippingRoute>, q: Filters, port: string, path: seq<ShippingRoute>, e: ShippingRoute)
    requires port !in Departures(path) && e in cat && e.portCodeFrom == port
    requires e.portCodeTo != port && Within(q, path, e) && e.portCodeTo == q.portCodeTo
    ensures ExploreRoute(cat, q, port, path, e) ==
            if q.minStops == Unset || |path| + 1 >= q.minStops then [path + [e]] else []
  {
  }

  /** A branch back to a port already departed from deposits nothing. */
  lemma ExploreRouteRevisits(cat: seq<ShippingRoute>, q: Filters, port: string, path: seq<ShippingRoute>, e: ShippingRoute)
    requires port !in Departures(path) && e in cat && e.portCodeFrom == port
    requires e.portCodeTo != port && Within(q, path, e) && e.portCodeTo != q.portCodeTo
    requires e.portCodeTo in Departures(path)
    ensures ExploreRoute(cat, q, port, path, e) == []
  {
  }

  /** A branch to a fresh port within the limits explores on from that port, one port closer to the bound. */
  lemma ExploreRouteDescends(cat: seq<ShippingRoute>, q: Filters, port: string, path: seq<ShippingRoute>, e: ShippingRoute)
    requires port !in Departures(path) && e in cat && e.portCodeFrom == port
    requires e.portCodeTo != port && Within(q, path, e) && e.portCodeTo != q.portCodeTo
    requires e.portCodeTo !in Departures(path)
    ensures e.portCodeTo !in Departures(path + [e])
    ensures |Departures(cat) - Departures(path + [e])| < |Departures(cat) - Departures(path)|
    ensures ExploreRoute(cat, q, port, path, e) == ExploreFrom(cat, q, e.portCodeTo, path + [e])
  {
    DeparturesAppend(path, e);
    DescentShrinks(cat, path, e);
  }

  /** The branches over one more route deposit what the earlier branches did, then that route's journeys. */
  lemma ExploreRoutesStep(cat: seq<ShippingRoute>, q: Filters, port: string, path: seq<ShippingRoute>,
                          routes: seq<ShippingRoute>, i: nat)
    requires port !in Departures(path)
    requires forall e :: e in routes ==> e in cat && e.portCodeFrom == port
    requires i < |routes|
    ensures ExploreRoutes(cat, q, port, path, routes[..i + 1]) ==
            ExploreRoutes(cat, q, port, path, routes[..i]) + ExploreRoute(cat, q, port, path, routes[i])
  {
    assert routes[..i + 1][..i] == routes[..i];
  }

  /** Every journey an indirect query from `source` deposits, over catalogue `cat`. */
  function IndirectJourneys(cat: seq<ShippingRoute>, source: string, q: Filters): seq<seq<ShippingRoute>>
  {
    ExploreFrom(cat, q, source, [])
  }


  // ---------------------------------------------------------------------
  // The reference definition

  /** The stop and day limits a completed journey must meet (Unset switches a limit off). */
  predicate MeetsFilters(q: Filters, j: seq<ShippingRoute>)
  {
    (q.maxJourneyDays == Unset || Days(j) <= q.maxJourneyDays) &&
    (q.maxStops == Unset || |j| <= q.maxStops) &&
    (q.minStops == Unset || |j| >= q.minStops)
  }

  /**
   * A connected, simple walk over catalogue routes starting at `source`: each
   * route departs where the previous one arrived, no route is a self-loop and
   * no port is departed from twice.
   */
  predicate IsTrail(cat: seq<ShippingRoute>, source: string, j: seq<ShippingRoute>)
  {
    (forall k :: 0 <= k < |j| ==> j[k] in cat) &&
    (|j| > 0 ==> j[0].portCodeFrom == source) &&
    (forall k :: 0 <= k < |j| - 1 ==> j[k].portCodeTo == j[k + 1].portCodeFrom) &&
    (forall k :: 0 <= k < |j| ==> j[k].portCodeFrom != j[k].portCodeTo) &&
    (forall k, m :: 0 <= k < m < |j| ==> j[k].portCodeFrom != j[m].portCodeFrom)
  }

  /**
   * A journey an indirect query from `source` should report: a non-empty simple
   * walk whose last route, and only its last route, arrives at the destination,
   * and which meets the filters.
   */
  predicate IsIndirectJourney(cat: seq<ShippingRoute>, source: string, q: Filters, j: seq<ShippingRoute>)
  {
    |j| > 0 && IsTrail(cat, source, j) &&
    j[|j| - 1].portCodeTo == q.portCodeTo &&
    (forall k :: 0 <= k < |j| - 1 ==> j[k].portCodeTo != q.portCodeTo) &&
    MeetsFilters(q, j)
  }

  /**
   * What holds of the search while it stands at `port` having travelled `path`:
   * the path is a simple walk from the source ending at `port`, it has not yet
   * departed `port`, and it has not passed through the destination.
   */
  predicate SearchState(cat: seq<ShippingRoute>, source: string, q: Filters, port: string, path: seq<ShippingRoute>)
  {
    IsTrail(cat, source, path) && port !in Departures(path) &&
    (path == [] ==> port == source) &&
    (path != [] ==> path[|path| - 1].portCodeTo == port) &&
    (forall k :: 0 <= k < |path| ==> path[k].portCodeTo != q.portCodeTo)
  }

  lemma InDepartures(routes: seq<ShippingRoute>, k: nat)
    requires k < |routes|
    ensures routes[k].portCodeFrom in Departures(routes)
  {
  }

  /** Taking a route out of the current port, other than a self-loop, keeps the walk simple. */
  lemma TrailAppend(cat: seq<ShippingRoute>, source: string, q: Filters, port: string,
                    path: seq<ShippingRoute>, e: ShippingRoute)
    requires SearchState(cat, source, q, port, path)
    requires e in cat && e.portCodeFrom == port && e.portCodeTo != port
    ensures IsTrail(cat, source, path + [e])
  {
    var j := path + [e];
    forall k, m | 0 <= k < m < |j| ensures j[k].portCodeFrom != j[m].portCodeFrom {
      if m == |path| {
        InDepartures(path, k);
      }
    }
  }

  // ---------------------------------------------------------------------
  // Every journey found extends the path it was found from

  lemma {:induction false} ExploreFromShape(cat: seq<ShippingRoute>, q: Filters, port: string, path: seq<ShippingRoute>)
    requires port !in Departures(path)
    ensures forall j :: j in ExploreFrom(cat, q, port, path) ==> |path| < |j| && j[..|path|] == path
    decreases |Departures(cat) - Departures(path)|, 2, 0
  {
    RoutesFromMembers(cat, port);
    ExploreRoutesShape(cat, q, port, path, RoutesFrom(cat, port));
  }

  lemma {:induction false} ExploreRoutesShape(cat: seq<ShippingRoute>, q: Filters, port: string, path: seq<ShippingRoute>,
                                              routes: seq<ShippingRoute>)
    requires port !in Departures(path)
    requires forall e :: e in routes ==> e in cat && e.portCodeFrom == port
    ensures forall j :: j in ExploreRoutes(cat, q, port, path, routes) ==>
              |path| < |j| && j[..|path|] == path && j[|path|] in routes
    decreases |Departures(cat) - Departures(path)|, 1, |routes|
  {
    if routes != [] {
      var init, last := routes[..|routes| - 1], routes[|routes| - 1];
      ExploreRoutesShape(cat, q, port, path, init);
      ExploreRouteShape(cat, q, port, path, last);
      forall j | j in ExploreRoutes(cat, q, port, path, routes)
        ensures |path| < |j| && j[..|path|] == path && j[|path|] in routes
      {
        if j in ExploreRoute(cat, q, port, path, last) {
          assert j[..|path| + 1][..|path|] == j[..|path|];
          assert j[|path|] == j[..|path| + 1][|path|];
        } else {
          assert j[|path|] in init;
        }
      }
    }
  }

  lemma {:induction false} ExploreRouteShape(cat: seq<ShippingRoute>, q: Filters, port: string, path: seq<ShippingRoute>,
                                             e: ShippingRoute)
    requires port !in Departures(path)
    requires e in cat && e.portCodeFrom == port
    ensures forall j :: j in ExploreRoute(cat, q, port, path, e) ==> |path| < |j| && j[..|path| + 1] == path + [e]
    decreases |Departures(cat) - Departures(path)|, 0, 0
  {
    if e.portCodeTo == port || !Within(q, path, e) {
      ExploreRoutePruned(cat, q, port, path, e);
    } else if e.portCodeTo == q.portCodeTo {
      ExploreRouteArrives(cat, q, port, path, e);
      assert (path + [e])[..|path| + 1] == path + [e];
    } else if e.portCodeTo in Departures(path) {
      ExploreRouteRevisits(cat, q, port, path, e);
    } else {
      ExploreRouteDescends(cat, q, port, path, e);
      ExploreFromShape(cat, q, e.portCodeTo, path + [e]);
    }
  }

  // ---------------------------------------------------------------------
  // Soundness: only simple journeys that meet the filters are deposited

  lemma {:induction false} ExploreFromSound(cat: seq<ShippingRoute>, source: string, q: Filters, port: string,
                                            path: seq<ShippingRoute>)
    requires SearchState(cat, source, q, port, path)
    ensures forall j :: j in ExploreFrom(cat, q, port, path) ==> IsIndirectJourney(cat, source, q, j)
    decreases |Departures(cat) - Departures(path)|, 2, 0
  {
    RoutesFromMembers(cat, port);
    ExploreRoutesSound(cat, source, q, port, path, RoutesFrom(cat, port));
  }

  lemma {:induction false} ExploreRoutesSound(cat: seq<ShippingRoute>, source: string, q: Filters, port: string,
                                              path: seq<ShippingRoute>, routes: seq<ShippingRoute>)
    requires SearchState(cat, source, q, port, path)
    requires forall e :: e in routes ==> e in cat && e.portCodeFrom == port
    ensures forall j :: j in ExploreRoutes(cat, q, port, path, routes) ==> IsIndirectJourney(cat, source, q, j)
    decreases |Departures(cat) - Departures(path)|, 1, |routes|
  {
    if routes != [] {
      ExploreRoutesSound(cat, source, q, port, path, routes[..|routes| - 1]);
      ExploreRouteSound(cat, source, q, port, path, routes[|routes| - 1]);
    }
  }

  lemma {:induction false} ExploreRouteSound(cat: seq<ShippingRoute>, source: string, q: Filters, port: string,
                                             path: seq<ShippingRoute>, e: ShippingRoute)
    requires SearchState(cat, source, q, port, path)
    requires e in cat && e.portCodeFrom == port
    ensures forall j :: j in ExploreRoute(cat, q, port, path, e) ==> IsIndirectJourney(cat, source, q, j)
    decreases |Departures(cat) - Departures(path)|, 0, 0
  {
    if e.portCodeTo == port || !Within(q, path, e) {
      ExploreRoutePruned(cat, q, port, path, e);
    } else if e.portCodeTo == q.portCodeTo {
      ExploreRouteArrives(cat, q, port, path, e);
      if q.minStops == Unset || |path| + 1 >= q.minStops {
        ArrivalSound(cat, source, q, port, path, e);
      }
    } else if e.portCodeTo in Departures(path) {
      ExploreRouteRevisits(cat, q, port, path, e);
    } else {
      ExploreRouteDescends(cat, q, port, path, e);
      TrailAppend(cat, source, q, port, path, e);
      ExploreFromSound(cat, source, q, e.portCodeTo, path + [e]);
    }
  }

  /** A route reaching the destination within the limits and with enough stops completes a journey the query should report. */
  lemma ArrivalSound(cat: seq<ShippingRoute>, source: string, q: Filters, port: string,
                     path: seq<ShippingRoute>, e: ShippingRoute)
    requires SearchState(cat, source, q, port, path)
    requires e in cat && e.portCodeFrom == port && e.portCodeTo != port
    requires Within(q, path, e) && e.portCodeTo == q.portCodeTo
    requires q.minStops == Unset || |path| + 1 >= q.minStops
    ensures IsIndirectJourney(cat, source, q, path + [e])
  {
    TrailAppend(cat, source, q, port, path, e);
    DaysAppend(path, e);
  }

  // ---------------------------------------------------------------------
  // Completeness: with no negative days, every such journey is deposited

  lemma {:induction false} ExploreRoutesHas(cat: seq<ShippingRoute>, q: Filters, port: string, path: seq<ShippingRoute>,
                                            routes: seq<ShippingRoute>, e: ShippingRoute, j: seq<ShippingRoute>)
    requires port !in Departures(path)
    requires forall r :: r in routes ==> r in cat && r.portCodeFrom == port
    requires e in routes && j in ExploreRoute(cat, q, port, path, e)
    ensures j in ExploreRoutes(cat, q, port, path, routes)
  {
    var last := routes[|routes| - 1];
    if e != last {
      var init := routes[..|routes| - 1];
      assert routes == init + [last];
      ExploreRoutesHas(cat, q, port, path, init, e, j);
    }
  }

  lemma {:induction false} ExploreFromComplete(cat: seq<ShippingRoute>, source: string, q: Filters, port: string,
                                               path: seq<ShippingRoute>, j: seq<ShippingRoute>)
    requires NonNegativeDays(cat)
    requires SearchState(cat, source, q, port, path)
    requires IsIndirectJourney(cat, source, q, j) && |path| < |j| && j[..|path|] == path
    ensures j in ExploreFrom(cat, q, port, path)
    decreases |Departures(cat) - Departures(path)|, 2, 0
  {
    var e := j[|path|];
    assert e.portCodeFrom == port by {
      if path != [] {
        assert path[|path| - 1] == j[|path| - 1];
      }
    }
    RoutesFromMembers(cat, port);
    assert e in RoutesFrom(cat, port);
    ExploreRouteComplete(cat, source, q, port, path, j);
    ExploreRoutesHas(cat, q, port, path, RoutesFrom(cat, port), e, j);
  }

  lemma {:induction false} ExploreRouteComplete(cat: seq<ShippingRoute>, source: string, q: Filters, port: string,
                                                path: seq<ShippingRoute>, j: seq<ShippingRoute>)
    requires NonNegativeDays(cat)
    requires SearchState(cat, source, q, port, path)
    requires IsIndirectJourney(cat, source, q, j) && |path| < |j| && j[..|path|] == path
    requires j[|path|].portCodeFrom == port
    ensures j[|path|] in cat && j in ExploreRoute(cat, q, port, path, j[|path|])
    decreases |Departures(cat) - Departures(path)|, 0, 0
  {
    var e := j[|path|];
    PrefixWithinLimits(cat, source, q, path, j);
    assert e in cat && e.portCodeTo != port;
    if e.portCodeTo == q.portCodeTo {
      ExploreRouteArrives(cat, q, port, path, e);
      assert j == path + [e];
    } else {
      DescentState(cat, source, q, port, path, j);
      ExploreRouteDescends(cat, q, port, path, e);
      ExploreFromComplete(cat, source, q, e.portCodeTo, path + [e], j);
    }
  }

  /** The part of a journey up to and including its next route passes the day and stop pruning. */
  lemma PrefixWithinLimits(cat: seq<ShippingRoute>, source: string, q: Filters,
                           path: seq<ShippingRoute>, j: seq<ShippingRoute>)
    requires NonNegativeDays(cat)
    requires IsIndirectJourney(cat, source, q, j) && |path| < |j| && j[..|path|] == path
    ensures q.maxJourneyDays != Unset ==> Days(path) + j[|path|].travelDays <= q.maxJourneyDays
    ensures q.maxStops != Unset ==> |path| + 1 <= q.maxStops
    ensures j[|path|].portCodeTo == q.portCodeTo ==> j == path + [j[|path|]]
  {
    var e := j[|path|];
    TrailNonNegative(cat, source, j);
    PrefixDays(path, j);
    if e.portCodeTo == q.portCodeTo {
      assert |path| == |j| - 1;
      assert j == j[..|path|] + [e];
    }
  }

  /** With no negative days, a journey's prefix up to and including its next route takes no longer than the journey. */
  lemma PrefixDays(path: seq<ShippingRoute>, j: seq<ShippingRoute>)
    requires NonNegativeDays(j)
    requires |path| < |j| && j[..|path|] == path
    ensures Days(path) + j[|path|].travelDays <= Days(j)
  {
    var e := j[|path|];
    assert j[..|path| + 1] == path + [e];
    DaysPrefix(j, |path| + 1);
    DaysAppend(path, e);
  }

  lemma TrailNonNegative(cat: seq<ShippingRoute>, source: string, j: seq<ShippingRoute>)
    requires NonNegativeDays(cat) && IsTrail(cat, source, j)
    ensures NonNegativeDays(j)
  {
    forall e | e in j ensures e.travelDays >= 0 {
      var k :| 0 <= k < |j| && j[k] == e;
    }
  }

  /** Past a route that does not reach the destination the search state carries over to the next port. */
  lemma DescentState(cat: seq<ShippingRoute>, source: string, q: Filters, port: string,
                     path: seq<ShippingRoute>, j: seq<ShippingRoute>)
    requires SearchState(cat, source, q, port, path)
    requires IsIndirectJourney(cat, source, q, j) && |path| < |j| && j[..|path|] == path
    requires j[|path|].portCodeFrom == port && j[|path|].portCodeTo != q.portCodeTo
    ensures j[|path|] in cat
    ensures j[|path|].portCodeTo != port && j[|path|].portCodeTo !in Departures(path)
    ensures SearchState(cat, source, q, j[|path|].portCodeTo, path + [j[|path|]])
    ensures j[..|path| + 1] == path + [j[|path|]]
  {
    var e := j[|path|];
    assert j[..|path| + 1] == path + [e];
    NextNotDeparted(cat, source, j, |path|);
    TrailAppend(cat, source, q, port, path, e);
    DeparturesAppend(path, e);
  }

  /** Inside a simple walk, a route never arrives at a port the walk departed from before it. */
  lemma NextNotDeparted(cat: seq<ShippingRoute>, source: string, j: seq<ShippingRoute>, n: nat)
    requires IsTrail(cat, source, j) && n + 1 < |j|
    ensures j[n].portCodeTo !in Departures(j[..n])
  {
    var p := j[..n];
    forall k | 0 <= k < |p| ensures p[k].portCodeFrom != j[n].portCodeTo {
      assert p[k] == j[k];
      assert j[n].portCodeTo == j[n + 1].portCodeFrom;
    }
  }

  // ---------------------------------------------------------------------
  // No journey is deposited twice when the catalogue repeats no route

  lemma DistinctConcat<T>(a: seq<T>, b: seq<T>)
    requires Distinct(a) && Distinct(b)
    requires forall x :: x in a ==> x !in b
    ensures Distinct(a + b)
  {
    var c := a + b;
    forall i, k | 0 <= i < k < |c| ensures c[i] != c[k] {
      if i < |a| && k >= |a| {
        assert c[i] in a && c[k] == b[k - |a|];
      }
    }
  }

  lemma {:induction false} ExploreFromDistinct(cat: seq<ShippingRoute>, q: Filters, port: string, path: seq<ShippingRoute>)
    requires Distinct(cat) && port !in Departures(path)
    ensures Distinct(ExploreFrom(cat, q, port, path))
    decreases |Departures(cat) - Departures(path)|, 2, 0
  {
    RoutesFromDistinct(cat, port);
    RoutesFromMembers(cat, port);
    ExploreRoutesDistinct(cat, q, port, path, RoutesFrom(cat, port));
  }

  lemma {:induction false} ExploreRoutesDistinct(cat: seq<ShippingRoute>, q: Filters, port: string, path: seq<ShippingRoute>,
                                                 routes: seq<ShippingRoute>)
    requires Distinct(cat) && port !in Departures(path)
    requires forall e :: e in routes ==> e in cat && e.portCodeFrom == port
    requires Distinct(routes)
    ensures Distinct(ExploreRoutes(cat, q, port, path, routes))
    decreases |Departures(cat) - Departures(path)|, 1, |routes|
  {
    if routes != [] {
      var init, last := routes[..|routes| - 1], routes[|routes| - 1];
      assert forall i :: 0 <= i < |init| ==> init[i] == routes[i];
      ExploreRoutesDistinct(cat, q, port, path, init);
      ExploreRouteDistinct(cat, q, port, path, last);
      ExploreRoutesShape(cat, q, port, path, init);
      ExploreRouteShape(cat, q, port, path, last);
      forall j | j in ExploreRoute(cat, q, port, path, last)
        ensures j !in ExploreRoutes(cat, q, port, path, init)
      {
        assert j[|path|] == j[..|path| + 1][|path|] == last;
      }
      DistinctConcat(ExploreRoutes(cat, q, port, path, init), ExploreRoute(cat, q, port, path, last));
    }
  }

  lemma {:induction false} ExploreRouteDistinct(cat: seq<ShippingRoute>, q: Filters, port: string, path: seq<ShippingRoute>,
                                                e: ShippingRoute)
    requires Distinct(cat) && port !in Departures(path)
    requires e in cat && e.portCodeFrom == port
    ensures Distinct(ExploreRoute(cat, q, port, path, e))
    decreases |Departures(cat) - Departures(path)|, 0, 0
  {
    if e.portCodeTo == port || !Within(q, path, e) {
      ExploreRoutePruned(cat, q, port, path, e);
    } else if e.portCodeTo == q.portCodeTo {
      ExploreRouteArrives(cat, q, port, path, e);
    } else if e.portCodeTo in Departures(path) {
      ExploreRouteRevisits(cat, q, port, path, e);
    } else {
      ExploreRouteDescends(cat, q, port, path, e);
      ExploreFromDistinct(cat, q, e.portCodeTo, path + [e]);
    }
  }

  // ---------------------------------------------------------------------
  // The whole query

  lemma IndirectJourneysSound(cat: seq<ShippingRoute>, source: string, q: Filters)
    ensures forall j :: j in IndirectJourneys(cat, source, q) ==> IsIndirectJourney(cat, source, q, j)
  {
    ExploreFromSound(cat, source, q, source, []);
  }

  lemma IndirectJourneysComplete(cat: seq<ShippingRoute>, source: string, q: Filters)
    requires NonNegativeDays(cat)
    ensures forall j :: IsIndirectJourney(cat, source, q, j) ==> j in IndirectJourneys(cat, source, q)
  {
    forall j | IsIndirectJourney(cat, source, q, j) ensures j in IndirectJourneys(cat, source, q) {
      assert j[..0] == [];
      ExploreFromComplete(cat, source, q, source, [], j);
    }
  }

  lemma IndirectJourneysDistinct(cat: seq<ShippingRoute>, source: string, q: Filters)
    requires Distinct(cat)
    ensures Distinct(IndirectJourneys(cat, source, q))
  {
    ExploreFromDistinct(cat, q, source, []);
  }

  /** With no negative days and no repeated route, each simple journey is deposited exactly once and nothing else is. */
  lemma IndirectJourneysExactlyOnce(cat: seq<ShippingRoute>, source: string, q: Filters, j: seq<ShippingRoute>)
    requires NonNegativeDays(cat) && Distinct(cat)
    ensures multiset(IndirectJourneys(cat, source, q))[j] == if IsIndirectJourney(cat, source, q, j) then 1 else 0
  {
    var r := IndirectJourneys(cat, source, q);
    IndirectJourneysSound(cat, source, q);
    IndirectJourneysComplete(cat, source, q);
    IndirectJourneysDistinct(cat, source, q);
    DistinctCountAtMostOne(r, j);
  }

  /** The distinct departures of a simple walk make its length; all lie among the catalogue ports. */
  lemma {:induction false} TrailDepartures(cat: seq<ShippingRoute>, source: string, j: seq<ShippingRoute>)
    requires IsTrail(cat, source, j)
    ensures |Departures(j)| == |j| && Departures(j) <= Departures(cat)
  {
    if j != [] {
      var init, last := j[..|j| - 1], j[|j| - 1];
      assert IsTrail(cat, source, init);
      TrailDepartures(cat, source, init);
      assert j == init + [last];
      DeparturesAppend(init, last);
      assert last.portCodeFrom !in Departures(init);
      var i :| 0 <= i < |cat| && cat[i] == last;
      assert last.portCodeFrom in Departures(cat);
    }
  }

  /**
   * However the filters are set, no journey found is longer than the number of
   * catalogue ports with departing routes: this bounds the depth of the search.
   */
  lemma JourneyLengthBound(cat: seq<ShippingRoute>, source: string, q: Filters, j: seq<ShippingRoute>)
    requires j in IndirectJourneys(cat, source, q)
    ensures |j| <= |Departures(cat)|
  {
    IndirectJourneysSound(cat, source, q);
    TrailDepartures(cat, source, j);
    SubsetCardinality(Departures(j), Departures(cat));
  }

  lemma SubsetCardinality<T>(a: set<T>, b: set<T>)
    requires a <= b
    ensures |a| <= |b|
  {
    assert b == a + (b - a);
  }
}
