/**
 * The route calculator: a direct validator for an explicit list of stops and
 * a depth-first, branch-and-bound explorer that enumerates every simple
 * journey between two ports under optional stop and day limits.
 */
module RouteProcessing {
  import opened Entities
  import opened DataAccess
  import opened Journeys
  import opened Permutations
  import opened Exploration

  /** The route of leg `i` of a direct journey: from the previous stop (or the source) to stop `i`. */
  function Leg(cat: seq<ShippingRoute>, source: string, stops: seq<string>, i: nat): Option<ShippingRoute>
    requires i < |stops|
  {
    FirstRoute(cat, if i == 0 then source else stops[i - 1], stops[i])
  }

  /** Legs found by the direct validator form a connected chain of catalogue routes from `source` through the stops. */
  lemma LegsChain(cat: seq<ShippingRoute>, source: string, stops: seq<string>, routes: seq<ShippingRoute>)
    requires |routes| <= |stops|
    requires forall i :: 0 <= i < |routes| ==> Leg(cat, source, stops, i) == Some(routes[i])
    ensures forall i :: 0 <= i < |routes| ==>
              routes[i] in cat && routes[i].portCodeTo == stops[i] &&
              routes[i].portCodeFrom == if i == 0 then source else routes[i - 1].portCodeTo
  {
    forall i | 0 <= i < |routes|
      ensures routes[i] in cat && routes[i].portCodeTo == stops[i]
      ensures routes[i].portCodeFrom == if i == 0 then source else routes[i - 1].portCodeTo
    {
      assert Leg(cat, source, stops, i) == Some(routes[i]);
      FirstRouteSpec(cat, if i == 0 then source else stops[i - 1], stops[i]);
      if i > 0 {
        assert Leg(cat, source, stops, i - 1) == Some(routes[i - 1]);
        FirstRouteSpec(cat, if i == 1 then source else stops[i - 2], stops[i - 1]);
      }
    }
  }

  /** The route a recursion step appends before fanning out: none on the first call. */
  function Pending(nextShippingRoute: Option<ShippingRoute>): seq<ShippingRoute>
  {
    match nextShippingRoute
    case None => []
    case Some(e) => [e]
  }

  /** `after` keeps `before` as its prefix and adds exactly the journeys of `added`, in any order. */
  predicate Extends(before: seq<seq<ShippingRoute>>, after: seq<seq<ShippingRoute>>, added: seq<seq<ShippingRoute>>)
  {
    before <= after && multiset(after[|before|..]) == multiset(added)
  }

  lemma ExtendsNothing(a: seq<seq<ShippingRoute>>)
    ensures Extends(a, a, [])
  {
    assert a[|a|..] == [];
  }

  lemma ExtendsChain(a: seq<seq<ShippingRoute>>, b: seq<seq<ShippingRoute>>, c: seq<seq<ShippingRoute>>,
                     x: seq<seq<ShippingRoute>>, y: seq<seq<ShippingRoute>>)
    requires Extends(a, b, x) && Extends(b, c, y)
    ensures Extends(a, c, x + y)
  {
    assert c[|a|..] == b[|a|..] + c[|b|..];
  }

  /** `after` is `before` extended by the journeys of the branches over the first `i` routes. */
  ghost predicate Explored(cat: seq<ShippingRoute>, q: Filters, port: string, path: seq<ShippingRoute>,
                           routes: seq<ShippingRoute>, i: nat,
                           before: seq<seq<ShippingRoute>>, after: seq<seq<ShippingRoute>>)
    requires port !in Departures(path)
    requires forall e :: e in routes ==> e in cat && e.portCodeFrom == port
    requires i <= |routes|
  {
    Extends(before, after, ExploreRoutes(cat, q, port, path, routes[..i]))
  }

  /** Exploring one more route of the fan-out extends the journeys found by that route's branch. */
  lemma ExtendsStep(cat: seq<ShippingRoute>, q: Filters, port: string, path: seq<ShippingRoute>,
                    routes: seq<ShippingRoute>, i: nat,
                    before: seq<seq<ShippingRoute>>, mid: seq<seq<ShippingRoute>>, after: seq<seq<ShippingRoute>>)
    requires port !in Departures(path)
    requires forall e :: e in routes ==> e in cat && e.portCodeFrom == port
    requires i < |routes|
    requires Explored(cat, q, port, path, routes, i, before, mid)
    requires Extends(mid, after, ExploreRoute(cat, q, port, path, routes[i]))
    ensures Explored(cat, q, port, path, routes, i + 1, before, after)
  {
    ExtendsChain(before, mid, after, ExploreRoutes(cat, q, port, path, routes[..i]), ExploreRoute(cat, q, port, path, routes[i]));
    ExploreRoutesStep(cat, q, port, path, routes, i);
  }

  class RouteProcessor {
    const routeDataRepository: RouteDataRepository
    var journeyDetailsPermutations: JourneyDetailPermutations?
    var minStops: int
    var maxStops: int
    var maxJourneyDays: int
    var portCodeTo: string

    constructor (routeDataRepository: RouteDataRepository)
      ensures this.routeDataRepository == routeDataRepository
      ensures journeyDetailsPermutations == null
    {
      this.routeDataRepository := routeDataRepository;
      journeyDetailsPermutations := null;
      minStops, maxStops, maxJourneyDays, portCodeTo := 0, 0, 0, "";
    }

    function Catalogue(): seq<ShippingRoute>
      reads this, routeDataRepository
    {
      routeDataRepository.shippingRouteCollection
    }

    /** The filters of the indirect query in progress, as the processor's fields hold them. */
    function Query(): Filters
      reads this
    {
      Filters(portCodeTo, minStops, maxStops, maxJourneyDays)
    }

    /**
     * Validates `destinationPortStops` as consecutive direct legs from `portCodeFrom`.
     * The result holds the legs found before the first missing one, and is valid
     * exactly when there is at least one stop and no leg is missing.
     */
    method CalcJourneyDetailsForDirectRouteSet(portCodeFrom: string, destinationPortStops: seq<string>)
      returns (journeyDetails: JourneyDetails)
      ensures fresh(journeyDetails)
      ensures destinationPortStops == [] ==> journeyDetails.shippingRoutes == []
      ensures |journeyDetails.shippingRoutes| <= |destinationPortStops|
      ensures forall i :: 0 <= i < |journeyDetails.shippingRoutes| ==>
                Leg(Catalogue(), portCodeFrom, destinationPortStops, i) == Some(journeyDetails.shippingRoutes[i])
      ensures |journeyDetails.shippingRoutes| < |destinationPortStops| ==>
                Leg(Catalogue(), portCodeFrom, destinationPortStops, |journeyDetails.shippingRoutes|).None?
      ensures journeyDetails.isValidJourney <==>
                destinationPortStops != [] && |journeyDetails.shippingRoutes| == |destinationPortStops|
      ensures journeyDetails.isValidJourney <==>
                destinationPortStops != [] &&
                forall i :: 0 <= i < |destinationPortStops| ==> Leg(Catalogue(), portCodeFrom, destinationPortStops, i).Some?
    {
      journeyDetails := new JourneyDetails();
      if destinationPortStops == [] {
        return;
      }
      ghost var cat := Catalogue();
      var currPortFrom := portCodeFrom;
      for i := 0 to |destinationPortStops|
        invariant Catalogue() == cat
        invariant |journeyDetails.shippingRoutes| == i && !journeyDetails.isValidJourney
        invariant forall k :: 0 <= k < i ==>
                    Leg(cat, portCodeFrom, destinationPortStops, k) == Some(journeyDetails.shippingRoutes[k])
        invariant currPortFrom == if i == 0 then portCodeFrom else destinationPortStops[i - 1]
      {
        var shippingRoute := routeDataRepository.RetrieveDirectShippingRouteBetweenPorts(currPortFrom, destinationPortStops[i]);
        assert shippingRoute == Leg(cat, portCodeFrom, destinationPortStops, i);
        if shippingRoute.None? {
          return;
        }
        ghost var legs := journeyDetails.shippingRoutes;
        journeyDetails.AddJourneyDetail(shippingRoute.value);
        assert journeyDetails.shippingRoutes == legs + [shippingRoute.value];
        currPortFrom := shippingRoute.value.portCodeTo;
      }
      journeyDetails.isValidJourney := true;
    }

    /**
     * Enumerates every simple journey from `portCodeFrom` to `portCodeTo` that passes
     * the filters (Unset for no filter) into a fresh accumulator, which it also returns.
     */
    method CalcJourneyDetailsForInDirectRoutes(portCodeFrom: string, portCodeTo: string,
                                               minStops: int := Unset, maxStops: int := Unset,
                                              maxJourneyDays: int := Unset)
      returns (permutations: JourneyDetailPermutations)
      modifies this
      ensures fresh(permutations) && journeyDetailsPermutations == permutations
      ensures Query() == Filters(portCodeTo, minStops, maxStops, maxJourneyDays)
      ensures multiset(permutations.validJourneyDetailsCollections) ==
              multiset(IndirectJourneys(Catalogue(), portCodeFrom, Query()))
      ensures forall j :: j in permutations.validJourneyDetailsCollections ==>
                IsIndirectJourney(Catalogue(), portCodeFrom, Query(), j)
      ensures NonNegativeDays(Catalogue()) ==>
                forall j :: IsIndirectJourney(Catalogue(), portCodeFrom, Query(), j) ==>
                  j in permutations.validJourneyDetailsCollections
      ensures NonNegativeDays(Catalogue()) && Distinct(Catalogue()) ==>
                forall j :: multiset(permutations.validJourneyDetailsCollections)[j] ==
                  if IsIndirectJourney(Catalogue(), portCodeFrom, Query(), j) then 1 else 0
      ensures permutations.HasValidPermutations() <==> IndirectJourneys(Catalogue(), portCodeFrom, Query()) != []
      ensures NonNegativeDays(Catalogue()) ==>
                (permutations.HasValidPermutations() <==>
                 exists j :: IsIndirectJourney(Catalogue(), portCodeFrom, Query(), j))
    {
      permutations := new JourneyDetailPermutations();
      journeyDetailsPermutations := permutations;
      this.minStops := minStops;
      this.maxStops := maxStops;
      this.maxJourneyDays := maxJourneyDays;
      this.portCodeTo := portCodeTo;
      var start := new JourneyDetails();
      RecursiveAddIndirectJourneyRoutesFromPort(portCodeFrom, start, None);
      assert permutations.validJourneyDetailsCollections[0..] == permutations.validJourneyDetailsCollections;
      ghost var found, spec := permutations.validJourneyDetailsCollections, IndirectJourneys(Catalogue(), portCodeFrom, Query());
      IndirectJourneysSound(Catalogue(), portCodeFrom, Query());
      forall j | j in found ensures IsIndirectJourney(Catalogue(), portCodeFrom, Query(), j) {
        assert j in multiset(found);
        assert j in spec;
      }
      assert |found| == |multiset(found)| == |multiset(spec)| == |spec|;
      if found != [] {
        assert found[0] in found;
      }
      if NonNegativeDays(Catalogue()) {
        IndirectJourneysComplete(Catalogue(), portCodeFrom, Query());
        forall j | IsIndirectJourney(Catalogue(), portCodeFrom, Query(), j) ensures j in found {
          assert j in multiset(spec);
          assert j in multiset(found);
        }
        if Distinct(Catalogue()) {
          forall j ensures multiset(found)[j] == if IsIndirectJourney(Catalogue(), portCodeFrom, Query(), j) then 1 else 0 {
            IndirectJourneysExactlyOnce(Catalogue(), portCodeFrom, Query(), j);
          }
        }
      }
    }

    /**
     * One level of the search: appends the route that led here (if any) to
     * `journeyDetails`, then evaluates one branch per route leaving `portCodeFrom`.
     * The accumulator keeps what it held and gains exactly the journeys
     * ExploreFrom describes, in some order.
     */
    method RecursiveAddIndirectJourneyRoutesFromPort(portCodeFrom: string, journeyDetails: JourneyDetails,
                                                     nextShippingRoute: Option<ShippingRoute>)
      requires journeyDetailsPermutations != null
      requires portCodeFrom !in Departures(journeyDetails.shippingRoutes + Pending(nextShippingRoute))
      modifies journeyDetails, journeyDetailsPermutations
      decreases |Departures(Catalogue()) - Departures(journeyDetails.shippingRoutes + Pending(nextShippingRoute))|, 1
      ensures journeyDetails.shippingRoutes == old(journeyDetails.shippingRoutes) + Pending(nextShippingRoute)
      ensures Extends(old(journeyDetailsPermutations.validJourneyDetailsCollections),
                      journeyDetailsPermutations.validJourneyDetailsCollections,
                      ExploreFrom(old(Catalogue()), old(Query()), portCodeFrom, journeyDetails.shippingRoutes))
    {
      var accumulator := journeyDetailsPermutations;
      ghost var before := accumulator.validJourneyDetailsCollections;
      ghost var cat, q := Catalogue(), Query();
      if nextShippingRoute.Some? {
        journeyDetails.AddJourneyDetail(nextShippingRoute.value);
        assert Pending(nextShippingRoute) == [nextShippingRoute.value];
      } else {
        assert old(journeyDetails.shippingRoutes) + Pending(nextShippingRoute) == journeyDetails.shippingRoutes;
      }
      ghost var path := journeyDetails.shippingRoutes;
      var shippingRouteColl := routeDataRepository.ListAllDirectShippingRoutesForPort(portCodeFrom);
      var i := 0;
      while i < |shippingRouteColl|
        invariant i <= |shippingRouteColl|
        invariant journeyDetails.shippingRoutes == path && portCodeFrom !in Departures(path)
        invariant accumulator == journeyDetailsPermutations
        invariant Catalogue() == cat && Query() == q
        invariant forall e :: e in shippingRouteColl ==> e in cat && e.portCodeFrom == portCodeFrom
        invariant Explored(cat, q, portCodeFrom, path, shippingRouteColl, i,
                           before, accumulator.validJourneyDetailsCollections)
      {
        ghost var mid := accumulator.validJourneyDetailsCollections;
        ProcessIndirectRoute(portCodeFrom, journeyDetails, shippingRouteColl[i]);
        assert Extends(mid, accumulator.validJourneyDetailsCollections,
                       ExploreRoute(cat, q, portCodeFrom, path, shippingRouteColl[i]));
        ExtendsStep(cat, q, portCodeFrom, path, shippingRouteColl, i,
                    before, mid, accumulator.validJourneyDetailsCollections);
        i := i + 1;
      }
      assert shippingRouteColl[..i] == shippingRouteColl;
      ExploreFromUnfold(cat, q, portCodeFrom, path);
      assert ExploreRoutes(cat, q, portCodeFrom, path, shippingRouteColl[..i]) == ExploreFrom(cat, q, portCodeFrom, path);
    }

    /**
     * One branch of the search: the route `shippingRoute` out of `portCodeFrom`,
     * with `journeyDetails` the journey that reached `portCodeFrom`. Rejects a
     * self-loop, a branch over the day or stop limits, or one back to a port
     * already departed from; deposits a copy on reaching the destination with
     * enough stops; otherwise descends with a copy.
     */
    method ProcessIndirectRoute(portCodeFrom: string, journeyDetails: JourneyDetails, shippingRoute: ShippingRoute)
      requires journeyDetailsPermutations != null
      requires portCodeFrom !in Departures(journeyDetails.shippingRoutes)
      requires shippingRoute in Catalogue() && shippingRoute.portCodeFrom == portCodeFrom
      modifies journeyDetailsPermutations
      decreases |Departures(Catalogue()) - Departures(journeyDetails.shippingRoutes)|, 0
      ensures Extends(old(journeyDetailsPermutations.validJourneyDetailsCollections),
                      journeyDetailsPermutations.validJourneyDetailsCollections,
                      ExploreRoute(old(Catalogue()), old(Query()), portCodeFrom, old(journeyDetails.shippingRoutes), shippingRoute))
    {
      ghost var before := journeyDetailsPermutations.validJourneyDetailsCollections;
      ghost var cat, q, path := Catalogue(), Query(), journeyDetails.shippingRoutes;
      var shipRouteTo := shippingRoute.portCodeTo;
      if shipRouteTo == portCodeFrom {
        ExploreRoutePruned(cat, q, portCodeFrom, path, shippingRoute);
        ExtendsNothing(before);
        return;
      }
      if maxJourneyDays != Unset && journeyDetails.TotalJourneyDays() + shippingRoute.travelDays > maxJourneyDays {
        ExploreRoutePruned(cat, q, portCodeFrom, path, shippingRoute);
        ExtendsNothing(before);
        return;
      }
      if maxStops != Unset && journeyDetails.TotalStops() + 1 > maxStops {
        ExploreRoutePruned(cat, q, portCodeFrom, path, shippingRoute);
        ExtendsNothing(before);
        return;
      }
      assert Within(q, path, shippingRoute);
      if shipRouteTo == portCodeTo {
        ExploreRouteArrives(cat, q, portCodeFrom, path, shippingRoute);
        if minStops == Unset || journeyDetails.TotalStops() + 1 >= minStops {
          var completeJourneyDetail := journeyDetails.Clone();
          completeJourneyDetail.AddJourneyDetail(shippingRoute);
          journeyDetailsPermutations.AddValidJourneyDetails(completeJourneyDetail);
          assert journeyDetailsPermutations.validJourneyDetailsCollections[|before|..] == [path + [shippingRoute]];
        } else {
          ExtendsNothing(before);
        }
        return;
      }
      if shipRouteTo in Departures(journeyDetails.shippingRoutes) {
        ExploreRouteRevisits(cat, q, portCodeFrom, path, shippingRoute);
        ExtendsNothing(before);
        return;
      }
      ExploreRouteDescends(cat, q, portCodeFrom, path, shippingRoute);
      var clone := journeyDetails.Clone();
      RecursiveAddIndirectJourneyRoutesFromPort(shipRouteTo, clone, Some(shippingRoute));
    }
  }
}
