/**
 * One journey: the ordered list of routes taken, with its stop count and
 * its total travel time derived from that list.
 */
module Journeys {
  import opened Entities

  /** Total travel days of a list of routes (the C# `Sum` over TravelDays). */
  function Days(routes: seq<ShippingRoute>): int
  {
    if routes == [] then 0 else routes[0].travelDays + Days(routes[1..])
  }

  /** Appending a route adds exactly its days to the total. */
  lemma {:induction false} DaysAppend(routes: seq<ShippingRoute>, e: ShippingRoute)
    ensures Days(routes + [e]) == Days(routes) + e.travelDays
  {
    if routes != [] {
      assert (routes + [e])[1..] == routes[1..] + [e];
      DaysAppend(routes[1..], e);
    }
  }

  /** With non-negative days, a prefix never takes longer than the whole list, and nothing is negative. */
  lemma {:induction false} DaysPrefix(routes: seq<ShippingRoute>, n: nat)
    requires NonNegativeDays(routes)
    requires n <= |routes|
    ensures 0 <= Days(routes[..n]) <= Days(routes)
  {
    if n > 0 {
      assert routes[..n][1..] == routes[1..][..n - 1];
      DaysPrefix(routes[1..], n - 1);
    } else {
      DaysNonNegative(routes);
    }
  }

  lemma {:induction false} DaysNonNegative(routes: seq<ShippingRoute>)
    requires NonNegativeDays(routes)
    ensures Days(routes) >= 0
  {
    if routes != [] {
      DaysNonNegative(routes[1..]);
    }
  }

  /**
   * A journey under construction. `shippingRoutes` is the list the C# class
   * appends to in place; `isValidJourney` is the flag the direct validator sets.
   */
  class JourneyDetails {
    var shippingRoutes: seq<ShippingRoute>
    var isValidJourney: bool

    constructor ()
      ensures shippingRoutes == [] && !isValidJourney
      ensures TotalStops() == 0 && TotalJourneyDays() == 0
    {
      shippingRoutes := [];
      isValidJourney := false;
    }

    /** Appends a route at the end; earlier routes and the flag are untouched. */
    method AddJourneyDetail(shippingRoute: ShippingRoute)
      modifies this
      ensures shippingRoutes == old(shippingRoutes) + [shippingRoute]
      ensures isValidJourney == old(isValidJourney)
      ensures TotalStops() == old(TotalStops()) + 1
      ensures TotalJourneyDays() == old(TotalJourneyDays()) + shippingRoute.travelDays
    {
      DaysAppend(shippingRoutes, shippingRoute);
      shippingRoutes := shippingRoutes + [shippingRoute];
    }

    function TotalStops(): nat
      reads this
    {
      |shippingRoutes|
    }

    function TotalJourneyDays(): int
      reads this
    {
      Days(shippingRoutes)
    }

    /**
     * A copy with a list of its own holding the same routes in the same order.
     * The flag is not copied: the copy starts out not valid.
     */
    method Clone() returns (clone: JourneyDetails)
      ensures fresh(clone)
      ensures clone.shippingRoutes == shippingRoutes && !clone.isValidJourney
    {
      clone := new JourneyDetails();
      for i := 0 to |shippingRoutes|
        invariant clone.shippingRoutes == shippingRoutes[..i]
        invariant !clone.isValidJourney
      {
        clone.AddJourneyDetail(shippingRoutes[i]);
        assert shippingRoutes[..i + 1] == shippingRoutes[..i] + [shippingRoutes[i]];
      }
    }
  }

  /** Appending to a clone leaves the original journey as it was. */
  method CloneIsolatesAppends(original: JourneyDetails, e: ShippingRoute) returns (clone: JourneyDetails)
    ensures fresh(clone)
    ensures clone.shippingRoutes == original.shippingRoutes + [e]
    ensures unchanged(original)
  {
    clone := original.Clone();
    clone.AddJourneyDetail(e);
  }
}
