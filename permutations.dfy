/**
 * The accumulator of completed journeys an indirect query fills, with its
 * count, "has any" and shortest-journey queries.
 */
module Permutations {
  import opened Entities
  import opened Journeys

  /** The smallest total days over a non-empty list of journeys (the `MinBy` on TotalJourneyDays). */
  function ShortestDays(journeys: seq<seq<ShippingRoute>>): (d: int)
    requires |journeys| > 0
    ensures exists k :: 0 <= k < |journeys| && Days(journeys[k]) == d
    ensures forall k :: 0 <= k < |journeys| ==> d <= Days(journeys[k])
  {
    if |journeys| == 1 then Days(journeys[0])
    else
      var rest := ShortestDays(journeys[1..]);
      assert forall k :: 1 <= k < |journeys| ==> journeys[k] == journeys[1..][k - 1];
      if Days(journeys[0]) <= rest then Days(journeys[0]) else rest
  }

  /** The shortest days depend only on which journeys are held, not on the order they were added in. */
  lemma ShortestDaysOrderIndependent(a: seq<seq<ShippingRoute>>, b: seq<seq<ShippingRoute>>)
    requires |a| > 0 && multiset(a) == multiset(b)
    ensures |b| > 0 && ShortestDays(a) == ShortestDays(b)
  {
    assert |b| == |multiset(b)| == |multiset(a)| == |a|;
    var ka :| 0 <= ka < |a| && Days(a[ka]) == ShortestDays(a);
    var kb :| 0 <= kb < |b| && Days(b[kb]) == ShortestDays(b);
    assert a[ka] in multiset(b);
    assert b[kb] in multiset(a);
  }

  /** The journeys found by one indirect query, in the order they were deposited. */
  class JourneyDetailPermutations {
    var validJourneyDetailsCollections: seq<seq<ShippingRoute>>

    constructor ()
      ensures validJourneyDetailsCollections == []
      ensures !HasValidPermutations() && TotalValidJourneys() == 0 && GetShortestJourney() == 0
    {
      validJourneyDetailsCollections := [];
    }

    /** Whether some journey is held. */
    function HasValidPermutations(): (b: bool)
      reads this
      ensures b <==> exists j :: j in validJourneyDetailsCollections
      ensures b <==> TotalValidJourneys() > 0
    {
      assert |validJourneyDetailsCollections| > 0 ==> validJourneyDetailsCollections[0] in validJourneyDetailsCollections;
      |validJourneyDetailsCollections| > 0
    }

    /** Deposits a completed journey after the ones already held. */
    method AddValidJourneyDetails(journeyDetails: JourneyDetails)
      modifies this
      ensures validJourneyDetailsCollections == old(validJourneyDetailsCollections) + [journeyDetails.shippingRoutes]
      ensures TotalValidJourneys() == old(TotalValidJourneys()) + 1
      ensures HasValidPermutations()
    {
      validJourneyDetailsCollections := validJourneyDetailsCollections + [journeyDetails.shippingRoutes];
    }

    function TotalValidJourneys(): nat
      reads this
    {
      |validJourneyDetailsCollections|
    }

    /** The least total days of a held journey, or 0 when none is held. */
    function GetShortestJourney(): (d: int)
      reads this
      ensures validJourneyDetailsCollections == [] ==> d == 0
      ensures validJourneyDetailsCollections != [] ==>
                (exists k :: 0 <= k < |validJourneyDetailsCollections| &&
                             Days(validJourneyDetailsCollections[k]) == d) &&
                (forall k :: 0 <= k < |validJourneyDetailsCollections| ==>
                             d <= Days(validJourneyDetailsCollections[k]))
    {
      if |validJourneyDetailsCollections| == 0 then 0 else ShortestDays(validJourneyDetailsCollections)
    }
  }
}
