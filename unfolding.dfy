/**
 * Small facts about literal lists that unfolding the search on a fixed
 * catalogue needs at every step: the ports a short path departs from, its
 * total days, the branches over a short list of routes, and how short
 * lists of journeys concatenate.
 */
module Unfolding {
  import opened Entities
  import opened Journeys
  import opened Exploration

  // The ports short paths depart from.

  lemma Departures0()
    ensures Departures([]) == {}
  {
  }

  lemma Departures1(a: ShippingRoute)
    ensures Departures([a]) == {a.portCodeFrom}
  {
    assert [a][0] == a;
  }

  lemma Departures2(a: ShippingRoute, b: ShippingRoute)
    ensures Departures([a, b]) == {a.portCodeFrom, b.portCodeFrom}
  {
    assert [a, b][0] == a && [a, b][1] == b;
  }

  lemma Departures3(a: ShippingRoute, b: ShippingRoute, c: ShippingRoute)
    ensures Departures([a, b, c]) == {a.portCodeFrom, b.portCodeFrom, c.portCodeFrom}
  {
    assert [a, b, c][0] == a && [a, b, c][1] == b && [a, b, c][2] == c;
  }

  // The branches over one, two or three routes.

  lemma Routes1(cat: seq<ShippingRoute>, q: Filters, port: string, path: seq<ShippingRoute>, a: ShippingRoute)
    requires port !in Departures(path)
    requires a in cat && a.portCodeFrom == port
    ensures ExploreRoutes(cat, q, port, path, [a]) == ExploreRoute(cat, q, port, path, a)
  {
    assert [a][..0] == [];
  }

  lemma Routes2(cat: seq<ShippingRoute>, q: Filters, port: string, path: seq<ShippingRoute>,
                a: ShippingRoute, b: ShippingRoute)
    requires port !in Departures(path)
    requires a in cat && a.portCodeFrom == port && b in cat && b.portCodeFrom == port
    ensures ExploreRoutes(cat, q, port, path, [a, b]) ==
            ExploreRoute(cat, q, port, path, a) + ExploreRoute(cat, q, port, path, b)
  {
    assert [a, b][..1] == [a];
    Routes1(cat, q, port, path, a);
  }

  lemma Routes3(cat: seq<ShippingRoute>, q: Filters, port: string, path: seq<ShippingRoute>,
                a: ShippingRoute, b: ShippingRoute, c: ShippingRoute)
    requires port !in Departures(path)
    requires a in cat && a.portCodeFrom == port && b in cat && b.portCodeFrom == port
    requires c in cat && c.portCodeFrom == port
    ensures ExploreRoutes(cat, q, port, path, [a, b, c]) ==
            ExploreRoute(cat, q, port, path, a) + ExploreRoute(cat, q, port, path, b) +
            ExploreRoute(cat, q, port, path, c)
  {
    assert [a, b, c][..2] == [a, b];
    Routes2(cat, q, port, path, a, b);
  }

  // The days of short paths.

  lemma Days0()
    ensures Days([]) == 0
  {
  }

  lemma Days1(a: ShippingRoute)
    ensures Days([a]) == a.travelDays
  {
    assert [a][1..] == [];
  }

  lemma Days2(a: ShippingRoute, b: ShippingRoute)
    ensures Days([a, b]) == a.travelDays + b.travelDays
  {
    assert [a, b][1..] == [b];
    Days1(b);
  }

  lemma Days3(a: ShippingRoute, b: ShippingRoute, c: ShippingRoute)
    ensures Days([a, b, c]) == a.travelDays + b.travelDays + c.travelDays
  {
    assert [a, b, c][1..] == [b, c];
    Days2(b, c);
  }

  lemma Days4(a: ShippingRoute, b: ShippingRoute, c: ShippingRoute, d: ShippingRoute)
    ensures Days([a, b, c, d]) == a.travelDays + b.travelDays + c.travelDays + d.travelDays
  {
    assert [a, b, c, d][1..] == [b, c, d];
    Days3(b, c, d);
  }

  // Concatenations of short lists.

  /** The empty list of journeys. */
  const NoJourneys: seq<seq<ShippingRoute>> := []

  lemma Snoc0<T>(a: T)
    ensures [] + [a] == [a]
  {
  }

  lemma Snoc1<T>(a: T, b: T)
    ensures [a] + [b] == [a, b]
  {
  }

  lemma Snoc2<T>(a: T, b: T, c: T)
    ensures [a, b] + [c] == [a, b, c]
  {
  }

  lemma Snoc3<T>(a: T, b: T, c: T, d: T)
    ensures [a, b, c] + [d] == [a, b, c, d]
  {
  }

  lemma Join00()
    ensures NoJourneys + NoJourneys == NoJourneys
  {
  }

  lemma Join000()
    ensures NoJourneys + NoJourneys + NoJourneys == NoJourneys
  {
  }


  lemma Join010<T>(a: T)
    ensures [] + [a] + [] == [a]
  {
  }

  lemma Join02<T>(a: T, b: T)
    ensures [] + [a, b] == [a, b]
  {
  }

  lemma Join10<T>(a: T)
    ensures [a] + [] == [a]
  {
  }

  lemma Join100<T>(a: T)
    ensures [a] + [] + [] == [a]
  {
  }


  lemma Join110<T>(a: T, b: T)
    ensures [a] + [b] + [] == [a, b]
  {
  }

  lemma Join12<T>(a: T, b: T, c: T)
    ensures [a] + [b, c] == [a, b, c]
  {
  }

  lemma Join121<T>(a: T, b: T, c: T, d: T)
    ensures [a] + [b, c] + [d] == [a, b, c, d]
  {
  }


  lemma Join22<T>(a: T, b: T, c: T, d: T)
    ensures [a, b] + [c, d] == [a, b, c, d]
  {
  }
}
