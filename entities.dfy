/**
 * The two records of the shipping catalogue and the optional value the
 * repository returns where the C# code returns a nullable reference.
 */
module Entities {

  /** A port: its unique code and its display name (the name plays no part in routing). */
  datatype Port = Port(portCode: string, portName: string)

  /** A direct, one-way shipping route between two ports, taking a whole number of days. */
  datatype ShippingRoute = ShippingRoute(portCodeFrom: string, portCodeTo: string, travelDays: int)

  /** Absence of a route is a value of its own, distinct from a route of zero days. */
  datatype Option<T> = None | Some(value: T)

  /** True when no route occurs twice in the sequence. */
  predicate Distinct<T(==)>(s: seq<T>)
  {
    forall i, j :: 0 <= i < j < |s| ==> s[i] != s[j]
  }

  /** Every route takes a non-negative number of days. */
  predicate NonNegativeDays(routes: seq<ShippingRoute>)
  {
    forall e :: e in routes ==> e.travelDays >= 0
  }
}
