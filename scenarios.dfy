/**
 * The fixed catalogue of the unit tests of the indirect search, and the
 * journey counts and minima those tests expect, worked out by unfolding the
 * search one port at a time.
 */
module Scenarios {
  import opened Entities
  import opened DataAccess
  import opened Journeys
  import opened Permutations
  import opened Exploration
  import opened Unfolding

  const AB := ShippingRoute("A", "B", 1)
  const BC := ShippingRoute("B", "C", 2)
  const BD := ShippingRoute("B", "D", 3)
  const CD := ShippingRoute("C", "D", 2)
  const CB := ShippingRoute("C", "B", 4)
  const CE := ShippingRoute("C", "E", 1)
  const DC := ShippingRoute("D", "C", 2)
  const DA := ShippingRoute("D", "A", 3)
  const XX := ShippingRoute("X", "X", 2)

  /** The catalogue the indirect unit tests mock the repository with. */
  function TestCatalogue(): seq<ShippingRoute>
  {
    [AB, BC, BD, CD, CB, CE, DC, DA, XX]
  }

  lemma Codes()
    ensures "A" != "B" && "A" != "C" && "A" != "D" && "A" != "E" && "A" != "X" && "A" != "Z"
    ensures "B" != "C" && "B" != "D" && "B" != "E" && "B" != "X" && "B" != "Z"
    ensures "C" != "D" && "C" != "E" && "C" != "X" && "C" != "Z"
    ensures "D" != "E" && "D" != "X" && "D" != "Z" && "E" != "X" && "E" != "Z" && "X" != "Z"
  {
    assert "A"[0] != "B"[0];
  }

  // Routes leaving each port of the test catalogue.

  lemma OutboundA() ensures RoutesFrom(TestCatalogue(), "A") == [AB] { Codes(); }
  lemma OutboundB() ensures RoutesFrom(TestCatalogue(), "B") == [BC, BD] { Codes(); }
  lemma OutboundC() ensures RoutesFrom(TestCatalogue(), "C") == [CD, CB, CE] { Codes(); }
  lemma OutboundD() ensures RoutesFrom(TestCatalogue(), "D") == [DC, DA] { Codes(); }
  lemma OutboundE() ensures RoutesFrom(TestCatalogue(), "E") == [] { Codes(); }
  lemma OutboundX() ensures RoutesFrom(TestCatalogue(), "X") == [XX] { Codes(); }
  lemma OutboundZ() ensures RoutesFrom(TestCatalogue(), "Z") == [] { Codes(); }

  lemma InCatalogue()
    ensures AB in TestCatalogue() && BC in TestCatalogue() && BD in TestCatalogue()
    ensures CD in TestCatalogue() && CB in TestCatalogue() && CE in TestCatalogue()
    ensures DC in TestCatalogue() && DA in TestCatalogue() && XX in TestCatalogue()
  {
    var cat := TestCatalogue();
    assert cat[0] == AB && cat[1] == BC && cat[2] == BD && cat[3] == CD && cat[4] == CB;
    assert cat[5] == CE && cat[6] == DC && cat[7] == DA && cat[8] == XX;
  }

  lemma InAB() ensures AB in TestCatalogue() { assert TestCatalogue()[0] == AB; }
  lemma InBC() ensures BC in TestCatalogue() { assert TestCatalogue()[1] == BC; }
  lemma InBD() ensures BD in TestCatalogue() { assert TestCatalogue()[2] == BD; }
  lemma InCD() ensures CD in TestCatalogue() { assert TestCatalogue()[3] == CD; }
  lemma InCB() ensures CB in TestCatalogue() { assert TestCatalogue()[4] == CB; }
  lemma InCE() ensures CE in TestCatalogue() { assert TestCatalogue()[5] == CE; }
  lemma InDC() ensures DC in TestCatalogue() { assert TestCatalogue()[6] == DC; }
  lemma InDA() ensures DA in TestCatalogue() { assert TestCatalogue()[7] == DA; }
  lemma InXX() ensures XX in TestCatalogue() { assert TestCatalogue()[8] == XX; }

  // The fan-out at each port, for any query and any path.

  lemma FanOutA(q: Filters, path: seq<ShippingRoute>)
    requires "A" !in Departures(path)
    ensures AB in TestCatalogue()
    ensures ExploreFrom(TestCatalogue(), q, "A", path) == ExploreRoute(TestCatalogue(), q, "A", path, AB)
  {
    InCatalogue();
    OutboundA();
    ExploreFromUnfold(TestCatalogue(), q, "A", path);
    Routes1(TestCatalogue(), q, "A", path, AB);
  }

  lemma FanOutB(q: Filters, path: seq<ShippingRoute>)
    requires "B" !in Departures(path)
    ensures BC in TestCatalogue() && BD in TestCatalogue()
    ensures ExploreFrom(TestCatalogue(), q, "B", path) ==
            ExploreRoute(TestCatalogue(), q, "B", path, BC) + ExploreRoute(TestCatalogue(), q, "B", path, BD)
  {
    InCatalogue();
    OutboundB();
    ExploreFromUnfold(TestCatalogue(), q, "B", path);
    Routes2(TestCatalogue(), q, "B", path, BC, BD);
  }

  lemma FanOutC(q: Filters, path: seq<ShippingRoute>)
    requires "C" !in Departures(path)
    ensures CD in TestCatalogue() && CB in TestCatalogue() && CE in TestCatalogue()
    ensures ExploreFrom(TestCatalogue(), q, "C", path) ==
            ExploreRoute(TestCatalogue(), q, "C", path, CD) + ExploreRoute(TestCatalogue(), q, "C", path, CB) +
            ExploreRoute(TestCatalogue(), q, "C", path, CE)
  {
    InCatalogue();
    OutboundC();
    ExploreFromUnfold(TestCatalogue(), q, "C", path);
    Routes3(TestCatalogue(), q, "C", path, CD, CB, CE);
  }

  lemma FanOutD(q: Filters, path: seq<ShippingRoute>)
    requires "D" !in Departures(path)
    ensures DC in TestCatalogue() && DA in TestCatalogue()
    ensures ExploreFrom(TestCatalogue(), q, "D", path) ==
            ExploreRoute(TestCatalogue(), q, "D", path, DC) + ExploreRoute(TestCatalogue(), q, "D", path, DA)
  {
    InCatalogue();
    OutboundD();
    ExploreFromUnfold(TestCatalogue(), q, "D", path);
    Routes2(TestCatalogue(), q, "D", path, DC, DA);
  }

  lemma FanOutX(q: Filters, path: seq<ShippingRoute>)
    requires "X" !in Departures(path)
    ensures XX in TestCatalogue()
    ensures ExploreFrom(TestCatalogue(), q, "X", path) == ExploreRoute(TestCatalogue(), q, "X", path, XX)
  {
    InCatalogue();
    OutboundX();
    ExploreFromUnfold(TestCatalogue(), q, "X", path);
    Routes1(TestCatalogue(), q, "X", path, XX);
  }

  lemma FanOutZ(q: Filters, path: seq<ShippingRoute>)
    requires "Z" !in Departures(path)
    ensures ExploreFrom(TestCatalogue(), q, "Z", path) == []
  {
    OutboundZ();
  }

  /** From E nothing leaves, whatever the query. */
  lemma FromE(q: Filters, path: seq<ShippingRoute>)
    requires "E" !in Departures(path)
    ensures ExploreFrom(TestCatalogue(), q, "E", path) == []
  {
    OutboundE();
  }

  /** The query to B, no filters. */
  function ToB(): Filters { Filters("B", Unset, Unset, Unset) }

  /** The query to D, no filters. */
  function ToD(): Filters { Filters("D", Unset, Unset, Unset) }

  /** The query to A, no filters. */
  function ToA(): Filters { Filters("A", Unset, Unset, Unset) }

  /** The query to X, no filters. */
  function ToX(): Filters { Filters("X", Unset, Unset, Unset) }

  /** The query to B, at most 3 stops. */
  function ToBAtMost3Stops(): Filters { Filters("B", Unset, 3, Unset) }

  /** The query to B, exactly 3 stops. */
  function ToBExactly3Stops(): Filters { Filters("B", 3, 3, Unset) }

  /** The query to B, at most 5 days. */
  function ToBWithin5Days(): Filters { Filters("B", Unset, Unset, 5) }

  /** The query to Z, no filters. */
  function ToZ(): Filters { Filters("Z", Unset, Unset, Unset) }

  /** The query to B, at most 8 days. */
  function ToBWithin8Days(): Filters { Filters("B", Unset, Unset, 8) }

  /** The query to B, at most 9 days. */
  function ToBWithin9Days(): Filters { Filters("B", Unset, Unset, 9) }

  /** The query to B, exactly 3 stops and at most 9 days. */
  function ToBExactly3StopsWithin9Days(): Filters { Filters("B", 3, 3, 9) }

  lemma ToBFromATakesAB()
    ensures ExploreRoute(TestCatalogue(), ToB(), "A", [], AB) == [[AB]]
  {
    var cat, q, path: seq<ShippingRoute> := TestCatalogue(), ToB(), [];
    Codes();
    InAB();
    Departures0();
    ExploreRouteArrives(cat, q, "A", path, AB);
    Snoc0(AB);
  }

  lemma ToBFromA()
    ensures ExploreFrom(TestCatalogue(), ToB(), "A", []) == [[AB]]
  {
    Codes();
    Departures0();
    FanOutA(ToB(), []);
    ToBFromATakesAB();
  }

  lemma ToDFromCViaABBCTakesCD()
    ensures ExploreRoute(TestCatalogue(), ToD(), "C", [AB, BC], CD) == [[AB, BC, CD]]
  {
    var cat, q, path := TestCatalogue(), ToD(), [AB, BC];
    Codes();
    InCD();
    Departures2(AB, BC);
    ExploreRouteArrives(cat, q, "C", path, CD);
    Snoc2(AB, BC, CD);
  }

  lemma ToDFromCViaABBCTakesCB()
    ensures ExploreRoute(TestCatalogue(), ToD(), "C", [AB, BC], CB) == []
  {
    var cat, q, path := TestCatalogue(), ToD(), [AB, BC];
    Codes();
    InCB();
    Departures2(AB, BC);
    ExploreRouteRevisits(cat, q, "C", path, CB);
  }

  lemma ToDFromCViaABBCTakesCE()
    ensures ExploreRoute(TestCatalogue(), ToD(), "C", [AB, BC], CE) == []
  {
    var cat, q, path := TestCatalogue(), ToD(), [AB, BC];
    Codes();
    InCE();
    Departures2(AB, BC);
    ExploreRouteDescends(cat, q, "C", path, CE);
    Snoc2(AB, BC, CE);
    FromE(q, [AB, BC, CE]);
  }

  lemma ToDFromCViaABBC()
    ensures ExploreFrom(TestCatalogue(), ToD(), "C", [AB, BC]) == [[AB, BC, CD]]
  {
    Codes();
    Departures2(AB, BC);
    FanOutC(ToD(), [AB, BC]);
    ToDFromCViaABBCTakesCD();
    ToDFromCViaABBCTakesCB();
    ToDFromCViaABBCTakesCE();
    Join100([AB, BC, CD]);
  }

  lemma ToDFromBViaABTakesBC()
    ensures ExploreRoute(TestCatalogue(), ToD(), "B", [AB], BC) == [[AB, BC, CD]]
  {
    var cat, q, path := TestCatalogue(), ToD(), [AB];
    Codes();
    InBC();
    Departures1(AB);
    ExploreRouteDescends(cat, q, "B", path, BC);
    Snoc1(AB, BC);
    ToDFromCViaABBC();
  }

  lemma ToDFromBViaABTakesBD()
    ensures ExploreRoute(TestCatalogue(), ToD(), "B", [AB], BD) == [[AB, BD]]
  {
    var cat, q, path := TestCatalogue(), ToD(), [AB];
    Codes();
    InBD();
    Departures1(AB);
    ExploreRouteArrives(cat, q, "B", path, BD);
    Snoc1(AB, BD);
  }

  lemma ToDFromBViaAB()
    ensures ExploreFrom(TestCatalogue(), ToD(), "B", [AB]) == [[AB, BC, CD], [AB, BD]]
  {
    Codes();
    Departures1(AB);
    FanOutB(ToD(), [AB]);
    ToDFromBViaABTakesBC();
    ToDFromBViaABTakesBD();
    Snoc1([AB, BC, CD], [AB, BD]);
  }

  lemma ToDFromATakesAB()
    ensures ExploreRoute(TestCatalogue(), ToD(), "A", [], AB) == [[AB, BC, CD], [AB, BD]]
  {
    var cat, q, path: seq<ShippingRoute> := TestCatalogue(), ToD(), [];
    Codes();
    InAB();
    Departures0();
    ExploreRouteDescends(cat, q, "A", path, AB);
    Snoc0(AB);
    ToDFromBViaAB();
  }

  lemma ToDFromA()
    ensures ExploreFrom(TestCatalogue(), ToD(), "A", []) == [[AB, BC, CD], [AB, BD]]
  {
    Codes();
    Departures0();
    FanOutA(ToD(), []);
    ToDFromATakesAB();
  }

  lemma ToAFromDViaABBCCDTakesDC()
    ensures ExploreRoute(TestCatalogue(), ToA(), "D", [AB, BC, CD], DC) == []
  {
    var cat, q, path := TestCatalogue(), ToA(), [AB, BC, CD];
    Codes();
    InDC();
    Departures3(AB, BC, CD);
    ExploreRouteRevisits(cat, q, "D", path, DC);
  }

  lemma ToAFromDViaABBCCDTakesDA()
    ensures ExploreRoute(TestCatalogue(), ToA(), "D", [AB, BC, CD], DA) == [[AB, BC, CD, DA]]
  {
    var cat, q, path := TestCatalogue(), ToA(), [AB, BC, CD];
    Codes();
    InDA();
    Departures3(AB, BC, CD);
    ExploreRouteArrives(cat, q, "D", path, DA);
    Snoc3(AB, BC, CD, DA);
  }

  lemma ToAFromDViaABBCCD()
    ensures ExploreFrom(TestCatalogue(), ToA(), "D", [AB, BC, CD]) == [[AB, BC, CD, DA]]
  {
    Codes();
    Departures3(AB, BC, CD);
    FanOutD(ToA(), [AB, BC, CD]);
    ToAFromDViaABBCCDTakesDC();
    ToAFromDViaABBCCDTakesDA();
    Snoc0([AB, BC, CD, DA]);
  }

  lemma ToAFromCViaABBCTakesCD()
    ensures ExploreRoute(TestCatalogue(), ToA(), "C", [AB, BC], CD) == [[AB, BC, CD, DA]]
  {
    var cat, q, path := TestCatalogue(), ToA(), [AB, BC];
    Codes();
    InCD();
    Departures2(AB, BC);
    ExploreRouteDescends(cat, q, "C", path, CD);
    Snoc2(AB, BC, CD);
    ToAFromDViaABBCCD();
  }

  lemma ToAFromCViaABBCTakesCB()
    ensures ExploreRoute(TestCatalogue(), ToA(), "C", [AB, BC], CB) == []
  {
    var cat, q, path := TestCatalogue(), ToA(), [AB, BC];
    Codes();
    InCB();
    Departures2(AB, BC);
    ExploreRouteRevisits(cat, q, "C", path, CB);
  }

  lemma ToAFromCViaABBCTakesCE()
    ensures ExploreRoute(TestCatalogue(), ToA(), "C", [AB, BC], CE) == []
  {
    var cat, q, path := TestCatalogue(), ToA(), [AB, BC];
    Codes();
    InCE();
    Departures2(AB, BC);
    ExploreRouteDescends(cat, q, "C", path, CE);
    Snoc2(AB, BC, CE);
    FromE(q, [AB, BC, CE]);
  }

  lemma ToAFromCViaABBC()
    ensures ExploreFrom(TestCatalogue(), ToA(), "C", [AB, BC]) == [[AB, BC, CD, DA]]
  {
    Codes();
    Departures2(AB, BC);
    FanOutC(ToA(), [AB, BC]);
    ToAFromCViaABBCTakesCD();
    ToAFromCViaABBCTakesCB();
    ToAFromCViaABBCTakesCE();
    Join100([AB, BC, CD, DA]);
  }

  lemma ToAFromCViaABBDDCTakesCD()
    ensures ExploreRoute(TestCatalogue(), ToA(), "C", [AB, BD, DC], CD) == []
  {
    var cat, q, path := TestCatalogue(), ToA(), [AB, BD, DC];
    Codes();
    InCD();
    Departures3(AB, BD, DC);
    ExploreRouteRevisits(cat, q, "C", path, CD);
  }

  lemma ToAFromCViaABBDDCTakesCB()
    ensures ExploreRoute(TestCatalogue(), ToA(), "C", [AB, BD, DC], CB) == []
  {
    var cat, q, path := TestCatalogue(), ToA(), [AB, BD, DC];
    Codes();
    InCB();
    Departures3(AB, BD, DC);
    ExploreRouteRevisits(cat, q, "C", path, CB);
  }

  lemma ToAFromCViaABBDDCTakesCE()
    ensures ExploreRoute(TestCatalogue(), ToA(), "C", [AB, BD, DC], CE) == []
  {
    var cat, q, path := TestCatalogue(), ToA(), [AB, BD, DC];
    Codes();
    InCE();
    Departures3(AB, BD, DC);
    ExploreRouteDescends(cat, q, "C", path, CE);
    Snoc3(AB, BD, DC, CE);
    FromE(q, [AB, BD, DC, CE]);
  }

  lemma ToAFromCViaABBDDC()
    ensures ExploreFrom(TestCatalogue(), ToA(), "C", [AB, BD, DC]) == []
  {
    Codes();
    Departures3(AB, BD, DC);
    FanOutC(ToA(), [AB, BD, DC]);
    ToAFromCViaABBDDCTakesCD();
    ToAFromCViaABBDDCTakesCB();
    ToAFromCViaABBDDCTakesCE();
    Join000();
  }

  lemma ToAFromDViaABBDTakesDC()
    ensures ExploreRoute(TestCatalogue(), ToA(), "D", [AB, BD], DC) == []
  {
    var cat, q, path := TestCatalogue(), ToA(), [AB, BD];
    Codes();
    InDC();
    Departures2(AB, BD);
    ExploreRouteDescends(cat, q, "D", path, DC);
    Snoc2(AB, BD, DC);
    ToAFromCViaABBDDC();
  }

  lemma ToAFromDViaABBDTakesDA()
    ensures ExploreRoute(TestCatalogue(), ToA(), "D", [AB, BD], DA) == [[AB, BD, DA]]
  {
    var cat, q, path := TestCatalogue(), ToA(), [AB, BD];
    Codes();
    InDA();
    Departures2(AB, BD);
    ExploreRouteArrives(cat, q, "D", path, DA);
    Snoc2(AB, BD, DA);
  }

  lemma ToAFromDViaABBD()
    ensures ExploreFrom(TestCatalogue(), ToA(), "D", [AB, BD]) == [[AB, BD, DA]]
  {
    Codes();
    Departures2(AB, BD);
    FanOutD(ToA(), [AB, BD]);
    ToAFromDViaABBDTakesDC();
    ToAFromDViaABBDTakesDA();
    Snoc0([AB, BD, DA]);
  }

  lemma ToAFromBViaABTakesBC()
    ensures ExploreRoute(TestCatalogue(), ToA(), "B", [AB], BC) == [[AB, BC, CD, DA]]
  {
    var cat, q, path := TestCatalogue(), ToA(), [AB];
    Codes();
    InBC();
    Departures1(AB);
    ExploreRouteDescends(cat, q, "B", path, BC);
    Snoc1(AB, BC);
    ToAFromCViaABBC();
  }

  lemma ToAFromBViaABTakesBD()
    ensures ExploreRoute(TestCatalogue(), ToA(), "B", [AB], BD) == [[AB, BD, DA]]
  {
    var cat, q, path := TestCatalogue(), ToA(), [AB];
    Codes();
    InBD();
    Departures1(AB);
    ExploreRouteDescends(cat, q, "B", path, BD);
    Snoc1(AB, BD);
    ToAFromDViaABBD();
  }

  lemma ToAFromBViaAB()
    ensures ExploreFrom(TestCatalogue(), ToA(), "B", [AB]) == [[AB, BC, CD, DA], [AB, BD, DA]]
  {
    Codes();
    Departures1(AB);
    FanOutB(ToA(), [AB]);
    ToAFromBViaABTakesBC();
    ToAFromBViaABTakesBD();
    Snoc1([AB, BC, CD, DA], [AB, BD, DA]);
  }

  lemma ToAFromATakesAB()
    ensures ExploreRoute(TestCatalogue(), ToA(), "A", [], AB) == [[AB, BC, CD, DA], [AB, BD, DA]]
  {
    var cat, q, path: seq<ShippingRoute> := TestCatalogue(), ToA(), [];
    Codes();
    InAB();
    Departures0();
    ExploreRouteDescends(cat, q, "A", path, AB);
    Snoc0(AB);
    ToAFromBViaAB();
  }

  lemma ToAFromA()
    ensures ExploreFrom(TestCatalogue(), ToA(), "A", []) == [[AB, BC, CD, DA], [AB, BD, DA]]
  {
    Codes();
    Departures0();
    FanOutA(ToA(), []);
    ToAFromATakesAB();
  }

  lemma ToBFromAViaBCCDDATakesAB()
    ensures ExploreRoute(TestCatalogue(), ToB(), "A", [BC, CD, DA], AB) == [[BC, CD, DA, AB]]
  {
    var cat, q, path := TestCatalogue(), ToB(), [BC, CD, DA];
    Codes();
    InAB();
    Departures3(BC, CD, DA);
    ExploreRouteArrives(cat, q, "A", path, AB);
    Snoc3(BC, CD, DA, AB);
  }

  lemma ToBFromAViaBCCDDA()
    ensures ExploreFrom(TestCatalogue(), ToB(), "A", [BC, CD, DA]) == [[BC, CD, DA, AB]]
  {
    Codes();
    Departures3(BC, CD, DA);
    FanOutA(ToB(), [BC, CD, DA]);
    ToBFromAViaBCCDDATakesAB();
  }

  lemma ToBFromDViaBCCDTakesDC()
    ensures ExploreRoute(TestCatalogue(), ToB(), "D", [BC, CD], DC) == []
  {
    var cat, q, path := TestCatalogue(), ToB(), [BC, CD];
    Codes();
    InDC();
    Departures2(BC, CD);
    ExploreRouteRevisits(cat, q, "D", path, DC);
  }

  lemma ToBFromDViaBCCDTakesDA()
    ensures ExploreRoute(TestCatalogue(), ToB(), "D", [BC, CD], DA) == [[BC, CD, DA, AB]]
  {
    var cat, q, path := TestCatalogue(), ToB(), [BC, CD];
    Codes();
    InDA();
    Departures2(BC, CD);
    ExploreRouteDescends(cat, q, "D", path, DA);
    Snoc2(BC, CD, DA);
    ToBFromAViaBCCDDA();
  }

  lemma ToBFromDViaBCCD()
    ensures ExploreFrom(TestCatalogue(), ToB(), "D", [BC, CD]) == [[BC, CD, DA, AB]]
  {
    Codes();
    Departures2(BC, CD);
    FanOutD(ToB(), [BC, CD]);
    ToBFromDViaBCCDTakesDC();
    ToBFromDViaBCCDTakesDA();
    Snoc0([BC, CD, DA, AB]);
  }

  lemma ToBFromCViaBCTakesCD()
    ensures ExploreRoute(TestCatalogue(), ToB(), "C", [BC], CD) == [[BC, CD, DA, AB]]
  {
    var cat, q, path := TestCatalogue(), ToB(), [BC];
    Codes();
    InCD();
    Departures1(BC);
    ExploreRouteDescends(cat, q, "C", path, CD);
    Snoc1(BC, CD);
    ToBFromDViaBCCD();
  }

  lemma ToBFromCViaBCTakesCB()
    ensures ExploreRoute(TestCatalogue(), ToB(), "C", [BC], CB) == [[BC, CB]]
  {
    var cat, q, path := TestCatalogue(), ToB(), [BC];
    Codes();
    InCB();
    Departures1(BC);
    ExploreRouteArrives(cat, q, "C", path, CB);
    Snoc1(BC, CB);
  }

  lemma ToBFromCViaBCTakesCE()
    ensures ExploreRoute(TestCatalogue(), ToB(), "C", [BC], CE) == []
  {
    var cat, q, path := TestCatalogue(), ToB(), [BC];
    Codes();
    InCE();
    Departures1(BC);
    ExploreRouteDescends(cat, q, "C", path, CE);
    Snoc1(BC, CE);
    FromE(q, [BC, CE]);
  }

  lemma ToBFromCViaBC()
    ensures ExploreFrom(TestCatalogue(), ToB(), "C", [BC]) == [[BC, CD, DA, AB], [BC, CB]]
  {
    Codes();
    Departures1(BC);
    FanOutC(ToB(), [BC]);
    ToBFromCViaBCTakesCD();
    ToBFromCViaBCTakesCB();
    ToBFromCViaBCTakesCE();
    Join110([BC, CD, DA, AB], [BC, CB]);
  }

  lemma ToBFromCViaBDDCTakesCD()
    ensures ExploreRoute(TestCatalogue(), ToB(), "C", [BD, DC], CD) == []
  {
    var cat, q, path := TestCatalogue(), ToB(), [BD, DC];
    Codes();
    InCD();
    Departures2(BD, DC);
    ExploreRouteRevisits(cat, q, "C", path, CD);
  }

  lemma ToBFromCViaBDDCTakesCB()
    ensures ExploreRoute(TestCatalogue(), ToB(), "C", [BD, DC], CB) == [[BD, DC, CB]]
  {
    var cat, q, path := TestCatalogue(), ToB(), [BD, DC];
    Codes();
    InCB();
    Departures2(BD, DC);
    ExploreRouteArrives(cat, q, "C", path, CB);
    Snoc2(BD, DC, CB);
  }

  lemma ToBFromCViaBDDCTakesCE()
    ensures ExploreRoute(TestCatalogue(), ToB(), "C", [BD, DC], CE) == []
  {
    var cat, q, path := TestCatalogue(), ToB(), [BD, DC];
    Codes();
    InCE();
    Departures2(BD, DC);
    ExploreRouteDescends(cat, q, "C", path, CE);
    Snoc2(BD, DC, CE);
    FromE(q, [BD, DC, CE]);
  }

  lemma ToBFromCViaBDDC()
    ensures ExploreFrom(TestCatalogue(), ToB(), "C", [BD, DC]) == [[BD, DC, CB]]
  {
    Codes();
    Departures2(BD, DC);
    FanOutC(ToB(), [BD, DC]);
    ToBFromCViaBDDCTakesCD();
    ToBFromCViaBDDCTakesCB();
    ToBFromCViaBDDCTakesCE();
    Join010([BD, DC, CB]);
  }

  lemma ToBFromAViaBDDATakesAB()
    ensures ExploreRoute(TestCatalogue(), ToB(), "A", [BD, DA], AB) == [[BD, DA, AB]]
  {
    var cat, q, path := TestCatalogue(), ToB(), [BD, DA];
    Codes();
    InAB();
    Departures2(BD, DA);
    ExploreRouteArrives(cat, q, "A", path, AB);
    Snoc2(BD, DA, AB);
  }

  lemma ToBFromAViaBDDA()
    ensures ExploreFrom(TestCatalogue(), ToB(), "A", [BD, DA]) == [[BD, DA, AB]]
  {
    Codes();
    Departures2(BD, DA);
    FanOutA(ToB(), [BD, DA]);
    ToBFromAViaBDDATakesAB();
  }

  lemma ToBFromDViaBDTakesDC()
    ensures ExploreRoute(TestCatalogue(), ToB(), "D", [BD], DC) == [[BD, DC, CB]]
  {
    var cat, q, path := TestCatalogue(), ToB(), [BD];
    Codes();
    InDC();
    Departures1(BD);
    ExploreRouteDescends(cat, q, "D", path, DC);
    Snoc1(BD, DC);
    ToBFromCViaBDDC();
  }

  lemma ToBFromDViaBDTakesDA()
    ensures ExploreRoute(TestCatalogue(), ToB(), "D", [BD], DA) == [[BD, DA, AB]]
  {
    var cat, q, path := TestCatalogue(), ToB(), [BD];
    Codes();
    InDA();
    Departures1(BD);
    ExploreRouteDescends(cat, q, "D", path, DA);
    Snoc1(BD, DA);
    ToBFromAViaBDDA();
  }

  lemma ToBFromDViaBD()
    ensures ExploreFrom(TestCatalogue(), ToB(), "D", [BD]) == [[BD, DC, CB], [BD, DA, AB]]
  {
    Codes();
    Departures1(BD);
    FanOutD(ToB(), [BD]);
    ToBFromDViaBDTakesDC();
    ToBFromDViaBDTakesDA();
    Snoc1([BD, DC, CB], [BD, DA, AB]);
  }

  lemma ToBFromBTakesBC()
    ensures ExploreRoute(TestCatalogue(), ToB(), "B", [], BC) == [[BC, CD, DA, AB], [BC, CB]]
  {
    var cat, q, path: seq<ShippingRoute> := TestCatalogue(), ToB(), [];
    Codes();
    InBC();
    Departures0();
    ExploreRouteDescends(cat, q, "B", path, BC);
    Snoc0(BC);
    ToBFromCViaBC();
  }

  lemma ToBFromBTakesBD()
    ensures ExploreRoute(TestCatalogue(), ToB(), "B", [], BD) == [[BD, DC, CB], [BD, DA, AB]]
  {
    var cat, q, path: seq<ShippingRoute> := TestCatalogue(), ToB(), [];
    Codes();
    InBD();
    Departures0();
    ExploreRouteDescends(cat, q, "B", path, BD);
    Snoc0(BD);
    ToBFromDViaBD();
  }

  lemma ToBFromB()
    ensures ExploreFrom(TestCatalogue(), ToB(), "B", []) == [[BC, CD, DA, AB], [BC, CB], [BD, DC, CB], [BD, DA, AB]]
  {
    Codes();
    Departures0();
    FanOutB(ToB(), []);
    ToBFromBTakesBC();
    ToBFromBTakesBD();
    Join22([BC, CD, DA, AB], [BC, CB], [BD, DC, CB], [BD, DA, AB]);
  }

  lemma ToBAtMost3StopsFromAViaBCCDDATakesAB()
    ensures ExploreRoute(TestCatalogue(), ToBAtMost3Stops(), "A", [BC, CD, DA], AB) == []
  {
    var cat, q, path := TestCatalogue(), ToBAtMost3Stops(), [BC, CD, DA];
    Codes();
    InAB();
    Departures3(BC, CD, DA);
    ExploreRoutePruned(cat, q, "A", path, AB);
  }

  lemma ToBAtMost3StopsFromAViaBCCDDA()
    ensures ExploreFrom(TestCatalogue(), ToBAtMost3Stops(), "A", [BC, CD, DA]) == []
  {
    Codes();
    Departures3(BC, CD, DA);
    FanOutA(ToBAtMost3Stops(), [BC, CD, DA]);
    ToBAtMost3StopsFromAViaBCCDDATakesAB();
  }

  lemma ToBAtMost3StopsFromDViaBCCDTakesDC()
    ensures ExploreRoute(TestCatalogue(), ToBAtMost3Stops(), "D", [BC, CD], DC) == []
  {
    var cat, q, path := TestCatalogue(), ToBAtMost3Stops(), [BC, CD];
    Codes();
    InDC();
    Departures2(BC, CD);
    ExploreRouteRevisits(cat, q, "D", path, DC);
  }

  lemma ToBAtMost3StopsFromDViaBCCDTakesDA()
    ensures ExploreRoute(TestCatalogue(), ToBAtMost3Stops(), "D", [BC, CD], DA) == []
  {
    var cat, q, path := TestCatalogue(), ToBAtMost3Stops(), [BC, CD];
    Codes();
    InDA();
    Departures2(BC, CD);
    ExploreRouteDescends(cat, q, "D", path, DA);
    Snoc2(BC, CD, DA);
    ToBAtMost3StopsFromAViaBCCDDA();
  }

  lemma ToBAtMost3StopsFromDViaBCCD()
    ensures ExploreFrom(TestCatalogue(), ToBAtMost3Stops(), "D", [BC, CD]) == []
  {
    Codes();
    Departures2(BC, CD);
    FanOutD(ToBAtMost3Stops(), [BC, CD]);
    ToBAtMost3StopsFromDViaBCCDTakesDC();
    ToBAtMost3StopsFromDViaBCCDTakesDA();
    Join00();
  }

  lemma ToBAtMost3StopsFromCViaBCTakesCD()
    ensures ExploreRoute(TestCatalogue(), ToBAtMost3Stops(), "C", [BC], CD) == []
  {
    var cat, q, path := TestCatalogue(), ToBAtMost3Stops(), [BC];
    Codes();
    InCD();
    Departures1(BC);
    ExploreRouteDescends(cat, q, "C", path, CD);
    Snoc1(BC, CD);
    ToBAtMost3StopsFromDViaBCCD();
  }

  lemma ToBAtMost3StopsFromCViaBCTakesCB()
    ensures ExploreRoute(TestCatalogue(), ToBAtMost3Stops(), "C", [BC], CB) == [[BC, CB]]
  {
    var cat, q, path := TestCatalogue(), ToBAtMost3Stops(), [BC];
    Codes();
    InCB();
    Departures1(BC);
    ExploreRouteArrives(cat, q, "C", path, CB);
    Snoc1(BC, CB);
  }

  lemma ToBAtMost3StopsFromCViaBCTakesCE()
    ensures ExploreRoute(TestCatalogue(), ToBAtMost3Stops(), "C", [BC], CE) == []
  {
    var cat, q, path := TestCatalogue(), ToBAtMost3Stops(), [BC];
    Codes();
    InCE();
    Departures1(BC);
    ExploreRouteDescends(cat, q, "C", path, CE);
    Snoc1(BC, CE);
    FromE(q, [BC, CE]);
  }

  lemma ToBAtMost3StopsFromCViaBC()
    ensures ExploreFrom(TestCatalogue(), ToBAtMost3Stops(), "C", [BC]) == [[BC, CB]]
  {
    Codes();
    Departures1(BC);
    FanOutC(ToBAtMost3Stops(), [BC]);
    ToBAtMost3StopsFromCViaBCTakesCD();
    ToBAtMost3StopsFromCViaBCTakesCB();
    ToBAtMost3StopsFromCViaBCTakesCE();
    Join010([BC, CB]);
  }

  lemma ToBAtMost3StopsFromCViaBDDCTakesCD()
    ensures ExploreRoute(TestCatalogue(), ToBAtMost3Stops(), "C", [BD, DC], CD) == []
  {
    var cat, q, path := TestCatalogue(), ToBAtMost3Stops(), [BD, DC];
    Codes();
    InCD();
    Departures2(BD, DC);
    ExploreRouteRevisits(cat, q, "C", path, CD);
  }

  lemma ToBAtMost3StopsFromCViaBDDCTakesCB()
    ensures ExploreRoute(TestCatalogue(), ToBAtMost3Stops(), "C", [BD, DC], CB) == [[BD, DC, CB]]
  {
    var cat, q, path := TestCatalogue(), ToBAtMost3Stops(), [BD, DC];
    Codes();
    InCB();
    Departures2(BD, DC);
    ExploreRouteArrives(cat, q, "C", path, CB);
    Snoc2(BD, DC, CB);
  }

  lemma ToBAtMost3StopsFromCViaBDDCTakesCE()
    ensures ExploreRoute(TestCatalogue(), ToBAtMost3Stops(), "C", [BD, DC], CE) == []
  {
    var cat, q, path := TestCatalogue(), ToBAtMost3Stops(), [BD, DC];
    Codes();
    InCE();
    Departures2(BD, DC);
    ExploreRouteDescends(cat, q, "C", path, CE);
    Snoc2(BD, DC, CE);
    FromE(q, [BD, DC, CE]);
  }

  lemma ToBAtMost3StopsFromCViaBDDC()
    ensures ExploreFrom(TestCatalogue(), ToBAtMost3Stops(), "C", [BD, DC]) == [[BD, DC, CB]]
  {
    Codes();
    Departures2(BD, DC);
    FanOutC(ToBAtMost3Stops(), [BD, DC]);
    ToBAtMost3StopsFromCViaBDDCTakesCD();
    ToBAtMost3StopsFromCViaBDDCTakesCB();
    ToBAtMost3StopsFromCViaBDDCTakesCE();
    Join010([BD, DC, CB]);
  }

  lemma ToBAtMost3StopsFromAViaBDDATakesAB()
    ensures ExploreRoute(TestCatalogue(), ToBAtMost3Stops(), "A", [BD, DA], AB) == [[BD, DA, AB]]
  {
    var cat, q, path := TestCatalogue(), ToBAtMost3Stops(), [BD, DA];
    Codes();
    InAB();
    Departures2(BD, DA);
    ExploreRouteArrives(cat, q, "A", path, AB);
    Snoc2(BD, DA, AB);
  }

  lemma ToBAtMost3StopsFromAViaBDDA()
    ensures ExploreFrom(TestCatalogue(), ToBAtMost3Stops(), "A", [BD, DA]) == [[BD, DA, AB]]
  {
    Codes();
    Departures2(BD, DA);
    FanOutA(ToBAtMost3Stops(), [BD, DA]);
    ToBAtMost3StopsFromAViaBDDATakesAB();
  }

  lemma ToBAtMost3StopsFromDViaBDTakesDC()
    ensures ExploreRoute(TestCatalogue(), ToBAtMost3Stops(), "D", [BD], DC) == [[BD, DC, CB]]
  {
    var cat, q, path := TestCatalogue(), ToBAtMost3Stops(), [BD];
    Codes();
    InDC();
    Departures1(BD);
    ExploreRouteDescends(cat, q, "D", path, DC);
    Snoc1(BD, DC);
    ToBAtMost3StopsFromCViaBDDC();
  }

  lemma ToBAtMost3StopsFromDViaBDTakesDA()
    ensures ExploreRoute(TestCatalogue(), ToBAtMost3Stops(), "D", [BD], DA) == [[BD, DA, AB]]
  {
    var cat, q, path := TestCatalogue(), ToBAtMost3Stops(), [BD];
    Codes();
    InDA();
    Departures1(BD);
    ExploreRouteDescends(cat, q, "D", path, DA);
    Snoc1(BD, DA);
    ToBAtMost3StopsFromAViaBDDA();
  }

  lemma ToBAtMost3StopsFromDViaBD()
    ensures ExploreFrom(TestCatalogue(), ToBAtMost3Stops(), "D", [BD]) == [[BD, DC, CB], [BD, DA, AB]]
  {
    Codes();
    Departures1(BD);
    FanOutD(ToBAtMost3Stops(), [BD]);
    ToBAtMost3StopsFromDViaBDTakesDC();
    ToBAtMost3StopsFromDViaBDTakesDA();
    Snoc1([BD, DC, CB], [BD, DA, AB]);
  }

  lemma ToBAtMost3StopsFromBTakesBC()
    ensures ExploreRoute(TestCatalogue(), ToBAtMost3Stops(), "B", [], BC) == [[BC, CB]]
  {
    var cat, q, path: seq<ShippingRoute> := TestCatalogue(), ToBAtMost3Stops(), [];
    Codes();
    InBC();
    Departures0();
    ExploreRouteDescends(cat, q, "B", path, BC);
    Snoc0(BC);
    ToBAtMost3StopsFromCViaBC();
  }

  lemma ToBAtMost3StopsFromBTakesBD()
    ensures ExploreRoute(TestCatalogue(), ToBAtMost3Stops(), "B", [], BD) == [[BD, DC, CB], [BD, DA, AB]]
  {
    var cat, q, path: seq<ShippingRoute> := TestCatalogue(), ToBAtMost3Stops(), [];
    Codes();
    InBD();
    Departures0();
    ExploreRouteDescends(cat, q, "B", path, BD);
    Snoc0(BD);
    ToBAtMost3StopsFromDViaBD();
  }

  lemma ToBAtMost3StopsFromB()
    ensures ExploreFrom(TestCatalogue(), ToBAtMost3Stops(), "B", []) == [[BC, CB], [BD, DC, CB], [BD, DA, AB]]
  {
    Codes();
    Departures0();
    FanOutB(ToBAtMost3Stops(), []);
    ToBAtMost3StopsFromBTakesBC();
    ToBAtMost3StopsFromBTakesBD();
    Join12([BC, CB], [BD, DC, CB], [BD, DA, AB]);
  }

  lemma ToBExactly3StopsFromAViaBCCDDATakesAB()
    ensures ExploreRoute(TestCatalogue(), ToBExactly3Stops(), "A", [BC, CD, DA], AB) == []
  {
    var cat, q, path := TestCatalogue(), ToBExactly3Stops(), [BC, CD, DA];
    Codes();
    InAB();
    Departures3(BC, CD, DA);
    ExploreRoutePruned(cat, q, "A", path, AB);
  }

  lemma ToBExactly3StopsFromAViaBCCDDA()
    ensures ExploreFrom(TestCatalogue(), ToBExactly3Stops(), "A", [BC, CD, DA]) == []
  {
    Codes();
    Departures3(BC, CD, DA);
    FanOutA(ToBExactly3Stops(), [BC, CD, DA]);
    ToBExactly3StopsFromAViaBCCDDATakesAB();
  }

  lemma ToBExactly3StopsFromDViaBCCDTakesDC()
    ensures ExploreRoute(TestCatalogue(), ToBExactly3Stops(), "D", [BC, CD], DC) == []
  {
    var cat, q, path := TestCatalogue(), ToBExactly3Stops(), [BC, CD];
    Codes();
    InDC();
    Departures2(BC, CD);
    ExploreRouteRevisits(cat, q, "D", path, DC);
  }

  lemma ToBExactly3StopsFromDViaBCCDTakesDA()
    ensures ExploreRoute(TestCatalogue(), ToBExactly3Stops(), "D", [BC, CD], DA) == []
  {
    var cat, q, path := TestCatalogue(), ToBExactly3Stops(), [BC, CD];
    Codes();
    InDA();
    Departures2(BC, CD);
    ExploreRouteDescends(cat, q, "D", path, DA);
    Snoc2(BC, CD, DA);
    ToBExactly3StopsFromAViaBCCDDA();
  }

  lemma ToBExactly3StopsFromDViaBCCD()
    ensures ExploreFrom(TestCatalogue(), ToBExactly3Stops(), "D", [BC, CD]) == []
  {
    Codes();
    Departures2(BC, CD);
    FanOutD(ToBExactly3Stops(), [BC, CD]);
    ToBExactly3StopsFromDViaBCCDTakesDC();
    ToBExactly3StopsFromDViaBCCDTakesDA();
    Join00();
  }

  lemma ToBExactly3StopsFromCViaBCTakesCD()
    ensures ExploreRoute(TestCatalogue(), ToBExactly3Stops(), "C", [BC], CD) == []
  {
    var cat, q, path := TestCatalogue(), ToBExactly3Stops(), [BC];
    Codes();
    InCD();
    Departures1(BC);
    ExploreRouteDescends(cat, q, "C", path, CD);
    Snoc1(BC, CD);
    ToBExactly3StopsFromDViaBCCD();
  }

  lemma ToBExactly3StopsFromCViaBCTakesCB()
    ensures ExploreRoute(TestCatalogue(), ToBExactly3Stops(), "C", [BC], CB) == []
  {
    var cat, q, path := TestCatalogue(), ToBExactly3Stops(), [BC];
    Codes();
    InCB();
    Departures1(BC);
    ExploreRouteArrives(cat, q, "C", path, CB);
  }

  lemma ToBExactly3StopsFromCViaBCTakesCE()
    ensures ExploreRoute(TestCatalogue(), ToBExactly3Stops(), "C", [BC], CE) == []
  {
    var cat, q, path := TestCatalogue(), ToBExactly3Stops(), [BC];
    Codes();
    InCE();
    Departures1(BC);
    ExploreRouteDescends(cat, q, "C", path, CE);
    Snoc1(BC, CE);
    FromE(q, [BC, CE]);
  }

  lemma ToBExactly3StopsFromCViaBC()
    ensures ExploreFrom(TestCatalogue(), ToBExactly3Stops(), "C", [BC]) == []
  {
    Codes();
    Departures1(BC);
    FanOutC(ToBExactly3Stops(), [BC]);
    ToBExactly3StopsFromCViaBCTakesCD();
    ToBExactly3StopsFromCViaBCTakesCB();
    ToBExactly3StopsFromCViaBCTakesCE();
    Join000();
  }

  lemma ToBExactly3StopsFromCViaBDDCTakesCD()
    ensures ExploreRoute(TestCatalogue(), ToBExactly3Stops(), "C", [BD, DC], CD) == []
  {
    var cat, q, path := TestCatalogue(), ToBExactly3Stops(), [BD, DC];
    Codes();
    InCD();
    Departures2(BD, DC);
    ExploreRouteRevisits(cat, q, "C", path, CD);
  }

  lemma ToBExactly3StopsFromCViaBDDCTakesCB()
    ensures ExploreRoute(TestCatalogue(), ToBExactly3Stops(), "C", [BD, DC], CB) == [[BD, DC, CB]]
  {
    var cat, q, path := TestCatalogue(), ToBExactly3Stops(), [BD, DC];
    Codes();
    InCB();
    Departures2(BD, DC);
    ExploreRouteArrives(cat, q, "C", path, CB);
    Snoc2(BD, DC, CB);
  }

  lemma ToBExactly3StopsFromCViaBDDCTakesCE()
    ensures ExploreRoute(TestCatalogue(), ToBExactly3Stops(), "C", [BD, DC], CE) == []
  {
    var cat, q, path := TestCatalogue(), ToBExactly3Stops(), [BD, DC];
    Codes();
    InCE();
    Departures2(BD, DC);
    ExploreRouteDescends(cat, q, "C", path, CE);
    Snoc2(BD, DC, CE);
    FromE(q, [BD, DC, CE]);
  }

  lemma ToBExactly3StopsFromCViaBDDC()
    ensures ExploreFrom(TestCatalogue(), ToBExactly3Stops(), "C", [BD, DC]) == [[BD, DC, CB]]
  {
    Codes();
    Departures2(BD, DC);
    FanOutC(ToBExactly3Stops(), [BD, DC]);
    ToBExactly3StopsFromCViaBDDCTakesCD();
    ToBExactly3StopsFromCViaBDDCTakesCB();
    ToBExactly3StopsFromCViaBDDCTakesCE();
    Join010([BD, DC, CB]);
  }

  lemma ToBExactly3StopsFromAViaBDDATakesAB()
    ensures ExploreRoute(TestCatalogue(), ToBExactly3Stops(), "A", [BD, DA], AB) == [[BD, DA, AB]]
  {
    var cat, q, path := TestCatalogue(), ToBExactly3Stops(), [BD, DA];
    Codes();
    InAB();
    Departures2(BD, DA);
    ExploreRouteArrives(cat, q, "A", path, AB);
    Snoc2(BD, DA, AB);
  }

  lemma ToBExactly3StopsFromAViaBDDA()
    ensures ExploreFrom(TestCatalogue(), ToBExactly3Stops(), "A", [BD, DA]) == [[BD, DA, AB]]
  {
    Codes();
    Departures2(BD, DA);
    FanOutA(ToBExactly3Stops(), [BD, DA]);
    ToBExactly3StopsFromAViaBDDATakesAB();
  }

  lemma ToBExactly3StopsFromDViaBDTakesDC()
    ensures ExploreRoute(TestCatalogue(), ToBExactly3Stops(), "D", [BD], DC) == [[BD, DC, CB]]
  {
    var cat, q, path := TestCatalogue(), ToBExactly3Stops(), [BD];
    Codes();
    InDC();
    Departures1(BD);
    ExploreRouteDescends(cat, q, "D", path, DC);
    Snoc1(BD, DC);
    ToBExactly3StopsFromCViaBDDC();
  }

  lemma ToBExactly3StopsFromDViaBDTakesDA()
    ensures ExploreRoute(TestCatalogue(), ToBExactly3Stops(), "D", [BD], DA) == [[BD, DA, AB]]
  {
    var cat, q, path := TestCatalogue(), ToBExactly3Stops(), [BD];
    Codes();
    InDA();
    Departures1(BD);
    ExploreRouteDescends(cat, q, "D", path, DA);
    Snoc1(BD, DA);
    ToBExactly3StopsFromAViaBDDA();
  }

  lemma ToBExactly3StopsFromDViaBD()
    ensures ExploreFrom(TestCatalogue(), ToBExactly3Stops(), "D", [BD]) == [[BD, DC, CB], [BD, DA, AB]]
  {
    Codes();
    Departures1(BD);
    FanOutD(ToBExactly3Stops(), [BD]);
    ToBExactly3StopsFromDViaBDTakesDC();
    ToBExactly3StopsFromDViaBDTakesDA();
    Snoc1([BD, DC, CB], [BD, DA, AB]);
  }

  lemma ToBExactly3StopsFromBTakesBC()
    ensures ExploreRoute(TestCatalogue(), ToBExactly3Stops(), "B", [], BC) == []
  {
    var cat, q, path: seq<ShippingRoute> := TestCatalogue(), ToBExactly3Stops(), [];
    Codes();
    InBC();
    Departures0();
    ExploreRouteDescends(cat, q, "B", path, BC);
    Snoc0(BC);
    ToBExactly3StopsFromCViaBC();
  }

  lemma ToBExactly3StopsFromBTakesBD()
    ensures ExploreRoute(TestCatalogue(), ToBExactly3Stops(), "B", [], BD) == [[BD, DC, CB], [BD, DA, AB]]
  {
    var cat, q, path: seq<ShippingRoute> := TestCatalogue(), ToBExactly3Stops(), [];
    Codes();
    InBD();
    Departures0();
    ExploreRouteDescends(cat, q, "B", path, BD);
    Snoc0(BD);
    ToBExactly3StopsFromDViaBD();
  }

  lemma ToBExactly3StopsFromB()
    ensures ExploreFrom(TestCatalogue(), ToBExactly3Stops(), "B", []) == [[BD, DC, CB], [BD, DA, AB]]
  {
    Codes();
    Departures0();
    FanOutB(ToBExactly3Stops(), []);
    ToBExactly3StopsFromBTakesBC();
    ToBExactly3StopsFromBTakesBD();
    Join02([BD, DC, CB], [BD, DA, AB]);
  }

  lemma ToBWithin5DaysFromDViaBCCDTakesDC()
    ensures ExploreRoute(TestCatalogue(), ToBWithin5Days(), "D", [BC, CD], DC) == []
  {
    var cat, q, path := TestCatalogue(), ToBWithin5Days(), [BC, CD];
    Codes();
    InDC();
    Departures2(BC, CD);
    Days2(BC, CD);
    ExploreRoutePruned(cat, q, "D", path, DC);
  }

  lemma ToBWithin5DaysFromDViaBCCDTakesDA()
    ensures ExploreRoute(TestCatalogue(), ToBWithin5Days(), "D", [BC, CD], DA) == []
  {
    var cat, q, path := TestCatalogue(), ToBWithin5Days(), [BC, CD];
    Codes();
    InDA();
    Departures2(BC, CD);
    Days2(BC, CD);
    ExploreRoutePruned(cat, q, "D", path, DA);
  }

  lemma ToBWithin5DaysFromDViaBCCD()
    ensures ExploreFrom(TestCatalogue(), ToBWithin5Days(), "D", [BC, CD]) == []
  {
    Codes();
    Departures2(BC, CD);
    FanOutD(ToBWithin5Days(), [BC, CD]);
    ToBWithin5DaysFromDViaBCCDTakesDC();
    ToBWithin5DaysFromDViaBCCDTakesDA();
    Join00();
  }

  lemma ToBWithin5DaysFromCViaBCTakesCD()
    ensures ExploreRoute(TestCatalogue(), ToBWithin5Days(), "C", [BC], CD) == []
  {
    var cat, q, path := TestCatalogue(), ToBWithin5Days(), [BC];
    Codes();
    InCD();
    Departures1(BC);
    Days1(BC);
    ExploreRouteDescends(cat, q, "C", path, CD);
    Snoc1(BC, CD);
    ToBWithin5DaysFromDViaBCCD();
  }

  lemma ToBWithin5DaysFromCViaBCTakesCB()
    ensures ExploreRoute(TestCatalogue(), ToBWithin5Days(), "C", [BC], CB) == []
  {
    var cat, q, path := TestCatalogue(), ToBWithin5Days(), [BC];
    Codes();
    InCB();
    Departures1(BC);
    Days1(BC);
    ExploreRoutePruned(cat, q, "C", path, CB);
  }

  lemma ToBWithin5DaysFromCViaBCTakesCE()
    ensures ExploreRoute(TestCatalogue(), ToBWithin5Days(), "C", [BC], CE) == []
  {
    var cat, q, path := TestCatalogue(), ToBWithin5Days(), [BC];
    Codes();
    InCE();
    Departures1(BC);
    Days1(BC);
    ExploreRouteDescends(cat, q, "C", path, CE);
    Snoc1(BC, CE);
    FromE(q, [BC, CE]);
  }

  lemma ToBWithin5DaysFromCViaBC()
    ensures ExploreFrom(TestCatalogue(), ToBWithin5Days(), "C", [BC]) == []
  {
    Codes();
    Departures1(BC);
    FanOutC(ToBWithin5Days(), [BC]);
    ToBWithin5DaysFromCViaBCTakesCD();
    ToBWithin5DaysFromCViaBCTakesCB();
    ToBWithin5DaysFromCViaBCTakesCE();
    Join000();
  }

  lemma ToBWithin5DaysFromCViaBDDCTakesCD()
    ensures ExploreRoute(TestCatalogue(), ToBWithin5Days(), "C", [BD, DC], CD) == []
  {
    var cat, q, path := TestCatalogue(), ToBWithin5Days(), [BD, DC];
    Codes();
    InCD();
    Departures2(BD, DC);
    Days2(BD, DC);
    ExploreRoutePruned(cat, q, "C", path, CD);
  }

  lemma ToBWithin5DaysFromCViaBDDCTakesCB()
    ensures ExploreRoute(TestCatalogue(), ToBWithin5Days(), "C", [BD, DC], CB) == []
  {
    var cat, q, path := TestCatalogue(), ToBWithin5Days(), [BD, DC];
    Codes();
    InCB();
    Departures2(BD, DC);
    Days2(BD, DC);
    ExploreRoutePruned(cat, q, "C", path, CB);
  }

  lemma ToBWithin5DaysFromCViaBDDCTakesCE()
    ensures ExploreRoute(TestCatalogue(), ToBWithin5Days(), "C", [BD, DC], CE) == []
  {
    var cat, q, path := TestCatalogue(), ToBWithin5Days(), [BD, DC];
    Codes();
    InCE();
    Departures2(BD, DC);
    Days2(BD, DC);
    ExploreRoutePruned(cat, q, "C", path, CE);
  }

  lemma ToBWithin5DaysFromCViaBDDC()
    ensures ExploreFrom(TestCatalogue(), ToBWithin5Days(), "C", [BD, DC]) == []
  {
    Codes();
    Departures2(BD, DC);
    FanOutC(ToBWithin5Days(), [BD, DC]);
    ToBWithin5DaysFromCViaBDDCTakesCD();
    ToBWithin5DaysFromCViaBDDCTakesCB();
    ToBWithin5DaysFromCViaBDDCTakesCE();
    Join000();
  }

  lemma ToBWithin5DaysFromDViaBDTakesDC()
    ensures ExploreRoute(TestCatalogue(), ToBWithin5Days(), "D", [BD], DC) == []
  {
    var cat, q, path := TestCatalogue(), ToBWithin5Days(), [BD];
    Codes();
    InDC();
    Departures1(BD);
    Days1(BD);
    ExploreRouteDescends(cat, q, "D", path, DC);
    Snoc1(BD, DC);
    ToBWithin5DaysFromCViaBDDC();
  }

  lemma ToBWithin5DaysFromDViaBDTakesDA()
    ensures ExploreRoute(TestCatalogue(), ToBWithin5Days(), "D", [BD], DA) == []
  {
    var cat, q, path := TestCatalogue(), ToBWithin5Days(), [BD];
    Codes();
    InDA();
    Departures1(BD);
    Days1(BD);
    ExploreRoutePruned(cat, q, "D", path, DA);
  }

  lemma ToBWithin5DaysFromDViaBD()
    ensures ExploreFrom(TestCatalogue(), ToBWithin5Days(), "D", [BD]) == []
  {
    Codes();
    Departures1(BD);
    FanOutD(ToBWithin5Days(), [BD]);
    ToBWithin5DaysFromDViaBDTakesDC();
    ToBWithin5DaysFromDViaBDTakesDA();
    Join00();
  }

  lemma ToBWithin5DaysFromBTakesBC()
    ensures ExploreRoute(TestCatalogue(), ToBWithin5Days(), "B", [], BC) == []
  {
    var cat, q, path: seq<ShippingRoute> := TestCatalogue(), ToBWithin5Days(), [];
    Codes();
    InBC();
    Departures0();
    Days0();
    ExploreRouteDescends(cat, q, "B", path, BC);
    Snoc0(BC);
    ToBWithin5DaysFromCViaBC();
  }

  lemma ToBWithin5DaysFromBTakesBD()
    ensures ExploreRoute(TestCatalogue(), ToBWithin5Days(), "B", [], BD) == []
  {
    var cat, q, path: seq<ShippingRoute> := TestCatalogue(), ToBWithin5Days(), [];
    Codes();
    InBD();
    Departures0();
    Days0();
    ExploreRouteDescends(cat, q, "B", path, BD);
    Snoc0(BD);
    ToBWithin5DaysFromDViaBD();
  }

  lemma ToBWithin5DaysFromB()
    ensures ExploreFrom(TestCatalogue(), ToBWithin5Days(), "B", []) == []
  {
    Codes();
    Departures0();
    FanOutB(ToBWithin5Days(), []);
    ToBWithin5DaysFromBTakesBC();
    ToBWithin5DaysFromBTakesBD();
    Join00();
  }

  lemma ToXFromXTakesXX()
    ensures ExploreRoute(TestCatalogue(), ToX(), "X", [], XX) == []
  {
    var cat, q, path: seq<ShippingRoute> := TestCatalogue(), ToX(), [];
    Codes();
    InXX();
    Departures0();
    ExploreRoutePruned(cat, q, "X", path, XX);
  }

  lemma ToXFromX()
    ensures ExploreFrom(TestCatalogue(), ToX(), "X", []) == []
  {
    Codes();
    Departures0();
    FanOutX(ToX(), []);
    ToXFromXTakesXX();
  }

  /** A to B: the single direct route. */
  lemma AToB()
    ensures IndirectJourneys(TestCatalogue(), "A", ToB()) == [[AB]]
    ensures |IndirectJourneys(TestCatalogue(), "A", ToB())| == 1
    ensures ShortestDays(IndirectJourneys(TestCatalogue(), "A", ToB())) == 1
  {
    Departures0();
    ToBFromA();
    AToBShortest();
  }

  lemma AToBShortest()
    ensures ShortestDays([[AB]]) == 1
  {
    Days1(AB);
  }

  /** A to D: via C, or directly from B. */
  lemma AToD()
    ensures IndirectJourneys(TestCatalogue(), "A", ToD()) == [[AB, BC, CD], [AB, BD]]
    ensures |IndirectJourneys(TestCatalogue(), "A", ToD())| == 2
    ensures ShortestDays(IndirectJourneys(TestCatalogue(), "A", ToD())) == 4
  {
    Departures0();
    ToDFromA();
    AToDShortest();
  }

  lemma AToDShortest()
    ensures ShortestDays([[AB, BC, CD], [AB, BD]]) == 4
  {
    Days3(AB, BC, CD);
    Days2(AB, BD);
  }

  /** A back to A: two journeys. */
  lemma AToA()
    ensures IndirectJourneys(TestCatalogue(), "A", ToA()) == [[AB, BC, CD, DA], [AB, BD, DA]]
    ensures |IndirectJourneys(TestCatalogue(), "A", ToA())| == 2
    ensures ShortestDays(IndirectJourneys(TestCatalogue(), "A", ToA())) == 7
  {
    Departures0();
    ToAFromA();
    AToAShortest();
  }

  lemma AToAShortest()
    ensures ShortestDays([[AB, BC, CD, DA], [AB, BD, DA]]) == 7
  {
    Days4(AB, BC, CD, DA);
    Days3(AB, BD, DA);
  }

  /** B back to B: four journeys, the shortest taking 6 days. */
  lemma BToB()
    ensures IndirectJourneys(TestCatalogue(), "B", ToB()) == [[BC, CD, DA, AB], [BC, CB], [BD, DC, CB], [BD, DA, AB]]
    ensures |IndirectJourneys(TestCatalogue(), "B", ToB())| == 4
    ensures ShortestDays(IndirectJourneys(TestCatalogue(), "B", ToB())) == 6
  {
    Departures0();
    ToBFromB();
    BToBShortest();
  }

  lemma BToBShortest()
    ensures ShortestDays([[BC, CD, DA, AB], [BC, CB], [BD, DC, CB], [BD, DA, AB]]) == 6
  {
    Days4(BC, CD, DA, AB);
    Days2(BC, CB);
    Days3(BD, DC, CB);
    Days3(BD, DA, AB);
  }

  /** B back to B within 3 stops: three journeys. */
  lemma BToBAtMost3Stops()
    ensures IndirectJourneys(TestCatalogue(), "B", ToBAtMost3Stops()) == [[BC, CB], [BD, DC, CB], [BD, DA, AB]]
    ensures |IndirectJourneys(TestCatalogue(), "B", ToBAtMost3Stops())| == 3
    ensures ShortestDays(IndirectJourneys(TestCatalogue(), "B", ToBAtMost3Stops())) == 6
  {
    Departures0();
    ToBAtMost3StopsFromB();
    BToBAtMost3StopsShortest();
  }

  lemma BToBAtMost3StopsShortest()
    ensures ShortestDays([[BC, CB], [BD, DC, CB], [BD, DA, AB]]) == 6
  {
    Days2(BC, CB);
    Days3(BD, DC, CB);
    Days3(BD, DA, AB);
  }

  /** B back to B in exactly 3 stops: two journeys, the shortest taking 7 days. */
  lemma BToBExactly3Stops()
    ensures IndirectJourneys(TestCatalogue(), "B", ToBExactly3Stops()) == [[BD, DC, CB], [BD, DA, AB]]
    ensures |IndirectJourneys(TestCatalogue(), "B", ToBExactly3Stops())| == 2
    ensures ShortestDays(IndirectJourneys(TestCatalogue(), "B", ToBExactly3Stops())) == 7
  {
    Departures0();
    ToBExactly3StopsFromB();
    BToBExactly3StopsShortest();
  }

  lemma BToBExactly3StopsShortest()
    ensures ShortestDays([[BD, DC, CB], [BD, DA, AB]]) == 7
  {
    Days3(BD, DC, CB);
    Days3(BD, DA, AB);
  }

  /** B back to B within 5 days: none. */
  lemma BToBWithin5Days()
    ensures IndirectJourneys(TestCatalogue(), "B", ToBWithin5Days()) == []
    ensures |IndirectJourneys(TestCatalogue(), "B", ToBWithin5Days())| == 0
  {
    Departures0();
    ToBWithin5DaysFromB();
  }

  /** X to X: its only route is a self-loop, which is never taken. */
  lemma XToX()
    ensures IndirectJourneys(TestCatalogue(), "X", ToX()) == []
    ensures |IndirectJourneys(TestCatalogue(), "X", ToX())| == 0
  {
    Departures0();
    ToXFromX();
  }

  /** Z to A: Z has no routes at all. */
  lemma ZToA()
    ensures IndirectJourneys(TestCatalogue(), "Z", ToA()) == []
    ensures |IndirectJourneys(TestCatalogue(), "Z", ToA())| == 0
  {
    Departures0();
    FanOutZ(ToA(), []);
  }

  lemma ToZFromDViaABBCCDTakesDC()
    ensures ExploreRoute(TestCatalogue(), ToZ(), "D", [AB, BC, CD], DC) == []
  {
    var cat, q, path := TestCatalogue(), ToZ(), [AB, BC, CD];
    Codes();
    InDC();
    Departures3(AB, BC, CD);
    ExploreRouteRevisits(cat, q, "D", path, DC);
  }

  lemma ToZFromDViaABBCCDTakesDA()
    ensures ExploreRoute(TestCatalogue(), ToZ(), "D", [AB, BC, CD], DA) == []
  {
    var cat, q, path := TestCatalogue(), ToZ(), [AB, BC, CD];
    Codes();
    InDA();
    Departures3(AB, BC, CD);
    ExploreRouteRevisits(cat, q, "D", path, DA);
  }

  lemma ToZFromDViaABBCCD()
    ensures ExploreFrom(TestCatalogue(), ToZ(), "D", [AB, BC, CD]) == []
  {
    Codes();
    Departures3(AB, BC, CD);
    FanOutD(ToZ(), [AB, BC, CD]);
    ToZFromDViaABBCCDTakesDC();
    ToZFromDViaABBCCDTakesDA();
    Join00();
  }

  lemma ToZFromCViaABBCTakesCD()
    ensures ExploreRoute(TestCatalogue(), ToZ(), "C", [AB, BC], CD) == []
  {
    var cat, q, path := TestCatalogue(), ToZ(), [AB, BC];
    Codes();
    InCD();
    Departures2(AB, BC);
    ExploreRouteDescends(cat, q, "C", path, CD);
    Snoc2(AB, BC, CD);
    ToZFromDViaABBCCD();
  }

  lemma ToZFromCViaABBCTakesCB()
    ensures ExploreRoute(TestCatalogue(), ToZ(), "C", [AB, BC], CB) == []
  {
    var cat, q, path := TestCatalogue(), ToZ(), [AB, BC];
    Codes();
    InCB();
    Departures2(AB, BC);
    ExploreRouteRevisits(cat, q, "C", path, CB);
  }

  lemma ToZFromCViaABBCTakesCE()
    ensures ExploreRoute(TestCatalogue(), ToZ(), "C", [AB, BC], CE) == []
  {
    var cat, q, path := TestCatalogue(), ToZ(), [AB, BC];
    Codes();
    InCE();
    Departures2(AB, BC);
    ExploreRouteDescends(cat, q, "C", path, CE);
    Snoc2(AB, BC, CE);
    FromE(q, [AB, BC, CE]);
  }

  lemma ToZFromCViaABBC()
    ensures ExploreFrom(TestCatalogue(), ToZ(), "C", [AB, BC]) == []
  {
    Codes();
    Departures2(AB, BC);
    FanOutC(ToZ(), [AB, BC]);
    ToZFromCViaABBCTakesCD();
    ToZFromCViaABBCTakesCB();
    ToZFromCViaABBCTakesCE();
    Join000();
  }

  lemma ToZFromCViaABBDDCTakesCD()
    ensures ExploreRoute(TestCatalogue(), ToZ(), "C", [AB, BD, DC], CD) == []
  {
    var cat, q, path := TestCatalogue(), ToZ(), [AB, BD, DC];
    Codes();
    InCD();
    Departures3(AB, BD, DC);
    ExploreRouteRevisits(cat, q, "C", path, CD);
  }

  lemma ToZFromCViaABBDDCTakesCB()
    ensures ExploreRoute(TestCatalogue(), ToZ(), "C", [AB, BD, DC], CB) == []
  {
    var cat, q, path := TestCatalogue(), ToZ(), [AB, BD, DC];
    Codes();
    InCB();
    Departures3(AB, BD, DC);
    ExploreRouteRevisits(cat, q, "C", path, CB);
  }

  lemma ToZFromCViaABBDDCTakesCE()
    ensures ExploreRoute(TestCatalogue(), ToZ(), "C", [AB, BD, DC], CE) == []
  {
    var cat, q, path := TestCatalogue(), ToZ(), [AB, BD, DC];
    Codes();
    InCE();
    Departures3(AB, BD, DC);
    ExploreRouteDescends(cat, q, "C", path, CE);
    Snoc3(AB, BD, DC, CE);
    FromE(q, [AB, BD, DC, CE]);
  }

  lemma ToZFromCViaABBDDC()
    ensures ExploreFrom(TestCatalogue(), ToZ(), "C", [AB, BD, DC]) == []
  {
    Codes();
    Departures3(AB, BD, DC);
    FanOutC(ToZ(), [AB, BD, DC]);
    ToZFromCViaABBDDCTakesCD();
    ToZFromCViaABBDDCTakesCB();
    ToZFromCViaABBDDCTakesCE();
    Join000();
  }

  lemma ToZFromDViaABBDTakesDC()
    ensures ExploreRoute(TestCatalogue(), ToZ(), "D", [AB, BD], DC) == []
  {
    var cat, q, path := TestCatalogue(), ToZ(), [AB, BD];
    Codes();
    InDC();
    Departures2(AB, BD);
    ExploreRouteDescends(cat, q, "D", path, DC);
    Snoc2(AB, BD, DC);
    ToZFromCViaABBDDC();
  }

  lemma ToZFromDViaABBDTakesDA()
    ensures ExploreRoute(TestCatalogue(), ToZ(), "D", [AB, BD], DA) == []
  {
    var cat, q, path := TestCatalogue(), ToZ(), [AB, BD];
    Codes();
    InDA();
    Departures2(AB, BD);
    ExploreRouteRevisits(cat, q, "D", path, DA);
  }

  lemma ToZFromDViaABBD()
    ensures ExploreFrom(TestCatalogue(), ToZ(), "D", [AB, BD]) == []
  {
    Codes();
    Departures2(AB, BD);
    FanOutD(ToZ(), [AB, BD]);
    ToZFromDViaABBDTakesDC();
    ToZFromDViaABBDTakesDA();
    Join00();
  }

  lemma ToZFromBViaABTakesBC()
    ensures ExploreRoute(TestCatalogue(), ToZ(), "B", [AB], BC) == []
  {
    var cat, q, path := TestCatalogue(), ToZ(), [AB];
    Codes();
    InBC();
    Departures1(AB);
    ExploreRouteDescends(cat, q, "B", path, BC);
    Snoc1(AB, BC);
    ToZFromCViaABBC();
  }

  lemma ToZFromBViaABTakesBD()
    ensures ExploreRoute(TestCatalogue(), ToZ(), "B", [AB], BD) == []
  {
    var cat, q, path := TestCatalogue(), ToZ(), [AB];
    Codes();
    InBD();
    Departures1(AB);
    ExploreRouteDescends(cat, q, "B", path, BD);
    Snoc1(AB, BD);
    ToZFromDViaABBD();
  }

  lemma ToZFromBViaAB()
    ensures ExploreFrom(TestCatalogue(), ToZ(), "B", [AB]) == []
  {
    Codes();
    Departures1(AB);
    FanOutB(ToZ(), [AB]);
    ToZFromBViaABTakesBC();
    ToZFromBViaABTakesBD();
    Join00();
  }

  lemma ToZFromATakesAB()
    ensures ExploreRoute(TestCatalogue(), ToZ(), "A", [], AB) == []
  {
    var cat, q, path: seq<ShippingRoute> := TestCatalogue(), ToZ(), [];
    Codes();
    InAB();
    Departures0();
    ExploreRouteDescends(cat, q, "A", path, AB);
    Snoc0(AB);
    ToZFromBViaAB();
  }

  lemma ToZFromA()
    ensures ExploreFrom(TestCatalogue(), ToZ(), "A", []) == []
  {
    Codes();
    Departures0();
    FanOutA(ToZ(), []);
    ToZFromATakesAB();
  }

  lemma ToBWithin8DaysFromAViaBCCDDATakesAB()
    ensures ExploreRoute(TestCatalogue(), ToBWithin8Days(), "A", [BC, CD, DA], AB) == [[BC, CD, DA, AB]]
  {
    var cat, q, path := TestCatalogue(), ToBWithin8Days(), [BC, CD, DA];
    Codes();
    InAB();
    Departures3(BC, CD, DA);
    Days3(BC, CD, DA);
    ExploreRouteArrives(cat, q, "A", path, AB);
    Snoc3(BC, CD, DA, AB);
  }

  lemma ToBWithin8DaysFromAViaBCCDDA()
    ensures ExploreFrom(TestCatalogue(), ToBWithin8Days(), "A", [BC, CD, DA]) == [[BC, CD, DA, AB]]
  {
    Codes();
    Departures3(BC, CD, DA);
    FanOutA(ToBWithin8Days(), [BC, CD, DA]);
    ToBWithin8DaysFromAViaBCCDDATakesAB();
  }

  lemma ToBWithin8DaysFromDViaBCCDTakesDC()
    ensures ExploreRoute(TestCatalogue(), ToBWithin8Days(), "D", [BC, CD], DC) == []
  {
    var cat, q, path := TestCatalogue(), ToBWithin8Days(), [BC, CD];
    Codes();
    InDC();
    Departures2(BC, CD);
    Days2(BC, CD);
    ExploreRouteRevisits(cat, q, "D", path, DC);
  }

  lemma ToBWithin8DaysFromDViaBCCDTakesDA()
    ensures ExploreRoute(TestCatalogue(), ToBWithin8Days(), "D", [BC, CD], DA) == [[BC, CD, DA, AB]]
  {
    var cat, q, path := TestCatalogue(), ToBWithin8Days(), [BC, CD];
    Codes();
    InDA();
    Departures2(BC, CD);
    Days2(BC, CD);
    ExploreRouteDescends(cat, q, "D", path, DA);
    Snoc2(BC, CD, DA);
    ToBWithin8DaysFromAViaBCCDDA();
  }

  lemma ToBWithin8DaysFromDViaBCCD()
    ensures ExploreFrom(TestCatalogue(), ToBWithin8Days(), "D", [BC, CD]) == [[BC, CD, DA, AB]]
  {
    Codes();
    Departures2(BC, CD);
    FanOutD(ToBWithin8Days(), [BC, CD]);
    ToBWithin8DaysFromDViaBCCDTakesDC();
    ToBWithin8DaysFromDViaBCCDTakesDA();
    Snoc0([BC, CD, DA, AB]);
  }

  lemma ToBWithin8DaysFromCViaBCTakesCD()
    ensures ExploreRoute(TestCatalogue(), ToBWithin8Days(), "C", [BC], CD) == [[BC, CD, DA, AB]]
  {
    var cat, q, path := TestCatalogue(), ToBWithin8Days(), [BC];
    Codes();
    InCD();
    Departures1(BC);
    Days1(BC);
    ExploreRouteDescends(cat, q, "C", path, CD);
    Snoc1(BC, CD);
    ToBWithin8DaysFromDViaBCCD();
  }

  lemma ToBWithin8DaysFromCViaBCTakesCB()
    ensures ExploreRoute(TestCatalogue(), ToBWithin8Days(), "C", [BC], CB) == [[BC, CB]]
  {
    var cat, q, path := TestCatalogue(), ToBWithin8Days(), [BC];
    Codes();
    InCB();
    Departures1(BC);
    Days1(BC);
    ExploreRouteArrives(cat, q, "C", path, CB);
    Snoc1(BC, CB);
  }

  lemma ToBWithin8DaysFromCViaBCTakesCE()
    ensures ExploreRoute(TestCatalogue(), ToBWithin8Days(), "C", [BC], CE) == []
  {
    var cat, q, path := TestCatalogue(), ToBWithin8Days(), [BC];
    Codes();
    InCE();
    Departures1(BC);
    Days1(BC);
    ExploreRouteDescends(cat, q, "C", path, CE);
    Snoc1(BC, CE);
    FromE(q, [BC, CE]);
  }

  lemma ToBWithin8DaysFromCViaBC()
    ensures ExploreFrom(TestCatalogue(), ToBWithin8Days(), "C", [BC]) == [[BC, CD, DA, AB], [BC, CB]]
  {
    Codes();
    Departures1(BC);
    FanOutC(ToBWithin8Days(), [BC]);
    ToBWithin8DaysFromCViaBCTakesCD();
    ToBWithin8DaysFromCViaBCTakesCB();
    ToBWithin8DaysFromCViaBCTakesCE();
    Join110([BC, CD, DA, AB], [BC, CB]);
  }

  lemma ToBWithin8DaysFromCViaBDDCTakesCD()
    ensures ExploreRoute(TestCatalogue(), ToBWithin8Days(), "C", [BD, DC], CD) == []
  {
    var cat, q, path := TestCatalogue(), ToBWithin8Days(), [BD, DC];
    Codes();
    InCD();
    Departures2(BD, DC);
    Days2(BD, DC);
    ExploreRouteRevisits(cat, q, "C", path, CD);
  }

  lemma ToBWithin8DaysFromCViaBDDCTakesCB()
    ensures ExploreRoute(TestCatalogue(), ToBWithin8Days(), "C", [BD, DC], CB) == []
  {
    var cat, q, path := TestCatalogue(), ToBWithin8Days(), [BD, DC];
    Codes();
    InCB();
    Departures2(BD, DC);
    Days2(BD, DC);
    ExploreRoutePruned(cat, q, "C", path, CB);
  }

  lemma ToBWithin8DaysFromCViaBDDCTakesCE()
    ensures ExploreRoute(TestCatalogue(), ToBWithin8Days(), "C", [BD, DC], CE) == []
  {
    var cat, q, path := TestCatalogue(), ToBWithin8Days(), [BD, DC];
    Codes();
    InCE();
    Departures2(BD, DC);
    Days2(BD, DC);
    ExploreRouteDescends(cat, q, "C", path, CE);
    Snoc2(BD, DC, CE);
    FromE(q, [BD, DC, CE]);
  }

  lemma ToBWithin8DaysFromCViaBDDC()
    ensures ExploreFrom(TestCatalogue(), ToBWithin8Days(), "C", [BD, DC]) == []
  {
    Codes();
    Departures2(BD, DC);
    FanOutC(ToBWithin8Days(), [BD, DC]);
    ToBWithin8DaysFromCViaBDDCTakesCD();
    ToBWithin8DaysFromCViaBDDCTakesCB();
    ToBWithin8DaysFromCViaBDDCTakesCE();
    Join000();
  }

  lemma ToBWithin8DaysFromAViaBDDATakesAB()
    ensures ExploreRoute(TestCatalogue(), ToBWithin8Days(), "A", [BD, DA], AB) == [[BD, DA, AB]]
  {
    var cat, q, path := TestCatalogue(), ToBWithin8Days(), [BD, DA];
    Codes();
    InAB();
    Departures2(BD, DA);
    Days2(BD, DA);
    ExploreRouteArrives(cat, q, "A", path, AB);
    Snoc2(BD, DA, AB);
  }

  lemma ToBWithin8DaysFromAViaBDDA()
    ensures ExploreFrom(TestCatalogue(), ToBWithin8Days(), "A", [BD, DA]) == [[BD, DA, AB]]
  {
    Codes();
    Departures2(BD, DA);
    FanOutA(ToBWithin8Days(), [BD, DA]);
    ToBWithin8DaysFromAViaBDDATakesAB();
  }

  lemma ToBWithin8DaysFromDViaBDTakesDC()
    ensures ExploreRoute(TestCatalogue(), ToBWithin8Days(), "D", [BD], DC) == []
  {
    var cat, q, path := TestCatalogue(), ToBWithin8Days(), [BD];
    Codes();
    InDC();
    Departures1(BD);
    Days1(BD);
    ExploreRouteDescends(cat, q, "D", path, DC);
    Snoc1(BD, DC);
    ToBWithin8DaysFromCViaBDDC();
  }

  lemma ToBWithin8DaysFromDViaBDTakesDA()
    ensures ExploreRoute(TestCatalogue(), ToBWithin8Days(), "D", [BD], DA) == [[BD, DA, AB]]
  {
    var cat, q, path := TestCatalogue(), ToBWithin8Days(), [BD];
    Codes();
    InDA();
    Departures1(BD);
    Days1(BD);
    ExploreRouteDescends(cat, q, "D", path, DA);
    Snoc1(BD, DA);
    ToBWithin8DaysFromAViaBDDA();
  }

  lemma ToBWithin8DaysFromDViaBD()
    ensures ExploreFrom(TestCatalogue(), ToBWithin8Days(), "D", [BD]) == [[BD, DA, AB]]
  {
    Codes();
    Departures1(BD);
    FanOutD(ToBWithin8Days(), [BD]);
    ToBWithin8DaysFromDViaBDTakesDC();
    ToBWithin8DaysFromDViaBDTakesDA();
    Snoc0([BD, DA, AB]);
  }

  lemma ToBWithin8DaysFromBTakesBC()
    ensures ExploreRoute(TestCatalogue(), ToBWithin8Days(), "B", [], BC) == [[BC, CD, DA, AB], [BC, CB]]
  {
    var cat, q, path: seq<ShippingRoute> := TestCatalogue(), ToBWithin8Days(), [];
    Codes();
    InBC();
    Departures0();
    Days0();
    ExploreRouteDescends(cat, q, "B", path, BC);
    Snoc0(BC);
    ToBWithin8DaysFromCViaBC();
  }

  lemma ToBWithin8DaysFromBTakesBD()
    ensures ExploreRoute(TestCatalogue(), ToBWithin8Days(), "B", [], BD) == [[BD, DA, AB]]
  {
    var cat, q, path: seq<ShippingRoute> := TestCatalogue(), ToBWithin8Days(), [];
    Codes();
    InBD();
    Departures0();
    Days0();
    ExploreRouteDescends(cat, q, "B", path, BD);
    Snoc0(BD);
    ToBWithin8DaysFromDViaBD();
  }

  lemma ToBWithin8DaysFromB()
    ensures ExploreFrom(TestCatalogue(), ToBWithin8Days(), "B", []) == [[BC, CD, DA, AB], [BC, CB], [BD, DA, AB]]
  {
    Codes();
    Departures0();
    FanOutB(ToBWithin8Days(), []);
    ToBWithin8DaysFromBTakesBC();
    ToBWithin8DaysFromBTakesBD();
    Snoc2([BC, CD, DA, AB], [BC, CB], [BD, DA, AB]);
  }

  lemma ToBWithin9DaysFromAViaBCCDDATakesAB()
    ensures ExploreRoute(TestCatalogue(), ToBWithin9Days(), "A", [BC, CD, DA], AB) == [[BC, CD, DA, AB]]
  {
    var cat, q, path := TestCatalogue(), ToBWithin9Days(), [BC, CD, DA];
    Codes();
    InAB();
    Departures3(BC, CD, DA);
    Days3(BC, CD, DA);
    ExploreRouteArrives(cat, q, "A", path, AB);
    Snoc3(BC, CD, DA, AB);
  }

  lemma ToBWithin9DaysFromAViaBCCDDA()
    ensures ExploreFrom(TestCatalogue(), ToBWithin9Days(), "A", [BC, CD, DA]) == [[BC, CD, DA, AB]]
  {
    Codes();
    Departures3(BC, CD, DA);
    FanOutA(ToBWithin9Days(), [BC, CD, DA]);
    ToBWithin9DaysFromAViaBCCDDATakesAB();
  }

  lemma ToBWithin9DaysFromDViaBCCDTakesDC()
    ensures ExploreRoute(TestCatalogue(), ToBWithin9Days(), "D", [BC, CD], DC) == []
  {
    var cat, q, path := TestCatalogue(), ToBWithin9Days(), [BC, CD];
    Codes();
    InDC();
    Departures2(BC, CD);
    Days2(BC, CD);
    ExploreRouteRevisits(cat, q, "D", path, DC);
  }

  lemma ToBWithin9DaysFromDViaBCCDTakesDA()
    ensures ExploreRoute(TestCatalogue(), ToBWithin9Days(), "D", [BC, CD], DA) == [[BC, CD, DA, AB]]
  {
    var cat, q, path := TestCatalogue(), ToBWithin9Days(), [BC, CD];
    Codes();
    InDA();
    Departures2(BC, CD);
    Days2(BC, CD);
    ExploreRouteDescends(cat, q, "D", path, DA);
    Snoc2(BC, CD, DA);
    ToBWithin9DaysFromAViaBCCDDA();
  }

  lemma ToBWithin9DaysFromDViaBCCD()
    ensures ExploreFrom(TestCatalogue(), ToBWithin9Days(), "D", [BC, CD]) == [[BC, CD, DA, AB]]
  {
    Codes();
    Departures2(BC, CD);
    FanOutD(ToBWithin9Days(), [BC, CD]);
    ToBWithin9DaysFromDViaBCCDTakesDC();
    ToBWithin9DaysFromDViaBCCDTakesDA();
    Snoc0([BC, CD, DA, AB]);
  }

  lemma ToBWithin9DaysFromCViaBCTakesCD()
    ensures ExploreRoute(TestCatalogue(), ToBWithin9Days(), "C", [BC], CD) == [[BC, CD, DA, AB]]
  {
    var cat, q, path := TestCatalogue(), ToBWithin9Days(), [BC];
    Codes();
    InCD();
    Departures1(BC);
    Days1(BC);
    ExploreRouteDescends(cat, q, "C", path, CD);
    Snoc1(BC, CD);
    ToBWithin9DaysFromDViaBCCD();
  }

  lemma ToBWithin9DaysFromCViaBCTakesCB()
    ensures ExploreRoute(TestCatalogue(), ToBWithin9Days(), "C", [BC], CB) == [[BC, CB]]
  {
    var cat, q, path := TestCatalogue(), ToBWithin9Days(), [BC];
    Codes();
    InCB();
    Departures1(BC);
    Days1(BC);
    ExploreRouteArrives(cat, q, "C", path, CB);
    Snoc1(BC, CB);
  }

  lemma ToBWithin9DaysFromCViaBCTakesCE()
    ensures ExploreRoute(TestCatalogue(), ToBWithin9Days(), "C", [BC], CE) == []
  {
    var cat, q, path := TestCatalogue(), ToBWithin9Days(), [BC];
    Codes();
    InCE();
    Departures1(BC);
    Days1(BC);
    ExploreRouteDescends(cat, q, "C", path, CE);
    Snoc1(BC, CE);
    FromE(q, [BC, CE]);
  }

  lemma ToBWithin9DaysFromCViaBC()
    ensures ExploreFrom(TestCatalogue(), ToBWithin9Days(), "C", [BC]) == [[BC, CD, DA, AB], [BC, CB]]
  {
    Codes();
    Departures1(BC);
    FanOutC(ToBWithin9Days(), [BC]);
    ToBWithin9DaysFromCViaBCTakesCD();
    ToBWithin9DaysFromCViaBCTakesCB();
    ToBWithin9DaysFromCViaBCTakesCE();
    Join110([BC, CD, DA, AB], [BC, CB]);
  }

  lemma ToBWithin9DaysFromCViaBDDCTakesCD()
    ensures ExploreRoute(TestCatalogue(), ToBWithin9Days(), "C", [BD, DC], CD) == []
  {
    var cat, q, path := TestCatalogue(), ToBWithin9Days(), [BD, DC];
    Codes();
    InCD();
    Departures2(BD, DC);
    Days2(BD, DC);
    ExploreRouteRevisits(cat, q, "C", path, CD);
  }

  lemma ToBWithin9DaysFromCViaBDDCTakesCB()
    ensures ExploreRoute(TestCatalogue(), ToBWithin9Days(), "C", [BD, DC], CB) == [[BD, DC, CB]]
  {
    var cat, q, path := TestCatalogue(), ToBWithin9Days(), [BD, DC];
    Codes();
    InCB();
    Departures2(BD, DC);
    Days2(BD, DC);
    ExploreRouteArrives(cat, q, "C", path, CB);
    Snoc2(BD, DC, CB);
  }

  lemma ToBWithin9DaysFromCViaBDDCTakesCE()
    ensures ExploreRoute(TestCatalogue(), ToBWithin9Days(), "C", [BD, DC], CE) == []
  {
    var cat, q, path := TestCatalogue(), ToBWithin9Days(), [BD, DC];
    Codes();
    InCE();
    Departures2(BD, DC);
    Days2(BD, DC);
    ExploreRouteDescends(cat, q, "C", path, CE);
    Snoc2(BD, DC, CE);
    FromE(q, [BD, DC, CE]);
  }

  lemma ToBWithin9DaysFromCViaBDDC()
    ensures ExploreFrom(TestCatalogue(), ToBWithin9Days(), "C", [BD, DC]) == [[BD, DC, CB]]
  {
    Codes();
    Departures2(BD, DC);
    FanOutC(ToBWithin9Days(), [BD, DC]);
    ToBWithin9DaysFromCViaBDDCTakesCD();
    ToBWithin9DaysFromCViaBDDCTakesCB();
    ToBWithin9DaysFromCViaBDDCTakesCE();
    Join010([BD, DC, CB]);
  }

  lemma ToBWithin9DaysFromAViaBDDATakesAB()
    ensures ExploreRoute(TestCatalogue(), ToBWithin9Days(), "A", [BD, DA], AB) == [[BD, DA, AB]]
  {
    var cat, q, path := TestCatalogue(), ToBWithin9Days(), [BD, DA];
    Codes();
    InAB();
    Departures2(BD, DA);
    Days2(BD, DA);
    ExploreRouteArrives(cat, q, "A", path, AB);
    Snoc2(BD, DA, AB);
  }

  lemma ToBWithin9DaysFromAViaBDDA()
    ensures ExploreFrom(TestCatalogue(), ToBWithin9Days(), "A", [BD, DA]) == [[BD, DA, AB]]
  {
    Codes();
    Departures2(BD, DA);
    FanOutA(ToBWithin9Days(), [BD, DA]);
    ToBWithin9DaysFromAViaBDDATakesAB();
  }

  lemma ToBWithin9DaysFromDViaBDTakesDC()
    ensures ExploreRoute(TestCatalogue(), ToBWithin9Days(), "D", [BD], DC) == [[BD, DC, CB]]
  {
    var cat, q, path := TestCatalogue(), ToBWithin9Days(), [BD];
    Codes();
    InDC();
    Departures1(BD);
    Days1(BD);
    ExploreRouteDescends(cat, q, "D", path, DC);
    Snoc1(BD, DC);
    ToBWithin9DaysFromCViaBDDC();
  }

  lemma ToBWithin9DaysFromDViaBDTakesDA()
    ensures ExploreRoute(TestCatalogue(), ToBWithin9Days(), "D", [BD], DA) == [[BD, DA, AB]]
  {
    var cat, q, path := TestCatalogue(), ToBWithin9Days(), [BD];
    Codes();
    InDA();
    Departures1(BD);
    Days1(BD);
    ExploreRouteDescends(cat, q, "D", path, DA);
    Snoc1(BD, DA);
    ToBWithin9DaysFromAViaBDDA();
  }

  lemma ToBWithin9DaysFromDViaBD()
    ensures ExploreFrom(TestCatalogue(), ToBWithin9Days(), "D", [BD]) == [[BD, DC, CB], [BD, DA, AB]]
  {
    Codes();
    Departures1(BD);
    FanOutD(ToBWithin9Days(), [BD]);
    ToBWithin9DaysFromDViaBDTakesDC();
    ToBWithin9DaysFromDViaBDTakesDA();
    Snoc1([BD, DC, CB], [BD, DA, AB]);
  }

  lemma ToBWithin9DaysFromBTakesBC()
    ensures ExploreRoute(TestCatalogue(), ToBWithin9Days(), "B", [], BC) == [[BC, CD, DA, AB], [BC, CB]]
  {
    var cat, q, path: seq<ShippingRoute> := TestCatalogue(), ToBWithin9Days(), [];
    Codes();
    InBC();
    Departures0();
    Days0();
    ExploreRouteDescends(cat, q, "B", path, BC);
    Snoc0(BC);
    ToBWithin9DaysFromCViaBC();
  }

  lemma ToBWithin9DaysFromBTakesBD()
    ensures ExploreRoute(TestCatalogue(), ToBWithin9Days(), "B", [], BD) == [[BD, DC, CB], [BD, DA, AB]]
  {
    var cat, q, path: seq<ShippingRoute> := TestCatalogue(), ToBWithin9Days(), [];
    Codes();
    InBD();
    Departures0();
    Days0();
    ExploreRouteDescends(cat, q, "B", path, BD);
    Snoc0(BD);
    ToBWithin9DaysFromDViaBD();
  }

  lemma ToBWithin9DaysFromB()
    ensures ExploreFrom(TestCatalogue(), ToBWithin9Days(), "B", []) == [[BC, CD, DA, AB], [BC, CB], [BD, DC, CB], [BD, DA, AB]]
  {
    Codes();
    Departures0();
    FanOutB(ToBWithin9Days(), []);
    ToBWithin9DaysFromBTakesBC();
    ToBWithin9DaysFromBTakesBD();
    Join22([BC, CD, DA, AB], [BC, CB], [BD, DC, CB], [BD, DA, AB]);
  }

  lemma ToBExactly3StopsWithin9DaysFromAViaBCCDDATakesAB()
    ensures ExploreRoute(TestCatalogue(), ToBExactly3StopsWithin9Days(), "A", [BC, CD, DA], AB) == []
  {
    var cat, q, path := TestCatalogue(), ToBExactly3StopsWithin9Days(), [BC, CD, DA];
    Codes();
    InAB();
    Departures3(BC, CD, DA);
    Days3(BC, CD, DA);
    ExploreRoutePruned(cat, q, "A", path, AB);
  }

  lemma ToBExactly3StopsWithin9DaysFromAViaBCCDDA()
    ensures ExploreFrom(TestCatalogue(), ToBExactly3StopsWithin9Days(), "A", [BC, CD, DA]) == []
  {
    Codes();
    Departures3(BC, CD, DA);
    FanOutA(ToBExactly3StopsWithin9Days(), [BC, CD, DA]);
    ToBExactly3StopsWithin9DaysFromAViaBCCDDATakesAB();
  }

  lemma ToBExactly3StopsWithin9DaysFromDViaBCCDTakesDC()
    ensures ExploreRoute(TestCatalogue(), ToBExactly3StopsWithin9Days(), "D", [BC, CD], DC) == []
  {
    var cat, q, path := TestCatalogue(), ToBExactly3StopsWithin9Days(), [BC, CD];
    Codes();
    InDC();
    Departures2(BC, CD);
    Days2(BC, CD);
    ExploreRouteRevisits(cat, q, "D", path, DC);
  }

  lemma ToBExactly3StopsWithin9DaysFromDViaBCCDTakesDA()
    ensures ExploreRoute(TestCatalogue(), ToBExactly3StopsWithin9Days(), "D", [BC, CD], DA) == []
  {
    var cat, q, path := TestCatalogue(), ToBExactly3StopsWithin9Days(), [BC, CD];
    Codes();
    InDA();
    Departures2(BC, CD);
    Days2(BC, CD);
    ExploreRouteDescends(cat, q, "D", path, DA);
    Snoc2(BC, CD, DA);
    ToBExactly3StopsWithin9DaysFromAViaBCCDDA();
  }

  lemma ToBExactly3StopsWithin9DaysFromDViaBCCD()
    ensures ExploreFrom(TestCatalogue(), ToBExactly3StopsWithin9Days(), "D", [BC, CD]) == []
  {
    Codes();
    Departures2(BC, CD);
    FanOutD(ToBExactly3StopsWithin9Days(), [BC, CD]);
    ToBExactly3StopsWithin9DaysFromDViaBCCDTakesDC();
    ToBExactly3StopsWithin9DaysFromDViaBCCDTakesDA();
    Join00();
  }

  lemma ToBExactly3StopsWithin9DaysFromCViaBCTakesCD()
    ensures ExploreRoute(TestCatalogue(), ToBExactly3StopsWithin9Days(), "C", [BC], CD) == []
  {
    var cat, q, path := TestCatalogue(), ToBExactly3StopsWithin9Days(), [BC];
    Codes();
    InCD();
    Departures1(BC);
    Days1(BC);
    ExploreRouteDescends(cat, q, "C", path, CD);
    Snoc1(BC, CD);
    ToBExactly3StopsWithin9DaysFromDViaBCCD();
  }

  lemma ToBExactly3StopsWithin9DaysFromCViaBCTakesCB()
    ensures ExploreRoute(TestCatalogue(), ToBExactly3StopsWithin9Days(), "C", [BC], CB) == []
  {
    var cat, q, path := TestCatalogue(), ToBExactly3StopsWithin9Days(), [BC];
    Codes();
    InCB();
    Departures1(BC);
    Days1(BC);
    ExploreRouteArrives(cat, q, "C", path, CB);
  }

  lemma ToBExactly3StopsWithin9DaysFromCViaBCTakesCE()
    ensures ExploreRoute(TestCatalogue(), ToBExactly3StopsWithin9Days(), "C", [BC], CE) == []
  {
    var cat, q, path := TestCatalogue(), ToBExactly3StopsWithin9Days(), [BC];
    Codes();
    InCE();
    Departures1(BC);
    Days1(BC);
    ExploreRouteDescends(cat, q, "C", path, CE);
    Snoc1(BC, CE);
    FromE(q, [BC, CE]);
  }

  lemma ToBExactly3StopsWithin9DaysFromCViaBC()
    ensures ExploreFrom(TestCatalogue(), ToBExactly3StopsWithin9Days(), "C", [BC]) == []
  {
    Codes();
    Departures1(BC);
    FanOutC(ToBExactly3StopsWithin9Days(), [BC]);
    ToBExactly3StopsWithin9DaysFromCViaBCTakesCD();
    ToBExactly3StopsWithin9DaysFromCViaBCTakesCB();
    ToBExactly3StopsWithin9DaysFromCViaBCTakesCE();
    Join000();
  }

  lemma ToBExactly3StopsWithin9DaysFromCViaBDDCTakesCD()
    ensures ExploreRoute(TestCatalogue(), ToBExactly3StopsWithin9Days(), "C", [BD, DC], CD) == []
  {
    var cat, q, path := TestCatalogue(), ToBExactly3StopsWithin9Days(), [BD, DC];
    Codes();
    InCD();
    Departures2(BD, DC);
    Days2(BD, DC);
    ExploreRouteRevisits(cat, q, "C", path, CD);
  }

  lemma ToBExactly3StopsWithin9DaysFromCViaBDDCTakesCB()
    ensures ExploreRoute(TestCatalogue(), ToBExactly3StopsWithin9Days(), "C", [BD, DC], CB) == [[BD, DC, CB]]
  {
    var cat, q, path := TestCatalogue(), ToBExactly3StopsWithin9Days(), [BD, DC];
    Codes();
    InCB();
    Departures2(BD, DC);
    Days2(BD, DC);
    ExploreRouteArrives(cat, q, "C", path, CB);
    Snoc2(BD, DC, CB);
  }

  lemma ToBExactly3StopsWithin9DaysFromCViaBDDCTakesCE()
    ensures ExploreRoute(TestCatalogue(), ToBExactly3StopsWithin9Days(), "C", [BD, DC], CE) == []
  {
    var cat, q, path := TestCatalogue(), ToBExactly3StopsWithin9Days(), [BD, DC];
    Codes();
    InCE();
    Departures2(BD, DC);
    Days2(BD, DC);
    ExploreRouteDescends(cat, q, "C", path, CE);
    Snoc2(BD, DC, CE);
    FromE(q, [BD, DC, CE]);
  }

  lemma ToBExactly3StopsWithin9DaysFromCViaBDDC()
    ensures ExploreFrom(TestCatalogue(), ToBExactly3StopsWithin9Days(), "C", [BD, DC]) == [[BD, DC, CB]]
  {
    Codes();
    Departures2(BD, DC);
    FanOutC(ToBExactly3StopsWithin9Days(), [BD, DC]);
    ToBExactly3StopsWithin9DaysFromCViaBDDCTakesCD();
    ToBExactly3StopsWithin9DaysFromCViaBDDCTakesCB();
    ToBExactly3StopsWithin9DaysFromCViaBDDCTakesCE();
    Join010([BD, DC, CB]);
  }

  lemma ToBExactly3StopsWithin9DaysFromAViaBDDATakesAB()
    ensures ExploreRoute(TestCatalogue(), ToBExactly3StopsWithin9Days(), "A", [BD, DA], AB) == [[BD, DA, AB]]
  {
    var cat, q, path := TestCatalogue(), ToBExactly3StopsWithin9Days(), [BD, DA];
    Codes();
    InAB();
    Departures2(BD, DA);
    Days2(BD, DA);
    ExploreRouteArrives(cat, q, "A", path, AB);
    Snoc2(BD, DA, AB);
  }

  lemma ToBExactly3StopsWithin9DaysFromAViaBDDA()
    ensures ExploreFrom(TestCatalogue(), ToBExactly3StopsWithin9Days(), "A", [BD, DA]) == [[BD, DA, AB]]
  {
    Codes();
    Departures2(BD, DA);
    FanOutA(ToBExactly3StopsWithin9Days(), [BD, DA]);
    ToBExactly3StopsWithin9DaysFromAViaBDDATakesAB();
  }

  lemma ToBExactly3StopsWithin9DaysFromDViaBDTakesDC()
    ensures ExploreRoute(TestCatalogue(), ToBExactly3StopsWithin9Days(), "D", [BD], DC) == [[BD, DC, CB]]
  {
    var cat, q, path := TestCatalogue(), ToBExactly3StopsWithin9Days(), [BD];
    Codes();
    InDC();
    Departures1(BD);
    Days1(BD);
    ExploreRouteDescends(cat, q, "D", path, DC);
    Snoc1(BD, DC);
    ToBExactly3StopsWithin9DaysFromCViaBDDC();
  }

  lemma ToBExactly3StopsWithin9DaysFromDViaBDTakesDA()
    ensures ExploreRoute(TestCatalogue(), ToBExactly3StopsWithin9Days(), "D", [BD], DA) == [[BD, DA, AB]]
  {
    var cat, q, path := TestCatalogue(), ToBExactly3StopsWithin9Days(), [BD];
    Codes();
    InDA();
    Departures1(BD);
    Days1(BD);
    ExploreRouteDescends(cat, q, "D", path, DA);
    Snoc1(BD, DA);
    ToBExactly3StopsWithin9DaysFromAViaBDDA();
  }

  lemma ToBExactly3StopsWithin9DaysFromDViaBD()
    ensures ExploreFrom(TestCatalogue(), ToBExactly3StopsWithin9Days(), "D", [BD]) == [[BD, DC, CB], [BD, DA, AB]]
  {
    Codes();
    Departures1(BD);
    FanOutD(ToBExactly3StopsWithin9Days(), [BD]);
    ToBExactly3StopsWithin9DaysFromDViaBDTakesDC();
    ToBExactly3StopsWithin9DaysFromDViaBDTakesDA();
    Snoc1([BD, DC, CB], [BD, DA, AB]);
  }

  lemma ToBExactly3StopsWithin9DaysFromBTakesBC()
    ensures ExploreRoute(TestCatalogue(), ToBExactly3StopsWithin9Days(), "B", [], BC) == []
  {
    var cat, q, path: seq<ShippingRoute> := TestCatalogue(), ToBExactly3StopsWithin9Days(), [];
    Codes();
    InBC();
    Departures0();
    Days0();
    ExploreRouteDescends(cat, q, "B", path, BC);
    Snoc0(BC);
    ToBExactly3StopsWithin9DaysFromCViaBC();
  }

  lemma ToBExactly3StopsWithin9DaysFromBTakesBD()
    ensures ExploreRoute(TestCatalogue(), ToBExactly3StopsWithin9Days(), "B", [], BD) == [[BD, DC, CB], [BD, DA, AB]]
  {
    var cat, q, path: seq<ShippingRoute> := TestCatalogue(), ToBExactly3StopsWithin9Days(), [];
    Codes();
    InBD();
    Departures0();
    Days0();
    ExploreRouteDescends(cat, q, "B", path, BD);
    Snoc0(BD);
    ToBExactly3StopsWithin9DaysFromDViaBD();
  }

  lemma ToBExactly3StopsWithin9DaysFromB()
    ensures ExploreFrom(TestCatalogue(), ToBExactly3StopsWithin9Days(), "B", []) == [[BD, DC, CB], [BD, DA, AB]]
  {
    Codes();
    Departures0();
    FanOutB(ToBExactly3StopsWithin9Days(), []);
    ToBExactly3StopsWithin9DaysFromBTakesBC();
    ToBExactly3StopsWithin9DaysFromBTakesBD();
    Join02([BD, DC, CB], [BD, DA, AB]);
  }

  /** A to Z: no route arrives at Z, so nothing is found. */
  lemma AToZ()
    ensures IndirectJourneys(TestCatalogue(), "A", ToZ()) == []
    ensures |IndirectJourneys(TestCatalogue(), "A", ToZ())| == 0
  {
    Departures0();
    ToZFromA();
  }

  /** B back to B within 8 days: three journeys. */
  lemma BToBWithin8Days()
    ensures IndirectJourneys(TestCatalogue(), "B", ToBWithin8Days()) == [[BC, CD, DA, AB], [BC, CB], [BD, DA, AB]]
    ensures |IndirectJourneys(TestCatalogue(), "B", ToBWithin8Days())| == 3
    ensures ShortestDays(IndirectJourneys(TestCatalogue(), "B", ToBWithin8Days())) == 6
  {
    Departures0();
    ToBWithin8DaysFromB();
    BToBWithin8DaysShortest();
  }

  lemma BToBWithin8DaysShortest()
    ensures ShortestDays([[BC, CD, DA, AB], [BC, CB], [BD, DA, AB]]) == 6
  {
    Days4(BC, CD, DA, AB);
    Days2(BC, CB);
    Days3(BD, DA, AB);
  }

  /** B back to B within 9 days: all four journeys. */
  lemma BToBWithin9Days()
    ensures IndirectJourneys(TestCatalogue(), "B", ToBWithin9Days()) == [[BC, CD, DA, AB], [BC, CB], [BD, DC, CB], [BD, DA, AB]]
    ensures |IndirectJourneys(TestCatalogue(), "B", ToBWithin9Days())| == 4
    ensures ShortestDays(IndirectJourneys(TestCatalogue(), "B", ToBWithin9Days())) == 6
  {
    Departures0();
    ToBWithin9DaysFromB();
    BToBShortest();
  }


  /** B back to B in exactly 3 stops within 9 days: two journeys, the shortest taking 7 days. */
  lemma BToBExactly3StopsWithin9Days()
    ensures IndirectJourneys(TestCatalogue(), "B", ToBExactly3StopsWithin9Days()) == [[BD, DC, CB], [BD, DA, AB]]
    ensures |IndirectJourneys(TestCatalogue(), "B", ToBExactly3StopsWithin9Days())| == 2
    ensures ShortestDays(IndirectJourneys(TestCatalogue(), "B", ToBExactly3StopsWithin9Days())) == 7
  {
    Departures0();
    ToBExactly3StopsWithin9DaysFromB();
    BToBExactly3StopsShortest();
  }
}
