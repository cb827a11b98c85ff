/**
 * The indirect integration scenarios over the five-port landscape: the
 * journeys each query deposits, worked out by unfolding the search one port
 * at a time, and the counts and minima the processor then reports.
 */
module LandscapeSearch {
  import opened Entities
  import opened DataAccess
  import opened Journeys
  import opened Permutations
  import opened Exploration
  import opened RouteProcessing
  import opened Unfolding
  import opened Landscape

  // Routes leaving each port of the landscape.

  lemma OutboundBa() ensures RoutesFrom(Routes(), "BA") == [BaNy, BaCb, BaCt] { Codes(); }
  lemma OutboundNy() ensures RoutesFrom(Routes(), "NY") == [NyLv] { Codes(); }
  lemma OutboundCb() ensures RoutesFrom(Routes(), "CB") == [CbLv, CbCt] { Codes(); }
  lemma OutboundCt() ensures RoutesFrom(Routes(), "CT") == [CtNy] { Codes(); }
  lemma OutboundLv() ensures RoutesFrom(Routes(), "LV") == [LvCb, LvCt] { Codes(); }

  lemma InRoutes()
    ensures BaNy in Routes() && BaCb in Routes() && BaCt in Routes()
    ensures NyLv in Routes() && LvCb in Routes() && LvCt in Routes()
    ensures CbLv in Routes() && CbCt in Routes() && CtNy in Routes()
  {
    var cat := Routes();
    assert cat[0] == BaNy && cat[1] == BaCb && cat[2] == BaCt && cat[3] == NyLv && cat[4] == LvCb;
    assert cat[5] == LvCt && cat[6] == CbLv && cat[7] == CbCt && cat[8] == CtNy;
  }

  lemma InBaNy() ensures BaNy in Routes() { assert Routes()[0] == BaNy; }
  lemma InBaCb() ensures BaCb in Routes() { assert Routes()[1] == BaCb; }
  lemma InBaCt() ensures BaCt in Routes() { assert Routes()[2] == BaCt; }
  lemma InNyLv() ensures NyLv in Routes() { assert Routes()[3] == NyLv; }
  lemma InLvCb() ensures LvCb in Routes() { assert Routes()[4] == LvCb; }
  lemma InLvCt() ensures LvCt in Routes() { assert Routes()[5] == LvCt; }
  lemma InCbLv() ensures CbLv in Routes() { assert Routes()[6] == CbLv; }
  lemma InCbCt() ensures CbCt in Routes() { assert Routes()[7] == CbCt; }
  lemma InCtNy() ensures CtNy in Routes() { assert Routes()[8] == CtNy; }

  // The fan-out at each port, for any query and any path.

  lemma FanOutBa(cat: seq<ShippingRoute>, q: Filters, path: seq<ShippingRoute>)
    requires cat == Routes()
    requires "BA" !in Departures(path)
    ensures BaNy in cat && BaCb in cat && BaCt in cat
    ensures ExploreFrom(cat, q, "BA", path) ==
            ExploreRoute(cat, q, "BA", path, BaNy) + ExploreRoute(cat, q, "BA", path, BaCb) + ExploreRoute(cat, q, "BA", path, BaCt)
  {
    InRoutes();
    OutboundBa();
    ExploreFromUnfold(cat, q, "BA", path);
    Routes3(cat, q, "BA", path, BaNy, BaCb, BaCt);
  }

  lemma FanOutNy(cat: seq<ShippingRoute>, q: Filters, path: seq<ShippingRoute>)
    requires cat == Routes()
    requires "NY" !in Departures(path)
    ensures NyLv in cat
    ensures ExploreFrom(cat, q, "NY", path) ==
            ExploreRoute(cat, q, "NY", path, NyLv)
  {
    InRoutes();
    OutboundNy();
    ExploreFromUnfold(cat, q, "NY", path);
    Routes1(cat, q, "NY", path, NyLv);
  }

  lemma FanOutCb(cat: seq<ShippingRoute>, q: Filters, path: seq<ShippingRoute>)
    requires cat == Routes()
    requires "CB" !in Departures(path)
    ensures CbLv in cat && CbCt in cat
    ensures ExploreFrom(cat, q, "CB", path) ==
            ExploreRoute(cat, q, "CB", path, CbLv) + ExploreRoute(cat, q, "CB", path, CbCt)
  {
    InRoutes();
    OutboundCb();
    ExploreFromUnfold(cat, q, "CB", path);
    Routes2(cat, q, "CB", path, CbLv, CbCt);
  }

  lemma FanOutCt(cat: seq<ShippingRoute>, q: Filters, path: seq<ShippingRoute>)
    requires cat == Routes()
    requires "CT" !in Departures(path)
    ensures CtNy in cat
    ensures ExploreFrom(cat, q, "CT", path) ==
            ExploreRoute(cat, q, "CT", path, CtNy)
  {
    InRoutes();
    OutboundCt();
    ExploreFromUnfold(cat, q, "CT", path);
    Routes1(cat, q, "CT", path, CtNy);
  }

  lemma FanOutLv(cat: seq<ShippingRoute>, q: Filters, path: seq<ShippingRoute>)
    requires cat == Routes()
    requires "LV" !in Departures(path)
    ensures LvCb in cat && LvCt in cat
    ensures ExploreFrom(cat, q, "LV", path) ==
            ExploreRoute(cat, q, "LV", path, LvCb) + ExploreRoute(cat, q, "LV", path, LvCt)
  {
    InRoutes();
    OutboundLv();
    ExploreFromUnfold(cat, q, "LV", path);
    Routes2(cat, q, "LV", path, LvCb, LvCt);
  }
  /** The query to Liverpool, no filters. */
  function ToLv(): Filters { Filters("LV", Unset, Unset, Unset) }

  /** The query to New York, no filters. */
  function ToNy(): Filters { Filters("NY", Unset, Unset, Unset) }

  /** The query to Liverpool, at most 3 stops. */
  function ToLvAtMost3Stops(): Filters { Filters("LV", Unset, 3, Unset) }

  /** The query to Liverpool, exactly 4 stops. */
  function ToLvExactly4Stops(): Filters { Filters("LV", 4, 4, Unset) }

  /** The query to Liverpool, at most 25 days. */
  function ToLvWithin25Days(): Filters { Filters("LV", Unset, Unset, 25) }

  /** The query to Liverpool, at most 18 days. */
  function ToLvWithin18Days(): Filters { Filters("LV", Unset, Unset, 18) }

  lemma ToLvFromNyViaBaNyTakesNyLv(cat: seq<ShippingRoute>)
    requires cat == Routes()
    ensures ExploreRoute(cat, ToLv(), "NY", [BaNy], NyLv) == [[BaNy, NyLv]]
  {
    var q, path := ToLv(), [BaNy];
    Codes();
    InNyLv();
    Departures1(BaNy);
    ExploreRouteArrives(cat, q, "NY", path, NyLv);
    Snoc1(BaNy, NyLv);
  }

  lemma ToLvFromNyViaBaNy(cat: seq<ShippingRoute>)
    requires cat == Routes()
    ensures ExploreFrom(cat, ToLv(), "NY", [BaNy]) == [[BaNy, NyLv]]
  {
    Codes();
    Departures1(BaNy);
    FanOutNy(cat, ToLv(), [BaNy]);
    ToLvFromNyViaBaNyTakesNyLv(cat);
  }

  lemma ToLvFromNyViaBaCbCbCtCtNyTakesNyLv(cat: seq<ShippingRoute>)
    requires cat == Routes()
    ensures ExploreRoute(cat, ToLv(), "NY", [BaCb, CbCt, CtNy], NyLv) == [[BaCb, CbCt, CtNy, NyLv]]
  {
    var q, path := ToLv(), [BaCb, CbCt, CtNy];
    Codes();
    InNyLv();
    Departures3(BaCb, CbCt, CtNy);
    ExploreRouteArrives(cat, q, "NY", path, NyLv);
    Snoc3(BaCb, CbCt, CtNy, NyLv);
  }

  lemma ToLvFromNyViaBaCbCbCtCtNy(cat: seq<ShippingRoute>)
    requires cat == Routes()
    ensures ExploreFrom(cat, ToLv(), "NY", [BaCb, CbCt, CtNy]) == [[BaCb, CbCt, CtNy, NyLv]]
  {
    Codes();
    Departures3(BaCb, CbCt, CtNy);
    FanOutNy(cat, ToLv(), [BaCb, CbCt, CtNy]);
    ToLvFromNyViaBaCbCbCtCtNyTakesNyLv(cat);
  }

  lemma ToLvFromCtViaBaCbCbCtStepsCtNy(cat: seq<ShippingRoute>)
    requires cat == Routes()
    ensures "NY" !in Departures([BaCb, CbCt, CtNy])
    ensures ExploreRoute(cat, ToLv(), "CT", [BaCb, CbCt], CtNy) == ExploreFrom(cat, ToLv(), "NY", [BaCb, CbCt, CtNy])
  {
    var q, path := ToLv(), [BaCb, CbCt];
    Codes();
    InCtNy();
    Departures2(BaCb, CbCt);
    assert "CT" !in Departures(path) && "NY" !in Departures(path);
    assert CtNy in cat && Within(q, path, CtNy);
    ExploreRouteDescends(cat, q, "CT", path, CtNy);
    Snoc2(BaCb, CbCt, CtNy);
  }

  lemma ToLvFromCtViaBaCbCbCtTakesCtNy(cat: seq<ShippingRoute>)
    requires cat == Routes()
    ensures ExploreRoute(cat, ToLv(), "CT", [BaCb, CbCt], CtNy) == [[BaCb, CbCt, CtNy, NyLv]]
  {
    ToLvFromCtViaBaCbCbCtStepsCtNy(cat);
    ToLvFromNyViaBaCbCbCtCtNy(cat);
  }

  lemma ToLvFromCtViaBaCbCbCt(cat: seq<ShippingRoute>)
    requires cat == Routes()
    ensures ExploreFrom(cat, ToLv(), "CT", [BaCb, CbCt]) == [[BaCb, CbCt, CtNy, NyLv]]
  {
    Codes();
    Departures2(BaCb, CbCt);
    FanOutCt(cat, ToLv(), [BaCb, CbCt]);
    ToLvFromCtViaBaCbCbCtTakesCtNy(cat);
  }

  lemma ToLvFromCbViaBaCbTakesCbLv(cat: seq<ShippingRoute>)
    requires cat == Routes()
    ensures ExploreRoute(cat, ToLv(), "CB", [BaCb], CbLv) == [[BaCb, CbLv]]
  {
    var q, path := ToLv(), [BaCb];
    Codes();
    InCbLv();
    Departures1(BaCb);
    ExploreRouteArrives(cat, q, "CB", path, CbLv);
    Snoc1(BaCb, CbLv);
  }

  lemma ToLvFromCbViaBaCbStepsCbCt(cat: seq<ShippingRoute>)
    requires cat == Routes()
    ensures "CT" !in Departures([BaCb, CbCt])
    ensures ExploreRoute(cat, ToLv(), "CB", [BaCb], CbCt) == ExploreFrom(cat, ToLv(), "CT", [BaCb, CbCt])
  {
    var q, path := ToLv(), [BaCb];
    Codes();
    InCbCt();
    Departures1(BaCb);
    assert "CB" !in Departures(path) && "CT" !in Departures(path);
    assert CbCt in cat && Within(q, path, CbCt);
    ExploreRouteDescends(cat, q, "CB", path, CbCt);
    Snoc1(BaCb, CbCt);
  }

  lemma ToLvFromCbViaBaCbTakesCbCt(cat: seq<ShippingRoute>)
    requires cat == Routes()
    ensures ExploreRoute(cat, ToLv(), "CB", [BaCb], CbCt) == [[BaCb, CbCt, CtNy, NyLv]]
  {
    ToLvFromCbViaBaCbStepsCbCt(cat);
    ToLvFromCtViaBaCbCbCt(cat);
  }

  lemma ToLvFromCbViaBaCb(cat: seq<ShippingRoute>)
    requires cat == Routes()
    ensures ExploreFrom(cat, ToLv(), "CB", [BaCb]) == [[BaCb, CbLv], [BaCb, CbCt, CtNy, NyLv]]
  {
    Codes();
    Departures1(BaCb);
    FanOutCb(cat, ToLv(), [BaCb]);
    ToLvFromCbViaBaCbTakesCbLv(cat);
    ToLvFromCbViaBaCbTakesCbCt(cat);
    Snoc1([BaCb, CbLv], [BaCb, CbCt, CtNy, NyLv]);
  }

  lemma ToLvFromNyViaBaCtCtNyTakesNyLv(cat: seq<ShippingRoute>)
    requires cat == Routes()
    ensures ExploreRoute(cat, ToLv(), "NY", [BaCt, CtNy], NyLv) == [[BaCt, CtNy, NyLv]]
  {
    var q, path := ToLv(), [BaCt, CtNy];
    Codes();
    InNyLv();
    Departures2(BaCt, CtNy);
    ExploreRouteArrives(cat, q, "NY", path, NyLv);
    Snoc2(BaCt, CtNy, NyLv);
  }

  lemma ToLvFromNyViaBaCtCtNy(cat: seq<ShippingRoute>)
    requires cat == Routes()
    ensures ExploreFrom(cat, ToLv(), "NY", [BaCt, CtNy]) == [[BaCt, CtNy, NyLv]]
  {
    Codes();
    Departures2(BaCt, CtNy);
    FanOutNy(cat, ToLv(), [BaCt, CtNy]);
    ToLvFromNyViaBaCtCtNyTakesNyLv(cat);
  }

  lemma ToLvFromCtViaBaCtStepsCtNy(cat: seq<ShippingRoute>)
    requires cat == Routes()
    ensures "NY" !in Departures([BaCt, CtNy])
    ensures ExploreRoute(cat, ToLv(), "CT", [BaCt], CtNy) == ExploreFrom(cat, ToLv(), "NY", [BaCt, CtNy])
  {
    var q, path := ToLv(), [BaCt];
    Codes();
    InCtNy();
    Departures1(BaCt);
    assert "CT" !in Departures(path) && "NY" !in Departures(path);
    assert CtNy in cat && Within(q, path, CtNy);
    ExploreRouteDescends(cat, q, "CT", path, CtNy);
    Snoc1(BaCt, CtNy);
  }

  lemma ToLvFromCtViaBaCtTakesCtNy(cat: seq<ShippingRoute>)
    requires cat == Routes()
    ensures ExploreRoute(cat, ToLv(), "CT", [BaCt], CtNy) == [[BaCt, CtNy, NyLv]]
  {
    ToLvFromCtViaBaCtStepsCtNy(cat);
    ToLvFromNyViaBaCtCtNy(cat);
  }

  lemma ToLvFromCtViaBaCt(cat: seq<ShippingRoute>)
    requires cat == Routes()
    ensures ExploreFrom(cat, ToLv(), "CT", [BaCt]) == [[BaCt, CtNy, NyLv]]
  {
    Codes();
    Departures1(BaCt);
    FanOutCt(cat, ToLv(), [BaCt]);
    ToLvFromCtViaBaCtTakesCtNy(cat);
  }

  lemma ToLvFromBaStepsBaNy(cat: seq<ShippingRoute>)
    requires cat == Routes()
    ensures "NY" !in Departures([BaNy])
    ensures ExploreRoute(cat, ToLv(), "BA", [], BaNy) == ExploreFrom(cat, ToLv(), "NY", [BaNy])
  {
    var q, path: seq<ShippingRoute> := ToLv(), [];
    Codes();
    InBaNy();
    Departures0();
    assert "BA" !in Departures(path) && "NY" !in Departures(path);
    assert BaNy in cat && Within(q, path, BaNy);
    ExploreRouteDescends(cat, q, "BA", path, BaNy);
    Snoc0(BaNy);
  }

  lemma ToLvFromBaTakesBaNy(cat: seq<ShippingRoute>)
    requires cat == Routes()
    ensures ExploreRoute(cat, ToLv(), "BA", [], BaNy) == [[BaNy, NyLv]]
  {
    ToLvFromBaStepsBaNy(cat);
    ToLvFromNyViaBaNy(cat);
  }

  lemma ToLvFromBaStepsBaCb(cat: seq<ShippingRoute>)
    requires cat == Routes()
    ensures "CB" !in Departures([BaCb])
    ensures ExploreRoute(cat, ToLv(), "BA", [], BaCb) == ExploreFrom(cat, ToLv(), "CB", [BaCb])
  {
    var q, path: seq<ShippingRoute> := ToLv(), [];
    Codes();
    InBaCb();
    Departures0();
    assert "BA" !in Departures(path) && "CB" !in Departures(path);
    assert BaCb in cat && Within(q, path, BaCb);
    ExploreRouteDescends(cat, q, "BA", path, BaCb);
    Snoc0(BaCb);
  }

  lemma ToLvFromBaTakesBaCb(cat: seq<ShippingRoute>)
    requires cat == Routes()
    ensures ExploreRoute(cat, ToLv(), "BA", [], BaCb) == [[BaCb, CbLv], [BaCb, CbCt, CtNy, NyLv]]
  {
    ToLvFromBaStepsBaCb(cat);
    ToLvFromCbViaBaCb(cat);
  }

  lemma ToLvFromBaStepsBaCt(cat: seq<ShippingRoute>)
    requires cat == Routes()
    ensures "CT" !in Departures([BaCt])
    ensures ExploreRoute(cat, ToLv(), "BA", [], BaCt) == ExploreFrom(cat, ToLv(), "CT", [BaCt])
  {
    var q, path: seq<ShippingRoute> := ToLv(), [];
    Codes();
    InBaCt();
    Departures0();
    assert "BA" !in Departures(path) && "CT" !in Departures(path);
    assert BaCt in cat && Within(q, path, BaCt);
    ExploreRouteDescends(cat, q, "BA", path, BaCt);
    Snoc0(BaCt);
  }

  lemma ToLvFromBaTakesBaCt(cat: seq<ShippingRoute>)
    requires cat == Routes()
    ensures ExploreRoute(cat, ToLv(), "BA", [], BaCt) == [[BaCt, CtNy, NyLv]]
  {
    ToLvFromBaStepsBaCt(cat);
    ToLvFromCtViaBaCt(cat);
  }

  lemma ToLvFromBa(cat: seq<ShippingRoute>)
    requires cat == Routes()
    ensures ExploreFrom(cat, ToLv(), "BA", []) == [[BaNy, NyLv], [BaCb, CbLv], [BaCb, CbCt, CtNy, NyLv], [BaCt, CtNy, NyLv]]
  {
    Codes();
    Departures0();
    FanOutBa(cat, ToLv(), []);
    ToLvFromBaTakesBaNy(cat);
    ToLvFromBaTakesBaCb(cat);
    ToLvFromBaTakesBaCt(cat);
    Join121([BaNy, NyLv], [BaCb, CbLv], [BaCb, CbCt, CtNy, NyLv], [BaCt, CtNy, NyLv]);
  }

  lemma ToNyFromCtViaNyLvLvCbCbCtTakesCtNy(cat: seq<ShippingRoute>)
    requires cat == Routes()
    ensures ExploreRoute(cat, ToNy(), "CT", [NyLv, LvCb, CbCt], CtNy) == [[NyLv, LvCb, CbCt, CtNy]]
  {
    var q, path := ToNy(), [NyLv, LvCb, CbCt];
    Codes();
    InCtNy();
    Departures3(NyLv, LvCb, CbCt);
    ExploreRouteArrives(cat, q, "CT", path, CtNy);
    Snoc3(NyLv, LvCb, CbCt, CtNy);
  }

  lemma ToNyFromCtViaNyLvLvCbCbCt(cat: seq<ShippingRoute>)
    requires cat == Routes()
    ensures ExploreFrom(cat, ToNy(), "CT", [NyLv, LvCb, CbCt]) == [[NyLv, LvCb, CbCt, CtNy]]
  {
    Codes();
    Departures3(NyLv, LvCb, CbCt);
    FanOutCt(cat, ToNy(), [NyLv, LvCb, CbCt]);
    ToNyFromCtViaNyLvLvCbCbCtTakesCtNy(cat);
  }

  lemma ToNyFromCbViaNyLvLvCbTakesCbLv(cat: seq<ShippingRoute>)
    requires cat == Routes()
    ensures ExploreRoute(cat, ToNy(), "CB", [NyLv, LvCb], CbLv) == []
  {
    var q, path := ToNy(), [NyLv, LvCb];
    Codes();
    InCbLv();
    Departures2(NyLv, LvCb);
    ExploreRouteRevisits(cat, q, "CB", path, CbLv);
  }

  lemma ToNyFromCbViaNyLvLvCbStepsCbCt(cat: seq<ShippingRoute>)
    requires cat == Routes()
    ensures "CT" !in Departures([NyLv, LvCb, CbCt])
    ensures ExploreRoute(cat, ToNy(), "CB", [NyLv, LvCb], CbCt) == ExploreFrom(cat, ToNy(), "CT", [NyLv, LvCb, CbCt])
  {
    var q, path := ToNy(), [NyLv, LvCb];
    Codes();
    InCbCt();
    Departures2(NyLv, LvCb);
    assert "CB" !in Departures(path) && "CT" !in Departures(path);
    assert CbCt in cat && Within(q, path, CbCt);
    ExploreRouteDescends(cat, q, "CB", path, CbCt);
    Snoc2(NyLv, LvCb, CbCt);
  }

  lemma ToNyFromCbViaNyLvLvCbTakesCbCt(cat: seq<ShippingRoute>)
    requires cat == Routes()
    ensures ExploreRoute(cat, ToNy(), "CB", [NyLv, LvCb], CbCt) == [[NyLv, LvCb, CbCt, CtNy]]
  {
    ToNyFromCbViaNyLvLvCbStepsCbCt(cat);
    ToNyFromCtViaNyLvLvCbCbCt(cat);
  }

  lemma ToNyFromCbViaNyLvLvCb(cat: seq<ShippingRoute>)
    requires cat == Routes()
    ensures ExploreFrom(cat, ToNy(), "CB", [NyLv, LvCb]) == [[NyLv, LvCb, CbCt, CtNy]]
  {
    Codes();
    Departures2(NyLv, LvCb);
    FanOutCb(cat, ToNy(), [NyLv, LvCb]);
    ToNyFromCbViaNyLvLvCbTakesCbLv(cat);
    ToNyFromCbViaNyLvLvCbTakesCbCt(cat);
    Snoc0([NyLv, LvCb, CbCt, CtNy]);
  }

  lemma ToNyFromCtViaNyLvLvCtTakesCtNy(cat: seq<ShippingRoute>)
    requires cat == Routes()
    ensures ExploreRoute(cat, ToNy(), "CT", [NyLv, LvCt], CtNy) == [[NyLv, LvCt, CtNy]]
  {
    var q, path := ToNy(), [NyLv, LvCt];
    Codes();
    InCtNy();
    Departures2(NyLv, LvCt);
    ExploreRouteArrives(cat, q, "CT", path, CtNy);
    Snoc2(NyLv, LvCt, CtNy);
  }

  lemma ToNyFromCtViaNyLvLvCt(cat: seq<ShippingRoute>)
    requires cat == Routes()
    ensures ExploreFrom(cat, ToNy(), "CT", [NyLv, LvCt]) == [[NyLv, LvCt, CtNy]]
  {
    Codes();
    Departures2(NyLv, LvCt);
    FanOutCt(cat, ToNy(), [NyLv, LvCt]);
    ToNyFromCtViaNyLvLvCtTakesCtNy(cat);
  }

  lemma ToNyFromLvViaNyLvStepsLvCb(cat: seq<ShippingRoute>)
    requires cat == Routes()
    ensures "CB" !in Departures([NyLv, LvCb])
    ensures ExploreRoute(cat, ToNy(), "LV", [NyLv], LvCb) == ExploreFrom(cat, ToNy(), "CB", [NyLv, LvCb])
  {
    var q, path := ToNy(), [NyLv];
    Codes();
    InLvCb();
    Departures1(NyLv);
    assert "LV" !in Departures(path) && "CB" !in Departures(path);
    assert LvCb in cat && Within(q, path, LvCb);
    ExploreRouteDescends(cat, q, "LV", path, LvCb);
    Snoc1(NyLv, LvCb);
  }

  lemma ToNyFromLvViaNyLvTakesLvCb(cat: seq<ShippingRoute>)
    requires cat == Routes()
    ensures ExploreRoute(cat, ToNy(), "LV", [NyLv], LvCb) == [[NyLv, LvCb, CbCt, CtNy]]
  {
    ToNyFromLvViaNyLvStepsLvCb(cat);
    ToNyFromCbViaNyLvLvCb(cat);
  }

  lemma ToNyFromLvViaNyLvStepsLvCt(cat: seq<ShippingRoute>)
    requires cat == Routes()
    ensures "CT" !in Departures([NyLv, LvCt])
    ensures ExploreRoute(cat, ToNy(), "LV", [NyLv], LvCt) == ExploreFrom(cat, ToNy(), "CT", [NyLv, LvCt])
  {
    var q, path := ToNy(), [NyLv];
    Codes();
    InLvCt();
    Departures1(NyLv);
    assert "LV" !in Departures(path) && "CT" !in Departures(path);
    assert LvCt in cat && Within(q, path, LvCt);
    ExploreRouteDescends(cat, q, "LV", path, LvCt);
    Snoc1(NyLv, LvCt);
  }

  lemma ToNyFromLvViaNyLvTakesLvCt(cat: seq<ShippingRoute>)
    requires cat == Routes()
    ensures ExploreRoute(cat, ToNy(), "LV", [NyLv], LvCt) == [[NyLv, LvCt, CtNy]]
  {
    ToNyFromLvViaNyLvStepsLvCt(cat);
    ToNyFromCtViaNyLvLvCt(cat);
  }

  lemma ToNyFromLvViaNyLv(cat: seq<ShippingRoute>)
    requires cat == Routes()
    ensures ExploreFrom(cat, ToNy(), "LV", [NyLv]) == [[NyLv, LvCb, CbCt, CtNy], [NyLv, LvCt, CtNy]]
  {
    Codes();
    Departures1(NyLv);
    FanOutLv(cat, ToNy(), [NyLv]);
    ToNyFromLvViaNyLvTakesLvCb(cat);
    ToNyFromLvViaNyLvTakesLvCt(cat);
    Snoc1([NyLv, LvCb, CbCt, CtNy], [NyLv, LvCt, CtNy]);
  }

  lemma ToNyFromNyStepsNyLv(cat: seq<ShippingRoute>)
    requires cat == Routes()
    ensures "LV" !in Departures([NyLv])
    ensures ExploreRoute(cat, ToNy(), "NY", [], NyLv) == ExploreFrom(cat, ToNy(), "LV", [NyLv])
  {
    var q, path: seq<ShippingRoute> := ToNy(), [];
    Codes();
    InNyLv();
    Departures0();
    assert "NY" !in Departures(path) && "LV" !in Departures(path);
    assert NyLv in cat && Within(q, path, NyLv);
    ExploreRouteDescends(cat, q, "NY", path, NyLv);
    Snoc0(NyLv);
  }

  lemma ToNyFromNyTakesNyLv(cat: seq<ShippingRoute>)
    requires cat == Routes()
    ensures ExploreRoute(cat, ToNy(), "NY", [], NyLv) == [[NyLv, LvCb, CbCt, CtNy], [NyLv, LvCt, CtNy]]
  {
    ToNyFromNyStepsNyLv(cat);
    ToNyFromLvViaNyLv(cat);
  }

  lemma ToNyFromNy(cat: seq<ShippingRoute>)
    requires cat == Routes()
    ensures ExploreFrom(cat, ToNy(), "NY", []) == [[NyLv, LvCb, CbCt, CtNy], [NyLv, LvCt, CtNy]]
  {
    Codes();
    Departures0();
    FanOutNy(cat, ToNy(), []);
    ToNyFromNyTakesNyLv(cat);
  }

  lemma ToLvAtMost3StopsFromNyViaLvCbCbCtCtNyTakesNyLv(cat: seq<ShippingRoute>)
    requires cat == Routes()
    ensures ExploreRoute(cat, ToLvAtMost3Stops(), "NY", [LvCb, CbCt, CtNy], NyLv) == []
  {
    var q, path := ToLvAtMost3Stops(), [LvCb, CbCt, CtNy];
    Codes();
    InNyLv();
    Departures3(LvCb, CbCt, CtNy);
    ExploreRoutePruned(cat, q, "NY", path, NyLv);
  }

  lemma ToLvAtMost3StopsFromNyViaLvCbCbCtCtNy(cat: seq<ShippingRoute>)
    requires cat == Routes()
    ensures ExploreFrom(cat, ToLvAtMost3Stops(), "NY", [LvCb, CbCt, CtNy]) == []
  {
    Codes();
    Departures3(LvCb, CbCt, CtNy);
    FanOutNy(cat, ToLvAtMost3Stops(), [LvCb, CbCt, CtNy]);
    ToLvAtMost3StopsFromNyViaLvCbCbCtCtNyTakesNyLv(cat);
  }

  lemma ToLvAtMost3StopsFromCtViaLvCbCbCtStepsCtNy(cat: seq<ShippingRoute>)
    requires cat == Routes()
    ensures "NY" !in Departures([LvCb, CbCt, CtNy])
    ensures ExploreRoute(cat, ToLvAtMost3Stops(), "CT", [LvCb, CbCt], CtNy) == ExploreFrom(cat, ToLvAtMost3Stops(), "NY", [LvCb, CbCt, CtNy])
  {
    var q, path := ToLvAtMost3Stops(), [LvCb, CbCt];
    Codes();
    InCtNy();
    Departures2(LvCb, CbCt);
    assert "CT" !in Departures(path) && "NY" !in Departures(path);
    assert CtNy in cat && Within(q, path, CtNy);
    ExploreRouteDescends(cat, q, "CT", path, CtNy);
    Snoc2(LvCb, CbCt, CtNy);
  }

  lemma ToLvAtMost3StopsFromCtViaLvCbCbCtTakesCtNy(cat: seq<ShippingRoute>)
    requires cat == Routes()
    ensures ExploreRoute(cat, ToLvAtMost3Stops(), "CT", [LvCb, CbCt], CtNy) == []
  {
    ToLvAtMost3StopsFromCtViaLvCbCbCtStepsCtNy(cat);
    ToLvAtMost3StopsFromNyViaLvCbCbCtCtNy(cat);
  }

  lemma ToLvAtMost3StopsFromCtViaLvCbCbCt(cat: seq<ShippingRoute>)
    requires cat == Routes()
    ensures ExploreFrom(cat, ToLvAtMost3Stops(), "CT", [LvCb, CbCt]) == []
  {
    Codes();
    Departures2(LvCb, CbCt);
    FanOutCt(cat, ToLvAtMost3Stops(), [LvCb, CbCt]);
    ToLvAtMost3StopsFromCtViaLvCbCbCtTakesCtNy(cat);
  }

  lemma ToLvAtMost3StopsFromCbViaLvCbTakesCbLv(cat: seq<ShippingRoute>)
    requires cat == Routes()
    ensures ExploreRoute(cat, ToLvAtMost3Stops(), "CB", [LvCb], CbLv) == [[LvCb, CbLv]]
  {
    var q, path := ToLvAtMost3Stops(), [LvCb];
    Codes();
    InCbLv();
    Departures1(LvCb);
    ExploreRouteArrives(cat, q, "CB", path, CbLv);
    Snoc1(LvCb, CbLv);
  }

  lemma ToLvAtMost3StopsFromCbViaLvCbStepsCbCt(cat: seq<ShippingRoute>)
    requires cat == Routes()
    ensures "CT" !in Departures([LvCb, CbCt])
    ensures ExploreRoute(cat, ToLvAtMost3Stops(), "CB", [LvCb], CbCt) == ExploreFrom(cat, ToLvAtMost3Stops(), "CT", [LvCb, CbCt])
  {
    var q, path := ToLvAtMost3Stops(), [LvCb];
    Codes();
    InCbCt();
    Departures1(LvCb);
    assert "CB" !in Departures(path) && "CT" !in Departures(path);
    assert CbCt in cat && Within(q, path, CbCt);
    ExploreRouteDescends(cat, q, "CB", path, CbCt);
    Snoc1(LvCb, CbCt);
  }

  lemma ToLvAtMost3StopsFromCbViaLvCbTakesCbCt(cat: seq<ShippingRoute>)
    requires cat == Routes()
    ensures ExploreRoute(cat, ToLvAtMost3Stops(), "CB", [LvCb], CbCt) == []
  {
    ToLvAtMost3StopsFromCbViaLvCbStepsCbCt(cat);
    ToLvAtMost3StopsFromCtViaLvCbCbCt(cat);
  }

  lemma ToLvAtMost3StopsFromCbViaLvCb(cat: seq<ShippingRoute>)
    requires cat == Routes()
    ensures ExploreFrom(cat, ToLvAtMost3Stops(), "CB", [LvCb]) == [[LvCb, CbLv]]
  {
    Codes();
    Departures1(LvCb);
    FanOutCb(cat, ToLvAtMost3Stops(), [LvCb]);
    ToLvAtMost3StopsFromCbViaLvCbTakesCbLv(cat);
    ToLvAtMost3StopsFromCbViaLvCbTakesCbCt(cat);
    Join10([LvCb, CbLv]);
  }

  lemma ToLvAtMost3StopsFromNyViaLvCtCtNyTakesNyLv(cat: seq<ShippingRoute>)
    requires cat == Routes()
    ensures ExploreRoute(cat, ToLvAtMost3Stops(), "NY", [LvCt, CtNy], NyLv) == [[LvCt, CtNy, NyLv]]
  {
    var q, path := ToLvAtMost3Stops(), [LvCt, CtNy];
    Codes();
    InNyLv();
    Departures2(LvCt, CtNy);
    ExploreRouteArrives(cat, q, "NY", path, NyLv);
    Snoc2(LvCt, CtNy, NyLv);
  }

  lemma ToLvAtMost3StopsFromNyViaLvCtCtNy(cat: seq<ShippingRoute>)
    requires cat == Routes()
    ensures ExploreFrom(cat, ToLvAtMost3Stops(), "NY", [LvCt, CtNy]) == [[LvCt, CtNy, NyLv]]
  {
    Codes();
    Departures2(LvCt, CtNy);
    FanOutNy(cat, ToLvAtMost3Stops(), [LvCt, CtNy]);
    ToLvAtMost3StopsFromNyViaLvCtCtNyTakesNyLv(cat);
  }

  lemma ToLvAtMost3StopsFromCtViaLvCtStepsCtNy(cat: seq<ShippingRoute>)
    requires cat == Routes()
    ensures "NY" !in Departures([LvCt, CtNy])
    ensures ExploreRoute(cat, ToLvAtMost3Stops(), "CT", [LvCt], CtNy) == ExploreFrom(cat, ToLvAtMost3Stops(), "NY", [LvCt, CtNy])
  {
    var q, path := ToLvAtMost3Stops(), [LvCt];
    Codes();
    InCtNy();
    Departures1(LvCt);
    assert "CT" !in Departures(path) && "NY" !in Departures(path);
    assert CtNy in cat && Within(q, path, CtNy);
    ExploreRouteDescends(cat, q, "CT", path, CtNy);
    Snoc1(LvCt, CtNy);
  }

  lemma ToLvAtMost3StopsFromCtViaLvCtTakesCtNy(cat: seq<ShippingRoute>)
    requires cat == Routes()
    ensures ExploreRoute(cat, ToLvAtMost3Stops(), "CT", [LvCt], CtNy) == [[LvCt, CtNy, NyLv]]
  {
    ToLvAtMost3StopsFromCtViaLvCtStepsCtNy(cat);
    ToLvAtMost3StopsFromNyViaLvCtCtNy(cat);
  }

  lemma ToLvAtMost3StopsFromCtViaLvCt(cat: seq<ShippingRoute>)
    requires cat == Routes()
    ensures ExploreFrom(cat, ToLvAtMost3Stops(), "CT", [LvCt]) == [[LvCt, CtNy, NyLv]]
  {
    Codes();
    Departures1(LvCt);
    FanOutCt(cat, ToLvAtMost3Stops(), [LvCt]);
    ToLvAtMost3StopsFromCtViaLvCtTakesCtNy(cat);
  }

  lemma ToLvAtMost3StopsFromLvStepsLvCb(cat: seq<ShippingRoute>)
    requires cat == Routes()
    ensures "CB" !in Departures([LvCb])
    ensures ExploreRoute(cat, ToLvAtMost3Stops(), "LV", [], LvCb) == ExploreFrom(cat, ToLvAtMost3Stops(), "CB", [LvCb])
  {
    var q, path: seq<ShippingRoute> := ToLvAtMost3Stops(), [];
    Codes();
    InLvCb();
    Departures0();
    assert "LV" !in Departures(path) && "CB" !in Departures(path);
    assert LvCb in cat && Within(q, path, LvCb);
    ExploreRouteDescends(cat, q, "LV", path, LvCb);
    Snoc0(LvCb);
  }

  lemma ToLvAtMost3StopsFromLvTakesLvCb(cat: seq<ShippingRoute>)
    requires cat == Routes()
    ensures ExploreRoute(cat, ToLvAtMost3Stops(), "LV", [], LvCb) == [[LvCb, CbLv]]
  {
    ToLvAtMost3StopsFromLvStepsLvCb(cat);
    ToLvAtMost3StopsFromCbViaLvCb(cat);
  }

  lemma ToLvAtMost3StopsFromLvStepsLvCt(cat: seq<ShippingRoute>)
    requires cat == Routes()
    ensures "CT" !in Departures([LvCt])
    ensures ExploreRoute(cat, ToLvAtMost3Stops(), "LV", [], LvCt) == ExploreFrom(cat, ToLvAtMost3Stops(), "CT", [LvCt])
  {
    var q, path: seq<ShippingRoute> := ToLvAtMost3Stops(), [];
    Codes();
    InLvCt();
    Departures0();
    assert "LV" !in Departures(path) && "CT" !in Departures(path);
    assert LvCt in cat && Within(q, path, LvCt);
    ExploreRouteDescends(cat, q, "LV", path, LvCt);
    Snoc0(LvCt);
  }

  lemma ToLvAtMost3StopsFromLvTakesLvCt(cat: seq<ShippingRoute>)
    requires cat == Routes()
    ensures ExploreRoute(cat, ToLvAtMost3Stops(), "LV", [], LvCt) == [[LvCt, CtNy, NyLv]]
  {
    ToLvAtMost3StopsFromLvStepsLvCt(cat);
    ToLvAtMost3StopsFromCtViaLvCt(cat);
  }

  lemma ToLvAtMost3StopsFromLv(cat: seq<ShippingRoute>)
    requires cat == Routes()
    ensures ExploreFrom(cat, ToLvAtMost3Stops(), "LV", []) == [[LvCb, CbLv], [LvCt, CtNy, NyLv]]
  {
    Codes();
    Departures0();
    FanOutLv(cat, ToLvAtMost3Stops(), []);
    ToLvAtMost3StopsFromLvTakesLvCb(cat);
    ToLvAtMost3StopsFromLvTakesLvCt(cat);
    Snoc1([LvCb, CbLv], [LvCt, CtNy, NyLv]);
  }

  lemma ToLvExactly4StopsFromNyViaBaNyTakesNyLv(cat: seq<ShippingRoute>)
    requires cat == Routes()
    ensures ExploreRoute(cat, ToLvExactly4Stops(), "NY", [BaNy], NyLv) == []
  {
    var q, path := ToLvExactly4Stops(), [BaNy];
    Codes();
    InNyLv();
    Departures1(BaNy);
    ExploreRouteArrives(cat, q, "NY", path, NyLv);
  }

  lemma ToLvExactly4StopsFromNyViaBaNy(cat: seq<ShippingRoute>)
    requires cat == Routes()
    ensures ExploreFrom(cat, ToLvExactly4Stops(), "NY", [BaNy]) == []
  {
    Codes();
    Departures1(BaNy);
    FanOutNy(cat, ToLvExactly4Stops(), [BaNy]);
    ToLvExactly4StopsFromNyViaBaNyTakesNyLv(cat);
  }

  lemma ToLvExactly4StopsFromNyViaBaCbCbCtCtNyTakesNyLv(cat: seq<ShippingRoute>)
    requires cat == Routes()
    ensures ExploreRoute(cat, ToLvExactly4Stops(), "NY", [BaCb, CbCt, CtNy], NyLv) == [[BaCb, CbCt, CtNy, NyLv]]
  {
    var q, path := ToLvExactly4Stops(), [BaCb, CbCt, CtNy];
    Codes();
    InNyLv();
    Departures3(BaCb, CbCt, CtNy);
    ExploreRouteArrives(cat, q, "NY", path, NyLv);
    Snoc3(BaCb, CbCt, CtNy, NyLv);
  }

  lemma ToLvExactly4StopsFromNyViaBaCbCbCtCtNy(cat: seq<ShippingRoute>)
    requires cat == Routes()
    ensures ExploreFrom(cat, ToLvExactly4Stops(), "NY", [BaCb, CbCt, CtNy]) == [[BaCb, CbCt, CtNy, NyLv]]
  {
    Codes();
    Departures3(BaCb, CbCt, CtNy);
    FanOutNy(cat, ToLvExactly4Stops(), [BaCb, CbCt, CtNy]);
    ToLvExactly4StopsFromNyViaBaCbCbCtCtNyTakesNyLv(cat);
  }

  lemma ToLvExactly4StopsFromCtViaBaCbCbCtStepsCtNy(cat: seq<ShippingRoute>)
    requires cat == Routes()
    ensures "NY" !in Departures([BaCb, CbCt, CtNy])
    ensures ExploreRoute(cat, ToLvExactly4Stops(), "CT", [BaCb, CbCt], CtNy) == ExploreFrom(cat, ToLvExactly4Stops(), "NY", [BaCb, CbCt, CtNy])
  {
    var q, path := ToLvExactly4Stops(), [BaCb, CbCt];
    Codes();
    InCtNy();
    Departures2(BaCb, CbCt);
    assert "CT" !in Departures(path) && "NY" !in Departures(path);
    assert CtNy in cat && Within(q, path, CtNy);
    ExploreRouteDescends(cat, q, "CT", path, CtNy);
    Snoc2(BaCb, CbCt, CtNy);
  }

  lemma ToLvExactly4StopsFromCtViaBaCbCbCtTakesCtNy(cat: seq<ShippingRoute>)
    requires cat == Routes()
    ensures ExploreRoute(cat, ToLvExactly4Stops(), "CT", [BaCb, CbCt], CtNy) == [[BaCb, CbCt, CtNy, NyLv]]
  {
    ToLvExactly4StopsFromCtViaBaCbCbCtStepsCtNy(cat);
    ToLvExactly4StopsFromNyViaBaCbCbCtCtNy(cat);
  }

  lemma ToLvExactly4StopsFromCtViaBaCbCbCt(cat: seq<ShippingRoute>)
    requires cat == Routes()
    ensures ExploreFrom(cat, ToLvExactly4Stops(), "CT", [BaCb, CbCt]) == [[BaCb, CbCt, CtNy, NyLv]]
  {
    Codes();
    Departures2(BaCb, CbCt);
    FanOutCt(cat, ToLvExactly4Stops(), [BaCb, CbCt]);
    ToLvExactly4StopsFromCtViaBaCbCbCtTakesCtNy(cat);
  }

  lemma ToLvExactly4StopsFromCbViaBaCbTakesCbLv(cat: seq<ShippingRoute>)
    requires cat == Routes()
    ensures ExploreRoute(cat, ToLvExactly4Stops(), "CB", [BaCb], CbLv) == []
  {
    var q, path := ToLvExactly4Stops(), [BaCb];
    Codes();
    InCbLv();
    Departures1(BaCb);
    ExploreRouteArrives(cat, q, "CB", path, CbLv);
  }

  lemma ToLvExactly4StopsFromCbViaBaCbStepsCbCt(cat: seq<ShippingRoute>)
    requires cat == Routes()
    ensures "CT" !in Departures([BaCb, CbCt])
    ensures ExploreRoute(cat, ToLvExactly4Stops(), "CB", [BaCb], CbCt) == ExploreFrom(cat, ToLvExactly4Stops(), "CT", [BaCb, CbCt])
  {
    var q, path := ToLvExactly4Stops(), [BaCb];
    Codes();
    InCbCt();
    Departures1(BaCb);
    assert "CB" !in Departures(path) && "CT" !in Departures(path);
    assert CbCt in cat && Within(q, path, CbCt);
    ExploreRouteDescends(cat, q, "CB", path, CbCt);
    Snoc1(BaCb, CbCt);
  }

  lemma ToLvExactly4StopsFromCbViaBaCbTakesCbCt(cat: seq<ShippingRoute>)
    requires cat == Routes()
    ensures ExploreRoute(cat, ToLvExactly4Stops(), "CB", [BaCb], CbCt) == [[BaCb, CbCt, CtNy, NyLv]]
  {
    ToLvExactly4StopsFromCbViaBaCbStepsCbCt(cat);
    ToLvExactly4StopsFromCtViaBaCbCbCt(cat);
  }

  lemma ToLvExactly4StopsFromCbViaBaCb(cat: seq<ShippingRoute>)
    requires cat == Routes()
    ensures ExploreFrom(cat, ToLvExactly4Stops(), "CB", [BaCb]) == [[BaCb, CbCt, CtNy, NyLv]]
  {
    Codes();
    Departures1(BaCb);
    FanOutCb(cat, ToLvExactly4Stops(), [BaCb]);
    ToLvExactly4StopsFromCbViaBaCbTakesCbLv(cat);
    ToLvExactly4StopsFromCbViaBaCbTakesCbCt(cat);
    Snoc0([BaCb, CbCt, CtNy, NyLv]);
  }

  lemma ToLvExactly4StopsFromNyViaBaCtCtNyTakesNyLv(cat: seq<ShippingRoute>)
    requires cat == Routes()
    ensures ExploreRoute(cat, ToLvExactly4Stops(), "NY", [BaCt, CtNy], NyLv) == []
  {
    var q, path := ToLvExactly4Stops(), [BaCt, CtNy];
    Codes();
    InNyLv();
    Departures2(BaCt, CtNy);
    ExploreRouteArrives(cat, q, "NY", path, NyLv);
  }

  lemma ToLvExactly4StopsFromNyViaBaCtCtNy(cat: seq<ShippingRoute>)
    requires cat == Routes()
    ensures ExploreFrom(cat, ToLvExactly4Stops(), "NY", [BaCt, CtNy]) == []
  {
    Codes();
    Departures2(BaCt, CtNy);
    FanOutNy(cat, ToLvExactly4Stops(), [BaCt, CtNy]);
    ToLvExactly4StopsFromNyViaBaCtCtNyTakesNyLv(cat);
  }

  lemma ToLvExactly4StopsFromCtViaBaCtStepsCtNy(cat: seq<ShippingRoute>)
    requires cat == Routes()
    ensures "NY" !in Departures([BaCt, CtNy])
    ensures ExploreRoute(cat, ToLvExactly4Stops(), "CT", [BaCt], CtNy) == ExploreFrom(cat, ToLvExactly4Stops(), "NY", [BaCt, CtNy])
  {
    var q, path := ToLvExactly4Stops(), [BaCt];
    Codes();
    InCtNy();
    Departures1(BaCt);
    assert "CT" !in Departures(path) && "NY" !in Departures(path);
    assert CtNy in cat && Within(q, path, CtNy);
    ExploreRouteDescends(cat, q, "CT", path, CtNy);
    Snoc1(BaCt, CtNy);
  }

  lemma ToLvExactly4StopsFromCtViaBaCtTakesCtNy(cat: seq<ShippingRoute>)
    requires cat == Routes()
    ensures ExploreRoute(cat, ToLvExactly4Stops(), "CT", [BaCt], CtNy) == []
  {
    ToLvExactly4StopsFromCtViaBaCtStepsCtNy(cat);
    ToLvExactly4StopsFromNyViaBaCtCtNy(cat);
  }

  lemma ToLvExactly4StopsFromCtViaBaCt(cat: seq<ShippingRoute>)
    requires cat == Routes()
    ensures ExploreFrom(cat, ToLvExactly4Stops(), "CT", [BaCt]) == []
  {
    Codes();
    Departures1(BaCt);
    FanOutCt(cat, ToLvExactly4Stops(), [BaCt]);
    ToLvExactly4StopsFromCtViaBaCtTakesCtNy(cat);
  }

  lemma ToLvExactly4StopsFromBaStepsBaNy(cat: seq<ShippingRoute>)
    requires cat == Routes()
    ensures "NY" !in Departures([BaNy])
    ensures ExploreRoute(cat, ToLvExactly4Stops(), "BA", [], BaNy) == ExploreFrom(cat, ToLvExactly4Stops(), "NY", [BaNy])
  {
    var q, path: seq<ShippingRoute> := ToLvExactly4Stops(), [];
    Codes();
    InBaNy();
    Departures0();
    assert "BA" !in Departures(path) && "NY" !in Departures(path);
    assert BaNy in cat && Within(q, path, BaNy);
    ExploreRouteDescends(cat, q, "BA", path, BaNy);
    Snoc0(BaNy);
  }

  lemma ToLvExactly4StopsFromBaTakesBaNy(cat: seq<ShippingRoute>)
    requires cat == Routes()
    ensures ExploreRoute(cat, ToLvExactly4Stops(), "BA", [], BaNy) == []
  {
    ToLvExactly4StopsFromBaStepsBaNy(cat);
    ToLvExactly4StopsFromNyViaBaNy(cat);
  }

  lemma ToLvExactly4StopsFromBaStepsBaCb(cat: seq<ShippingRoute>)
    requires cat == Routes()
    ensures "CB" !in Departures([BaCb])
    ensures ExploreRoute(cat, ToLvExactly4Stops(), "BA", [], BaCb) == ExploreFrom(cat, ToLvExactly4Stops(), "CB", [BaCb])
  {
    var q, path: seq<ShippingRoute> := ToLvExactly4Stops(), [];
    Codes();
    InBaCb();
    Departures0();
    assert "BA" !in Departures(path) && "CB" !in Departures(path);
    assert BaCb in cat && Within(q, path, BaCb);
    ExploreRouteDescends(cat, q, "BA", path, BaCb);
    Snoc0(BaCb);
  }

  lemma ToLvExactly4StopsFromBaTakesBaCb(cat: seq<ShippingRoute>)
    requires cat == Routes()
    ensures ExploreRoute(cat, ToLvExactly4Stops(), "BA", [], BaCb) == [[BaCb, CbCt, CtNy, NyLv]]
  {
    ToLvExactly4StopsFromBaStepsBaCb(cat);
    ToLvExactly4StopsFromCbViaBaCb(cat);
  }

  lemma ToLvExactly4StopsFromBaStepsBaCt(cat: seq<ShippingRoute>)
    requires cat == Routes()
    ensures "CT" !in Departures([BaCt])
    ensures ExploreRoute(cat, ToLvExactly4Stops(), "BA", [], BaCt) == ExploreFrom(cat, ToLvExactly4Stops(), "CT", [BaCt])
  {
    var q, path: seq<ShippingRoute> := ToLvExactly4Stops(), [];
    Codes();
    InBaCt();
    Departures0();
    assert "BA" !in Departures(path) && "CT" !in Departures(path);
    assert BaCt in cat && Within(q, path, BaCt);
    ExploreRouteDescends(cat, q, "BA", path, BaCt);
    Snoc0(BaCt);
  }

  lemma ToLvExactly4StopsFromBaTakesBaCt(cat: seq<ShippingRoute>)
    requires cat == Routes()
    ensures ExploreRoute(cat, ToLvExactly4Stops(), "BA", [], BaCt) == []
  {
    ToLvExactly4StopsFromBaStepsBaCt(cat);
    ToLvExactly4StopsFromCtViaBaCt(cat);
  }

  lemma ToLvExactly4StopsFromBa(cat: seq<ShippingRoute>)
    requires cat == Routes()
    ensures ExploreFrom(cat, ToLvExactly4Stops(), "BA", []) == [[BaCb, CbCt, CtNy, NyLv]]
  {
    Codes();
    Departures0();
    FanOutBa(cat, ToLvExactly4Stops(), []);
    ToLvExactly4StopsFromBaTakesBaNy(cat);
    ToLvExactly4StopsFromBaTakesBaCb(cat);
    ToLvExactly4StopsFromBaTakesBaCt(cat);
    Join010([BaCb, CbCt, CtNy, NyLv]);
  }

  lemma ToLvWithin25DaysFromNyViaLvCbCbCtCtNyTakesNyLv(cat: seq<ShippingRoute>)
    requires cat == Routes()
    ensures ExploreRoute(cat, ToLvWithin25Days(), "NY", [LvCb, CbCt, CtNy], NyLv) == [[LvCb, CbCt, CtNy, NyLv]]
  {
    var q, path := ToLvWithin25Days(), [LvCb, CbCt, CtNy];
    Codes();
    InNyLv();
    Departures3(LvCb, CbCt, CtNy);
    Days3(LvCb, CbCt, CtNy);
    ExploreRouteArrives(cat, q, "NY", path, NyLv);
    Snoc3(LvCb, CbCt, CtNy, NyLv);
  }

  lemma ToLvWithin25DaysFromNyViaLvCbCbCtCtNy(cat: seq<ShippingRoute>)
    requires cat == Routes()
    ensures ExploreFrom(cat, ToLvWithin25Days(), "NY", [LvCb, CbCt, CtNy]) == [[LvCb, CbCt, CtNy, NyLv]]
  {
    Codes();
    Departures3(LvCb, CbCt, CtNy);
    FanOutNy(cat, ToLvWithin25Days(), [LvCb, CbCt, CtNy]);
    ToLvWithin25DaysFromNyViaLvCbCbCtCtNyTakesNyLv(cat);
  }

  lemma ToLvWithin25DaysFromCtViaLvCbCbCtStepsCtNy(cat: seq<ShippingRoute>)
    requires cat == Routes()
    ensures "NY" !in Departures([LvCb, CbCt, CtNy])
    ensures ExploreRoute(cat, ToLvWithin25Days(), "CT", [LvCb, CbCt], CtNy) == ExploreFrom(cat, ToLvWithin25Days(), "NY", [LvCb, CbCt, CtNy])
  {
    var q, path := ToLvWithin25Days(), [LvCb, CbCt];
    Codes();
    InCtNy();
    Departures2(LvCb, CbCt);
    Days2(LvCb, CbCt);
    assert "CT" !in Departures(path) && "NY" !in Departures(path);
    assert CtNy in cat && Within(q, path, CtNy);
    ExploreRouteDescends(cat, q, "CT", path, CtNy);
    Snoc2(LvCb, CbCt, CtNy);
  }

  lemma ToLvWithin25DaysFromCtViaLvCbCbCtTakesCtNy(cat: seq<ShippingRoute>)
    requires cat == Routes()
    ensures ExploreRoute(cat, ToLvWithin25Days(), "CT", [LvCb, CbCt], CtNy) == [[LvCb, CbCt, CtNy, NyLv]]
  {
    ToLvWithin25DaysFromCtViaLvCbCbCtStepsCtNy(cat);
    ToLvWithin25DaysFromNyViaLvCbCbCtCtNy(cat);
  }

  lemma ToLvWithin25DaysFromCtViaLvCbCbCt(cat: seq<ShippingRoute>)
    requires cat == Routes()
    ensures ExploreFrom(cat, ToLvWithin25Days(), "CT", [LvCb, CbCt]) == [[LvCb, CbCt, CtNy, NyLv]]
  {
    Codes();
    Departures2(LvCb, CbCt);
    FanOutCt(cat, ToLvWithin25Days(), [LvCb, CbCt]);
    ToLvWithin25DaysFromCtViaLvCbCbCtTakesCtNy(cat);
  }

  lemma ToLvWithin25DaysFromCbViaLvCbTakesCbLv(cat: seq<ShippingRoute>)
    requires cat == Routes()
    ensures ExploreRoute(cat, ToLvWithin25Days(), "CB", [LvCb], CbLv) == [[LvCb, CbLv]]
  {
    var q, path := ToLvWithin25Days(), [LvCb];
    Codes();
    InCbLv();
    Departures1(LvCb);
    Days1(LvCb);
    ExploreRouteArrives(cat, q, "CB", path, CbLv);
    Snoc1(LvCb, CbLv);
  }

  lemma ToLvWithin25DaysFromCbViaLvCbStepsCbCt(cat: seq<ShippingRoute>)
    requires cat == Routes()
    ensures "CT" !in Departures([LvCb, CbCt])
    ensures ExploreRoute(cat, ToLvWithin25Days(), "CB", [LvCb], CbCt) == ExploreFrom(cat, ToLvWithin25Days(), "CT", [LvCb, CbCt])
  {
    var q, path := ToLvWithin25Days(), [LvCb];
    Codes();
    InCbCt();
    Departures1(LvCb);
    Days1(LvCb);
    assert "CB" !in Departures(path) && "CT" !in Departures(path);
    assert CbCt in cat && Within(q, path, CbCt);
    ExploreRouteDescends(cat, q, "CB", path, CbCt);
    Snoc1(LvCb, CbCt);
  }

  lemma ToLvWithin25DaysFromCbViaLvCbTakesCbCt(cat: seq<ShippingRoute>)
    requires cat == Routes()
    ensures ExploreRoute(cat, ToLvWithin25Days(), "CB", [LvCb], CbCt) == [[LvCb, CbCt, CtNy, NyLv]]
  {
    ToLvWithin25DaysFromCbViaLvCbStepsCbCt(cat);
    ToLvWithin25DaysFromCtViaLvCbCbCt(cat);
  }

  lemma ToLvWithin25DaysFromCbViaLvCb(cat: seq<ShippingRoute>)
    requires cat == Routes()
    ensures ExploreFrom(cat, ToLvWithin25Days(), "CB", [LvCb]) == [[LvCb, CbLv], [LvCb, CbCt, CtNy, NyLv]]
  {
    Codes();
    Departures1(LvCb);
    FanOutCb(cat, ToLvWithin25Days(), [LvCb]);
    ToLvWithin25DaysFromCbViaLvCbTakesCbLv(cat);
    ToLvWithin25DaysFromCbViaLvCbTakesCbCt(cat);
    Snoc1([LvCb, CbLv], [LvCb, CbCt, CtNy, NyLv]);
  }

  lemma ToLvWithin25DaysFromNyViaLvCtCtNyTakesNyLv(cat: seq<ShippingRoute>)
    requires cat == Routes()
    ensures ExploreRoute(cat, ToLvWithin25Days(), "NY", [LvCt, CtNy], NyLv) == [[LvCt, CtNy, NyLv]]
  {
    var q, path := ToLvWithin25Days(), [LvCt, CtNy];
    Codes();
    InNyLv();
    Departures2(LvCt, CtNy);
    Days2(LvCt, CtNy);
    ExploreRouteArrives(cat, q, "NY", path, NyLv);
    Snoc2(LvCt, CtNy, NyLv);
  }

  lemma ToLvWithin25DaysFromNyViaLvCtCtNy(cat: seq<ShippingRoute>)
    requires cat == Routes()
    ensures ExploreFrom(cat, ToLvWithin25Days(), "NY", [LvCt, CtNy]) == [[LvCt, CtNy, NyLv]]
  {
    Codes();
    Departures2(LvCt, CtNy);
    FanOutNy(cat, ToLvWithin25Days(), [LvCt, CtNy]);
    ToLvWithin25DaysFromNyViaLvCtCtNyTakesNyLv(cat);
  }

  lemma ToLvWithin25DaysFromCtViaLvCtStepsCtNy(cat: seq<ShippingRoute>)
    requires cat == Routes()
    ensures "NY" !in Departures([LvCt, CtNy])
    ensures ExploreRoute(cat, ToLvWithin25Days(), "CT", [LvCt], CtNy) == ExploreFrom(cat, ToLvWithin25Days(), "NY", [LvCt, CtNy])
  {
    var q, path := ToLvWithin25Days(), [LvCt];
    Codes();
    InCtNy();
    Departures1(LvCt);
    Days1(LvCt);
    assert "CT" !in Departures(path) && "NY" !in Departures(path);
    assert CtNy in cat && Within(q, path, CtNy);
    ExploreRouteDescends(cat, q, "CT", path, CtNy);
    Snoc1(LvCt, CtNy);
  }

  lemma ToLvWithin25DaysFromCtViaLvCtTakesCtNy(cat: seq<ShippingRoute>)
    requires cat == Routes()
    ensures ExploreRoute(cat, ToLvWithin25Days(), "CT", [LvCt], CtNy) == [[LvCt, CtNy, NyLv]]
  {
    ToLvWithin25DaysFromCtViaLvCtStepsCtNy(cat);
    ToLvWithin25DaysFromNyViaLvCtCtNy(cat);
  }

  lemma ToLvWithin25DaysFromCtViaLvCt(cat: seq<ShippingRoute>)
    requires cat == Routes()
    ensures ExploreFrom(cat, ToLvWithin25Days(), "CT", [LvCt]) == [[LvCt, CtNy, NyLv]]
  {
    Codes();
    Departures1(LvCt);
    FanOutCt(cat, ToLvWithin25Days(), [LvCt]);
    ToLvWithin25DaysFromCtViaLvCtTakesCtNy(cat);
  }

  lemma ToLvWithin25DaysFromLvStepsLvCb(cat: seq<ShippingRoute>)
    requires cat == Routes()
    ensures "CB" !in Departures([LvCb])
    ensures ExploreRoute(cat, ToLvWithin25Days(), "LV", [], LvCb) == ExploreFrom(cat, ToLvWithin25Days(), "CB", [LvCb])
  {
    var q, path: seq<ShippingRoute> := ToLvWithin25Days(), [];
    Codes();
    InLvCb();
    Departures0();
    Days0();
    assert "LV" !in Departures(path) && "CB" !in Departures(path);
    assert LvCb in cat && Within(q, path, LvCb);
    ExploreRouteDescends(cat, q, "LV", path, LvCb);
    Snoc0(LvCb);
  }

  lemma ToLvWithin25DaysFromLvTakesLvCb(cat: seq<ShippingRoute>)
    requires cat == Routes()
    ensures ExploreRoute(cat, ToLvWithin25Days(), "LV", [], LvCb) == [[LvCb, CbLv], [LvCb, CbCt, CtNy, NyLv]]
  {
    ToLvWithin25DaysFromLvStepsLvCb(cat);
    ToLvWithin25DaysFromCbViaLvCb(cat);
  }

  lemma ToLvWithin25DaysFromLvStepsLvCt(cat: seq<ShippingRoute>)
    requires cat == Routes()
    ensures "CT" !in Departures([LvCt])
    ensures ExploreRoute(cat, ToLvWithin25Days(), "LV", [], LvCt) == ExploreFrom(cat, ToLvWithin25Days(), "CT", [LvCt])
  {
    var q, path: seq<ShippingRoute> := ToLvWithin25Days(), [];
    Codes();
    InLvCt();
    Departures0();
    Days0();
    assert "LV" !in Departures(path) && "CT" !in Departures(path);
    assert LvCt in cat && Within(q, path, LvCt);
    ExploreRouteDescends(cat, q, "LV", path, LvCt);
    Snoc0(LvCt);
  }

  lemma ToLvWithin25DaysFromLvTakesLvCt(cat: seq<ShippingRoute>)
    requires cat == Routes()
    ensures ExploreRoute(cat, ToLvWithin25Days(), "LV", [], LvCt) == [[LvCt, CtNy, NyLv]]
  {
    ToLvWithin25DaysFromLvStepsLvCt(cat);
    ToLvWithin25DaysFromCtViaLvCt(cat);
  }

  lemma ToLvWithin25DaysFromLv(cat: seq<ShippingRoute>)
    requires cat == Routes()
    ensures ExploreFrom(cat, ToLvWithin25Days(), "LV", []) == [[LvCb, CbLv], [LvCb, CbCt, CtNy, NyLv], [LvCt, CtNy, NyLv]]
  {
    Codes();
    Departures0();
    FanOutLv(cat, ToLvWithin25Days(), []);
    ToLvWithin25DaysFromLvTakesLvCb(cat);
    ToLvWithin25DaysFromLvTakesLvCt(cat);
    Snoc2([LvCb, CbLv], [LvCb, CbCt, CtNy, NyLv], [LvCt, CtNy, NyLv]);
  }

  lemma ToLvWithin18DaysFromNyViaLvCbCbCtCtNyTakesNyLv(cat: seq<ShippingRoute>)
    requires cat == Routes()
    ensures ExploreRoute(cat, ToLvWithin18Days(), "NY", [LvCb, CbCt, CtNy], NyLv) == []
  {
    var q, path := ToLvWithin18Days(), [LvCb, CbCt, CtNy];
    Codes();
    InNyLv();
    Departures3(LvCb, CbCt, CtNy);
    Days3(LvCb, CbCt, CtNy);
    ExploreRoutePruned(cat, q, "NY", path, NyLv);
  }

  lemma ToLvWithin18DaysFromNyViaLvCbCbCtCtNy(cat: seq<ShippingRoute>)
    requires cat == Routes()
    ensures ExploreFrom(cat, ToLvWithin18Days(), "NY", [LvCb, CbCt, CtNy]) == []
  {
    Codes();
    Departures3(LvCb, CbCt, CtNy);
    FanOutNy(cat, ToLvWithin18Days(), [LvCb, CbCt, CtNy]);
    ToLvWithin18DaysFromNyViaLvCbCbCtCtNyTakesNyLv(cat);
  }

  lemma ToLvWithin18DaysFromCtViaLvCbCbCtStepsCtNy(cat: seq<ShippingRoute>)
    requires cat == Routes()
    ensures "NY" !in Departures([LvCb, CbCt, CtNy])
    ensures ExploreRoute(cat, ToLvWithin18Days(), "CT", [LvCb, CbCt], CtNy) == ExploreFrom(cat, ToLvWithin18Days(), "NY", [LvCb, CbCt, CtNy])
  {
    var q, path := ToLvWithin18Days(), [LvCb, CbCt];
    Codes();
    InCtNy();
    Departures2(LvCb, CbCt);
    Days2(LvCb, CbCt);
    assert "CT" !in Departures(path) && "NY" !in Departures(path);
    assert CtNy in cat && Within(q, path, CtNy);
    ExploreRouteDescends(cat, q, "CT", path, CtNy);
    Snoc2(LvCb, CbCt, CtNy);
  }

  lemma ToLvWithin18DaysFromCtViaLvCbCbCtTakesCtNy(cat: seq<ShippingRoute>)
    requires cat == Routes()
    ensures ExploreRoute(cat, ToLvWithin18Days(), "CT", [LvCb, CbCt], CtNy) == []
  {
    ToLvWithin18DaysFromCtViaLvCbCbCtStepsCtNy(cat);
    ToLvWithin18DaysFromNyViaLvCbCbCtCtNy(cat);
  }

  lemma ToLvWithin18DaysFromCtViaLvCbCbCt(cat: seq<ShippingRoute>)
    requires cat == Routes()
    ensures ExploreFrom(cat, ToLvWithin18Days(), "CT", [LvCb, CbCt]) == []
  {
    Codes();
    Departures2(LvCb, CbCt);
    FanOutCt(cat, ToLvWithin18Days(), [LvCb, CbCt]);
    ToLvWithin18DaysFromCtViaLvCbCbCtTakesCtNy(cat);
  }

  lemma ToLvWithin18DaysFromCbViaLvCbTakesCbLv(cat: seq<ShippingRoute>)
    requires cat == Routes()
    ensures ExploreRoute(cat, ToLvWithin18Days(), "CB", [LvCb], CbLv) == [[LvCb, CbLv]]
  {
    var q, path := ToLvWithin18Days(), [LvCb];
    Codes();
    InCbLv();
    Departures1(LvCb);
    Days1(LvCb);
    ExploreRouteArrives(cat, q, "CB", path, CbLv);
    Snoc1(LvCb, CbLv);
  }

  lemma ToLvWithin18DaysFromCbViaLvCbStepsCbCt(cat: seq<ShippingRoute>)
    requires cat == Routes()
    ensures "CT" !in Departures([LvCb, CbCt])
    ensures ExploreRoute(cat, ToLvWithin18Days(), "CB", [LvCb], CbCt) == ExploreFrom(cat, ToLvWithin18Days(), "CT", [LvCb, CbCt])
  {
    var q, path := ToLvWithin18Days(), [LvCb];
    Codes();
    InCbCt();
    Departures1(LvCb);
    Days1(LvCb);
    assert "CB" !in Departures(path) && "CT" !in Departures(path);
    assert CbCt in cat && Within(q, path, CbCt);
    ExploreRouteDescends(cat, q, "CB", path, CbCt);
    Snoc1(LvCb, CbCt);
  }

  lemma ToLvWithin18DaysFromCbViaLvCbTakesCbCt(cat: seq<ShippingRoute>)
    requires cat == Routes()
    ensures ExploreRoute(cat, ToLvWithin18Days(), "CB", [LvCb], CbCt) == []
  {
    ToLvWithin18DaysFromCbViaLvCbStepsCbCt(cat);
    ToLvWithin18DaysFromCtViaLvCbCbCt(cat);
  }

  lemma ToLvWithin18DaysFromCbViaLvCb(cat: seq<ShippingRoute>)
    requires cat == Routes()
    ensures ExploreFrom(cat, ToLvWithin18Days(), "CB", [LvCb]) == [[LvCb, CbLv]]
  {
    Codes();
    Departures1(LvCb);
    FanOutCb(cat, ToLvWithin18Days(), [LvCb]);
    ToLvWithin18DaysFromCbViaLvCbTakesCbLv(cat);
    ToLvWithin18DaysFromCbViaLvCbTakesCbCt(cat);
    Join10([LvCb, CbLv]);
  }

  lemma ToLvWithin18DaysFromNyViaLvCtCtNyTakesNyLv(cat: seq<ShippingRoute>)
    requires cat == Routes()
    ensures ExploreRoute(cat, ToLvWithin18Days(), "NY", [LvCt, CtNy], NyLv) == [[LvCt, CtNy, NyLv]]
  {
    var q, path := ToLvWithin18Days(), [LvCt, CtNy];
    Codes();
    InNyLv();
    Departures2(LvCt, CtNy);
    Days2(LvCt, CtNy);
    ExploreRouteArrives(cat, q, "NY", path, NyLv);
    Snoc2(LvCt, CtNy, NyLv);
  }

  lemma ToLvWithin18DaysFromNyViaLvCtCtNy(cat: seq<ShippingRoute>)
    requires cat == Routes()
    ensures ExploreFrom(cat, ToLvWithin18Days(), "NY", [LvCt, CtNy]) == [[LvCt, CtNy, NyLv]]
  {
    Codes();
    Departures2(LvCt, CtNy);
    FanOutNy(cat, ToLvWithin18Days(), [LvCt, CtNy]);
    ToLvWithin18DaysFromNyViaLvCtCtNyTakesNyLv(cat);
  }

  lemma ToLvWithin18DaysFromCtViaLvCtStepsCtNy(cat: seq<ShippingRoute>)
    requires cat == Routes()
    ensures "NY" !in Departures([LvCt, CtNy])
    ensures ExploreRoute(cat, ToLvWithin18Days(), "CT", [LvCt], CtNy) == ExploreFrom(cat, ToLvWithin18Days(), "NY", [LvCt, CtNy])
  {
    var q, path := ToLvWithin18Days(), [LvCt];
    Codes();
    InCtNy();
    Departures1(LvCt);
    Days1(LvCt);
    assert "CT" !in Departures(path) && "NY" !in Departures(path);
    assert CtNy in cat && Within(q, path, CtNy);
    ExploreRouteDescends(cat, q, "CT", path, CtNy);
    Snoc1(LvCt, CtNy);
  }

  lemma ToLvWithin18DaysFromCtViaLvCtTakesCtNy(cat: seq<ShippingRoute>)
    requires cat == Routes()
    ensures ExploreRoute(cat, ToLvWithin18Days(), "CT", [LvCt], CtNy) == [[LvCt, CtNy, NyLv]]
  {
    ToLvWithin18DaysFromCtViaLvCtStepsCtNy(cat);
    ToLvWithin18DaysFromNyViaLvCtCtNy(cat);
  }

  lemma ToLvWithin18DaysFromCtViaLvCt(cat: seq<ShippingRoute>)
    requires cat == Routes()
    ensures ExploreFrom(cat, ToLvWithin18Days(), "CT", [LvCt]) == [[LvCt, CtNy, NyLv]]
  {
    Codes();
    Departures1(LvCt);
    FanOutCt(cat, ToLvWithin18Days(), [LvCt]);
    ToLvWithin18DaysFromCtViaLvCtTakesCtNy(cat);
  }

  lemma ToLvWithin18DaysFromLvStepsLvCb(cat: seq<ShippingRoute>)
    requires cat == Routes()
    ensures "CB" !in Departures([LvCb])
    ensures ExploreRoute(cat, ToLvWithin18Days(), "LV", [], LvCb) == ExploreFrom(cat, ToLvWithin18Days(), "CB", [LvCb])
  {
    var q, path: seq<ShippingRoute> := ToLvWithin18Days(), [];
    Codes();
    InLvCb();
    Departures0();
    Days0();
    assert "LV" !in Departures(path) && "CB" !in Departures(path);
    assert LvCb in cat && Within(q, path, LvCb);
    ExploreRouteDescends(cat, q, "LV", path, LvCb);
    Snoc0(LvCb);
  }

  lemma ToLvWithin18DaysFromLvTakesLvCb(cat: seq<ShippingRoute>)
    requires cat == Routes()
    ensures ExploreRoute(cat, ToLvWithin18Days(), "LV", [], LvCb) == [[LvCb, CbLv]]
  {
    ToLvWithin18DaysFromLvStepsLvCb(cat);
    ToLvWithin18DaysFromCbViaLvCb(cat);
  }

  lemma ToLvWithin18DaysFromLvStepsLvCt(cat: seq<ShippingRoute>)
    requires cat == Routes()
    ensures "CT" !in Departures([LvCt])
    ensures ExploreRoute(cat, ToLvWithin18Days(), "LV", [], LvCt) == ExploreFrom(cat, ToLvWithin18Days(), "CT", [LvCt])
  {
    var q, path: seq<ShippingRoute> := ToLvWithin18Days(), [];
    Codes();
    InLvCt();
    Departures0();
    Days0();
    assert "LV" !in Departures(path) && "CT" !in Departures(path);
    assert LvCt in cat && Within(q, path, LvCt);
    ExploreRouteDescends(cat, q, "LV", path, LvCt);
    Snoc0(LvCt);
  }

  lemma ToLvWithin18DaysFromLvTakesLvCt(cat: seq<ShippingRoute>)
    requires cat == Routes()
    ensures ExploreRoute(cat, ToLvWithin18Days(), "LV", [], LvCt) == [[LvCt, CtNy, NyLv]]
  {
    ToLvWithin18DaysFromLvStepsLvCt(cat);
    ToLvWithin18DaysFromCtViaLvCt(cat);
  }

  lemma ToLvWithin18DaysFromLv(cat: seq<ShippingRoute>)
    requires cat == Routes()
    ensures ExploreFrom(cat, ToLvWithin18Days(), "LV", []) == [[LvCb, CbLv], [LvCt, CtNy, NyLv]]
  {
    Codes();
    Departures0();
    FanOutLv(cat, ToLvWithin18Days(), []);
    ToLvWithin18DaysFromLvTakesLvCb(cat);
    ToLvWithin18DaysFromLvTakesLvCt(cat);
    Snoc1([LvCb, CbLv], [LvCt, CtNy, NyLv]);
  }
  /** Buenos Aires to Liverpool: four journeys, the shortest taking 8 days. */
  lemma BaToLv(cat: seq<ShippingRoute>)
    requires cat == Routes()
    ensures IndirectJourneys(cat, "BA", ToLv()) == [[BaNy, NyLv], [BaCb, CbLv], [BaCb, CbCt, CtNy, NyLv], [BaCt, CtNy, NyLv]]
    ensures |IndirectJourneys(cat, "BA", ToLv())| == 4
    ensures ShortestDays(IndirectJourneys(cat, "BA", ToLv())) == 8
  {
    Departures0();
    ToLvFromBa(cat);
    BaToLvShortest();
  }

  lemma BaToLvShortest()
    ensures ShortestDays([[BaNy, NyLv], [BaCb, CbLv], [BaCb, CbCt, CtNy, NyLv], [BaCt, CtNy, NyLv]]) == 8
  {
    Days2(BaNy, NyLv);
    Days2(BaCb, CbLv);
    Days4(BaCb, CbCt, CtNy, NyLv);
    Days3(BaCt, CtNy, NyLv);
  }

  /** New York back to New York: two journeys, the shortest taking 18 days. */
  lemma NyToNy(cat: seq<ShippingRoute>)
    requires cat == Routes()
    ensures IndirectJourneys(cat, "NY", ToNy()) == [[NyLv, LvCb, CbCt, CtNy], [NyLv, LvCt, CtNy]]
    ensures |IndirectJourneys(cat, "NY", ToNy())| == 2
    ensures ShortestDays(IndirectJourneys(cat, "NY", ToNy())) == 18
  {
    Departures0();
    ToNyFromNy(cat);
    NyToNyShortest();
  }

  lemma NyToNyShortest()
    ensures ShortestDays([[NyLv, LvCb, CbCt, CtNy], [NyLv, LvCt, CtNy]]) == 18
  {
    Days4(NyLv, LvCb, CbCt, CtNy);
    Days3(NyLv, LvCt, CtNy);
  }

  /** Liverpool back to Liverpool within 3 stops: two journeys. */
  lemma LvToLvAtMost3Stops(cat: seq<ShippingRoute>)
    requires cat == Routes()
    ensures IndirectJourneys(cat, "LV", ToLvAtMost3Stops()) == [[LvCb, CbLv], [LvCt, CtNy, NyLv]]
    ensures |IndirectJourneys(cat, "LV", ToLvAtMost3Stops())| == 2
    ensures ShortestDays(IndirectJourneys(cat, "LV", ToLvAtMost3Stops())) == 6
  {
    Departures0();
    ToLvAtMost3StopsFromLv(cat);
    LvToLvAtMost3StopsShortest();
  }

  lemma LvToLvAtMost3StopsShortest()
    ensures ShortestDays([[LvCb, CbLv], [LvCt, CtNy, NyLv]]) == 6
  {
    Days2(LvCb, CbLv);
    Days3(LvCt, CtNy, NyLv);
  }

  /** Buenos Aires to Liverpool in exactly 4 stops: one journey. */
  lemma BaToLvExactly4Stops(cat: seq<ShippingRoute>)
    requires cat == Routes()
    ensures IndirectJourneys(cat, "BA", ToLvExactly4Stops()) == [[BaCb, CbCt, CtNy, NyLv]]
    ensures |IndirectJourneys(cat, "BA", ToLvExactly4Stops())| == 1
    ensures ShortestDays(IndirectJourneys(cat, "BA", ToLvExactly4Stops())) == 23
  {
    Departures0();
    ToLvExactly4StopsFromBa(cat);
    BaToLvExactly4StopsShortest();
  }

  lemma BaToLvExactly4StopsShortest()
    ensures ShortestDays([[BaCb, CbCt, CtNy, NyLv]]) == 23
  {
    Days4(BaCb, CbCt, CtNy, NyLv);
  }

  /** Liverpool back to Liverpool within 25 days: three journeys. */
  lemma LvToLvWithin25Days(cat: seq<ShippingRoute>)
    requires cat == Routes()
    ensures IndirectJourneys(cat, "LV", ToLvWithin25Days()) == [[LvCb, CbLv], [LvCb, CbCt, CtNy, NyLv], [LvCt, CtNy, NyLv]]
    ensures |IndirectJourneys(cat, "LV", ToLvWithin25Days())| == 3
    ensures ShortestDays(IndirectJourneys(cat, "LV", ToLvWithin25Days())) == 6
  {
    Departures0();
    ToLvWithin25DaysFromLv(cat);
    LvToLvWithin25DaysShortest();
  }

  lemma LvToLvWithin25DaysShortest()
    ensures ShortestDays([[LvCb, CbLv], [LvCb, CbCt, CtNy, NyLv], [LvCt, CtNy, NyLv]]) == 6
  {
    Days2(LvCb, CbLv);
    Days4(LvCb, CbCt, CtNy, NyLv);
    Days3(LvCt, CtNy, NyLv);
  }

  /** Liverpool back to Liverpool within 18 days: two journeys. */
  lemma LvToLvWithin18Days(cat: seq<ShippingRoute>)
    requires cat == Routes()
    ensures IndirectJourneys(cat, "LV", ToLvWithin18Days()) == [[LvCb, CbLv], [LvCt, CtNy, NyLv]]
    ensures |IndirectJourneys(cat, "LV", ToLvWithin18Days())| == 2
    ensures ShortestDays(IndirectJourneys(cat, "LV", ToLvWithin18Days())) == 6
  {
    Departures0();
    ToLvWithin18DaysFromLv(cat);
    LvToLvAtMost3StopsShortest();
  }


  // The scenarios, proved through the repository and the route processor.

  /** The shortest journey from Buenos Aires to Liverpool takes 8 days. */
  method IndirectBaLvShortest() returns (found: bool, shortest: int)
    ensures found && shortest == 8
  {
    var processor := Processor();
    var permutations := processor.CalcJourneyDetailsForInDirectRoutes("BA", "LV");
    RunBaToLv(processor.Catalogue(), processor.Query(), permutations.validJourneyDetailsCollections);
    found, shortest := permutations.HasValidPermutations(), permutations.GetShortestJourney();
  }

  lemma RunBaToLv(cat: seq<ShippingRoute>, q: Filters, found: seq<seq<ShippingRoute>>)
    requires cat == Routes() && q == ToLv()
    requires multiset(found) == multiset(IndirectJourneys(cat, "BA", q))
    ensures |found| == 4 && ShortestDays(found) == 8
  {
    BaToLv(cat);
    assert |found| == |multiset(found)| == |multiset(IndirectJourneys(cat, "BA", q))|;
    ShortestDaysOrderIndependent(IndirectJourneys(cat, "BA", q), found);
  }

  /** The shortest round trip from New York takes 18 days. */
  method IndirectNyNyShortest() returns (found: bool, shortest: int)
    ensures found && shortest == 18
  {
    var processor := Processor();
    var permutations := processor.CalcJourneyDetailsForInDirectRoutes("NY", "NY");
    RunNyToNy(processor.Catalogue(), processor.Query(), permutations.validJourneyDetailsCollections);
    found, shortest := permutations.HasValidPermutations(), permutations.GetShortestJourney();
  }

  lemma RunNyToNy(cat: seq<ShippingRoute>, q: Filters, found: seq<seq<ShippingRoute>>)
    requires cat == Routes() && q == ToNy()
    requires multiset(found) == multiset(IndirectJourneys(cat, "NY", q))
    ensures |found| == 2 && ShortestDays(found) == 18
  {
    NyToNy(cat);
    assert |found| == |multiset(found)| == |multiset(IndirectJourneys(cat, "NY", q))|;
    ShortestDaysOrderIndependent(IndirectJourneys(cat, "NY", q), found);
  }

  /** Two round trips from Liverpool make at most 3 stops. */
  method IndirectLvLvAtMost3Stops() returns (found: bool, total: nat)
    ensures found && total == 2
  {
    var processor := Processor();
    var permutations := processor.CalcJourneyDetailsForInDirectRoutes("LV", "LV", maxStops := 3);
    RunLvToLvAtMost3Stops(processor.Catalogue(), processor.Query(), permutations.validJourneyDetailsCollections);
    found, total := permutations.HasValidPermutations(), permutations.TotalValidJourneys();
  }

  lemma RunLvToLvAtMost3Stops(cat: seq<ShippingRoute>, q: Filters, found: seq<seq<ShippingRoute>>)
    requires cat == Routes() && q == ToLvAtMost3Stops()
    requires multiset(found) == multiset(IndirectJourneys(cat, "LV", q))
    ensures |found| == 2 && ShortestDays(found) == 6
  {
    LvToLvAtMost3Stops(cat);
    assert |found| == |multiset(found)| == |multiset(IndirectJourneys(cat, "LV", q))|;
    ShortestDaysOrderIndependent(IndirectJourneys(cat, "LV", q), found);
  }

  /** One journey from Buenos Aires to Liverpool makes exactly 4 stops. */
  method IndirectBaLvExactly4Stops() returns (found: bool, total: nat)
    ensures found && total == 1
  {
    var processor := Processor();
    var permutations := processor.CalcJourneyDetailsForInDirectRoutes("BA", "LV", minStops := 4, maxStops := 4);
    RunBaToLvExactly4Stops(processor.Catalogue(), processor.Query(), permutations.validJourneyDetailsCollections);
    found, total := permutations.HasValidPermutations(), permutations.TotalValidJourneys();
  }

  lemma RunBaToLvExactly4Stops(cat: seq<ShippingRoute>, q: Filters, found: seq<seq<ShippingRoute>>)
    requires cat == Routes() && q == ToLvExactly4Stops()
    requires multiset(found) == multiset(IndirectJourneys(cat, "BA", q))
    ensures |found| == 1 && ShortestDays(found) == 23
  {
    BaToLvExactly4Stops(cat);
    assert |found| == |multiset(found)| == |multiset(IndirectJourneys(cat, "BA", q))|;
    ShortestDaysOrderIndependent(IndirectJourneys(cat, "BA", q), found);
  }

  /** Three round trips from Liverpool take at most 25 days. */
  method IndirectLvLvWithin25Days() returns (found: bool, total: nat)
    ensures found && total == 3
  {
    var processor := Processor();
    var permutations := processor.CalcJourneyDetailsForInDirectRoutes("LV", "LV", maxJourneyDays := 25);
    RunLvToLvWithin25Days(processor.Catalogue(), processor.Query(), permutations.validJourneyDetailsCollections);
    found, total := permutations.HasValidPermutations(), permutations.TotalValidJourneys();
  }

  lemma RunLvToLvWithin25Days(cat: seq<ShippingRoute>, q: Filters, found: seq<seq<ShippingRoute>>)
    requires cat == Routes() && q == ToLvWithin25Days()
    requires multiset(found) == multiset(IndirectJourneys(cat, "LV", q))
    ensures |found| == 3 && ShortestDays(found) == 6
  {
    LvToLvWithin25Days(cat);
    assert |found| == |multiset(found)| == |multiset(IndirectJourneys(cat, "LV", q))|;
    ShortestDaysOrderIndependent(IndirectJourneys(cat, "LV", q), found);
  }

  /** Two round trips from Liverpool take at most 18 days. */
  method IndirectLvLvWithin18Days() returns (found: bool, total: nat)
    ensures found && total == 2
  {
    var processor := Processor();
    var permutations := processor.CalcJourneyDetailsForInDirectRoutes("LV", "LV", maxJourneyDays := 18);
    RunLvToLvWithin18Days(processor.Catalogue(), processor.Query(), permutations.validJourneyDetailsCollections);
    found, total := permutations.HasValidPermutations(), permutations.TotalValidJourneys();
  }

  lemma RunLvToLvWithin18Days(cat: seq<ShippingRoute>, q: Filters, found: seq<seq<ShippingRoute>>)
    requires cat == Routes() && q == ToLvWithin18Days()
    requires multiset(found) == multiset(IndirectJourneys(cat, "LV", q))
    ensures |found| == 2 && ShortestDays(found) == 6
  {
    LvToLvWithin18Days(cat);
    assert |found| == |multiset(found)| == |multiset(IndirectJourneys(cat, "LV", q))|;
    ShortestDaysOrderIndependent(IndirectJourneys(cat, "LV", q), found);
  }
}
