/**
 * The five-port landscape of the integration scenarios, stated against the
 * repository and route processor: the direct journey times the scenarios
 * expect, and the invalid journey they reject.
 */
module Landscape {
  import opened Entities
  import opened DataAccess
  import opened Journeys
  import opened RouteProcessing

  const BaNy := ShippingRoute("BA", "NY", 6)
  const BaCb := ShippingRoute("BA", "CB", 5)
  const BaCt := ShippingRoute("BA", "CT", 4)
  const NyLv := ShippingRoute("NY", "LV", 4)
  const LvCb := ShippingRoute("LV", "CB", 3)
  const LvCt := ShippingRoute("LV", "CT", 6)
  const CbLv := ShippingRoute("CB", "LV", 3)
  const CbCt := ShippingRoute("CB", "CT", 6)
  const CtNy := ShippingRoute("CT", "NY", 8)

  /** The shipping routes the integration scenarios populate the repository with. */
  function Routes(): seq<ShippingRoute>
  {
    [BaNy, BaCb, BaCt, NyLv, LvCb, LvCt, CbLv, CbCt, CtNy]
  }

  /** The ports of the landscape. */
  function Ports(): seq<Port>
  {
    [Port("BA", "Buenos Aires"), Port("NY", "New York"), Port("CB", "Casablanca"),
     Port("CT", "Cape Town"), Port("LV", "Liverpool")]
  }

  lemma Codes()
    ensures "BA" != "NY" && "BA" != "CB" && "BA" != "CT" && "BA" != "LV"
    ensures "NY" != "CB" && "NY" != "CT" && "NY" != "LV"
    ensures "CB" != "CT" && "CB" != "LV" && "CT" != "LV"
  {
    assert "BA"[0] != "NY"[0] && "BA"[0] != "CB"[0] && "BA"[0] != "LV"[0] && "BA"[1] != "CT"[1];
    assert "NY"[0] != "CB"[0] && "NY"[0] != "CT"[0] && "NY"[0] != "LV"[0];
    assert "CB"[1] != "CT"[1] && "CB"[0] != "LV"[0] && "CT"[0] != "LV"[0];
  }

  /** A route processor over a repository holding the landscape. */
  method Processor() returns (processor: RouteProcessor)
    ensures fresh(processor) && fresh(processor.routeDataRepository)
    ensures processor.journeyDetailsPermutations == null
    ensures processor.Catalogue() == Routes()
    ensures processor.routeDataRepository.ListPorts() == Ports()
  {
    var repository := new RouteDataRepository();
    repository.PopulatePorts(Ports());
    repository.PopulateShippingRoutes(Routes());
    processor := new RouteProcessor(repository);
  }

  // The direct route the repository returns for each pair of ports the scenarios ask about.

  lemma FindBaNy(cat: seq<ShippingRoute>) requires cat == Routes() ensures FirstRoute(cat, "BA", "NY") == Some(BaNy) { Codes(); assert FirstRoute(Routes(), "BA", "NY") == Some(BaNy); }
  lemma FindBaCb(cat: seq<ShippingRoute>) requires cat == Routes() ensures FirstRoute(cat, "BA", "CB") == Some(BaCb) { Codes(); assert FirstRoute(Routes(), "BA", "CB") == Some(BaCb); }
  lemma FindBaCt(cat: seq<ShippingRoute>) requires cat == Routes() ensures FirstRoute(cat, "BA", "CT") == Some(BaCt) { Codes(); assert FirstRoute(Routes(), "BA", "CT") == Some(BaCt); }
  lemma FindNyLv(cat: seq<ShippingRoute>) requires cat == Routes() ensures FirstRoute(cat, "NY", "LV") == Some(NyLv) { Codes(); assert FirstRoute(Routes(), "NY", "LV") == Some(NyLv); }
  lemma FindLvCb(cat: seq<ShippingRoute>) requires cat == Routes() ensures FirstRoute(cat, "LV", "CB") == Some(LvCb) { Codes(); assert FirstRoute(Routes(), "LV", "CB") == Some(LvCb); }
  lemma FindCbLv(cat: seq<ShippingRoute>) requires cat == Routes() ensures FirstRoute(cat, "CB", "LV") == Some(CbLv) { Codes(); assert FirstRoute(Routes(), "CB", "LV") == Some(CbLv); }
  lemma FindCtCb(cat: seq<ShippingRoute>)
    requires cat == Routes()
    ensures FirstRoute(cat, "CT", "CB") == None
  {
    Codes();
    var r := Routes();
    assert FirstRoute(r[8..], "CT", "CB") == None;
    assert FirstRoute(r[6..], "CT", "CB") == None by { assert r[6..][1..] == r[7..] && r[7..][1..] == r[8..]; }
    assert FirstRoute(r[4..], "CT", "CB") == None by { assert r[4..][1..] == r[5..] && r[5..][1..] == r[6..]; }
    assert FirstRoute(r[2..], "CT", "CB") == None by { assert r[2..][1..] == r[3..] && r[3..][1..] == r[4..]; }
    assert FirstRoute(r, "CT", "CB") == None by { assert r[1..] == r[1..] && r[1..][1..] == r[2..]; }
  }

  /** Buenos Aires, New York, Liverpool: a valid journey of 10 days. */
  method DirectBaNyLv() returns (valid: bool, days: int)
    ensures valid && days == 10
  {
    var processor := Processor();
    FindBaNy(processor.Catalogue());
    FindNyLv(processor.Catalogue());
    var journey := processor.CalcJourneyDetailsForDirectRouteSet("BA", ["NY", "LV"]);
    assert Leg(processor.Catalogue(), "BA", ["NY", "LV"], 0) == Some(BaNy);
    assert Leg(processor.Catalogue(), "BA", ["NY", "LV"], 1) == Some(NyLv);
    assert journey.shippingRoutes == [BaNy, NyLv];
    assert Days([NyLv]) == 4;
    valid, days := journey.isValidJourney, journey.TotalJourneyDays();
  }

  /** Buenos Aires, Casablanca, Liverpool: a valid journey of 8 days. */
  method DirectBaCbLv() returns (valid: bool, days: int)
    ensures valid && days == 8
  {
    var processor := Processor();
    FindBaCb(processor.Catalogue());
    FindCbLv(processor.Catalogue());
    var journey := processor.CalcJourneyDetailsForDirectRouteSet("BA", ["CB", "LV"]);
    assert Leg(processor.Catalogue(), "BA", ["CB", "LV"], 0) == Some(BaCb);
    assert Leg(processor.Catalogue(), "BA", ["CB", "LV"], 1) == Some(CbLv);
    assert journey.shippingRoutes == [BaCb, CbLv];
    assert Days([CbLv]) == 3;
    valid, days := journey.isValidJourney, journey.TotalJourneyDays();
  }

  /** Buenos Aires, New York, Liverpool, Casablanca: a valid journey of 13 days. */
  method DirectBaNyLvCb() returns (valid: bool, days: int)
    ensures valid && days == 13
  {
    var processor := Processor();
    FindBaNy(processor.Catalogue());
    FindNyLv(processor.Catalogue());
    FindLvCb(processor.Catalogue());
    var journey := processor.CalcJourneyDetailsForDirectRouteSet("BA", ["NY", "LV", "CB"]);
    assert Leg(processor.Catalogue(), "BA", ["NY", "LV", "CB"], 0) == Some(BaNy);
    assert Leg(processor.Catalogue(), "BA", ["NY", "LV", "CB"], 1) == Some(NyLv);
    assert Leg(processor.Catalogue(), "BA", ["NY", "LV", "CB"], 2) == Some(LvCb);
    assert journey.shippingRoutes == [BaNy, NyLv, LvCb];
    assert Days([LvCb]) == 3;
    assert Days([NyLv, LvCb]) == 7 by { assert [NyLv, LvCb][1..] == [LvCb]; }
    valid, days := journey.isValidJourney, journey.TotalJourneyDays();
  }

  /** Buenos Aires, Cape Town, Casablanca: invalid, as no route runs from Cape Town to Casablanca. */
  method DirectBaCtCb() returns (valid: bool, legs: nat)
    ensures !valid && legs == 1
  {
    var processor := Processor();
    FindBaCt(processor.Catalogue());
    FindCtCb(processor.Catalogue());
    var journey := processor.CalcJourneyDetailsForDirectRouteSet("BA", ["CT", "CB"]);
    assert Leg(processor.Catalogue(), "BA", ["CT", "CB"], 0) == Some(BaCt);
    assert Leg(processor.Catalogue(), "BA", ["CT", "CB"], 1) == None;
    valid, legs := journey.isValidJourney, journey.TotalStops();
  }

  /** A journey with no stops at all is invalid and holds no route. */
  method DirectNoStops() returns (valid: bool, legs: nat)
    ensures !valid && legs == 0
  {
    var processor := Processor();
    var journey := processor.CalcJourneyDetailsForDirectRouteSet("BA", []);
    valid, legs := journey.isValidJourney, journey.TotalStops();
  }
}
