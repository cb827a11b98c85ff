# ShippingRoutes in Dafny

A model of the route calculator of the ShippingRoutes C# repository, with proofs about it.

The system holds a catalogue of ports and of directed shipping routes between them. Each route takes a whole number of travel days. The system answers two kinds of query:

- **Direct validation.** Given a source port and an explicit list of stops, it looks up the direct route for each consecutive leg. It returns the journey built so far, marked valid only when every leg exists.
- **Indirect enumeration.** It searches depth-first for every simple journey from a source port to a destination port, taking routes out of each port in turn. Three optional filters apply: minimum stops, maximum stops, and maximum total days. A filter at -1 is off. The search:
  - never takes a self-loop;
  - prunes a branch as soon as it would exceed the day or stop limit;
  - deposits a copy of the journey when it reaches the destination with enough stops;
  - never departs twice from the same port.
  The found journeys go into an accumulator that answers "any found?", "how many?" and "shortest total days".

The model follows the source class by class:

- `entities.dfy` (`Entities`): `Port` and `ShippingRoute` as datatypes, plus `Option`.
- `data_access.dfy` (`DataAccess`): `RouteDataRepository` as a class with two `seq` fields that the Populate methods overwrite. The LINQ queries become the functions `RoutesFrom` (a `Where`) and `FirstRoute` (a `FirstOrDefault`).
- `journeys.dfy` (`Journeys`): `JourneyDetails` as a class with its route list and validity flag. `AddJourneyDetail` appends in place; `Clone` copies with a loop.
- `permutations.dfy` (`Permutations`): `JourneyDetailPermutations`, the accumulator, as a class whose list `AddValidJourneyDetails` appends to.
- `route_processor.dfy` (`RouteProcessing`): `RouteProcessor` as a class holding the query fields the C# code sets at the start of an indirect call. The direct validator is a loop. The indirect search is the mutually recursive pair `RecursiveAddIndirectJourneyRoutesFromPort` and `ProcessIndirectRoute`.
- `exploration.dfy` (`Exploration`): the specification of the search.
- `unfolding.dfy` and `scenarios.dfy` (`Unfolding`, `Scenarios`): the unit-test catalogue worked through the search.
- `landscape.dfy` and `landscape_search.dfy` (`Landscape`, `LandscapeSearch`): the five-port integration landscape with its scenarios proved through the repository and processor classes.

The specification of the search has two parts:

- `ExploreFrom`, `ExploreRoutes` and `ExploreRoute` give, one branch at a time, the journeys the search deposits.
- `IsIndirectJourney` says on its own terms which journeys a query should report. Such a journey:
  - is non-empty and starts at the source;
  - is connected and made of catalogue routes;
  - uses no self-loop and departs from no port twice;
  - reaches the destination with its last route, and only its last route;
  - meets the filters.

The lemmas prove what a call deposits:

- every deposited journey is such a journey;
- every such journey is deposited, provided no route takes negative days;
- nothing is deposited twice, provided the catalogue repeats no route;
- no journey is longer than the number of ports with departing routes, which bounds the recursion.

The recursive methods are proved against this specification. The whole indirect call then deposits exactly the multiset of journeys `IndirectJourneys` describes.

With at most 3 stops, the B-to-B unit test keeps B→D→C→B (3 routes) and drops B→C→D→A→B (4 routes); see `Scenarios.BToBAtMost3Stops`.

## Model

| member | source | states |
|---|---|---|
| DataAccess.RoutesFromMembers | ShippingRoutes/DAL.Concrete/RouteDataRepository.cs:44-47 | a route is in the per-port query result exactly when it is in the catalogue and departs that port |
| DataAccess.RoutesFromConcat | ShippingRoutes/DAL.Concrete/RouteDataRepository.cs:44-47 | the per-port query keeps catalogue order: over two catalogue parts it returns the first part's matches, then the second's |
| DataAccess.RoutesFromCount | ShippingRoutes/DAL.Concrete/RouteDataRepository.cs:44-47 | the per-port query keeps each departing route exactly as often as the catalogue holds it, and drops every other route |
| DataAccess.RoutesFromDistinct | ShippingRoutes/DAL.Concrete/RouteDataRepository.cs:44-47 | a catalogue without repeated routes gives a per-port result without repeated routes |
| DataAccess.FirstRouteSpec | ShippingRoutes/DAL.Concrete/RouteDataRepository.cs:49-52 | the pair lookup gives None exactly when no catalogue route connects the two ports; otherwise it gives the connecting route at the lowest index |
| DataAccess.RouteDataRepository.constructor | ShippingRoutes/DAL.Concrete/RouteDataRepository.cs:16-21 | a new repository holds no ports and no routes |
| DataAccess.RouteDataRepository.PopulatePorts | ShippingRoutes/DAL.Concrete/RouteDataRepository.cs:25-28 | replaces the port list, so ListPorts (lines 39-42) gives exactly the new list; the routes are unchanged |
| DataAccess.RouteDataRepository.PopulateShippingRoutes | ShippingRoutes/DAL.Concrete/RouteDataRepository.cs:31-34 | replaces the route list; from then on both queries answer over the new list only; the ports are unchanged |
| DataAccess.RouteDataRepository.ListAllDirectShippingRoutesForPort | ShippingRoutes/DAL.Concrete/RouteDataRepository.cs:44-47 | the result holds exactly the stored routes departing the port, and is empty when none departs it |
| DataAccess.RouteDataRepository.RetrieveDirectShippingRouteBetweenPorts | ShippingRoutes/DAL.Concrete/RouteDataRepository.cs:49-52 | None exactly when no stored route connects the two ports; otherwise a stored connecting route with no connecting route before it |
| Journeys.DaysAppend | ShippingRoutes/Models/JourneyDetails.cs:35-38 | appending a route adds exactly its travel days to the total |
| Journeys.DaysPrefix | ShippingRoutes/Models/JourneyDetails.cs:35-38 | with no negative days, a prefix of a route list takes no longer than the whole list, and not less than 0 days |
| Journeys.DaysNonNegative | ShippingRoutes/Models/JourneyDetails.cs:35-38 | with no negative days, the total is not negative |
| Journeys.JourneyDetails.constructor | ShippingRoutes/Models/JourneyDetails.cs:15-17 | a new journey has no routes, 0 stops and 0 days, and is not valid |
| Journeys.JourneyDetails.AddJourneyDetail | ShippingRoutes/Models/JourneyDetails.cs:25-28 | appends the route at the end and keeps the earlier routes and the flag; TotalStops grows by 1 and TotalJourneyDays by the route's days |
| Journeys.JourneyDetails.Clone | ShippingRoutes/Models/JourneyDetails.cs:44-52 | a fresh object with the same routes in the same order; the copy is not valid |
| Journeys.CloneIsolatesAppends | ShippingRoutes/Models/JourneyDetails.cs:44-52 | appending to a clone leaves the original journey unchanged |
| Permutations.ShortestDays | ShippingRoutes/Models/JourneyDetailPermutations.cs:45-50 | over a non-empty list, the result is the total days of some journey and at most that of every journey |
| Permutations.ShortestDaysOrderIndependent | ShippingRoutes/Models/JourneyDetailPermutations.cs:45-50 | the minimum depends only on the multiset of journeys held, not on the order they were deposited in |
| Permutations.JourneyDetailPermutations.constructor | ShippingRoutes/Models/JourneyDetailPermutations.cs:15 | a new accumulator is empty: none found, count 0, shortest 0 |
| Permutations.JourneyDetailPermutations.HasValidPermutations | ShippingRoutes/Models/JourneyDetailPermutations.cs:25-28 | true exactly when some journey is held; `AddValidJourneyDetails` makes it true, and after an indirect call it is true exactly when `IndirectJourneys` is non-empty (with no negative days: exactly when some journey satisfies `IsIndirectJourney`) |
| Permutations.JourneyDetailPermutations.AddValidJourneyDetails | ShippingRoutes/Models/JourneyDetailPermutations.cs:31-34 | appends the journey's routes after the journeys already held, which keep their order; the count grows by 1, and `HasValidPermutations` holds afterwards |
| Permutations.JourneyDetailPermutations.GetShortestJourney | ShippingRoutes/Models/JourneyDetailPermutations.cs:45-50 | 0 when empty; otherwise the total days of some held journey, and at most that of every held journey |
| Exploration.DeparturesAppend | ShippingRoutes/BusinessObjects.Concrete/RouteProcessor.cs:176-179 | taking a route adds exactly its departure port to the ports the path has departed from |
| Exploration.DescentShrinks | ShippingRoutes/BusinessObjects.Concrete/RouteProcessor.cs:175-185 | descending along a catalogue route from a port not yet departed from leaves exactly one port fewer to depart from; this is the recursion's measure |
| Exploration.ExploreFromUnfold | ShippingRoutes/BusinessObjects.Concrete/RouteProcessor.cs:131-135 | exploring from a port means exploring, in catalogue order, each route the repository lists for that port |
| Exploration.ExploreRoutesStep | ShippingRoutes/BusinessObjects.Concrete/RouteProcessor.cs:134-135 | taking one more route of the fan-out adds that route's journeys after those of the earlier routes |
| Exploration.ExploreRoutePruned | ShippingRoutes/BusinessObjects.Concrete/RouteProcessor.cs:142-159 | a self-loop, or a route over the day limit or the stop limit, deposits nothing |
| Exploration.ExploreRouteArrives | ShippingRoutes/BusinessObjects.Concrete/RouteProcessor.cs:161-173 | a route within the limits that reaches the destination deposits exactly the extended path when the minimum stops are met, and nothing otherwise |
| Exploration.ExploreRouteRevisits | ShippingRoutes/BusinessObjects.Concrete/RouteProcessor.cs:175-179 | a route back to a port already departed from deposits nothing |
| Exploration.ExploreRouteDescends | ShippingRoutes/BusinessObjects.Concrete/RouteProcessor.cs:181-185 | any other route deposits what exploring from its arrival port along the extended path deposits, and that port has not been departed from |
| Exploration.TrailAppend | ShippingRoutes/BusinessObjects.Concrete/RouteProcessor.cs:142-185 | extending a search path by a non-self-loop catalogue route out of the current port gives a simple walk again |
| Exploration.ExploreFromShape | ShippingRoutes/BusinessObjects.Concrete/RouteProcessor.cs:123-136 | every journey found from a path extends that path by at least one route |
| Exploration.ExploreRoutesShape | ShippingRoutes/BusinessObjects.Concrete/RouteProcessor.cs:131-135 | every journey found through a list of routes extends the path by one of those routes |
| Exploration.ExploreRouteShape | ShippingRoutes/BusinessObjects.Concrete/RouteProcessor.cs:138-186 | every journey found through a route extends the path by that route |
| Exploration.ExploreFromSound | ShippingRoutes/BusinessObjects.Concrete/RouteProcessor.cs:123-136 | from any reachable search state, every journey found satisfies IsIndirectJourney |
| Exploration.ExploreRoutesSound | ShippingRoutes/BusinessObjects.Concrete/RouteProcessor.cs:131-135 | the same for the journeys found through a fan-out |
| Exploration.ExploreRouteSound | ShippingRoutes/BusinessObjects.Concrete/RouteProcessor.cs:138-186 | the same for the journeys found through one branch |
| Exploration.ArrivalSound | ShippingRoutes/BusinessObjects.Concrete/RouteProcessor.cs:161-171 | the journey deposited at the destination satisfies IsIndirectJourney |
| Exploration.ExploreRoutesHas | ShippingRoutes/BusinessObjects.Concrete/RouteProcessor.cs:134-135 | a journey found through one route of the fan-out is among the journeys found through the whole fan-out |
| Exploration.ExploreFromComplete | ShippingRoutes/BusinessObjects.Concrete/RouteProcessor.cs:123-136 | with no negative days, every journey satisfying IsIndirectJourney that extends the current path is found from it |
| Exploration.ExploreRouteComplete | ShippingRoutes/BusinessObjects.Concrete/RouteProcessor.cs:138-186 | the same for the branch along the journey's next route |
| Exploration.PrefixWithinLimits | ShippingRoutes/BusinessObjects.Concrete/RouteProcessor.cs:149-159 | with no negative days, the day and stop pruning never cuts off a prefix of a journey that meets the filters; a journey that arrives has no routes after its arrival |
| Exploration.PrefixDays | ShippingRoutes/BusinessObjects.Concrete/RouteProcessor.cs:149-153 | with no negative days, a prefix together with the next route takes no longer than the journey |
| Exploration.TrailNonNegative | ShippingRoutes/BusinessObjects.Concrete/RouteProcessor.cs:149-153 | a walk over a catalogue without negative days has no negative days |
| Exploration.DescentState | ShippingRoutes/BusinessObjects.Concrete/RouteProcessor.cs:175-185 | along a journey, a route that does not reach the destination leads to a port not yet departed from, and the search state carries over to it |
| Exploration.NextNotDeparted | ShippingRoutes/BusinessObjects.Concrete/RouteProcessor.cs:176-179 | within a simple walk, no route arrives at a port departed from earlier |
| Exploration.ExploreFromDistinct | ShippingRoutes/BusinessObjects.Concrete/RouteProcessor.cs:123-136 | over a catalogue without repeated routes, the search from a port finds no journey twice |
| Exploration.ExploreRoutesDistinct | ShippingRoutes/BusinessObjects.Concrete/RouteProcessor.cs:131-135 | the same through a fan-out without repeated routes |
| Exploration.ExploreRouteDistinct | ShippingRoutes/BusinessObjects.Concrete/RouteProcessor.cs:138-186 | the same through one branch |
| Exploration.IndirectJourneysSound | ShippingRoutes/BusinessObjects.Concrete/RouteProcessor.cs:101-186 | every journey an indirect query finds satisfies IsIndirectJourney: connected, simple, no self-loop, only its last route arrives, within the filters |
| Exploration.IndirectJourneysComplete | ShippingRoutes/BusinessObjects.Concrete/RouteProcessor.cs:101-186 | with no negative days, every journey satisfying IsIndirectJourney is found |
| Exploration.IndirectJourneysDistinct | ShippingRoutes/BusinessObjects.Concrete/RouteProcessor.cs:101-186 | over a catalogue without repeated routes, no journey is found twice |
| Exploration.IndirectJourneysExactlyOnce | ShippingRoutes/BusinessObjects.Concrete/RouteProcessor.cs:101-186 | with both conditions, each journey is found once if it satisfies IsIndirectJourney, and otherwise not at all |
| Exploration.TrailDepartures | ShippingRoutes/BusinessObjects.Concrete/RouteProcessor.cs:176-179 | a simple walk departs from as many distinct ports as it has routes, all of them catalogue departure ports |
| Exploration.JourneyLengthBound | ShippingRoutes/BusinessObjects.Concrete/RouteProcessor.cs:115-118 | whatever the filters, no journey found is longer than the number of catalogue ports with departing routes |
| RouteProcessing.LegsChain | ShippingRoutes/BusinessObjects.Concrete/RouteProcessor.cs:61-77 | the legs the direct validator collects are catalogue routes forming a connected chain from the source, leg i arriving at stop i |
| RouteProcessing.ExtendsStep | ShippingRoutes/BusinessObjects.Concrete/RouteProcessor.cs:134-135 | after one more branch of the fan-out, the accumulator has gained exactly the earlier branches' journeys plus this branch's |
| RouteProcessing.RouteProcessor.constructor | ShippingRoutes/BusinessObjects.Concrete/RouteProcessor.cs:38-41 | keeps the repository it is given; no accumulator exists yet |
| RouteProcessing.RouteProcessor.CalcJourneyDetailsForDirectRouteSet | ShippingRoutes/BusinessObjects.Concrete/RouteProcessor.cs:51-81 | a fresh journey:<br>- empty when there are no stops;<br>- its routes are the leg lookups in order, stopping at the first missing leg;<br>- valid exactly when there is at least one stop and every leg exists |
| RouteProcessing.RouteProcessor.CalcJourneyDetailsForInDirectRoutes | ShippingRoutes/BusinessObjects.Concrete/RouteProcessor.cs:101-113 | a fresh accumulator, kept by the processor, holding exactly the multiset IndirectJourneys gives:<br>- every journey held satisfies IsIndirectJourney;<br>- with no negative days, every such journey is held;<br>- if the catalogue also repeats no route, each is held exactly once;<br>- `HasValidPermutations` is true exactly when `IndirectJourneys` is non-empty, and, with no negative days, exactly when some journey satisfies `IsIndirectJourney`;<br>- the three filters default to Unset, as the optional arguments do |
| RouteProcessing.RouteProcessor.RecursiveAddIndirectJourneyRoutesFromPort | ShippingRoutes/BusinessObjects.Concrete/RouteProcessor.cs:123-136 | appends the pending route to the path; the accumulator keeps its journeys and gains exactly those ExploreFrom gives, in any order |
| RouteProcessing.RouteProcessor.ProcessIndirectRoute | ShippingRoutes/BusinessObjects.Concrete/RouteProcessor.cs:138-186 | the accumulator keeps its journeys and gains exactly those ExploreRoute gives for this branch, in any order; the caller's path is untouched |
| Scenarios.AToB | TestShippingRoutes/RouteProcessorIndirectTest.cs:91-102 | on the unit-test catalogue, A to B finds exactly one journey, the single route A→B |
| Scenarios.AToD | TestShippingRoutes/RouteProcessorIndirectTest.cs:105-117 | A to D finds exactly two journeys: A→B→C→D and A→B→D |
| Scenarios.AToZ | TestShippingRoutes/RouteProcessorIndirectTest.cs:121-132 | A to Z finds nothing |
| Scenarios.ZToA | TestShippingRoutes/RouteProcessorIndirectTest.cs:135-146 | Z to A finds nothing, since Z has no routes |
| Scenarios.XToX | TestShippingRoutes/RouteProcessorIndirectTest.cs:149-160 | X to X finds nothing: its only route is a self-loop |
| Scenarios.AToA | TestShippingRoutes/RouteProcessorIndirectTest.cs:164-176 | A back to A finds exactly two journeys |
| Scenarios.BToB | TestShippingRoutes/RouteProcessorIndirectTest.cs:179-208 | B back to B finds exactly four journeys; the shortest takes 6 days |
| Scenarios.BToBAtMost3Stops | TestShippingRoutes/RouteProcessorIndirectTest.cs:212-224 | with at most 3 stops, three journeys |
| Scenarios.BToBExactly3Stops | TestShippingRoutes/RouteProcessorIndirectTest.cs:227-239 | with exactly 3 stops, two journeys; the shortest takes 7 days |
| Scenarios.BToBWithin8Days | TestShippingRoutes/RouteProcessorIndirectTest.cs:242-254 | within 8 days, three journeys |
| Scenarios.BToBWithin5Days | TestShippingRoutes/RouteProcessorIndirectTest.cs:257-268 | within 5 days, none |
| Scenarios.BToBWithin9Days | TestShippingRoutes/RouteProcessorIndirectTest.cs:272-284 | within 9 days, all four journeys |
| Scenarios.BToBExactly3StopsWithin9Days | TestShippingRoutes/RouteProcessorIndirectTest.cs:287-300 | with exactly 3 stops and within 9 days, two journeys; the shortest takes 7 days |
| Landscape.Processor | TestShippingRoutes/IntegrationTestsForGivenScenarios.cs:26-60 | the repository populated with the five ports and nine routes of the landscape, behind a fresh processor |
| Landscape.DirectBaNyLv | TestShippingRoutes/IntegrationTestsForGivenScenarios.cs:67-78 | BA, NY, LV is a valid journey of 10 days |
| Landscape.DirectBaCbLv | TestShippingRoutes/IntegrationTestsForGivenScenarios.cs:84-95 | BA, CB, LV is a valid journey of 8 days |
| Landscape.DirectBaNyLvCb | TestShippingRoutes/IntegrationTestsForGivenScenarios.cs:101-112 | BA, NY, LV, CB is a valid journey of 13 days |
| Landscape.DirectBaCtCb | TestShippingRoutes/IntegrationTestsForGivenScenarios.cs:119-129 | BA, CT, CB is invalid and keeps the one leg found before the missing one |
| Landscape.DirectNoStops | TestShippingRoutes/RouteProcessorDirectTest.cs:38-49 | a direct journey with no stops is invalid and holds no route |
| LandscapeSearch.BaToLv | TestShippingRoutes/IntegrationTestsForGivenScenarios.cs:136-147 | BA to LV finds four journeys; the shortest takes 8 days |
| LandscapeSearch.IndirectBaLvShortest | TestShippingRoutes/IntegrationTestsForGivenScenarios.cs:136-147 | through the processor, BA to LV has journeys, and the shortest takes 8 days |
| LandscapeSearch.NyToNy | TestShippingRoutes/IntegrationTestsForGivenScenarios.cs:153-164 | NY back to NY finds two journeys; the shortest takes 18 days |
| LandscapeSearch.IndirectNyNyShortest | TestShippingRoutes/IntegrationTestsForGivenScenarios.cs:153-164 | through the processor, NY back to NY has journeys, and the shortest takes 18 days |
| LandscapeSearch.LvToLvAtMost3Stops | TestShippingRoutes/IntegrationTestsForGivenScenarios.cs:171-182 | LV back to LV with at most 3 stops finds two journeys |
| LandscapeSearch.IndirectLvLvAtMost3Stops | TestShippingRoutes/IntegrationTestsForGivenScenarios.cs:171-182 | through the processor, the same query has journeys, and there are 2 |
| LandscapeSearch.BaToLvExactly4Stops | TestShippingRoutes/IntegrationTestsForGivenScenarios.cs:188-199 | BA to LV with exactly 4 stops finds one journey |
| LandscapeSearch.IndirectBaLvExactly4Stops | TestShippingRoutes/IntegrationTestsForGivenScenarios.cs:188-199 | through the processor, the same query has journeys, and there is 1 |
| LandscapeSearch.LvToLvWithin25Days | TestShippingRoutes/IntegrationTestsForGivenScenarios.cs:206-217 | LV back to LV within 25 days finds three journeys |
| LandscapeSearch.IndirectLvLvWithin25Days | TestShippingRoutes/IntegrationTestsForGivenScenarios.cs:206-217 | through the processor, the same query has journeys, and there are 3 |
| LandscapeSearch.LvToLvWithin18Days | TestShippingRoutes/IntegrationTestsForGivenScenarios.cs:223-234 | LV back to LV within 18 days finds two journeys |
| LandscapeSearch.IndirectLvLvWithin18Days | TestShippingRoutes/IntegrationTestsForGivenScenarios.cs:223-234 | through the processor, the same query has journeys, and there are 2 |

## Left out

- Parallel fan-out: `Parallel.ForEach` (RouteProcessor.cs:134-135) is modelled as a sequential loop over the routes the repository lists. Because the source leaves deposit order to a race, the contracts of the recursive methods and of `CalcJourneyDetailsForInDirectRoutes` state only the multiset of deposited journeys, never their order. The unsynchronised `List.Add` from parallel branches is a data race and is not modelled.
- Accumulator contents: the accumulator stores each deposited journey's route sequence by value, not a reference to the `JourneyDetails` object. The source never changes a deposited clone again, so the values are the same.
- List aliasing: the C# `PopulatePorts` and `PopulateShippingRoutes` (RouteDataRepository.cs:25-34) keep the caller's `List<>` by reference, `ListPorts` (lines 39-42) returns that same list, and the `ShippingRoutes` getter of `JourneyDetails` and the `ValidJourneyDetailsCollections` getter of `JourneyDetailPermutations` hand out their live lists. The model stores and returns sequence values, so the stored and returned lists are copies: a caller's later `Add` or `Clear` on such a list, and the change it would make to the repository or journey, is not modelled. These members are `DataAccess.RouteDataRepository.PopulatePorts`, `DataAccess.RouteDataRepository.PopulateShippingRoutes`, `DataAccess.RouteDataRepository.ListPorts` and the `shippingRoutes` and `validJourneyDetailsCollections` fields.
- Repository before population: the C# fields are null until `PopulatePorts` / `PopulateShippingRoutes` runs, and a query before then throws. The model starts with empty lists instead.
- Query fields: the filters are processor fields set at the start of each indirect call, as in the source. Reentrant or concurrent top-level calls on one processor are not modelled.
- Interfaces and mocks: `IRouteProcessor` and `IRouteDataRepository` only declare signatures; the model uses the concrete classes directly. The doc comment of `IRouteProcessor` says the indirect result may be null, but the implementation always returns an accumulator, and the model follows the implementation. The mocked unit tests are modelled as a fixed catalogue holding the same routes. The mocked direct unit tests other than the no-stops case are not restated; the landscape direct scenarios exercise the same paths.
- CalcJourneyDetailsForDirectRouteSet: the `params string[]` argument is a sequence of stop codes.
- Integer width: travel days, stop counts and day totals are unbounded integers. The 32-bit `int` sums of the source could overflow, which the model does not capture.
- Permutations.ShortestDays: `MinBy` comes from an extension library that is not part of this model. It is modelled as a plain minimum of the total days, and only the value is stated, not which journey `MinBy` picks on a tie.
- Port names: `Port` carries its name, but nothing in the core reads it.
- Exploration.IndirectJourneysComplete: completeness is proved only for catalogues without negative travel days. With a negative route, the day pruning can cut off a branch whose later routes would bring the total back under the limit.
- Exploration.IndirectJourneysExactlyOnce: additionally needs a catalogue without repeated routes. A repeated route yields the same journey once per copy.
