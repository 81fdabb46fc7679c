# Hansa map, river and transport costs in Dafny

Hansa generates a landscape of named cities and prices the movement of
goods between them.

**Positions.**
- Every city sits at a position in the unit cube.
- `x` runs west to east, `y` south to north, and `z` is altitude.
- A position is valid only when all three coordinates lie in `[0, 1]`.
- It has a quadrant: `N`/`S` from `y`, `E`/`W` from `x`.
- It has a centrality tag (inner, core or outer) from its planar distance
  to the centre.

**Generating a map.**
- `generate` places one city per letter `a`, `b`, ….
- Coastal positions (`x <= 0.15` or `x >= 0.85`) become islands, coastal
  cities or deltas.
  - Islands lie in the outer bands (`x <= 0.05` or `x >= 0.95`).
  - Each kind has its altitude lowered and draws its name from its own
    table.
  - Each also joins the east or west coast set, and islands join an isles
    set too.
- Inland cities keep their altitude and get a random economic type.

**The river.**
- It starts from the highest and lowest seed cities: the first city and every inland one.
- It grows by repeatedly inserting a city near the midpoint of two
  consecutive river cities.
- Finally it is attached to the nearest coastal city no higher than its
  lowest point.
- The river is a set. Its path is the set sorted by descending altitude.

**Costs.**
- Land cost is distance weighted by climb. Islands have no land route.
- River cost sums segment distances, divided by 12 downstream and by 8.5
  upstream.
- Sea cost is a tenth of the distance between cities on the same coast.
- `transport_cost` selects among these and the ports between them.

**City economics.**
- A city's terrain (labour per good) is derived from its type's
  modifiers and a random disturbance.
- Labour, proposals, allocations and the advisor's ranking are computed
  from that terrain.
- So are the utility multipliers of `lib/hansa.rb`.

**Modules**, one per source concept:
- `Common`: errors, `Result` and `Option`.
- `Vectors`: 3-vectors and an abstract magnitude.
- `MapPosition`: the position class of `map.rb`.
- `CachedPosition`: the richer position class in `position.rb`, which
  caches its fields.
- `Regions`: the coast and isles bands and altitude settling.
- `Paths`: the river path's sort, the index and segment sums, and the
  nearest-port choice.
- `Goods`: `Hansa.modified`, `labor_cost` and `mult`.
- `CityNames`: name selection.
- `Cities`: `City`.
- `HansaMap`: the `Map` class.

Structures the source updates in place are modelled as classes:
- the `Map`, with its tables, its coast, isles and river sets, and the
  insertion order of its cities;
- `City`.

Their methods are proved against specification functions and predicates.

Modelling choices:
- A Ruby `Hash` is a sequence of key/value pairs, so iteration order is
  kept.
- Distance is `mag(p - q)`, where `mag` is any function satisfying the
  two norm laws used: it is never negative, and scaling a vector by `k`
  scales its magnitude by `|k|`.
- `rand`, `sample` and `Position.random` become parameters:
  - a `Draw` per city (three coordinates and the `rand(2)` coin);
  - the inland type chosen per city;
  - a noise value per good;
  - for `sample`, a nondeterministic choice from the candidate set.

## Model

| member | source | states |
|---|---|---|
| MapPosition.New | lib/hansa/map.rb:24-35 | construction succeeds iff each of x, y, z lies in [0,1] (boundaries included), otherwise fails with OutOfBounds; on success the coordinates are the ones given |
| MapPosition.Midpoint | lib/hansa/map.rb:14-18 | the midpoint of two valid positions never fails and is the per-axis average |
| MapPosition.MidpointEquidistant | lib/hansa/map.rb:10-18 | the midpoint lies at half the distance between the endpoints from each of them |
| MapPosition.Flatten | lib/hansa/map.rb:49-51 | keeps x and y and sets the altitude to zero |
| MapPosition.Quadrant | lib/hansa/map.rb:61-71 | two letters: the first is 'N' iff y > 0.5 and 'S' otherwise, the second is 'E' iff x > 0.5 and 'W' otherwise |
| MapPosition.Central | lib/hansa/map.rb:73-86 | inner iff radius < 0.2, core iff 0.2 <= radius < 0.4, outer iff radius >= 0.4, so the tags are exhaustive and exclusive |
| MapPosition.CentralIgnoresAltitude | lib/hansa/map.rb:84-86 | the radius is measured on the flattened position, so positions differing only in altitude have the same centrality |
| Vectors.DistanceNonNegative | lib/hansa/map.rb:10-12 | distance is never negative |
| Vectors.DistanceSymmetric | lib/hansa/map.rb:10-12 | distance from p to q equals distance from q to p |
| Vectors.DistanceToSelf | lib/hansa/map.rb:10-12 | a point is at distance zero from itself |
| Vectors.AverageEquidistant | lib/hansa/position.rb:33-37 | the per-axis average of two vectors is at half their distance from each |
| CachedPosition.QuadrantOf | lib/hansa/position.rb:8-25 | north iff y > 0.5, east iff x > 0.5, and the tag is built from the two letters, so it is one of NE, NW, SE, SW |
| CachedPosition.Radial | lib/hansa/position.rb:72-82 | dimension 3 gives the centre (0.5,0.5,0.5) minus the vector; dimension 2 gives the same in x and y with a zero z; any other dimension fails |
| CachedPosition.RadialPlanarIsFlattened | lib/hansa/position.rb:72-82 | the planar radial vector is the spatial one with its z set to zero |
| CachedPosition.Position.Init | lib/hansa/position.rb:54-57 | stores the vector and fills the cached radial vectors, flags and quadrant so that they agree with it |
| CachedPosition.Position.New | lib/hansa/position.rb:44-58 | fails with OutOfBounds iff some coordinate lies outside [0,1]; otherwise yields a fresh position with those coordinates whose caches are consistent |
| CachedPosition.Position.Midpoint | lib/hansa/position.rb:33-37 | yields a fresh valid position at the per-axis average, equidistant from both endpoints |
| CachedPosition.Position.Central | lib/hansa/position.rb:92-100 | inner iff the planar radius < 0.2, core iff 0.2 <= radius < 0.4, outer otherwise |
| CachedPosition.AgreesWithMapPosition | lib/hansa/position.rb:92-100 | the cached quadrant and centrality equal those the map's position class computes for the same coordinates |
| CachedPosition.AboveCentreIsInner | lib/hansa/position.rb:92-100 | a position above the centre of the square has planar radius zero and is inner |
| Regions.WestIsles | lib/hansa/map.rb:98-104 | a west-isles position is on the west coast and not on the east coast |
| Regions.EastIsles | lib/hansa/map.rb:106-112 | an east-isles position is on the east coast and not on the west coast |
| Regions.CoastsDisjoint | lib/hansa/map.rb:102-108 | no position is on both coasts |
| Regions.SettlementOf | lib/hansa/map.rb:149-174 | inland iff on neither coast, island iff in either isles band, coastal iff on a coast outside the isles with the coin at zero (otherwise delta) |
| Regions.Settle | lib/hansa/map.rb:149-167 | keeps x and y; halves an island's altitude, divides a coastal's by 20 and a delta's by 10, and leaves an inland altitude untouched |
| Regions.SettleKeepsSettlement | lib/hansa/map.rb:149-170 | lowering the altitude does not change a position's classification, so the sets filled after lowering see the same bands |
| Regions.MainlandAltitudeCrushed | lib/hansa/map.rb:158-167 | a mainland coastal or delta city ends at most one tenth of its drawn altitude |
| Paths.Insert | lib/hansa/map.rb:320-322 | inserting a name into a path ordered by descending altitude adds exactly that name and keeps the order |
| Paths.SortByAltitude | lib/hansa/map.rb:320-322 | `sort_by { -z }`: a permutation of its input ordered by non-increasing altitude |
| Paths.PermutationKeepsMembers | lib/hansa/map.rb:320-322 | a permutation of a duplicate-free path is duplicate-free and has the same members and length |
| Paths.StrictlyDescending | lib/hansa/map.rb:320-322 | with pairwise-distinct altitudes, an earlier path element is strictly higher than a later one |
| Paths.SegmentCostFront | lib/hansa/map.rb:352-355 | the accumulated cost of a path is its first segment's distance over the divisor plus the cost of the rest |
| Paths.Reverse | lib/hansa/map.rb:345 | element i of the reversal is element \|s\|-1-i of the input |
| Paths.ReversedSliceWithin | lib/hansa/map.rb:345 | a reversed slice of the path holds only path members, its element k being the slice's last element minus k |
| Paths.SegmentCostReverse | lib/hansa/map.rb:344-355 | a reversed path has the same members and the same accumulated cost under one divisor |
| Paths.SegmentCostScales | lib/hansa/map.rb:352-355 | the accumulated cost times the divisor is the path's plain length |
| Paths.SegmentCostNonNegative | lib/hansa/map.rb:352-355 | accumulated costs are never negative |
| Paths.Nearest | lib/hansa/map.rb:417-433 | `sort_by { distance }.first`: none iff the candidates are empty, otherwise a candidate at minimal distance |
| Paths.IndexOf | lib/hansa/map.rb:342-343 | `Array#index`: the first position at which the name occurs |
| Paths.Last | lib/hansa/map.rb:305 | `Array#last`: none iff the path is empty, otherwise its final element |
| Paths.Filter | lib/hansa/map.rb:244 | keeps, in order, exactly the elements in the given set, without introducing duplicates |
| Common.Plus | lib/hansa/map.rb:376 | the sum of two costs fails iff either does, with the left error first, and otherwise adds them |
| Goods.Lookup | lib/hansa.rb:244 | `hsh[key]` is nil iff the key is absent |
| Goods.Modifications | lib/hansa.rb:239-246 | LABOR's keys in LABOR's order, each mapped to its labour times the type's modifier or 1 |
| Goods.ModificationsWithoutMods | lib/hansa.rb:101-102 | with the empty modifier set of the nil type, the result is LABOR itself |
| Goods.Modified | lib/hansa.rb:239-246 | fails with KeyError iff the type is not in CITY_TYPES, otherwise computes the modifications |
| Goods.LaborOf | lib/hansa.rb:249-255 | fails with KeyError iff some good is missing from the terrain; otherwise the goods' keys in order, each mapped to count * terrain[good] |
| Goods.LaborCost | lib/hansa.rb:249-255 | the hash-building loop computes exactly LaborOf |
| Goods.LaborOfErrExtends | lib/hansa.rb:251-253 | a single good missing from the terrain makes the whole computation fail |
| Goods.Mult | lib/hansa.rb:258-260 | DMU^n * ICU^k is positive |
| Goods.MultOfNothing | lib/hansa.rb:258-260 | mult(0, 0) = 1 |
| Goods.MultDiminishes | lib/hansa.rb:258-260 | one more unit of the good multiplies by DMU and so lowers the multiplier |
| Goods.MultComplements | lib/hansa.rb:258-260 | one more other good multiplies by ICU and so raises the multiplier |
| CityNames.Letter | lib/hansa/map.rb:146 | `(97 + i).chr` for i < 26 is a lower-case letter |
| CityNames.LettersDisjoint | lib/hansa/map.rb:145-146 | in tables whose names start with their letter, a name under one letter is never under another |
| CityNames.Fetch | lib/hansa/city_names.rb:4 | `fetch` yields the table entry iff the letter is a key, else KeyError |
| CityNames.Pool | lib/hansa/city_names.rb:4-12 | the primary names minus the exclusions when nonempty; otherwise the fallback minus the exclusions, failing when that is empty too; never an excluded name |
| CityNames.Union | lib/hansa/city_names.rb:6-7 | the union of two fetched tables fails iff either fetch does, else joins them |
| CityNames.NameCandidates | lib/hansa/city_names.rb:3-13 | NAMES minus exclude when nonempty, else (MOUNTAIN_NAMES + NAMES) minus exclude, failing only when that is empty or a table lacks the letter |
| CityNames.CoastalCandidates | lib/hansa/city_names.rb:15-25 | COASTAL_NAMES minus exclude when nonempty, else (ISLAND_NAMES + COASTAL_NAMES) minus exclude, failing only when that is empty or a table lacks the letter |
| CityNames.DeltaCandidates | lib/hansa/city_names.rb:27-37 | DELTA_NAMES minus exclude when nonempty, else (NAMES + COASTAL_NAMES) minus exclude, failing only when that is empty or a table lacks the letter |
| CityNames.MountainCandidates | lib/hansa/city_names.rb:39-46 | mountain names minus exclude when nonempty, else exactly what `name` offers |
| CityNames.IslandCandidates | lib/hansa/city_names.rb:48-55 | island names minus exclude when nonempty, else exactly what `coastal_name` offers |
| CityNames.Candidates | lib/hansa/city_names.rb:3-55 | whichever selector is asked, a successful pool is nonempty and disjoint from the exclusions |
| CityNames.Sample | lib/hansa/city_names.rb:12 | `sample` picks some member of a nonempty pool and passes a failure through |
| CityNames.ChooseName | lib/hansa/city_names.rb:3-55 | the chosen name is one of the locale's candidates and never excluded; it fails exactly when the candidates do |
| CityNames.LetteredNeverKeyError | lib/hansa/city_names.rb:3-55 | with tables keyed by every letter, the only possible failure is running out of candidates |
| CityNames.NothingExcluded | lib/hansa/city_names.rb:3-13 | with nothing excluded, the candidates are the whole NAMES entry |
| Cities.Dmu | lib/hansa/city.rb:175-191 | the diminishing marginal utility lies in [0.9, 1.0) |
| Cities.Icu | lib/hansa/city.rb:195-211 | the increasing complementary utility lies in (1.0, 1.1] |
| Cities.DmuNonDecreasing | lib/hansa/city.rb:175-191 | a larger population never has a smaller dmu |
| Cities.IcuNonIncreasing | lib/hansa/city.rb:195-211 | a larger population never has a larger icu |
| Cities.LaborCheck | lib/hansa/city.rb:213-219 | fails with LaborShortfall iff labour exceeds the population, and otherwise returns the labour unchanged |
| Cities.AtLeastOne | lib/hansa/city.rb:158 | `[1, v].max`: at least 1 and at least v, and equal to one of them |
| Cities.Clamped | lib/hansa/city.rb:155-160 | LABOR's keys in order with every value at least 1 |
| Cities.ClampedIsModifiedAtLeastOne | lib/hansa/city.rb:157-158 | each value is max(1, labour * (modifier or 1)) |
| Cities.ModifyOf | lib/hansa/city.rb:151-161 | fails with KeyError iff the type is not in TYPES |
| Cities.Modify | lib/hansa/city.rb:151-161 | the hash-building loop computes ModifyOf |
| Cities.Round | lib/hansa/city.rb:168 | `Float#round` yields an integer within one half of its argument |
| Cities.Disturbed | lib/hansa/city.rb:167-168 | a disturbed labour value is a whole number of at least 1 |
| Cities.Terrain | lib/hansa/city.rb:164-171 | fails with KeyError iff the type is unknown; otherwise LABOR's keys, each the modified labour disturbed by its own noise draw, a whole number of at least 1 |
| Cities.IslandAndDeltaHaveNoTerrain | lib/hansa/city.rb:238-241 | with TYPES as in the source, a city of type island or delta cannot obtain a terrain: `modify` fails with KeyError |
| Cities.Economy | lib/hansa/map.rb:139-143 | island and delta cities take the coastal and farming economies; every other type keeps its own |
| Cities.EconomyHasTerrain | lib/hansa/city.rb:238-241 | with TYPES as in the source, the economy of every city type has a terrain |
| Cities.UnitsWithinLabor | lib/hansa/city.rb:297 | `(labor / cost).floor` units cost no more than the labour, and one unit more would cost more |
| Cities.UnitsOf | lib/hansa/city.rb:295-298 | fails with KeyError iff a good is missing from the terrain; otherwise the goods in order, each with the most whole units its labour pays for: they cost no more than it, one more would cost more |
| Cities.UnitsOfErrExtends | lib/hansa/city.rb:295-298 | a single good missing from the terrain makes the whole allocation fail |
| Cities.RatiosOf | lib/hansa/city.rb:305-309 | fails with KeyError iff a terrain good has no consumption entry; otherwise each terrain good mapped to utils / labour^pow |
| Cities.RatiosOfErrExtends | lib/hansa/city.rb:306-308 | a single good missing from consumption makes the whole computation fail |
| Cities.InsertByValue | lib/hansa/city.rb:310 | inserting a pair adds exactly that pair |
| Cities.InsertByValueOrdered | lib/hansa/city.rb:310 | inserting into a list ordered by non-increasing value keeps it ordered |
| Cities.SortByValue | lib/hansa/city.rb:310 | `sort_by { -v }`: a permutation ordered by non-increasing value |
| Cities.City.Init | lib/hansa/city.rb:224-230 | stores name, population and type, with dmu and icu taken from the population |
| Cities.City.New | lib/hansa/city.rb:224-241 | fails iff the economy of the type has no modifiers (never with TYPES as in the source, because the economy replaces the type); otherwise a fresh valid city with the given name, population and type, dmu and icu from the population, and the terrain drawn for the economy with the given noise |
| Cities.City.SetType | lib/hansa/city.rb:238-241 | fails iff the new economy has no modifiers and then changes nothing; otherwise sets the type and the terrain drawn for its economy with the given noise, and keeps name, population, dmu and icu |
| Cities.City.Labor | lib/hansa/city.rb:246-252 | the goods' keys, each mapped to count * terrain[good], failing with KeyError when the terrain lacks a good |
| Cities.City.ProposalOf | lib/hansa/city.rb:276-287 | KeyError iff the labour cannot be computed; otherwise LaborShortfall iff its total exceeds the population; on success the labour hash is the computed one over the goods' keys, total labour is its sum and leisure is population minus total labour, never negative |
| Cities.City.Propose | lib/hansa/city.rb:276-287 | computes ProposalOf |
| Cities.City.AllocationOf | lib/hansa/city.rb:292-301 | LaborShortfall iff the labour assigned exceeds the population; otherwise it fails iff the units cannot be computed, and on success gives those units and leisure = population minus assigned labour |
| Cities.City.Allocate | lib/hansa/city.rb:292-301 | computes AllocationOf |
| Cities.City.Advisor | lib/hansa/city.rb:304-311 | fails with KeyError iff a terrain good lacks consumption data; otherwise a permutation of the goods' utils-per-labour ratios ordered by non-increasing ratio |
| HansaMap.ClimbThereAndBack | lib/hansa/map.rb:332-334 | climbing and then descending the same slope costs twice the distance |
| HansaMap.ClimbBounds | lib/hansa/map.rb:332-334 | within the cube the land cost lies between half and one and a half times the distance, and is at least the distance exactly when climbing |
| HansaMap.TypeOf | lib/hansa/map.rb:149-174 | island iff in the isles bands, delta iff a mainland coast with the coin at one, coastal for the other mainland coast, the drawn inland type otherwise |
| HansaMap.PathIn | lib/hansa/map.rb:320-322 | the river path is duplicate-free, ordered by descending altitude, and has exactly the river's members |
| HansaMap.InitialledDistinct | lib/hansa/map.rb:145-146 | names chosen under distinct letters are distinct |
| HansaMap.Map.Init | lib/hansa/map.rb:117-131 | a new map has no cities, positions, coast, isles or river |
| HansaMap.Map.Dist | lib/hansa/map.rb:293-295 | fails with KeyError iff either name has no position; otherwise the non-negative distance between them |
| HansaMap.Map.PathOf | lib/hansa/map.rb:320-322 | the path through a set of placed names: duplicate-free, ordered by descending altitude, with exactly its members |
| HansaMap.Map.RiverPath | lib/hansa/map.rb:320-322 | `river_path` holds exactly the river's cities, once each, from highest to lowest |
| HansaMap.Map.OnRiver | lib/hansa/map.rb:316-318 | `river?` yields the river iff both names are on it |
| HansaMap.Map.WaterRoute | lib/hansa/map.rb:301-314 | any answer holds both names and is one of the east coast, the west coast, the river, or the river with one coast; the east coast when it holds both; some answer whenever a coast or the river holds both; none for a city on no water; otherwise the river with the coast its last city lies on, east before west, when that joins both |
| HansaMap.Map.LandCost | lib/hansa/map.rb:324-336 | KeyError iff a city is unknown; no land route iff either is an island; otherwise d * (1 + (z2 - z1) / 2), between d/2 and 3d/2, at least d uphill and at most d downhill |
| HansaMap.Map.LandCostThereAndBack | lib/hansa/map.rb:324-336 | land_cost(a, b) + land_cost(b, a) = 2 * distance(a, b) |
| HansaMap.Map.SeaCost | lib/hansa/map.rb:361-368 | succeeds iff both cities are on the same coast, and is then a tenth of their distance; otherwise no sea route |
| HansaMap.Map.RiverCost | lib/hansa/map.rb:338-359 | succeeds iff both cities are on the river; otherwise no river route |
| HansaMap.Map.ComputeRiverCost | lib/hansa/map.rb:338-359 | the `each_cons` accumulation loop computes RiverCost |
| HansaMap.Map.RiverCostToSelf | lib/hansa/map.rb:338-359 | river_cost(x, x) = 0 for a river city |
| HansaMap.Map.RiverCostNonNegative | lib/hansa/map.rb:338-359 | river costs are never negative |
| HansaMap.Map.RiverCostDownstream | lib/hansa/map.rb:341-355 | downstream, the river cost times 12 is the plain length of the leg walked |
| HansaMap.Map.RiverCostUpstream | lib/hansa/map.rb:344-355 | the return trip costs exactly 12/8.5 times a downstream trip, so reversing a downstream trip never costs less |
| HansaMap.Map.Port | lib/hansa/map.rb:417-433 | none iff there are no candidates; otherwise a candidate at minimal distance from the city; KeyError when the city is unknown and there is a candidate to measure |
| HansaMap.Map.WestPort | lib/hansa/map.rb:417-421 | the nearest port among the west coast minus the west isles |
| HansaMap.Map.EastPort | lib/hansa/map.rb:423-427 | the nearest port among the east coast minus the east isles |
| HansaMap.Map.RiverPort | lib/hansa/map.rb:429-433 | the nearest river city |
| HansaMap.Map.Hop | lib/hansa/map.rb:376-410 | one leg between two ends is that mode's cost; a missing port (nil) makes the leg fail as that mode's primitive would |
| HansaMap.Map.ThroughPort | lib/hansa/map.rb:378-410 | a two-leg journey through a port fails when the port cannot be chosen, and otherwise is the sum of its two legs |
| HansaMap.Map.TransportCost | lib/hansa/map.rb:370-415 | every branch of the dispatch: sea along a shared coast, river along the river, land between inland cities; from a coast to the river, sea to the mouth plus river when the river ends on that coast; from the river to a coast, river to the mouth plus sea, east before west; otherwise a two-leg journey through the nearest port (east or west port of the destination from a coast, river port of the destination from the river, west, east or river port of the start from inland) |
| HansaMap.Map.TransportCostNonNegative | lib/hansa/map.rb:370-415 | every successful transport cost, along any branch, is non-negative |
| HansaMap.Map.FindRiverMidpoint | lib/hansa/map.rb:183-204 | KeyError iff an endpoint is unknown; otherwise the scan's answer `NearestMidpoint`: none iff no city qualifies, else the qualifying city nearest the segment's midpoint and the first such in insertion order |
| HansaMap.Map.PlaceCity | lib/hansa/map.rb:169-177 | records the city's position and type and adds it to the coast and isles sets its band calls for |
| HansaMap.Map.Record | lib/hansa/map.rb:176-177 | stores position and type under the name and appends a new name to the insertion order |
| HansaMap.Map.Register | lib/hansa/map.rb:156-170 | adds a coastal city to its side's coast set and an island also to its side's isles set, and nothing else |
| HansaMap.Map.PlaceDraw | lib/hansa/map.rb:146-177 | one iteration: the name comes from the table for the draw's band, starts with the iteration's letter and is new; the city's position is the settled draw and its type follows the band |
| HansaMap.Map.PlaceCities | lib/hansa/map.rb:145-178 | after the loop every draw has a distinct city, placed, typed and filed into the sets as the draws prescribe, over the map as it was |
| HansaMap.Map.PlaceNext | lib/hansa/map.rb:145-178 | one more iteration extends the placed prefix by one city |
| HansaMap.Map.PlaceAll | lib/hansa/map.rb:145-178 | the placement loop keeps altitudes pairwise distinct and leaves the map nonempty |
| HansaMap.Map.Generate | lib/hansa/map.rb:144-181 | returns the cities in insertion order, after placing the draws and synthesising the river, growth record included, from the river held before |
| HansaMap.Map.SeedRiver | lib/hansa/map.rb:207-220 | apex and gulch are seed cities (the first city or one off both coasts) at maximal and minimal altitude among the seeds |
| HansaMap.Map.ScanForMidpoint | lib/hansa/map.rb:229-236 | the answer is that of the first consecutive pair of the path with a candidate, that pair's nearest midpoint; a found candidate qualifies for the pair at which it was found; none means no pair has a candidate |
| HansaMap.Map.ScanRiver | lib/hansa/map.rb:229-236 | scans the current river path and finds exactly `NextGrowthIn` of the river; nothing found means the river is saturated |
| HansaMap.Map.GrowStep | lib/hansa/map.rb:228-238 | a pass adds something iff `NextGrowthIn` of the river before it names a city, and then adds exactly that city (the measure `\|positions\| - \|river\|` shrinks); otherwise the river stays as it was and is saturated; the record of passes grows by the city added |
| HansaMap.Map.InsertMidpoint | lib/hansa/map.rb:231-234 | adds exactly the candidate found, an inland city not yet on the river |
| HansaMap.Map.AddToRiver | lib/hansa/map.rb:233 | `@river.add` of a new member adds exactly it, and the measure shrinks |
| HansaMap.Map.Extend | lib/hansa/map.rb:222-223 | adds exactly the given cities to the river |
| HansaMap.Map.NotOnRiverBetween | lib/hansa/map.rb:183-204 | with distinct altitudes, a candidate between two consecutive path cities is not already on the river |
| HansaMap.Map.GrowRiver | lib/hansa/map.rb:227-239 | the loop terminates, never removes a city and adds only inland cities; the final river is reached from the first by the passes of `NextGrowthIn` it records, one city each, and a further pass finds nothing, so no consecutive pair has a midpoint |
| HansaMap.ArgMinScanSound | lib/hansa/map.rb:191-203 | the selection loop ends with nil when no city passes the tests, and otherwise with a passing city no farther than any passing city and strictly nearer than every passing city before it |
| HansaMap.ArgMinUnique | lib/hansa/map.rb:191-203 | over distinct cities at most one answer has those properties, so the scan's answer is the only one |
| HansaMap.NearestMidpointCharacterized | lib/hansa/map.rb:183-204 | the scan's answer is none iff no city qualifies; otherwise it is a qualifying city nearest the midpoint and strictly nearer than every earlier qualifying city, and any city with those properties is the answer |
| HansaMap.FirstFoundCharacterized | lib/hansa/map.rb:229-236 | the pair scan finds nothing iff no consecutive pair has an answer; otherwise its answer is that of the first pair that has one |
| HansaMap.NoGrowthSaturated | lib/hansa/map.rb:229-238 | a pass over the river path finds nothing iff no consecutive pair has a midpoint candidate |
| HansaMap.IteratedAppend | lib/hansa/map.rb:228-238 | a pass that finds a city extends the record of passes by that city and the river by it |
| HansaMap.IteratedDeterministic | lib/hansa/map.rb:228-238 | two runs of the growth loop from the same river that both stop where no pass finds anything record the same cities in the same order and end on the same river |
| HansaMap.SynthesisGrowthDetermined | lib/hansa/map.rb:206-239 | in a synthesis of `add_river` the grown river is saturated, and the seeds decide it and the cities the loop added, in order |
| HansaMap.Map.LinkChosen | lib/hansa/map.rb:242-254 | what the link scan promises is the link choice of the synthesis: none iff nothing is attachable, else an attachable city nearest the gulch |
| HansaMap.Map.CoastLink | lib/hansa/map.rb:242-253 | none iff no coastal city other than the gulch is at or below it; otherwise such a city nearest the gulch |
| HansaMap.Map.SeedAndGrow | lib/hansa/map.rb:207-239 | seeds apex and gulch, then grows the river by the recorded passes of `NextGrowthIn` until none applies, using inland cities only, which leaves it saturated |
| HansaMap.Map.Attach | lib/hansa/map.rb:241-255 | adds the chosen coast link, which together with seeding and recorded growth makes the river the synthesis of `add_river` |
| HansaMap.Map.Connect | lib/hansa/map.rb:254 | adding the link to the river changes nothing the synthesis reads |
| HansaMap.Map.AddRiver | lib/hansa/map.rb:206-256 | the returned river is the seed pair grown by the recorded passes of `NextGrowthIn` until none applies, with inland cities only, plus the nearest attachable coast city when there is one |
| HansaMap.Leg | lib/hansa/map.rb:342-350 | from the index of one city to that of the other in the river path, in travel order: divisor 12 iff the first lies at or above the second, 8.5 iff below; the leg has one element per index crossed, element k being path[ia + k] downstream and path[ia - k] upstream |
| HansaMap.CostAlong | lib/hansa/map.rb:341-355 | the accumulated cost along the leg |
| HansaMap.Accumulate | lib/hansa/map.rb:351-355 | the `each_cons` loop sums distance / divisor over consecutive pairs |
| HansaMap.LegToSelf | lib/hansa/map.rb:342-348 | the leg from a city to itself is that city alone |
| HansaMap.LegDownstream | lib/hansa/map.rb:342-355 | downstream, the leg is the slice of the path from the first city to the second, and its cost times 12 is its plain length |
| HansaMap.LegReversed | lib/hansa/map.rb:344-350 | the reversed leg visits the same cities backwards, so its cost is the downstream cost scaled by 12/8.5 |

## Left out

- `render`, `city_report`, `water_report` and both `to_s` methods: output formatting only.
- `City#utility` and `Hansa.utility`: float powers and `.round` give no contract beyond key sets. The `utility` and `total_utility` entries of a proposal are therefore not modelled.
- `Hansa.terrain` (`lib/hansa.rb:230-236`): the same disturbance as `City.terrain` without the clamp; `City.terrain` is modelled.
- `Map#midpoint` (`lib/hansa/map.rb:297-299`): a fetch-and-delegate wrapper that nothing in the core calls.
- Randomness is not modelled as a distribution. `Position.random`, `rand(0)`, `rand(2)`, the inland type's `sample` and the name's `sample` are parameters or a nondeterministic choice.
- The square root behind `Vector#magnitude` is left abstract: distance is `mag(p - q)` for any `mag` obeying the norm laws used. Floating-point rounding is not modelled; costs are exact reals.
- A Ruby `Set` iterates in insertion order. The model walks a set in the order its cities were placed. For the coast sets that is the same order, because `generate` files them in the placement loop. For the river and port scans, order matters only between ties.
- Ties in `sort_by` are not specified by Ruby. The model sorts stably, and `Paths.Nearest` takes the first minimum in the order given.
- The river operations require pairwise-distinct altitudes. Without them the growth loop can re-find a city already on the river, and it need not terminate. `Map.Generate` asks the same of its draws.
- HansaMap.Map.Generate: requires at most 26 draws, because for a 27th the letter is past `z` and `fetch` raises.
- HansaMap.Map.Generate: requires a nonempty map after placement, because `add_river` on an empty map reads `@positions.first` of nothing.
- HansaMap.Map.Generate: requires name tables whose names under a letter start with that letter. This gives each city a new name: the source's `fetch(sym).sample` does not exclude names already used.
- `scale` and `units` on `Map` are only read by the reports, so they are left out.
- Both `MODIFIED` caches are never written, so the lookup always misses. The model computes the modification directly.
- `allocate` puts `:leisure` in the same hash as the goods. The model returns the units and the leisure as two fields.
- The name and labour tables are abstract, with only structural facts kept: keys `a`..`z`, the initial letters of names, and values at least 1.
- The in-place update `pos.vec[2] /= …` of a freshly drawn position is modelled as computing the settled position before it is stored. Nothing else holds that position.
- `CachedPosition.Position.Central` reads the cached planar radial vector's magnitude. The map's own position class computes the radius from a flattened copy, and `CachedPosition.AgreesWithMapPosition` relates the two.
- HansaMap.Map.Generate: it stores only each city's type. It does not build the `City.new` object of lib/hansa/map.rb:176, whose terrain draw raises KeyError for the island and delta types (see Findings), so the model's `Generate` never fails.
- Cities.City.New, Cities.City.SetType: both draw the terrain for `Economy(t)`, the corrected behaviour of the Findings table. The source's `type=` draws it for the type itself and raises KeyError for `:island` and `:delta` (see `Cities.IslandAndDeltaHaveNoTerrain`).
- HansaMap.Map.WaterRoute: when no single coast or the river joins the cities, the source answers `false` if the river ends on no coast and `nil` if the river with its coast does not hold both. The model answers None for both, and no caller tells them apart.
- Cities.RatiosOf, Cities.City.Advisor: the power is a natural number. Ruby's `advisor(pow = 1)` accepts any numeric power; a real power has no closed form here. The source's own tests use powers 1 and 2.
- HansaMap.Map.RiverCost: its contract states when a river route exists; its value is stated by `RiverCostToSelf`, `RiverCostNonNegative`, `RiverCostDownstream`, `RiverCostUpstream` and the `Leg` lemmas.

### Details of the code the model keeps

- A mainland coastal altitude is divided by 20 (by 10 and then by 2), a delta altitude by 10.
- Each side has two thresholds, the isles band and the coast band. Deltas are mainland coast cities chosen by `rand(2)`, and they are filed in the coast sets.
- `add_river` puts no floor under the gulch and no radius on the coast link.
  - The seed scan starts from the first city even when it is coastal.
  - It updates apex and gulch with `if`/`elsif`.
- The linked coast city joins the river and no other set.
- The midpoint search excludes the two endpoints and the coast cities, and no other river city.
- `land_cost` takes only the two names.

## Findings

| source | as written | input that shows it | evidently intended | confidence | as-written member | corrected member |
|---|---|---|---|---|---|---|
| lib/hansa/city.rb:238-241 | `type=` builds the terrain from `TYPES.fetch(type)`, and `TYPES` has no `:island` or `:delta` key. `generate` (lib/hansa/map.rb:154, 165, 176) creates cities of exactly those types, so it raises KeyError on the first island or delta city. | `generate` with a draw whose x is at most 0.05 (an island), or a mainland coast draw with `rand(2) == 1` (a delta) | islands take the coastal economy and deltas the farming one, as the comment at lib/hansa/map.rb:139-143 describes, and keep their own type | not executed | Cities.IslandAndDeltaHaveNoTerrain | Cities.EconomyHasTerrain, Cities.City.New, Cities.City.SetType |
