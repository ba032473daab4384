# nttd in Dafny

nttd lets agents play OpenTTD against a benchmark. This project models the parts of it that decide
something by reasoning rather than by plumbing, and proves what they promise:

- **Route search.** A reopening A* over a heap, a score map and a parent map, without a closed set and
  without decrease-key, over the road, rail and water cost functions, the bridge and tunnel scans and
  the batched tile cache.
- **GameScript transport.** Calls and replies over a stream that may garble packets: fresh ids, chunks
  in any order, timeouts, resynchronisation, connection losses. A binary command-name table beside it.
- **Text and settings.** The INI patcher as a map update, the session file built with it, the benchmark
  profile, the settings of scored worlds, and the identity of a task.
- **Ledgers.** The bounded action tracker and the submission flow on top of it, the end conditions of
  a run, reported spend seen three ways, and the calendar.

## How it is laid out

Each module follows one source file or one concern. Code that updates fields or arrays in place is a
class or a method with loops (`TileCache`, `AdminClient`, `ActionTracker`, `EndConditionChecker`,
`ParticipantReport`, `FindPath`, the INI and table parsers), proved equal to a specification function;
the theorems about whole runs are lemmas over those functions.

| files | what they hold |
|---|---|
| `PathGraph`, `SearchInvariant`, `Lineage`, `Popping`, `Astar`, `RoutePlanning`, `Itineraries`, `Scaling` | neighbour graphs and routes, the reopening invariant, which entry made which, how many turns a search can take, the search, its answer for every route, what a path tells its builder |
| `Bits`, `StateKeys`, `Tiles`, `TileCache`, `Crossings` | state keys as the code packs them, tiles, batched loading, bridge and tunnel scans |
| `Road`, `Rail`, `Water`, `RailRoutes` | the three cost functions, and rail geometry |
| `RailWorlds`, `RailBlindness`, `RailOverpaying` | worlds for the rail search, from which starts it can miss a route, and from which it can exceed its bound |
| `Service` | the route service on its cache, and what its answers say of the world |
| `Json`, `KeyedSort`, `Chunks`, `Splitting`, `Transport`, `CommandNames` | chunked replies, how the script splits them, the client as a protocol, the command-name table |
| `Text`, `Ini`, `GlobalPatch`, `PatchEffects`, `SessionConfig`, `FinishedConfig`, `Swallowing` | lines and whitespace, the two patchers, what they leave alone, the session file, what it says when finished, and a patch that runs on into another line |
| `BenchmarkProfiles`, `ScoredWorlds`, `WrittenWorlds`, `TaskIdentity`, `Decimals` | admission to scored play, settings of scored worlds and what their text says, task ids, integers as text |
| `OrderedMaps`, `Tracker`, `EndConditions`, `Calendar` | insertion-ordered maps, at-most-once actions, end conditions over runs, dates |
| `Totals`, `Spend`, `ParticipantReports`, `SpendFeed` | sums over parts of a sequence, and the views of reported spend |
| `Options`, `Sequences` | shared small definitions |

Terms used in the table: a *route* is a sequence of steps of the neighbour graph; a cost function has
*weight w* when its estimate falls by at most w times the price of each step (1 is consistency). The
search knows a state only by its packed key, and never goes back into the start's key.

## What the code does not do

Where the code departs from what its comments or documentation say, the model follows the code, and a
lemma says exactly when the departure shows:

- **Rail search can miss existing routes, and overpay.** The start is filed under an undirected key, which is
  also the directed key of a state at a quarter of its row, and the search never enters that hidden state. Where no
  route enters it, because it is not loaded or out of reach, the bound of two and completeness hold
  (`RailRoutes.PlanRail`, `RailRoutes.UnloadedIsSighted`, `Service.FreshCorridorIsSighted`). For exactly the starts
  whose hidden state the map can show, some freshly loaded corridor hides a goal, and in some the search pays more
  than twice the cheapest route (`RailBlindness.BlindnessIsExact`, `RailOverpaying.OverpayingIsExact`).
- **"No route exists" is said of the corridor.** `Service.Pathfind` says it of the world's routes that stay in
  the corridor; `Service.SomeRouteLeavesTheCorridor` gives, for any margin, a world whose only route leaves it.
- **Two documented prices are not the charged ones.** Every rail turn costs 100, though the cost model lists
  600 for a right angle, and an existing road, called free to use, costs half of a new one
  (`Rail.FeaturesAddUp`, `Rail.TrackIsHalfPrice`, `Road.RoadIsHalfPrice`).
- **A retry does not always repeat the first answer.** The tracker stores neither error code nor name nor
  category, and keeps the changed entities of an action for which working out the touched area raised
  (`Tracker.ReplayIsFaithfulIff`, `Tracker.RetryTells`).
- **A refused token leaves the action pending.** The tracker takes an action in before its token is looked at.
  A later authorised submission is then sent, but keeps the place in the order that the refused one got, so that
  fewer than `max_history` insertions can evict it and have it sent again (`Tracker.FullBoundIff`,
  `Tracker.RefusedTokenShortensTheBound`).
- **Some tables come back as a bare list.** A table over the packet budget loses its shape when the elements of
  its largest array fit one packet after all, or when that array's key is empty; every other payload survives
  (`Splitting.PayloadSurvivesIff`, `Splitting.LongElementIsLost`).
- **An indented INI key is matched but not patched** (`Ini.PatchRefinesUpdate`), **and a key without a
  value makes the global patch replace the text of the next line** (`GlobalPatch.PatchesLineIffValued`). So a
  template that passes the check for foreign AIs can become a session's file that names one
  (`Swallowing.CheckedTemplateCanNameAnAi`).
- **A partial cost can be published as a total**: the result calls a model priced once any of its reports
  was, while the monitor asks for all of them (`SpendFeed.PriceDisagreesIff`).
- **A locked landscape is not inherited**: an omitted landscape is generated as temperate whatever the
  profile says, and an omitted map size as 256 whether or not the profile lists it
  (`ScoredWorlds.LandscapeFollowsLockIff`, `ScoredWorlds.SizeIsListedIff`). With the built-in rules both agree.
- **A deadline year turned into a day** decides otherwise than the year itself for days before day 0 and
  years before 1 (`Calendar.DeadlineByDayIsByYear`).

## Model

| member | source | states |
|---|---|---|
| SearchInvariant.InitialInv | src/nttd/pathfinding/astar.py:54-59 | the invariant of the search holds before the first turn |
| SearchInvariant.StalePopIsSettled | src/nttd/pathfinding/astar.py:63-91 | the reopening invariant for any estimate: a stale cheapest entry belongs to a key all of whose neighbours are relaxed at the better score, so expanding it improves nothing |
| SearchInvariant.GoalPopIsBest | src/nttd/pathfinding/astar.py:65-76 | a goal entry, when popped, carries the best score recorded for its key |
| SearchInvariant.PopIsFinal | src/nttd/pathfinding/astar.py:63-91 | with a consistent estimate an entry that is not stale is as cheap as any route to its state |
| SearchInvariant.FrontierOnRoute | src/nttd/pathfinding/astar.py:63-91 | every route that avoids the start's key has a heap entry at its best score with no more left to pay, or ends at a settled state that is no goal |
| SearchInvariant.GoalPopWithin | src/nttd/pathfinding/astar.py:63-76 | an entry popped at the goal costs at most the weight times any route to the goal |
| SearchInvariant.EmptyHeapScoresAll | src/nttd/pathfinding/astar.py:63-99 | with the heap empty every reachable state is scored and none is the goal |
| SearchInvariant.MidInvImprove | src/nttd/pathfinding/astar.py:78-91 | scoring, parenting and pushing an improved neighbour keeps the invariant of the inner loop |
| SearchInvariant.MidInvSkip | src/nttd/pathfinding/astar.py:78-83 | so does skipping a neighbour that is no improvement |
| Lineage.PopExpands | src/nttd/pathfinding/astar.py:65-78 | when the cheapest entry is popped, every heap entry is at least as dear as each entry that only one of the two was made through |
| Lineage.ImproveExpands | src/nttd/pathfinding/astar.py:78-91 | pushing an improved neighbour of the popped entry keeps that |
| Lineage.ExpandedIsOvertaken | src/nttd/pathfinding/astar.py:63-91 | after the expansion the same holds of any two heap entries: while an entry not made through P is cheaper than P, all that was made through P is at least as dear as P |
| Lineage.ParentIsOnLine | src/nttd/pathfinding/astar.py:85-121 | a recorded parent on the popped goal's line was never improved after it was recorded |
| Popping.PopsBounded | src/nttd/pathfinding/astar.py:61-91 | no entry is popped twice and scores of a key only fall, so the pops are bounded by the keys and the greatest price of a step, for any estimate |
| Popping.ConsistentPopsBounded | src/nttd/pathfinding/astar.py:61-91 | with a consistent estimate no step is taken twice: at most one pop for each step of the graph, and the start's |
| Popping.EnoughIsEnough | src/nttd/pathfinding/astar.py:61-99 | more turns than either bound are more than any search of the problem pops |
| Astar.TrailFollowsRoute | src/nttd/pathfinding/astar.py:78-121 | for any estimate the recorded parents of the popped goal form a chain along which scores strictly fall, which follows a route step by step at exactly the popped cost |
| Astar.ParentIsBest | src/nttd/pathfinding/astar.py:85-90 | with a consistent estimate a recorded parent is never improved afterwards |
| Astar.HeapPop | src/nttd/pathfinding/astar.py:65 | one entry of least estimate leaves the heap, whichever of them it is |
| Astar.Reconstruct | src/nttd/pathfinding/astar.py:102-121 | the walk back along the parents ends and returns the chain in order |
| Astar.Expand | src/nttd/pathfinding/astar.py:78-91 | the inner loop, as a function of heap, scores and parents |
| Astar.ExpansionKeepsInv | src/nttd/pathfinding/astar.py:78-91 | a whole expansion restores the loop invariant |
| Astar.ExpansionKeepsLines | src/nttd/pathfinding/astar.py:78-91 | and the invariant on which entries were made through which |
| Astar.FindPath | src/nttd/pathfinding/astar.py:45-99 | for any estimate a found path is a route, entry by entry with its actions and details, and the reported cost is the sum of its steps; the cost is within the weight of every route; each turn pops a different entry, reached at exactly its score, and none but the last is at the goal; giving up before the limit means that there is no route, and the tiles explored are exactly the reachable keys then; the limit is reached only by as many pops, and never where the limit is enough for the problem |
| RoutePlanning.CutAtStart | src/nttd/pathfinding/astar.py:24-28 | where no other state shares the start's key, a route through the start can be cut there without loss |
| RoutePlanning.FindRoute | src/nttd/pathfinding/astar.py:45-99 | the answer of the search for every route of the neighbour graph, with exact cost and steps, and what justifies "no route exists" |
| Itineraries.RouteIsTold | src/nttd/pathfinding/astar.py:102-121 | the path of a route tells its builder, entry by entry, the work on each tile, and the start and length of each crossing; the last entry is its end |
| StateKeys.UndirectedKey | src/nttd/pathfinding/astar.py:24-28 | the packed key of a state without heading is column times 2^16 plus row |
| StateKeys.DirectedKey | src/nttd/pathfinding/astar.py:24-28 | with a heading the row moves up two bits |
| StateKeys.DistinctUndirectedKeys | src/nttd/pathfinding/astar.py:24-28 | on maps of fewer than 2^16 rows undirected keys never collide |
| Bits.OrBelowShiftIsSum | src/nttd/pathfinding/astar.py:24-28 | or-ing below a shifted word adds, negative words included |
| TileCaches.BatchesPartition | src/nttd/pathfinding/tile_cache.py:61-84 | the 20 by 20 batches contain each tile of the rectangle exactly once and no other tile |
| TileCaches.BatchesFit | src/nttd/pathfinding/tile_cache.py:61-84 | no batch has more than 400 tiles, and its corners are in order |
| TileCaches.LoadAgreesWithWorld | src/nttd/pathfinding/tile_cache.py:61-84 | after a load whose batches are all answered faithfully the cache equals the world on the rectangle and is unchanged elsewhere |
| TileCaches.LastRecordWins | src/nttd/pathfinding/tile_cache.py:116-131 | whatever records come, a tile is as the last that names it says, field by field with defaults for what it lacks, and unchanged if none does |
| TileCaches.FreshLoadIsSeen | src/nttd/pathfinding/tile_cache.py:61-84 | loading a rectangle into an empty cache shows exactly what the rectangle shows of the world |
| TileCaches.FaithfulGameScans | src/nttd/pathfinding/tile_cache.py:61-84 | for every world there is a game that answers every load faithfully |
| TileCaches.CorridorHasEndpoints | src/nttd/pathfinding/tile_cache.py:95-103 | a corridor contains an endpoint exactly when it lies in [1, w-1] by [1, h-1] |
| TileCaches.CorridorIff | src/nttd/pathfinding/tile_cache.py:95-103 | a tile is in the corridor exactly when it lies in [1, w-1] by [1, h-1], within the margin of a column and of a row between the ends |
| TileCaches.TileCache.Get | src/nttd/pathfinding/tile_cache.py:52-55 | reading the array reads the abstract grid, and nothing off the map |
| TileCaches.TileCache.ApplyTile | src/nttd/pathfinding/tile_cache.py:116-131 | writing one record in place updates exactly that tile, with defaults for missing fields |
| TileCaches.TileCache.LoadArea | src/nttd/pathfinding/tile_cache.py:61-84 | the nested loops apply the received records of the batches in order and count them; a failed batch applies nothing |
| TileCaches.TileCache.LoadFull | src/nttd/pathfinding/tile_cache.py:86-93 | loads everything from (1, 1), returns the number of tiles received, raises the version by one and marks the cache loaded |
| TileCaches.TileCache.LoadCorridor | src/nttd/pathfinding/tile_cache.py:95-103 | loads the corridor's rectangle, returns the number of tiles received and raises the version by one |
| Crossings.BridgeIsShortest | src/nttd/pathfinding/road.py:71-101 | the bridge scan returns a bridge of a length if and only if that is the shortest one allowed, over loaded tiles, to an end of equal height |
| Crossings.TunnelIsShortest | src/nttd/pathfinding/rail.py:114-141 | likewise for tunnels |
| Crossings.FarEndIff | src/nttd/pathfinding/road.py:71-131 | the far end of a bridge is of equal height, dry, no station, and free or built over by its own kind of network; that of a tunnel is a slope of equal height |
| Crossings.TryBridge | src/nttd/pathfinding/rail.py:83-112 | the loop over lengths finds what the scan specifies |
| Crossings.TryTunnel | src/nttd/pathfinding/road.py:103-131 | likewise |
| Crossings.SpanLength | src/nttd/pathfinding/road.py:71-131 | a crossing is as long as the distance between its ends and lands on the map |
| Crossings.CrossingTells | src/nttd/pathfinding/road.py:71-131 | a crossing names its kind, its start and its length, at the price of that kind and length |
| Crossings.CrossingCarries | src/nttd/pathfinding/rail.py:83-141 | a crossing that one cache shows is there in any other with the same tiles between its ends |
| Road.RoadCostFunction.TileCostOf | src/nttd/pathfinding/road.py:133-164 | the accumulated tile cost is the specified one |
| Road.RoadIsHalfPrice | src/nttd/pathfinding/road.py:148-152 | an existing road costs half of building on the same open ground |
| Road.FreeIsPriced | src/nttd/pathfinding/road.py:133-164 | a tile is impassable exactly when it is a station, open water, a rival's road, or built over where demolition is not allowed; otherwise 100, a slope 200, a level crossing 300, demolition 500, halved on an existing road |
| Road.StepsOntoIff | src/nttd/pathfinding/road.py:43-69 | the next tile in a heading can be stepped on exactly when it is loaded and not impassable in that sense |
| Road.StepTells | src/nttd/pathfinding/road.py:43-131 | each step onto the next tile names its work at that price; every other is a crossing that tells of itself |
| Road.EstimateIsPerTile | src/nttd/pathfinding/road.py:38-41 | the estimate is nothing at the goal and changes by 100 with every tile nearer or further |
| Road.RoadCostFunction.NeighborsOf | src/nttd/pathfinding/road.py:43-69 | the collected neighbours are the specified ones, in order |
| Road.StepPrice | src/nttd/pathfinding/road.py:43-164 | every road step costs at least 50 per tile of its length, or 100 where there is no road yet |
| Road.ProblemIsSound | src/nttd/pathfinding/road.py:38-164 | the road estimate has weight 2, and weight 1 on maps without roads |
| Road.EnoughTurns | src/nttd/pathfinding/astar.py:61-99 | a limit that decides every road search of a map, from the map's size; eight turns a tile and one where there is no road yet |
| Road.PlanRoad | src/nttd/pathfinding/road.py:38-164 | a found road path's entries and cost are those of a route; it uses only free tiles, and no rival's road, and tells the work on each; the cost is at most twice that of every route (and least where there is no road yet); not found before the limit means no route, and the limit is not reached where it is enough |
| Water.WaterCostFunction.NeighborsOf | src/nttd/pathfinding/water.py:30-51 | the collected neighbours are the specified ones, in order |
| Water.PriceTellsTheMove | src/nttd/pathfinding/water.py:53-71 | the prices 50, 800, 100 and 500 each stand for one kind of move, and a negative one for impassable ground |
| Water.StepsOntoIff | src/nttd/pathfinding/water.py:30-71 | the next tile can be entered exactly when it is loaded and water, coast or free land |
| Water.StepTells | src/nttd/pathfinding/water.py:30-51 | each step tells whether a canal is to be dug or a ship just moves |
| Water.EstimateIsPerTile | src/nttd/pathfinding/water.py:25-28 | the estimate is nothing at the goal and changes by 50 with every tile nearer or further |
| Water.ProblemIsSound | src/nttd/pathfinding/water.py:25-71 | the water estimate is consistent |
| Water.EnoughTurns | src/nttd/pathfinding/astar.py:61-99 | four turns a tile and one decide every water search of a map |
| Water.PlanWater | src/nttd/pathfinding/water.py:25-71 | a found water route is a cheapest one, its cost is the sum of its steps and its entries carry their actions, on waterways only; not found before the limit means no route, and the limit is not reached where it is enough |
| Rail.RailCostFunction.TileCostOf | src/nttd/pathfinding/rail.py:143-182 | the accumulated tile cost is the specified one |
| Rail.FeaturesAddUp | src/nttd/pathfinding/rail.py:143-182 | turn, slope, crossing and demolition each add their own price whatever the others |
| Rail.FreeIsPriced | src/nttd/pathfinding/rail.py:143-182 | a tile ahead is impassable exactly when it is a station, water, a rival's track, or built over without track where demolition is not allowed; otherwise 100, a turn 100, a slope 200, a level crossing 300, demolition 500, and on existing track half of what it costs cleared |
| Rail.TrackIsHalfPrice | src/nttd/pathfinding/rail.py:166-170 | track that is the company's own or nobody's costs half of laying it on the same open ground, a rival's cannot be used |
| Rail.StepsOntoIff | src/nttd/pathfinding/rail.py:47-81 | the next tile in a heading can be stepped on exactly when that does not turn back and the tile is loaded and not impassable in that sense |
| Rail.StepTells | src/nttd/pathfinding/rail.py:47-141 | each step onto the next tile names its work at that price; every other is a crossing that tells of itself |
| Rail.RailCostFunction.NeighborsOf | src/nttd/pathfinding/rail.py:47-81 | the collected neighbours are the specified ones, in order |
| Rail.StepIsHop | src/nttd/pathfinding/rail.py:47-141 | every rail step goes straight in its heading, does not turn back, costs at least 50 per tile, and if longer than one tile is a level jump of at most 6 that continues the heading |
| Rail.HeuristicFalls | src/nttd/pathfinding/rail.py:40-45 | the octile estimate changes by at most 100 per tile |
| Rail.EstimateIsOctile | src/nttd/pathfinding/rail.py:40-45 | the estimate is 100 a tile along a row or column, and rises by 71 for one tile further off in both |
| Rail.DistinctDirectedKeys | src/nttd/pathfinding/astar.py:24-28 | on maps of at most 2^14 rows directed keys never collide |
| Rail.ProblemIsSound | src/nttd/pathfinding/rail.py:40-182 | the rail estimate has weight 2, and weight 1 on maps without rails |
| Rail.EnoughTurns | src/nttd/pathfinding/astar.py:61-99 | a limit that decides every rail search of a map, from the map's size; eight turns a tile and heading and one where there are no rails yet |
| RailRoutes.RouteGeometry | src/nttd/pathfinding/rail.py:47-141 | a rail path never turns back by 180 degrees, and every longer gap is a straight level jump of 2 to 6 tiles in the direction of travel |
| RailRoutes.StartKeyShared | src/nttd/pathfinding/astar.py:24-28 | exactly one directed state shares the start's undirected key, the hidden one: row div 4, heading row mod 4 |
| RailRoutes.UnloadedIsSighted | src/nttd/pathfinding/rail.py:47-141 | no route enters the hidden state unless its tile and the one behind it are loaded |
| RailRoutes.CutAtStartTile | src/nttd/pathfinding/rail.py:47-81 | where no route enters the hidden state, or it stands on the start's own tile, a route that returns there can be cut there without loss |
| RailRoutes.PlanRail | src/nttd/pathfinding/rail.py:40-182 | every found rail path is a route with exact cost and entries, and well shaped; it uses only free tiles, and no rival's track, and tells the work on each; where no route enters the hidden state its cost is at most twice that of every route and not found means no route; in any case this holds of the routes that avoid the hidden state; the limit is not reached where it is enough |
| RailBlindness.BlindnessIsExact | src/nttd/pathfinding/astar.py:24-28 | the hidden state and the tile behind it lie in [1, w-1] by [1, h-1] if and only if for some world and goal a freshly loaded map holds a route that the search cannot follow; and if and only if a freshly loaded corridor does, the if for margins of at least 2 |
| RailBlindness.SightedMissesNothing | src/nttd/pathfinding/rail.py:40-182 | whatever is loaded, nothing is missed where no route enters the hidden state |
| RailBlindness.BlindStartMisses | src/nttd/pathfinding/rail.py:40-182 | for each such start a world with a tile everywhere but in row 0 and column 0, and a goal whose corridor holds a route that the search misses |
| RailBlindness.CorridorBelowHiddenRow | src/nttd/pathfinding/tile_cache.py:95-103 | with the hidden row above a freshly loaded corridor nothing is missed |
| RailOverpaying.BlindStartOverpays | src/nttd/pathfinding/rail.py:40-182 | for each such start a world, and a goal that the search reaches in its corridor, though only for more than twice the cost of some route there |
| RailOverpaying.OverpayingIsExact | src/nttd/pathfinding/astar.py:24-28 | and from no other start, in any world and with any margin |
| RailOverpaying.OffTheHiddenState | src/nttd/pathfinding/astar.py:24-28 | a route of the map avoids the start's key exactly when it keeps off one state: the start's column, row div 4, heading row mod 4 |
| RailWorlds.StepLands | src/nttd/pathfinding/rail.py:47-112 | from level ground a step lands on the tile ahead at its price, or by bridge over something impassable on a free tile of equal height |
| Service.FindWaterBeside | src/nttd/pathfinding/service.py:115-129 | the loop finds the tile itself or the first water next to it |
| Service.WaterBesideStandsIn | src/nttd/pathfinding/service.py:115-129 | that is the tile asked for when it is water or has none beside it, and else the neighbour of the first heading that has |
| Service.NameIsServed | src/nttd/pathfinding/service.py:72-95 | the names are "road", "rail" and "water", and each is answered by its own cost function with the request's rules, by water between the tiles that stand in for docks |
| Service.Search | src/nttd/pathfinding/service.py:72-95 | each transport's planner answers for every route of what the cache shows; by rail for those that avoid the hidden state if it can be entered |
| Service.LoadTellsTheWorld | src/nttd/pathfinding/tile_cache.py:95-103 | a faithful load leaves nothing false in a cache that was right, and nothing out in the corridor |
| Service.RouteIsReal | src/nttd/pathfinding/service.py:66-95 | a route through such a cache is a route through the world |
| Service.RouteIsShown | src/nttd/pathfinding/service.py:66-95 | a route through the world that stays in the corridor is a route through the cache |
| Service.AnswersForTheWorld | src/nttd/pathfinding/service.py:66-95 | so a found path is a route of the world at exactly its cost, within the weight of every world route in the corridor, and not found means that the corridor holds none |
| Service.Pathfind | src/nttd/pathfinding/service.py:46-112 | the request loads its corridor whatever it asks for, refuses by name a transport other than the three, and otherwise answers by that transport's cost function for the cache and for the world |
| Service.FreshCorridorIsSighted | src/nttd/pathfinding/service.py:66-95 | in a fresh cache no route enters the hidden state if its row lies above the corridor |
| Service.SomeRouteLeavesTheCorridor | src/nttd/pathfinding/service.py:66-95 | for every margin a world with a route to the goal of which a fresh corridor shows none |
| Chunks.ReassemblyIsExact | src/nttd/bridge/admin_client.py:313-361 | packets of a reply in any order merge into exactly the original list or table, with chunk 0's verdict and explanations |
| Chunks.SplitPayload | ottd_config/game/nttd-gs/main.nut:500-546 | the payload read out of a split reply: the original, or the bare bulk when a table's bulk went into one packet or its key is empty |
| Splitting.GroupBySize | ottd_config/game/nttd-gs/main.nut:500-515 | the grouping loop yields the specified groups |
| Splitting.GroupsAreWhole | ottd_config/game/nttd-gs/main.nut:500-515 | the groups are the array in order, and each is within the budget or a single element |
| Splitting.OneGroupIff | ottd_config/game/nttd-gs/main.nut:500-515 | one packet suffices exactly when there is at most one element or the elements are within the budget |
| Splitting.FieldsSizeByAny | ottd_config/game/nttd-gs/main.nut:392-411 | the size of a table does not depend on the order in which its fields are walked |
| Splitting.PayloadSurvivesIff | ottd_config/game/nttd-gs/main.nut:421-546 | whatever a handler answers, split or not, and in whatever order its packets come, the caller reads the handler's own payload exactly when it is not a table over the budget whose largest array fits one packet or has an empty key |
| Splitting.VerdictSurvives | src/nttd/bridge/admin_client.py:313-361 | and, split or not, the caller reads the handler's own success, and its own explanations wherever they are not null |
| Splitting.LongElementIsLost | ottd_config/game/nttd-gs/main.nut:437-546 | a table with one string in a list comes back as a bare list exactly when the string has 996 characters or more |
| Transport.NextIdIsFresh | src/nttd/bridge/admin_client.py:243-257 | an id about to be used was never issued |
| Transport.RunKeepsInv | src/nttd/bridge/admin_client.py:243-311 | over every run the three tables and the suspended calls have the same ids, and 3 * resyncs + streak never exceeds the unparseable total |
| Transport.StrayPacketIsIgnored | src/nttd/bridge/admin_client.py:404-422 | a packet for no outstanding id, or an unsolicited event, changes no table |
| Transport.ConnectedIff | src/nttd/bridge/admin_client.py:424-530 | after any run the client counts as connected exactly when it did at its start or connected since, and was neither lost nor resynchronised after that |
| Transport.UnparseableInARow | src/nttd/bridge/admin_client.py:489-538 | every third unparseable packet in a row resynchronises the stream and drops the connection, however many there are |
| Transport.ReturnRetires | src/nttd/bridge/admin_client.py:267-311 | a call that returns has left all three tables |
| Transport.SpentStaysSpent | src/nttd/bridge/admin_client.py:243-311 | a returned id never comes back in any run |
| Transport.EachCallReturnsOnce | src/nttd/bridge/admin_client.py:243-311 | over a whole run no id is returned twice |
| Transport.TimeoutTellsTheCause | src/nttd/bridge/admin_client.py:263-307 | a timeout, even of a call already released, answers under the call's id, without success, and says "transport" exactly when an unparseable packet came while the call was out, "timeout" otherwise |
| Transport.NothingCame | src/nttd/bridge/admin_client.py:304-321 | a call released before any packet came is answered as empty and without success |
| Transport.WakesWhenComplete | src/nttd/bridge/admin_client.py:404-422 | while the connection holds a call wakes exactly when its last packet has come |
| Transport.CallGetsOriginal | src/nttd/bridge/admin_client.py:243-361 | a call whose packets all came once, interleaved with anything, returns the original reply |
| Transport.CallGetsPayloadIff | src/nttd/bridge/admin_client.py:243-361 | a call whose packets all came once, interleaved with anything, returns the handler's own payload exactly when that is not one the splitting loses |
| Transport.CallGetsVerdict | src/nttd/bridge/admin_client.py:243-361 | and, in one packet or many, it returns the handler's own success and explanations |
| Transport.AdminClient.SendGamescript | src/nttd/bridge/admin_client.py:243-261 | the fields after a send are the next state of the protocol |
| Transport.AdminClient.HandleGsResponse | src/nttd/bridge/admin_client.py:404-422 | likewise after a parsed packet; it raises exactly when the id is a list or an object, and the tables are untouched then |
| Transport.AdminClient.NoteUnparseable | src/nttd/bridge/admin_client.py:489-538 | likewise after an unparseable one, with the resynchronisation on the third in a row |
| Transport.AdminClient.TimeOut | src/nttd/bridge/admin_client.py:263-307 | likewise after a timeout, and the answer given |
| Transport.AdminClient.Finish | src/nttd/bridge/admin_client.py:304-361 | likewise after a wake-up, and the merged reply |
| CommandNames.ParseCommandNames | src/nttd/bridge/command_names.py:36-68 | on arbitrary bytes the loop ends and returns the entries read in order, last writer winning |
| CommandNames.RoundTrip | src/nttd/bridge/command_names.py:36-68 | parsing a serialised table gives back its map |
| CommandNames.ReadsBytes | src/nttd/bridge/command_names.py:47-68 | byte by byte: a set flag, the id's low byte, its high byte, the name up to its NUL; a name that cannot be decoded is passed over |
| CommandNames.PrefixRoundTrip | src/nttd/bridge/command_names.py:36-68 | parsing any prefix of it gives the map of the entries it contains whole |
| CommandNames.TerminatorEndsTable | src/nttd/bridge/command_names.py:47-52 | a zero flag ends the table, whatever follows |
| CommandNames.LastNameWins | src/nttd/bridge/command_names.py:36-68 | a name is the last one written for its id |
| Ini.PatchIniValueInSection | src/nttd/runtime/config_builder.py:81-114 | the edit of the line list equals the recursive patch |
| Ini.PatchRefinesUpdate | src/nttd/runtime/config_builder.py:81-114 | read as a map, the patched file is the update if and only if the line it settles on is not indented; every other lookup is unchanged; patching again changes nothing |
| Ini.MatchNames | src/nttd/runtime/config_builder.py:97-107 | a line whose stripped form matches the pattern sets that key |
| Ini.NameMatches | src/nttd/runtime/config_builder.py:97-107 | a line that sets the key matches |
| GlobalPatch.SubAllIsLinewise | src/nttd/runtime/config_builder.py:74-78 | the substitution over the whole text goes line by line where every matching line but the last has a value |
| GlobalPatch.FoundIsLinewise | src/nttd/runtime/config_builder.py:74-78 | and then the pattern is found exactly when some line matches |
| GlobalPatch.PatchesLineIffValued | src/nttd/runtime/config_builder.py:74-78 | a matching line is patched as a line if and only if it has a value; otherwise the next text is replaced |
| PatchEffects.SectionPatchEffects | src/nttd/runtime/config_builder.py:81-114 | a section patch leaves every other key's value alone, and of every key whether its line is indented and whether its lines have values |
| PatchEffects.GlobalPatchEffects | src/nttd/runtime/config_builder.py:74-78 | so does a global patch, on lines that have values |
| SessionConfig.AiPlayersOf | src/nttd/runtime/config_builder.py:17-37 | the scan with its flag returns the names in the AI section |
| SessionConfig.InternalKeysAreSkipped | src/nttd/runtime/config_builder.py:201-210 | the settings without the internal ones give the same file |
| SessionConfig.SectionPatchKeepsAi | src/nttd/runtime/config_builder.py:81-114 | a section patch leaves the AI slots as they are |
| SessionConfig.GlobalPatchKeepsAi | src/nttd/runtime/config_builder.py:74-78 | so does a global one, on lines that have values |
| SessionConfig.BuildSessionConfig | src/nttd/runtime/config_builder.py:193-263 | a template naming another AI is refused; otherwise the patches are applied in their order |
| SessionConfig.AppliedReads | src/nttd/runtime/config_builder.py:193-263 | over any list of patches a key reads as the last that names it says, and as before where none does or its line is indented |
| FinishedConfig.FileReadsAsAsked | src/nttd/runtime/config_builder.py:193-263 | every key of every section reads in the finished file as autosave, slots and settings ask, in that order of precedence and the last setting first, and as in the template where nothing asks or its line is indented |
| FinishedConfig.GlobalsSayAsAsked | src/nttd/runtime/config_builder.py:197-216 | the two ports, each its own, and the switch for companies: the finished file has a line for each, and all its lines say what was asked for, unless a setting has that key in a section |
| FinishedConfig.InternalKeysLeaveNoTrace | src/nttd/runtime/config_builder.py:201-210 | a key with a leading underscore reads in the finished file, in every section, as it did in the template, unless a setting of OpenTTD has that very name; asked of the template and the request only |
| FinishedConfig.SlotsOverride | src/nttd/runtime/config_builder.py:212-218 | in the finished file the company slots read as requested, whatever the settings said, unless the template's own line for them is indented: then as in the template |
| SessionConfig.BuiltNamesOnlyTheIdleAi | src/nttd/runtime/config_builder.py:193-263 | the finished file has the template's AI slots, all idle, for every template that gives the three globally patched keys a value where it names them |
| Swallowing.SwallowingPatch | src/nttd/runtime/config_builder.py:74-78 | where one line names the key without a value, the patch leaves that line, and writes the value over the text of the next line that has any |
| Swallowing.SwallowingKeepsSlotsIff | src/nttd/runtime/config_builder.py:17-78 | that keeps the AI slots if and only if the overwritten line made no difference to them: it named no AI inside the section, and as a header neither opened nor closed the section in front of names |
| Swallowing.CheckedTemplateCanNameAnAi | src/nttd/runtime/config_builder.py:193-200 | for any name a template that the check lets through and that any two ports turn into a file naming it |
| BenchmarkProfiles.FindDeviations | src/nttd/config/benchmark_profile.py:196-252 | the loops collect every deviation, and none exactly for conforming worlds |
| BenchmarkProfiles.FindSizeProblems | src/nttd/config/benchmark_profile.py:166-194 | both axes against the one list, and against each other |
| BenchmarkProfiles.DeviationsIff | src/nttd/config/benchmark_profile.py:196-252 | no deviation if and only if every lock, size, range and the allowlist hold |
| BenchmarkProfiles.DeviationsTell | src/nttd/config/benchmark_profile.py:166-252 | every violation is listed, whichever else there are, and nothing that is none |
| BenchmarkProfiles.MatchesIff | src/nttd/config/benchmark_profile.py:255-276 | a number is matched by any spelling of it, text and truth values only by their exact text |
| BenchmarkProfiles.ScoredIff | src/nttd/config/scenario_config.py:509-539 | the declared flag only narrows: scored exactly when the world conforms and the flag is not false, 0 or empty; problems exactly when a claim is refused |
| ScoredWorlds.LockedReadIsPinned | src/nttd/config/scenario_config.py:494-506 | for any profile, a locked setting of a scored world reads as its locked value, omitted or restated, "2020" as 2020 |
| ScoredWorlds.ScoredWorldIsPinned | src/nttd/config/scenario_config.py:594-639 | every scored world is written with the same values for all that the built-in rules lock, and nothing custom |
| ScoredWorlds.BuiltInLocksTheWorld | src/nttd/config/benchmark_profile.py:58-69 | the built-in rules are such a profile |
| ScoredWorlds.RestatingChangesNothing | src/nttd/config/scenario_config.py:542-703 | two scored scenarios that differ only in which locked settings they restate have the same settings throughout |
| ScoredWorlds.LandscapeFollowsLockIff | src/nttd/config/scenario_config.py:598-599 | a landscape lock is followed exactly when it is restated or is temperate |
| ScoredWorlds.SizeIsListedIff | src/nttd/config/benchmark_profile.py:166-194 | a scored size is listed exactly when it is written or 256 is listed |
| ScoredWorlds.ComputeLog2 | src/nttd/config/scenario_config.py:250-256 | the loop returns the exponent of the greatest power of two within the size |
| ScoredWorlds.SizeComesBackIff | src/nttd/config/scenario_config.py:594-596 | two to the written exponent is the size exactly when the size is a power of two |
| WrittenWorlds.SizesAreWritten | src/nttd/config/scenario_config.py:594-596 | of every scenario each axis is written as the exponent of the greatest power of two within its own size |
| WrittenWorlds.ScoredSizesComeBack | src/nttd/config/scenario_config.py:594-596 | where all listed sizes are powers of two and 256 is one, the texts written for a scored world read as exponents that give its width and its height back, each axis its own |
| WrittenWorlds.BuiltInSizesComeBack | src/nttd/config/benchmark_profile.py:58-69 | under the built-in rules they always do, with exponents from 6 to 10 |
| WrittenWorlds.NumbersAreWritten | src/nttd/config/scenario_config.py:601-650 | year, seed and custom amounts are written so that they are read back, a custom amount exactly where the choice is custom |
| WrittenWorlds.RunIsWritten | src/nttd/config/scenario_config.py:653-672 | companies, their interval and the pace are read back; the loan is written unless it is the usual one |
| WrittenWorlds.ClockIsWritten | src/nttd/config/scenario_config.py:667-684 | the clock is the wall clock exactly where that is chosen, the run's id is the scenario's own id or else its name, and a scored run carries the profile's version |
| WrittenWorlds.WordsAreWritten | src/nttd/config/scenario_config.py:598-634 | each chosen word is written as its place among the words of its kind |
| WrittenWorlds.BuiltInDimensions | src/nttd/config/scenario_config.py:696-703 | under the built-in rules a scored run carries readable copies of terrain, landscape and both sizes as generated |
| WrittenWorlds.DimensionsAreCarried | src/nttd/config/scenario_config.py:696-703 | the settings carry those copies and the run's own settings |
| ScoredWorlds.BuiltInWorldsAgree | src/nttd/config/scenario_config.py:542-703 | and under the built-in rules restating locked settings changes nothing |
| ScoredWorlds.ComputeWaterBorders | src/nttd/config/scenario_config.py:259-280 | the or-ed mask has one bit for each border asked for, 16 when random, 15 when all water |
| WrittenWorlds.BordersOf | src/nttd/config/scenario_config.py:259-280 | read bit by bit the mask names each border that is asked for, all of them for all water, and none of the four for random |
| WrittenWorlds.BordersAreWritten | src/nttd/config/scenario_config.py:619-621 | that mask is what the written text reads as |
| Decimals.ParsedOfWritten | src/nttd/config/scenario_config.py:638-650 | an integer written as text is read back |
| TaskIdentity.TaskIdIff | src/nttd/config/task_instance.py:94-127 | with an injective digest two task ids are equal if and only if scenario, seed and normalised settings are; the seed adds nothing to the settings |
| TaskIdentity.SeedIsRead | src/nttd/config/task_instance.py:113-114 | a written seed is read back, a blank or missing one is none, and text that is no integer fails |
| TaskIdentity.IgnoredIff | src/nttd/config/task_instance.py:21-51 | a key never changes the identity if and only if it is a display or plumbing key |
| TaskIdentity.StoredKeysChangeNothing | src/nttd/config/task_instance.py:75-85 | storing any ignored keys beside the settings keeps the identity |
| TaskIdentity.RecoveryKeepsIdentity | src/nttd/runtime/session_manager.py:204-221 | a session recovered from what its start stored has the identity it started with |
| Tracker.SubmittedKeys | src/nttd/actions/tracker.py:16-51 | both ordered maps keep one key sequence within the limit; an old key keeps its place, a new one is appended and the first inserted leaves |
| Tracker.ActionTracker.Submit | src/nttd/actions/tracker.py:16-21 | the fields after a submission |
| Tracker.ActionTracker.UpdateResult | src/nttd/actions/tracker.py:23-37 | status and error are replaced, changed entities only by others |
| Tracker.ActionTracker.Trim | src/nttd/actions/tracker.py:48-51 | the loop drops the oldest of both maps down to the limit |
| Tracker.SubmitAction | src/nttd/api/action_routes.py:65-155 | the flow of one submission, refused token included, is one step of the specification |
| Tracker.StepKeepsInv | src/nttd/api/action_routes.py:65-155 | after every submission each stored result is settled or still pending as taken in, the maps agree, and a held action keeps its place |
| Tracker.RunKeepsInv | src/nttd/api/action_routes.py:65-155 | and so after every run of submissions |
| Tracker.ReplayedIff | src/nttd/api/action_routes.py:50-84 | an action is answered from the tracker, which sends and changes nothing, exactly when it is held settled; otherwise it is sent exactly when connection, token and admission let it through; no answer is given exactly for a refused token |
| Tracker.FirstAnswerTells | src/nttd/api/action_routes.py:84-155 | a submission that the tracker does not answer is answered with the game's own reply, code, name and category included, where nothing raised; with the error where something did; and with the refusal, or as not connected, where it was not sent |
| Tracker.StoredAfter | src/nttd/api/action_routes.py:65-155 | a submission settles its own action unless its token is refused, and leaves every other held result as it was |
| Tracker.ReplayIsFaithfulIff | src/nttd/api/action_routes.py:127-155 | a replay equals the first answer exactly when that had no code, name or category, and no changed entities where working out the touched area raised |
| Tracker.HeldIsReplayed | src/nttd/api/action_routes.py:50-84 | for as long as the tracker holds a settled action every retry returns the stored result |
| Tracker.RetryTells | src/nttd/api/action_routes.py:65-155 | whatever was submitted in between, a retry of a sent action that is still held sends nothing and gives the reply's status, error and changed entities, but no code, name or category |
| Tracker.EvictionTakesInsertions | src/nttd/actions/tracker.py:48-51 | an action leaves only after as many insertions as the limit leaves behind it |
| Tracker.ResentOnlyAfterEviction | src/nttd/api/action_routes.py:50-155 | a settled action is sent again only after as many later insertions as `max_history` leaves behind its place |
| Tracker.EvictingRun | src/nttd/actions/tracker.py:48-51 | that bound is met by a run of just as many insertions |
| Tracker.FullBoundIff | src/nttd/api/action_routes.py:65-155 | once sent, an action needs all of `max_history` insertions to be sent again exactly when nothing was inserted behind it before it was sent |
| Tracker.RefusedTokenShortensTheBound | src/nttd/api/participant_auth.py:55-95 | with a history of two: refused, another action, sent, one insertion, sent again |
| EndConditions.CountIsConjunction | src/nttd/runtime/end_conditions.py:119-209 | each enabled condition reports at most once, so equal counts mean that all are met |
| EndConditions.CountingDecides | src/nttd/runtime/end_conditions.py:95-128 | the tests on the list of reports are exactly conjunction under "all" and disjunction under "any" |
| EndConditions.EndConditionChecker.StartClock | src/nttd/runtime/end_conditions.py:47-58 | starts the clock once |
| EndConditions.EndConditionChecker.GameDaysRemaining | src/nttd/runtime/end_conditions.py:73-86 | the budget less the checks made |
| EndConditions.EndConditionChecker.CountEnabled | src/nttd/runtime/end_conditions.py:119-128 | counts the enabled conditions |
| EndConditions.EndConditionChecker.EvaluateAll | src/nttd/runtime/end_conditions.py:130-209 | reports exactly the enabled conditions that are met, in order, each with the first company to meet it, and counts cargo |
| EndConditions.EndConditionChecker.Check | src/nttd/runtime/end_conditions.py:95-117 | triggers exactly when the run ends, and names all reports or the first |
| EndConditions.ClockStartsOnce | src/nttd/runtime/end_conditions.py:47-58 | over a run the start is that of the first call that starts the clock |
| EndConditions.NoClockNoTimeLimit | src/nttd/runtime/end_conditions.py:134-143 | before the clock starts the time limit does not fire, and under "all" it keeps the run going |
| EndConditions.DaysLeftCountDown | src/nttd/runtime/end_conditions.py:81-97 | after k checks of a budget of n the remaining days are max(0, n - k) |
| EndConditions.BudgetStopsTheRun | src/nttd/runtime/end_conditions.py:201-209 | under "any" a run still going has made fewer than n checks |
| EndConditions.CargoIsClimb | src/nttd/runtime/end_conditions.py:184-199 | over a whole run the counter is the sum over companies of the positive increments of each one's income series |
| EndConditions.RunEndsIff | src/nttd/runtime/end_conditions.py:95-209 | which check of a run ends it, read off the run: the minutes since the first call that started the clock, the year of the date, an inactive company, a rich one, the climb of all incomes and the number of checks, each against its own limit, all or any of those enabled |
| EndConditions.NamesTheFirst | src/nttd/runtime/end_conditions.py:95-117 | under "any" the result names the first enabled condition met, in the order they are looked at; under "all" each of them once |
| Calendar.GameDateToYmd | src/nttd/analysis/date_utils.py:13-42 | every integer has exactly one valid proleptic Gregorian date with that day count, the method returns it, and the year stays within its 400-year block |
| Calendar.DayNumberCountsDays | src/nttd/analysis/date_utils.py:13-42 | the day count goes up by one on each next day of the calendar |
| Calendar.MonthsOf | src/nttd/analysis/date_utils.py:13-42 | how many days lie before each month, with one more after February in leap years only |
| Calendar.DayNumberOrders | src/nttd/analysis/date_utils.py:13-42 | day counts order dates lexicographically and no two dates share one |
| Calendar.DayZero | src/nttd/analysis/date_utils.py:17-42 | day 0 is 1 January of year 0 and no other date |
| Calendar.GameDateToYear | src/nttd/utils/game_date.py:23-45 | the year of every day after day 0, and 0 before |
| Calendar.YearToGameDate | src/nttd/utils/game_date.py:48-61 | the count of 1 January, and 0 for years before 1 |
| Calendar.DeadlineByDayIsByYear | src/nttd/utils/game_date.py:48-61 | comparing days decides as comparing years, except before day 0 with a year below 1 |
| Spend.LedgerHolds | src/nttd/runtime/participant_report.py:75-109 | each (model, role) bucket holds the sums of its own rows and is priced once any of them was |
| ParticipantReports.ParticipantReport.AddModelSpend | src/nttd/runtime/participant_report.py:75-109 | one usage is added to its bucket; without a model name it is ignored |
| ParticipantReports.ParticipantReport.Declare | src/nttd/runtime/participant_report.py:55-73 | identity is replaced field by field, spend is added |
| ParticipantReports.RedeclaredReplaces | src/nttd/runtime/participant_report.py:66-70 | a stated identity field takes the new value, every other stays |
| ParticipantReports.IdentityIsLastStated | src/nttd/runtime/participant_report.py:55-73 | after any declarations each identity field of each company is the last non-empty value stated for it, and absent if there is none |
| ParticipantReports.ParticipantReport.Build | src/nttd/runtime/participant_report.py:126-173 | one detail for every company that declared, spent or acted |
| ParticipantReports.BooksByCompany | src/nttd/runtime/participant_report.py:75-109 | each company's ledger is the one its own rows make |
| ParticipantReports.DetailTells | src/nttd/runtime/participant_report.py:111-166 | a detail carries the sums of its company's rows, one line for each (model, role), the models named, and a total cost exactly when every pair was priced |
| ParticipantReports.DetailIdentifies | src/nttd/runtime/participant_report.py:126-166 | and after any declarations it states those values, or the defaults, and the counts handed in for its company |
| ParticipantReports.ReportSpend | src/nttd/api/control_routes.py:137-182 | the route keeps the totals equal to the recorded series |
| ParticipantReports.SessionTotals | src/nttd/runtime/participant_report.py:126-173 | the details of all companies add up to the recorded tokens |
| ParticipantReports.OrderDoesNotMatter | src/nttd/runtime/participant_report.py:55-173 | nor does order or grouping of the reports change a company's tokens, its total cost, or whether spend and cost are reported |
| SpendFeed.TableTells | src/nttd/monitor/session_feed.py:455-470 | a model's entry carries the sums of its rows, its first role, and is priced exactly when all of them are |
| SpendFeed.PerModel | src/nttd/monitor/session_feed.py:455-470 | the loop builds that table |
| SpendFeed.PerDay | src/nttd/monitor/session_feed.py:482-491 | the loop banks each row on its day |
| SpendFeed.SpendOf | src/nttd/monitor/session_feed.py:425-521 | the per-day series, the per-model table and the totals each add up to the rows, in tokens and in money; a point for every day; turn days are the days with a report |
| SpendFeed.MoneyFallsOnItsDay | src/nttd/monitor/session_feed.py:482-508 | a day's point has the money and tokens of the reports dated that many days after the opening, day 0 also of those without a date or with an earlier one; turn days are the days on which some fall |
| SpendFeed.OpeningDay | src/nttd/monitor/session_feed.py:446-453 | day 0 is the least snapshot date, or without snapshots that of the first dated report |
| SpendFeed.FeedAgreesWithDetail | src/nttd/monitor/session_feed.py:425-521 | for one company the feed and the result record name the same tokens, and the same money where the result reports any |
| SpendFeed.PriceDisagreesIff | src/nttd/runtime/participant_report.py:148-160 | the result reports a price that the feed withholds exactly when some report is unpriced though its pair was priced elsewhere |
| SpendFeed.PartialPriceIsPublished | src/nttd/runtime/participant_report.py:148-160 | two reports with which that happens |
| Totals.PartsPartition | src/nttd/monitor/session_feed.py:455-521 | splitting rows by a key loses nothing and counts nothing twice |

## Left out

- Heap order: ties among equal estimates are left open, and so is a heap's layout; every result holds for each way of breaking ties.
- Nodes as values: a pushed node is never changed again in the source, so aliasing of node objects is not modelled.
- Key width: the search theorems ask for fewer than 2^16 rows, for rail at most 2^14; OpenTTD maps have at most 4096.
- RailBlindness.BlindnessIsExact: asks for maps at least 5 tiles wide, as every OpenTTD map is; for a corridor margin below 2, where the service's default is 10, it does not say that a blind start does miss something, as there may be no room for the detour. Likewise BlindStartMisses, BlindStartOverpays and OverpayingIsExact.
- Service.Pathfind: the missing cache, the counts of bridges and tunnels and the elapsed time; the search reads a snapshot of the cache, which it never changes. For the world it asks for a margin that is not negative, for a cache that was right, and for batches that are all answered.
- `TileCache.invalidate_area`: its upper bounds are exclusive while loading is inclusive, so it is no inverse of a load; `set_tile` is plain assignment.
- Crossings: road and rail share one scan in the model; their limits, heights and costs are parameters of it.
- Transport: the wording of reasons, log limits, callbacks, and values of `_total` and `_chunk` that are not integers; a send that raises and a cancelled call clean nothing up in the source and are not steps.
- Transport.AdminClient.HandleGsResponse: raising ends the poll loop in the source; that no packet is handled after it is not followed up.
- Splitting: lengths are in characters; an array inside a table is found by its size alone, and which of several equally large ones is split is left open, as it depends on the order in which the table is walked. The script's deep structures are measured down to the depth the code stops at.
- Early release: replies released by a connection loss may be merged from part of their packets, and no reassembly is claimed of them.
- CommandNames: decoding a name's bytes is a parameter that may fail.
- Ini: lines are split at line feeds; templates with other line breaks and values with backslashes are not modelled.
- SessionConfig: the secrets file, symbolic links and the scenario snapshot.
- SessionConfig.BuiltNamesOnlyTheIdleAi: asks that the three globally patched keys have values where the template names them, since otherwise the patch runs on into the next line, and that settings are internal or name their section, as all that a scenario writes do; likewise AppliedReads, and all of `FinishedConfig`.
- ScoredWorlds: rejection of ill-formed configs, and the settings that only copy a runtime, heartbeat or end-condition value; configs are finite maps of integers, strings and booleans; the names of the written keys are fields of a record.
- Squareness: the profile compares the axes only when both are written, so no squareness of scored worlds is claimed.
- TaskIdentity: the digest is an injective function; its truncation to 16 digits is not modelled.
- Tracker: submissions are taken one after another; the source shares one result object between tracker and answer.
- Submission flow: which token is refused, what admission says and what the game answers are given with each attempt; the audit log and the start of the scored clock are not modelled. A request cancelled while the game is at work leaves its action executing, and is no step here.
- EndConditions: the wording of reasons; wall time is a real number handed in.
- Spend: money is in whole micro-dollars, so rounding to six decimals is exact; values that are not numbers are rejected by the schema before they get here.
- ParticipantReports: the order of breakdown lines and the joined spelling of the model names.
- Calendar formatting: month names and zero padding.
- HTTP, WebSocket and command-line plumbing, processes, sockets, files, plots and pages.
