# SmartPark: verified models of its cores

A Dafny project that models the parts of SmartPark whose correctness is least obvious from reading them, and proves
what they promise. `dafny verify dfyconfig.toml` checks everything.

| files | what they model |
|---|---|
| `grid_*.dfy` | the multi-goal route search: grid and walks (`grid_model`), estimate (`grid_heuristic`, `grid_estimate`), the search as a transition system with its invariants and results (`grid_search*`), the same search on reused, generation-stamped arrays (`grid_scratch`), route accounting (`grid_route`), the public operations (`grid_planner`), the congestion field (`grid_occupancy`), what steps, surcharges and snapping mean in cells and metres (`grid_congestion`, `grid_snapping`) |
| `gate_clock.dfy`, `clock_order.dfy`, `barrier_gate.dfy`, `barrier_moves.dfy` | the virtual clock, its order of firing, the timed barrier state machine it drives, and how that answers its inputs |
| `replay_server.dfy`, `replay_verdicts.dfy`, `offline_queue.dfy`, `replay_protocol.dfy` | offline gate replay: the server's action and when it gives which verdict, the gate's durable queue, and both joined by a link that loses, delays and truncates |
| `lpr_scheduler.dfy`, `lpr_contexts.dfy`, `lpr_pool.dfy` | the bounded plate-recognition scheduler with re-entrant callbacks, and what becomes of requests, contexts and callbacks |
| `entry_planner.dfy`, `entry_answers.dfy` | the background entry planner: snapshot, compute, compare, commit, and what it answers |
| `parking_spot.dfy`, `parking_record.dfy`, `parking_database.dfy`, `parking_repository.dfy`, `parking_store.dfy`, `parking_effects.dfy`, `parking_restart.dfy`, `parking_service.dfy` | spots and records in memory, the tables, the transactions, the service on top with a failure at any statement, what each operation stores, what a restart brings back, and entry and exit on objects |
| `occupancy_trend.dfy` | the least-squares trend and the clamped forecast |
| `parking_geometry.dfy`, `parking_layout.dfy`, `layout_meaning.dfy` | building and checking a layout from a description, and what the description means |
| `asset_cache.dfy` | the manifest-driven runtime cache |
| `frame_protocol.dfy` | length-prefixed frames on a byte stream |
| `expected_route.dfy`, `reservation_status.dfy` | the text form of a route, and the order states |
| `outcomes.dfy`, `points.dfy`, `real_products.dfy`, `text_util.dfy`, `time_util.dfy` | small shared definitions |

Where the program changes things step by step there are classes and methods with the program's loops, proved equal to a
function on values or against an exact condition, apart from what "Left out" names; the promises are then proved about
that function over every run. Doubles are exact reals; timers, threads, the link, the database and the file system are
steps that may happen in any order or fail.

## Findings

Properties that do not hold as meant, each stated with the exact condition under which they do:

- A failed entry on a spot reserved for the vehicle leaves the spot available in memory and reserved in the tables
  (`ParkingStore.FailedEntryInStep`, with a run in `ParkingStore.FailedEntryOutOfStep`); the tables stay one to one and
  restorable all the same.
- A second flush of the offline queue, run while the first one waits for its reply, can drop events the server never saw
  if and only if more than one batch of 500 is counted (`ReplayProtocol.FlushLosesIff`), or two batches if no reply is
  ever cut (`ReplayProtocol.WholeRepliesLoseIff`), with runs for both in `ReplayProtocol.OverlapLosesAnEvent`. The
  program does not rule such flushes out: a request runs the event loop, and the reconnect timer is already running when
  the first connection is made.
- Submitting a recognition calls back inline, although the comments say it never does, exactly when a slot is free, the
  queue has room and the process fails to start at once (`LprScheduler.InlineCallbacks`,
  `LprScheduler.FirstRequestCallsBackInline`).
- Files copied by an interrupted cache call stay in the tree for good if they are no longer wanted afterwards
  (`AssetCache.NoOrphans`, with a run in `AssetCache.InterruptedCopyStays`).
- A queue file that cannot be read at start is counted as empty (`OfflineEvents.OfflineQueue.constructor`). From then on
  events are sent but not taken off the queue whenever a batch is larger than the count; the queue can be emptied if and
  only if every stored event is counted (`ReplayProtocol.QueueEmptiesIff`, with a run in
  `ReplayProtocol.UnreadableStartSticks`).
- A route without points keeps none of its other fields in its text form (`ExpectedRoutes.RoundTrip`), and a payload over
  9 MiB is encoded into a frame that does not decode to it (`FrameProtocol.RoundTrip`).

## Model

| member | source | states |
|---|---|---|
| `GridHeuristic.HeuristicConsistent` | src/core/service/GridPlanner.cpp:265-290 | The minimum over all goals of the octile (or Manhattan) estimate never drops by more than the length of a legal step, for any diagonal factor between 1 and 2 |
| `GridHeuristic.HeuristicZeroAtGoal` | src/core/service/GridPlanner.cpp:269-290 | The estimate is zero on every goal cell |
| `GridEstimate.EstimateCountsSteps` | src/core/service/GridPlanner.cpp:27-36 | The estimate between two cells is the length of the way with nothing in between: diagonal steps as far as they go, if allowed, and straight ones for the rest |
| `GridEstimate.HeuristicIsNearest` | src/core/service/GridPlanner.cpp:269-293 | The estimate of a search is that to the nearest goal, zero without goals |
| `GridHeuristic.HeuristicAlongWalk` | src/core/service/GridPlanner.cpp:265-293 | Along any legal walk, the cost of a prefix plus the estimate at its end never exceeds the cost of the walk plus the estimate at its end |
| `GridModel.StepCostAtLeastDistance` | src/core/service/GridPlanner.cpp:361-366 | With a congestion weight that is not negative a step never costs less than its length |
| `GridCongestion.StepsAreMoves` | src/core/service/GridPlanner.cpp:342-360 | The steps from a cell lead to exactly the free cells around it, diagonally only if that is allowed and both cells beside the way are free |
| `GridCongestion.StepSurcharge` | src/core/service/GridPlanner.cpp:189-197 | With congestion a step costs its plain cost and, on top, the weight times the vehicles counted around the cell entered times that cost |
| `GridCongestion.WalkSurcharge` | src/core/service/GridPlanner.cpp:361-367 | The cost of a walk is its cost without congestion and the surcharge of the cells it enters |
| `GridCongestion.WrongSizeIsIgnored` | src/core/service/GridPlanner.cpp:189-197 | A field made for a raster of another size costs nothing |
| `GridSearchInvariant.ClosedNotImproved` | src/core/service/GridPlanner.cpp:361-375 | A state that the state being expanded can improve has not been expanded before |
| `GridSearchInvariant.RelaxKeeps` | src/core/service/GridPlanner.cpp:342-376 | Trying one direction keeps every invariant of the search (stored costs are costs of walks, cheaper parents, heap entries, monotone front) |
| `GridSearchInvariant.Frontier` | src/core/service/GridPlanner.cpp:312-376 | Along any legal walk, the end is expanded at no more than the walk's cost or some prefix ends in an open state at no more than the prefix's cost |
| `GridSearchInvariant.FrontIsOptimal` | src/core/service/GridPlanner.cpp:313-336 | A fresh heap front on a goal cell not settled yet costs no more than any legal walk to that cell |
| `GridSearchResults.EveryRunKeeps` | src/core/service/GridPlanner.cpp:309-377 | The invariants hold after any number of iterations of the loop, whatever the heap does with ties |
| `GridSearchResults.ClosedAtMostOnce` | src/core/service/GridPlanner.cpp:312-319 | No state is expanded twice, in spite of stale heap entries |
| `GridSearchResults.Terminates` | src/core/service/GridPlanner.cpp:312-377 | The loop ends within nine iterations per state, with or without early exit |
| `GridSearchResults.FinishUnique` | src/core/service/GridPlanner.cpp:204-379 | The final state of the search is determined by the problem |
| `GridSearchResults.ParentCheaper` | src/core/service/GridPlanner.cpp:368-375 | Stored costs strictly fall along parent links, so the chains have no cycle |
| `GridSearchResults.PathIsWalk` | src/core/service/GridPlanner.cpp:401-411 | The parent chain of any state is a legal walk from the start, and its cost is exactly the stored one |
| `GridSearchResults.SettledIsLeast` | src/core/service/GridPlanner.cpp:327-336 | The first state settled in a goal cell carries the least cost of any legal walk to that cell |
| `GridSearchResults.UnsettledIsUnreachable` | src/core/service/GridPlanner.cpp:327-336 | A goal the finished search did not settle cannot be reached by any walk |
| `GridSearchResults.SearchIsOptimal` | src/core/service/GridPlanner.cpp:204-379 | Main theorem: exactly the reachable goals are settled, each at the least cost over all legal walks with turn penalties, congestion and the corner rule |
| `GridHeap.ProblemsExist` | src/core/service/GridPlanner.cpp:304-315 | The contract assumed of the library's heap algorithms can be met, so every grid, start and goals make a valid problem |
| `GridScratch.TryMove` | src/core/service/GridPlanner.cpp:342-366 | The bounds, free-cell and corner checks and the step cost are those of the abstract search |
| `GridScratch.Improved` | src/core/service/GridPlanner.cpp:368-375 | Writing a better cost into the stamped buffers is the abstract improvement |
| `GridScratch.RelaxDirection` | src/core/service/GridPlanner.cpp:342-376 | One turn of the direction loop on the buffers is one abstract relaxation, and touches no slot of another generation |
| `GridScratch.SettleState` | src/core/service/GridPlanner.cpp:329-336 | First settling of a goal cell and the early exit, on the stamped arrays |
| `GridScratch.Iteration` | src/core/service/GridPlanner.cpp:312-377 | One iteration of the loop on the buffers is one step of the abstract search |
| `GridScratch.RunLoop` | src/core/service/GridPlanner.cpp:312-377 | The whole loop ends, with buffers that represent the abstract search's final state |
| `GridScratch.StampGoals` | src/core/service/GridPlanner.cpp:252-264 | The goals are the free ones without repetition, and exactly those are stamped |
| `GridScratch.FillHeuristic` | src/core/service/GridPlanner.cpp:269-293 | Every free cell's slot holds the estimate to the nearest goal; zero without goals |
| `GridScratch.PushStart` | src/core/service/GridPlanner.cpp:299-311 | The start state is stored and pushed as in the abstract initial state |
| `GridScratch.SearchScratch.GrowStates` | src/core/service/GridPlanner.cpp:59-64 | Buffers only grow; kept slots keep their contents, new stamps are zero |
| `GridScratch.SearchScratch.EnsureCapacity` | src/core/service/GridPlanner.cpp:59-71 | Enough room for the search, no stamp ahead of the generation |
| `GridScratch.SearchScratch.NextGeneration` | src/core/service/GridPlanner.cpp:72-81 | Afterwards no slot carries the current generation, also when the 32-bit counter wraps around |
| `GridScratch.SearchScratch.SearchFromGoals` | src/core/service/GridPlanner.cpp:204-379 | On buffers with any contents left by any earlier searches, the result is the abstract search's result for the same problem |
| `GridScratch.ReusedBuffersAreFresh` | src/core/service/GridPlanner.cpp:37-57 | Two sets of buffers, one of them new or both left by different searches, mark the same slots with the same contents after searching the same problem |
| `GridRoute.BendsCountTurns` | src/core/service/GridPlanner.cpp:430-445 | There is one inner point for each charged turn |
| `GridRoute.PolylineIsWalkLength` | src/core/service/GridPlanner.cpp:429-445 | Leaving out the collinear cells does not change the length |
| `GridRoute.CostAgainstLength` | src/core/service/GridPlanner.cpp:361-367 | Cost equals length plus two cells per turn without congestion, and is never below the length with it |
| `GridRoute.RouteAccounting` | src/core/service/GridPlanner.cpp:430-446 | Points are turns plus two, the polyline is as long as the distance says, cost and distance are related exactly |
| `GridPlanner.NearestFreeCell` | src/core/service/GridPlanner.cpp:460-483 | The loops compute the specification function |
| `GridPlanner.NearestIsClosest` | src/core/service/GridPlanner.cpp:460-483 | Snapping finds a free cell in the nearest square ring that has one and fails exactly when the whole search square has none |
| `GridSnapping.HomeHoldsPoint` | src/core/service/GridPlanner.cpp:461-464 | The search begins at the cell the point lies in, or for a point outside at the nearest column and row |
| `GridSnapping.CentreInCell` | src/core/service/GridPlanner.cpp:457-459 | The centre of a cell is in its middle |
| `GridSnapping.NearestIsFirst` | src/core/service/GridPlanner.cpp:468-480 | Of the free cells in the smallest square that has one, the first in the order of the raster is taken |
| `GridSnapping.NoneWithinTwoMetres` | src/core/service/GridPlanner.cpp:468-482 | No cell is found only if none is free within two metres by columns and rows, and none further than that and one cell is taken |
| `GridPlanner.CollectStates` | src/core/service/GridPlanner.cpp:398-411 | Following the parent links in the buffers yields the chain of the abstract search and ends at the start state |
| `GridPlanner.DecodeStates` | src/core/service/GridPlanner.cpp:412-425 | States translate into the cells and arrival directions of the walk |
| `GridPlanner.CollectPoints` | src/core/service/GridPlanner.cpp:430-438 | The points are the start, the bends and the end of the walk |
| `GridPlanner.Measure` | src/core/service/GridPlanner.cpp:439-445 | Distance and turn count are those of the walk |
| `GridPlanner.Reconstruct` | src/core/service/GridPlanner.cpp:380-447 | The route is that of the settled state, and empty for anything an earlier search left behind |
| `GridPlanner.Plan` | src/core/service/GridPlanner.cpp:156-162 | The route costs the minimum over all legal walks between the snapped cells and is empty exactly when there is none |
| `GridPlanner.PlanFromToTargets` | src/core/service/GridPlanner.cpp:163-188 | The same for each of many targets from one search |
| `GridPlanner.PlansAgree` | src/core/service/GridPlanner.cpp:156-188 | Planning to many targets and planning to each agree on cost and reachability |
| `GridPlanner.PlannedRouteAccounting` | src/core/service/GridPlanner.cpp:380-447 | Every planned route is an exactly accounted polyline between the two snapped points |
| `GridOccupancy.WindowMissesNothing` | src/core/service/GridPlanner.cpp:129-149 | No cell within the radius lies outside the window scanned around a vehicle, wherever its access point is |
| `GridOccupancy.BuildOccupancy` | src/core/service/GridPlanner.cpp:118-155 | Every free cell gets the number of occupied or reserved spots within the radius, as counted without any window |
| `GridOccupancy.CountIsCounted` | src/core/service/GridPlanner.cpp:126-151 | The count of a cell is the number of occupied or reserved spots whose access point is within the radius of the cell's centre |
| `GateClock.VirtualGateClock.Schedule` | apps/gate/GateClock.cpp:9-14 | Adds one timer with the next id |
| `GateClock.VirtualGateClock.Cancel` | apps/gate/GateClock.cpp:16-23 | Removes exactly the timers with that id; id zero and fired timers are ignored |
| `GateClock.VirtualGateClock.AdvanceToNextTimer` | apps/gate/GateClock.cpp:31-49 | Fires the first of the earliest timers, if there is one |
| `GateClock.VirtualGateClock.Advance` | apps/gate/GateClock.cpp:51-75 | The loop computes the run of all timers due, for callbacks that schedule and cancel |
| `GateClock.FireMakesProgress` | apps/gate/GateClock.cpp:51-75 | With positive delays every firing moves the time or uses up an overdue timer, so advancing ends |
| `GateClock.AdvanceSplits` | apps/gate/GateClock.cpp:51-75 | Advancing by a and then by b reaches exactly the state of advancing by a + b, with the same firings at the same times |
| `GateClock.AdvanceInPieces` | apps/gate/GateClock.cpp:51-75 | The same for any subdivision of a time span |
| `ClockOrder.EachAtItsTime` | apps/gate/GateClock.cpp:31-49 | A firing takes the timer that is due first, the one set first among equals, at its due time or at once if that has passed |
| `ClockOrder.AdvanceInOrder` | apps/gate/GateClock.cpp:51-75 | Advancing fires timers in the order of time, none later than the target, leaves none due by then, and ends at the target |
| `ClockOrder.EachOnce` | apps/gate/GateClock.cpp:51-75 | With callbacks that ask for nothing exactly the timers due fire, each once and at its own time |
| `ClockOrder.SettingAdds` | apps/gate/GateClock.cpp:9-14 | A timer set is due after its delay, behind those set before, and shares its id with no other |
| `ClockOrder.CancellingRemoves` | apps/gate/GateClock.cpp:16-23 | Cancelling takes away the timers of that id and leaves the others; id zero is no timer |
| `BarrierGate.TimersMatchState` | apps/gate/BarrierGate.cpp:57-172 | In every run of operations and waiting, a closed barrier has no pending timer and every other state exactly its own one |
| `BarrierGate.GuardsNeverTrigger` | apps/gate/BarrierGate.cpp:65-117 | No callback ever finds the barrier in another state than the one that set its timer |
| `BarrierGate.ClosedByTimer` | apps/gate/BarrierGate.cpp:96-105 | A firing that closes the barrier ends exactly 700 ms of uninterrupted closing |
| `BarrierGate.ClosedByOperation` | apps/gate/BarrierGate.cpp:119-172 | The only operation that closes the barrier is a reset from fault |
| `BarrierGate.EveryClosing` | apps/gate/BarrierGate.cpp:96-105 | In every run, every way into closed is a reset from fault, or waiting at the end of 700 ms in which the barrier fell without interruption |
| `BarrierGate.AlarmsMatchTime` | apps/gate/BarrierGate.cpp:107-117 | In every run the alarms raised in a fault number the full 4000 ms spent in it |
| `BarrierGate.ReleaseTimeline` | apps/gate/BarrierGate.cpp:65-105 | After a release with no further input the barrier opens at 700 ms, falls at 5700 ms and is closed from 6400 ms on |
| `BarrierMoves.FallingReverses` | apps/gate/BarrierGate.cpp:131-157 | A falling barrier reverses at once for a release as for a vehicle, and is open 700 ms later, or stuck if the fault is injected |
| `BarrierMoves.ClosedOpens` | apps/gate/BarrierGate.cpp:121-124 | A release opens a closed barrier: open at 700 ms, falling at 5700 ms, closed at 6400 ms, or with the fault injected stuck from 700 ms on with an alarm every 4000 ms |
| `BarrierMoves.OpenIsHeld` | apps/gate/BarrierGate.cpp:125-128 | A release of an open barrier keeps it open for another 5000 ms |
| `BarrierMoves.ReleaseFindsOpen` | apps/gate/BarrierGate.cpp:119-143 | In any run, 700 quiet ms after a release a barrier without a fault is open, whatever it was doing |
| `BarrierMoves.PassCloses` | apps/gate/BarrierGate.cpp:145-150 | A vehicle that has passed an open barrier makes it fall at once, and it is down after 700 ms |
| `BarrierMoves.ResetCloses` | apps/gate/BarrierGate.cpp:165-172 | A reset from fault closes the barrier and leaves no timer pending |
| `BarrierMoves.NothingElseMoves` | apps/gate/BarrierGate.cpp:119-172 | Any other input leaves the barrier and its timers alone |
| `BarrierMoves.CountersCount` | apps/gate/BarrierGate.cpp:145-163 | In any run the fault setting is the last one made and the counter counts exactly the vehicles met while falling |
| `BarrierGate.BarrierGate.RequestOpen` | apps/gate/BarrierGate.cpp:119-143 | What the object does is the transition the theorems are about |
| `BarrierGate.BarrierGate.VehiclePassed` | apps/gate/BarrierGate.cpp:145-158 | Closing after a pass, reversing when a falling barrier meets a vehicle |
| `BarrierGate.BarrierGate.Reset` | apps/gate/BarrierGate.cpp:165-172 | Leaves fault only, with its timers cancelled |
| `BarrierGate.BarrierGate.OnTimer` | apps/gate/BarrierGate.cpp:65-117 | The four timer callbacks |
| `ReplayServer.VerdictMeaning` | src/network/SmartParkTcpServer.cpp:622-659 | An applied entry adds one open record at the event's time, an applied exit closes the first open one, every other verdict leaves the records alone |
| `ReplayServer.VerdictOrder` | src/network/SmartParkTcpServer.cpp:608-668 | Verdicts come in submission order, each judged on the records the earlier events left |
| `ReplayServer.CountsAddUp` | src/network/SmartParkTcpServer.cpp:603-673 | Applied, duplicate and skipped add up to the number of verdicts |
| `ReplayVerdicts.PlateOf` | src/network/SmartParkTcpServer.cpp:613-613 | A plate is used without the white space around it, and with all the rest |
| `ReplayVerdicts.UnreadIff` | src/network/SmartParkTcpServer.cpp:618-624 | An event is turned down unread exactly if its plate is empty, its time is no number, not positive, over 30 days old or over 5 minutes ahead, or else its kind is unknown |
| `ReplayVerdicts.DuplicateIff` | src/network/SmartParkTcpServer.cpp:628-639 | An event is a duplicate exactly if it is readable and a record has its plate and, as entry or exit, its millisecond |
| `ReplayVerdicts.EntryApplied` | src/network/SmartParkTcpServer.cpp:640-650 | A new entry is applied exactly if its type is known and a reservation is due or the vehicle is not parked and gets a spot, and then there |
| `ReplayVerdicts.ExitApplied` | src/network/SmartParkTcpServer.cpp:651-659 | A new exit of a parked vehicle is applied exactly if it came no later and the settlement answers; the fee is what the deposit does not cover |
| `ReplayVerdicts.NobodyLeaves` | src/network/SmartParkTcpServer.cpp:651-662 | A new exit of a vehicle that is not parked is refused |
| `ReplayVerdicts.TypeNames` | src/network/SmartParkTcpServer.cpp:641-642 | The names of the vehicle types |
| `ReplayVerdicts.ReplyTells` | src/network/SmartParkTcpServer.cpp:614-673 | A reply tells plate, kind and verdict of each event in its place, and its counters count the verdicts |
| `ReplayVerdicts.BatchTaken` | src/network/SmartParkTcpServer.cpp:599-602 | A batch is taken if and only if it has 1 to 500 events |
| `ReplayServer.RestartIsAllowed` | src/core/persistence/ParkingRepository.cpp:1065-1115 | A restart that reads all records back with whole milliseconds is one of the steps between batches |
| `ReplayServer.AppliedAtMostOnce` | src/network/SmartParkTcpServer.cpp:595-680 | Over any run of batches, other operations and restarts of the server, each plate, kind and time changes the records at most once |
| `ReplayServer.ResentIsDuplicate` | src/network/SmartParkTcpServer.cpp:616-639 | An applied event that comes again within the accepted times is called a duplicate and changes nothing |
| `ReplayServer.Server.FindRecord` | src/network/SmartParkTcpServer.cpp:627-636 | Finds a record with the event's plate and time, if there is one |
| `ReplayServer.Server.EnterVehicle` | src/core/service/ParkingService.cpp:243-282 | The entry contract: reservation first, then no open record and a spot |
| `ReplayServer.Server.LeaveVehicle` | src/core/service/ParkingService.cpp:283-302 | The exit contract: closes the plate's first open record at a time not before its entry |
| `ReplayServer.Server.ActionGateReplay` | src/network/SmartParkTcpServer.cpp:595-680 | The loop yields the state, the counters and the results of the specification; batches of 1 to 500 only |
| `ParkingRecords.ParkingRecord.CloseRecord` | src/core/model/ParkingRecord.cpp:44-53 | Closes once, not before entry, for a fee that is not negative |
| `ParkingRecords.FirstCloseDecides` | src/core/model/ParkingRecord.cpp:44-53 | Of any attempts to close a record the first acceptable one decides |
| `OfflineEvents.OfflineQueue.constructor` | apps/gate/OfflineQueue.cpp:11-19 | The cached count is right if and only if the file could be read or is empty |
| `OfflineEvents.OfflineQueue.Append` | apps/gate/OfflineQueue.cpp:21-31 | Adds one event and counts it, or changes nothing |
| `OfflineEvents.OfflineQueue.Pending` | apps/gate/OfflineQueue.cpp:33-46 | The first 500 stored events, or none if one of those lines is damaged |
| `OfflineEvents.SoundBatch` | apps/gate/OfflineQueue.cpp:33-46 | What a batch is: the first stored events up to the limit, all of them if there are fewer |
| `OfflineEvents.DamagedBatch` | apps/gate/OfflineQueue.cpp:40-42 | One damaged line among them makes the batch empty |
| `OfflineEvents.OfflineQueue.Acknowledge` | apps/gate/OfflineQueue.cpp:48-70 | Drops exactly the first events or changes nothing, and says when it succeeds |
| `OfflineEvents.ReplayHandledPrefix` | apps/gate/OfflineQueue.cpp:76-100 | The loop computes the specification function |
| `OfflineEvents.HandledIsDecided` | apps/gate/OfflineQueue.cpp:76-100 | No honest reply, however truncated, settles more than the server decided; it settles the whole batch exactly when the results or else the counters say so |
| `ReplayProtocol.GateTerminal.RecordOffline` | apps/gate/main.cpp:179-196 | A vehicle is let through only when its event is stored |
| `ReplayProtocol.GateTerminal.FlushBegins` | apps/gate/main.cpp:135-146 | The batch to send: at most 500 events, none when offline, empty or unreadable |
| `ReplayProtocol.GateTerminal.FlushEnds` | apps/gate/main.cpp:146-176 | A flush drops what the reply settles, or nothing |
| `ReplayProtocol.TruncatedReply` | apps/gate/OfflineQueue.cpp:76-100 | Every truncation of the server's reply settles the results that arrived, or by its counters all or nothing |
| `ReplayProtocol.NothingLostUndecided` | apps/gate/main.cpp:135-196 | One flush at a time: through lost and late messages, truncation, restarts and failed writes the queue is what was appended minus a prefix with verdicts, the count is right, no event is applied twice |
| `ReplayProtocol.BatchIsFront` | apps/gate/OfflineQueue.cpp:33-46 | A batch is the first events not yet dropped, 500 of them if there are as many |
| `ReplayProtocol.RoundDrains` | apps/gate/main.cpp:135-176 | In any safe state with no flush under way, one round with the link up drops the whole batch if that many events are counted, and nothing otherwise |
| `ReplayProtocol.QueueEmptiesIff` | apps/gate/OfflineQueue.cpp:48-70 | Any number of rounds can empty the queue if and only if every stored event is counted |
| `ReplayProtocol.UnreadableStartSticks` | apps/gate/OfflineQueue.cpp:11-19 | After a start that could not read two stored events, and one more appended, no number of rounds takes anything off the queue |
| `ReplayProtocol.SecondFlushLoses` | apps/gate/main.cpp:135-176 | After any one-flush run, a second flush inside the first, both answered and the inner one first, takes events off the queue that the server has never seen, if that many are counted |
| `ReplayProtocol.FlushLosesIff` | apps/gate/main.cpp:135-176 | One more flush makes a loss possible if and only if another flush is under way and more than one batch is counted |
| `ReplayProtocol.WholeRepliesLoseIff` | apps/gate/main.cpp:135-176 | If no reply is ever cut, a loss is possible if and only if another flush is under way and two whole batches are counted |
| `ReplayProtocol.OverlapLosesAnEvent` | apps/gate/main.cpp:43-61 | Runs from an empty queue: started again with 501 recorded events and given a cut reply, or with 1000 and whole replies, a gate loses events to its flush on connecting and the timer's flush inside that |
| `LprScheduler.EveryRunIsSound` | src/network/PlateRecognition.cpp:229-462 | In every run, with re-entrant callbacks and failing starts: limits hold, every task is in exactly one place, starts are in order, no slot idles while tasks wait |
| `LprScheduler.CalledAtMostOnce` | src/network/PlateRecognition.cpp:396-462 | No callback is made twice, nor for a task still waiting, running or dropped |
| `LprScheduler.NeverStuck` | src/network/PlateRecognition.cpp:302-312 | Waiting tasks imply a running one; with nothing running or posted every task with a living context was called back exactly once |
| `LprScheduler.StartsAreFifo` | src/network/PlateRecognition.cpp:302-312 | Processes start in the order of acceptance |
| `LprScheduler.InlineCallbacks` | src/network/PlateRecognition.cpp:229-253 | Submitting calls back inline if and only if a slot is free, the queue has room and the request's own process fails to start at once |
| `LprScheduler.SubmitLaunches` | src/network/PlateRecognition.cpp:229-253 | What a submission starts on the way, and that it calls back exactly those that failed to start |
| `LprScheduler.FirstRequestCallsBackInline` | src/network/PlateRecognition.cpp:387-392 | The first request of a run does it, with limits of one |
| `LprScheduler.Progress` | src/network/PlateRecognition.cpp:396-462 | Every end of a process and every delivered failure strictly lowers the work left, re-entrant submissions included; only a request from outside raises it |
| `LprScheduler.ComesToRest` | src/network/PlateRecognition.cpp:229-462 | In any run the ends and deliveries never outnumber what the requests from outside ask for |
| `LprScheduler.AtRest` | src/network/PlateRecognition.cpp:302-312 | No work left means that nothing runs, waits or is posted |
| `LprScheduler.SubmitAfterShutdown` | src/network/PlateRecognition.cpp:229-286 | A request after shutdown is answered if and only if the queue is full |
| `LprContexts.DeadContextsLeave` | src/network/PlateRecognition.cpp:245-250 | In every run no task of a dead context waits, runs or is posted, whoever destroyed it and wherever, callbacks inside the pump included |
| `LprContexts.NoCallbackToTheDead` | src/network/PlateRecognition.cpp:414-421 | A context destroyed is dead at once and gets no callback from then on |
| `LprContexts.CallbacksTakeEffect` | src/network/PlateRecognition.cpp:418-422 | In every run whatever the callbacks made so far do has been done: contexts destroyed, requests accepted unless their context is dead |
| `LprContexts.TakenIff` | src/network/PlateRecognition.cpp:229-241 | A request is taken exactly if it names a living context and a callback |
| `LprContexts.SubmitPlaces` | src/network/PlateRecognition.cpp:229-253 | With the queue full its failure is posted, with all slots busy it waits last, otherwise its process is started, or its failure posted if there is no temporary file |
| `LprContexts.EndIsReported` | src/network/PlateRecognition.cpp:396-423 | The end of a process is reported before anything else, and its slot is free |
| `LprContexts.FailureIsReported` | src/network/PlateRecognition.cpp:453-462 | A posted failure is reported when the event loop comes to it |
| `LprContexts.QuitDrops` | src/network/PlateRecognition.cpp:257-286 | Shutting down drops everything that waits or runs, and calls nobody back |
| `LprContexts.NothingStartsAfterQuit` | src/network/PlateRecognition.cpp:302-305 | After that no process is started, whatever happens |
| `LprPool.Scheduler.Submit` | src/network/PlateRecognition.cpp:229-253 | The object with its pumping flag does what the flag-free description says |
| `LprPool.Scheduler.StartNext` | src/network/PlateRecognition.cpp:302-312 | The pump loop, guarded against re-entry |
| `LprPool.Scheduler.StartTask` | src/network/PlateRecognition.cpp:314-394 | Dead context, no temporary file, immediate failure, or running |
| `LprPool.Scheduler.FinishTask` | src/network/PlateRecognition.cpp:396-423 | Clean up, call back, start the next |
| `LprPool.Scheduler.CancelTask` | src/network/PlateRecognition.cpp:425-450 | Removes a task and refills its slot |
| `LprPool.Scheduler.DestroyContext` | src/network/PlateRecognition.cpp:245-250 | All tasks of a dead context are cancelled, oldest first |
| `LprPool.Scheduler.DeliverPosted` | src/network/PlateRecognition.cpp:453-462 | A posted failure is reported from the event loop |
| `LprPool.Scheduler.Shutdown` | src/network/PlateRecognition.cpp:257-286 | Drops everything waiting and running |
| `EntryPlanner.SameSpots` | src/core/service/BackgroundEntryPlanner.cpp:16-35 | True exactly when the two lists agree in every field that can change |
| `EntryPlanner.CommitIsCurrent` | src/core/service/BackgroundEntryPlanner.cpp:128-144 | A proposal is handed over only when spots and settings are those it was computed from |
| `EntryPlanner.EveryRunIsSafe` | src/core/service/BackgroundEntryPlanner.cpp:52-166 | In every interleaving: exactly one wake-up or worker while requests wait, at most 8 of them, first in first out, at most three computations each; every committed proposal was computed for the request then at the head from spots and settings equal to the current ones |
| `EntryPlanner.AllAnswered` | src/core/service/BackgroundEntryPlanner.cpp:72-81 | Accepted requests are the completed ones followed by the waiting ones; each is completed once, with a callback if its context lives |
| `EntryPlanner.Progress` | src/core/service/BackgroundEntryPlanner.cpp:82-145 | Every wake-up and every result brings the queue closer to empty, and only an accepted request takes it further away |
| `EntryPlanner.ComesToRest` | src/core/service/BackgroundEntryPlanner.cpp:52-145 | In any run there are at most five wake-ups and results for each accepted request, those still to come included |
| `EntryPlanner.ToDoIsCount` | src/core/service/BackgroundEntryPlanner.cpp:82-145 | What is still to come is counted by a number that is zero exactly when the queue is empty and nothing is due |
| `EntryAnswers.SubmitDecides` | src/core/service/BackgroundEntryPlanner.cpp:52-74 | In any run a request is refused by a posted answer exactly if eight are waiting; otherwise it joins the queue and an idle planner is woken |
| `EntryAnswers.RefusalArrives` | src/core/service/BackgroundEntryPlanner.cpp:59-64 | A posted refusal reaches its context if that still lives |
| `EntryAnswers.OtherEvents` | src/core/service/BackgroundEntryPlanner.cpp:82-100 | A context that dies is dead from then on, and the parking changes as it is changed |
| `EntryAnswers.WakeUpDecides` | src/core/service/BackgroundEntryPlanner.cpp:84-119 | A wake-up answers a head whose vehicle is inside after the sweep, drops one whose context is dead, and starts a computation for any other |
| `EntryAnswers.SearchDecides` | src/core/service/BackgroundEntryPlanner.cpp:112-145 | A finished computation is committed exactly if spots and settings are unchanged, computed again twice at most, then given up; the service afterwards is what entering made of it |
| `EntryAnswers.AnswersAreTrue` | src/core/service/BackgroundEntryPlanner.cpp:76-145 | Every answer in any run is to the head, calls back exactly a living context, and is true: inside means inside, an allocation or refusal is what entering has just returned |
| `EntryPlanner.BackgroundEntryPlanner.OnWakeUp` | src/core/service/BackgroundEntryPlanner.cpp:65-80 | The queued wake-up clears the flag and starts the next request |
| `EntryPlanner.BackgroundEntryPlanner.Submit` | src/core/service/BackgroundEntryPlanner.cpp:52-71 | Queue, busy reply or wake-up |
| `EntryPlanner.BackgroundEntryPlanner.StartNext` | src/core/service/BackgroundEntryPlanner.cpp:82-116 | Snapshot for the head of the queue |
| `EntryPlanner.BackgroundEntryPlanner.OnSearchFinished` | src/core/service/BackgroundEntryPlanner.cpp:116-145 | Commit, compute again, or give up |
| `ParkingSpots.ParkingSpot.Occupy` | src/core/model/ParkingSpot.cpp:54-71 | From available, or from reserved for the same plate |
| `ParkingSpots.ParkingSpot.Reserve` | src/core/model/ParkingSpot.cpp:72-80 | From available only |
| `ParkingSpots.ParkingSpot.ExpireReservation` | src/core/model/ParkingSpot.cpp:81-87 | Only a reservation that has run out |
| `ParkingSpots.ParkingSpot.Release` | src/core/model/ParkingSpot.cpp:88-94 | From occupied or reserved |
| `ParkingSpots.ParkingSpot.Disable` | src/core/model/ParkingSpot.cpp:95-101 | From available only |
| `ParkingRepositories.SpotRoundTrip` | src/core/persistence/ParkingRepository.cpp:873-938 | Every spot state the writer accepts the reader accepts and gives back, up to parts of a millisecond |
| `ParkingRepositories.ReaderIsExact` | src/core/persistence/ParkingRepository.cpp:1000-1063 | Apart from the legacy expiry the reader accepts exactly what some well-formed spot is written as |
| `ParkingRepositories.ParkingRepository.SaveSpotState` | src/core/persistence/ParkingRepository.cpp:939-954 | All or nothing |
| `ParkingRepositories.ParkingRepository.SaveReservation` | src/core/persistence/ParkingRepository.cpp:331-340 | All or nothing, for a reserved spot with a vehicle and a supported expiry |
| `ParkingRepositories.ParkingRepository.SaveEntry` | src/core/persistence/ParkingRepository.cpp:284-330 | Spot and record together or neither, with a failure at any begin, statement or commit; success when nothing fails |
| `ParkingRepositories.ParkingRepository.SaveBookingCheckIn` | src/core/persistence/ParkingRepository.cpp:417-465 | The same for spot, booking and record |
| `ParkingRepositories.ParkingRepository.SaveReservationCheckIn` | src/core/persistence/ParkingRepository.cpp:667-715 | The same for spot, reservation and record |
| `ParkingRepositories.ParkingRepository.SaveExit` | src/core/persistence/ParkingRepository.cpp:848-872 | The same for record and spot |
| `ParkingRepositories.ParkingRepository.SaveExitWithReservation` | src/core/persistence/ParkingRepository.cpp:716-745 | The same for record, spot, reservation and payment |
| `ParkingStore.NextKeeps` | src/core/service/ParkingService.cpp:243-335 | Each service operation, stored or failed, keeps memory and tables consistent |
| `ParkingStore.TablesStayOneToOne` | src/core/persistence/ParkingRepository.cpp:95-96 | After any operations with any failures occupied spots and open records are one to one with equal plates, at most one open record for a plate |
| `ParkingStore.LeavingSucceeds` | src/core/persistence/ParkingRepository.cpp:848-872 | While the connection holds a parked vehicle can always leave |
| `ParkingStore.EnteringSucceeds` | src/core/persistence/ParkingRepository.cpp:284-330 | While the connection holds a vehicle that is not inside can take any spot it may occupy |
| `ParkingStore.FailedEntryInStep` | src/core/service/ParkingService.cpp:266-279 | A failed entry leaves memory and tables in step if and only if the spot was not reserved |
| `ParkingStore.FailedEntryOutOfStep` | src/core/service/ParkingService.cpp:266-279 | A run from the empty car park that ends with the spot available in memory and reserved in its row |
| `ParkingStore.FailedCheckInInStep` | src/core/service/ReservationService.cpp:320-331 | A failed arrival puts a reservation back as it was |
| `ParkingStore.RestartSucceeds` | src/core/service/ParkingService.cpp:899-957 | Whatever happened and failed, restoring the service from the tables is accepted |
| `ParkingRestart.RestartRestores` | src/core/service/ParkingService.cpp:899-957 | Whatever happened and failed, the restored service has the same open records and occupied spots, apart from parts of a millisecond, and every spot whose row was in step |
| `ParkingRestart.RestoredIsConsistent` | src/core/service/ParkingService.cpp:899-957 | The checks made at start are enough: whatever tables they accept, the restored service is consistent |
| `ParkingRestart.LoadsIff` | src/core/persistence/ParkingRepository.cpp:1080-1115 | Which stored records load |
| `ParkingEffects.EntryEffects` | src/core/service/ParkingService.cpp:243-281 | An entry stores spot and record as written out here, is refused without any change, or leaves the spot available in memory when storing fails |
| `ParkingEffects.CheckInEffects` | src/core/service/ReservationService.cpp:263-330 | An arrival on a reservation stores spot, order and record exactly if the confirmed order fits and nothing else is open for the plate; otherwise the spot is reserved again |
| `ParkingEffects.BookingEffects` | src/core/service/ParkingService.cpp:578-629 | The same for a booking |
| `ParkingEffects.ExitEffects` | src/core/service/ParkingService.cpp:283-335 | A vehicle that is inside leaves at any supported time not before it came: its one open row is closed with time and fee and its spot is free; anything else changes nothing |
| `ParkingEffects.SettledExitEffects` | src/core/service/ParkingService.cpp:304-335 | With a settlement order and payment are stored with the exit, or nothing |
| `ParkingEffects.ReserveEffects` | src/core/service/ParkingService.cpp:214-234 | An available spot is held until a supported time, in memory and in its row, or nothing changes |
| `ParkingEffects.UnreserveEffects` | src/core/service/ParkingService.cpp:478-520 | A hold ends in memory and in its row, or stays |
| `ParkingEffects.RowIs` | src/core/persistence/ParkingRepository.cpp:873-938 | The numbers and texts a spot is stored as |
| `ParkingEffects.WrittenIff` | src/core/persistence/ParkingRepository.cpp:873-938 | Which spots the writer accepts |
| `ParkingEffects.EnteredIff` | src/core/persistence/ParkingRepository.cpp:284-300 | Which records are entered with which spots |
| `ParkingEffects.OldRows` | src/core/persistence/ParkingRepository.cpp:1000-1063 | How rows of older versions are read |
| `ParkingServices.PromisedIsStore` | src/core/persistence/ParkingRepository.cpp:284-330 | What a repository operation promises is what the store assumes of it |
| `ParkingServices.ParkingService.StoreFollows` | src/core/persistence/ParkingRepository.cpp:284-330 | An all-or-nothing operation of the repository does to the tables what the store describes; entry and exit rest on it |
| `ParkingServices.ParkingService.Enter` | src/core/service/ParkingService.cpp:243-282 | Entry on spot, record and repository objects is the store's entry, with its way back |
| `ParkingServices.ParkingService.Leave` | src/core/service/ParkingService.cpp:283-335 | Exit on objects is the store's exit: the tables first, then memory |
| `TimeUtil.TimeRoundTrip` | src/core/util/TimeUtil.h:27-47 | Times survive storing up to parts of a millisecond |
| `OccupancyTrend.VariancePositive` | src/core/service/AnalyticsEngine.cpp:159-168 | The guard against a vanishing variance never triggers |
| `OccupancyTrend.ResidualsCancel` | src/core/service/AnalyticsEngine.cpp:169-177 | The residuals sum to zero, plainly and weighted by index |
| `OccupancyTrend.LeastSquares` | src/core/service/AnalyticsEngine.cpp:144-180 | No line has a smaller squared error, and any other line a strictly larger one |
| `OccupancyTrend.DeterminationInRange` | src/core/service/AnalyticsEngine.cpp:171-179 | The coefficient of determination lies between 0 and 1, and when it is 1 |
| `OccupancyTrend.FitLinear` | src/core/service/AnalyticsEngine.cpp:144-180 | The accumulating loops compute the specified fit |
| `OccupancyTrend.Forecast` | src/core/service/AnalyticsEngine.cpp:194-204 | Six hours ahead, every rate clamped to 0 to 100 percent |
| `OccupancyTrend.StraightLineContinues` | src/core/service/AnalyticsEngine.cpp:150-204 | Samples on a straight line are continued along it hour by hour; with fewer than three the current rate stays |
| `OccupancyTrend.TrendReported` | src/core/service/AnalyticsEngine.cpp:144-183 | Nothing for fewer than three samples, otherwise slope and intercept of the best line |
| `ParkingGeometry.InnerApart` | src/core/model/Geometry.h:24-30 | Rectangles inside rectangles that do not overlap do not overlap, with the tolerance |
| `ParkingGeometry.SpotsOfRegionApart` | src/core/model/ParkingLayout.cpp:284-312 | No two spots of a region overlap |
| `ParkingGeometry.SpotWithinRegion` | src/core/model/ParkingLayout.cpp:260-312 | Spot and aisle strip lie in the region |
| `ParkingGeometry.AccessIsInAisle` | src/core/model/ParkingLayout.cpp:283-306 | The access point lies in the spot's own aisle strip and in no spot of the region |
| `ParkingLayouts.IdentifiersDistinct` | src/core/model/ParkingLayout.cpp:23-27 | Different serial numbers give different identifiers |
| `ParkingLayouts.ApplyKeepsSound` | src/core/model/ParkingLayout.cpp:162-253 | Every accepted line keeps the layout sound |
| `ParkingLayouts.AcceptedIsApart` | src/core/model/ParkingLayout.cpp:162-335 | Regions and obstacles of every accepted description lie on the site and apart from each other, in any order |
| `ParkingLayouts.AcceptedSpotsApart` | src/core/model/ParkingLayout.cpp:162-335 | No two spots overlap and none overlaps an obstacle |
| `ParkingLayouts.AcceptedAccess` | src/core/model/ParkingLayout.cpp:283-312 | Every access point lies in the aisle of its own bay |
| `ParkingLayouts.AcceptedIdentifiers` | src/core/model/ParkingLayout.cpp:307-309 | No two spots share an identifier |
| `LayoutMeaning.OverlapMeans` | src/core/model/Geometry.h:23-30 | Two rectangles overlap exactly if one wider and higher than a billionth of a metre lies in both |
| `LayoutMeaning.SpotMeasures` | src/core/model/ParkingLayout.cpp:277-305 | A spot measures its width across and its length along the way in |
| `LayoutMeaning.SpotsInLine` | src/core/model/ParkingLayout.cpp:277-305 | Spots of a row stand side by side, and the next row or column begins a spot and an aisle further |
| `LayoutMeaning.FirstSpot` | src/core/model/ParkingLayout.cpp:277-305 | The first spot stands in the corner of the region, behind its aisle if that is above or to the left |
| `LayoutMeaning.AccessInFront` | src/core/model/ParkingLayout.cpp:284-304 | A spot is reached a quarter of a metre in front of the middle of its aisle side |
| `LayoutMeaning.RegionIsFilled` | src/core/model/ParkingLayout.cpp:275-311 | A region adds exactly rows times columns spots, one for each cell, row by row, with its name, type and the next serial numbers |
| `LayoutMeaning.IdentifierMeans` | src/core/model/ParkingLayout.cpp:25-29 | An identifier is the prefix and the serial number in at least three digits, without needless zeros |
| `LayoutMeaning.RegionAccepted` | src/core/model/ParkingLayout.cpp:245-274 | A region is accepted exactly if it is on the site, shares area with nothing and its aisles are 2.5 m wide |
| `LayoutMeaning.ObstacleAccepted` | src/core/model/ParkingLayout.cpp:315-341 | An obstacle is accepted exactly if it is on the site and shares area with nothing |
| `LayoutMeaning.AcceptedIffFits` | src/core/model/ParkingLayout.cpp:153-231 | Which lines are accepted after which |
| `LayoutMeaning.AcceptedContents` | src/core/model/ParkingLayout.cpp:145-241 | An accepted description holds exactly the gates, obstacles and regions of its lines, in order, and the spots of its regions numbered through |
| `LayoutMeaning.AcceptedIff` | src/core/model/ParkingLayout.cpp:145-241 | A description is accepted exactly if every line fits, one is a site line, and there is a gate of each kind and a region |
| `LayoutMeaning.SiteSize` | src/core/model/ParkingLayout.cpp:155-168 | The site has the size its line gives |
| `ParkingLayouts.ParkingLayout.AddRegion` | src/core/model/ParkingLayout.cpp:254-313 | The checks and the two loops compute the specified layout |
| `ParkingLayouts.ParkingLayout.AddObstacle` | src/core/model/ParkingLayout.cpp:314-335 | The checks and the added obstacle |
| `ParkingLayouts.ReadDescription` | src/core/model/ParkingLayout.cpp:162-253 | The command loop accepts and builds exactly what the specification says |
| `AssetCache.RuntimeCache.Write` | scripts/lpr_runtime_cache.py:65-82 | Writes with new metadata, exactly if the call is not cut short before it |
| `AssetCache.LeastExists` | scripts/lpr_runtime_cache.py:250-263 | There always is a smallest set of configurations closed under existing references |
| `AssetCache.RuntimeCache.Ensure` | scripts/lpr_runtime_cache.py:212-237 | Succeeds exactly if the file is done already, is up to date, or can be copied; an up-to-date copy is left alone; a failure is one of the three reasons to stop |
| `AssetCache.RuntimeCache.EnsureAll` | scripts/lpr_runtime_cache.py:239-247 | Succeeds exactly if all the assets exist, none that is stale changes meanwhile, and there are writes enough |
| `AssetCache.RuntimeCache.VisitConfig` | scripts/lpr_runtime_cache.py:255-263 | Caches one configuration and finds what it refers to in the cached copy |
| `AssetCache.RuntimeCache.FollowConfigs` | scripts/lpr_runtime_cache.py:248-263 | The worklist ends; it succeeds exactly if the smallest set closed under existing references can be copied, and then has ensured just that |
| `AssetCache.RuntimeCache.RemoveStale` | scripts/lpr_runtime_cache.py:265-274 | Removes what only the previous manifest owned, and succeeds exactly if there are operations enough |
| `AssetCache.RuntimeCache.Prepare` | scripts/lpr_runtime_cache.py:201-280 | Succeeds exactly if the job can be done; completed or interrupted, the manifest vouches only for true copies and every other file is as before; an unchanged cache is kept without a single operation |
| `AssetCache.CopiesMatch` | scripts/lpr_runtime_cache.py:239-277 | After a completed call every tracked copy equals its source and dropped files are gone |
| `AssetCache.UnchangedIsKept` | scripts/lpr_runtime_cache.py:212-237 | With nothing changed since the last completed call, a call succeeds with no operation allowed, and the cache stays as it is |
| `AssetCache.InterruptedCopyStays` | scripts/lpr_runtime_cache.py:265-277 | A run that leaves a file behind: a call interrupted before it writes the manifest, then a completed one with the same selections after a vendor file was deleted |
| `AssetCache.NoOrphans` | scripts/lpr_runtime_cache.py:265-277 | Nothing else is left in the tree if and only if every file there before was tracked before or is tracked now |
| `FrameProtocol.RoundTrip` | src/network/Protocol.cpp:20-52 | A frame decodes to its payload if and only if that is at most 9 MiB, lengths being cut to 32 bits |
| `FrameProtocol.FrameMeans` | src/network/Protocol.cpp:20-31 | A frame is the length in four bytes, the most significant first, and the payload |
| `FrameProtocol.DecodeMeans` | src/network/Protocol.cpp:33-52 | Over 9 MiB is refused as soon as the length is there, a whole frame is taken off, anything less is left |
| `FrameProtocol.EncodedMessagesDrain` | src/network/Protocol.cpp:20-52 | Any messages of at most 9 MiB, encoded one after another, decode to themselves with nothing left over |
| `FrameProtocol.DrainSplits` | src/network/Protocol.cpp:33-52 | Decoding a beginning first and the rest later is decoding it all, for arbitrary bytes |
| `FrameProtocol.Session.TryDecodeFrame` | src/network/Protocol.cpp:33-52 | Takes one whole frame off the front of the buffer |
| `FrameProtocol.Session.OnReadyRead` | src/network/SmartParkTcpServer.cpp:144-161 | After every chunk, messages, unread bytes and verdict depend only on all bytes received |
| `FrameProtocol.ReadAll` | src/network/SmartParkTcpServer.cpp:144-161 | The same for any sequence of chunks |
| `ExpectedRoutes.EncodedWords` | src/core/model/Reservation.cpp:17-37 | The words of the text are what was written, if the numbers in it are printed as words |
| `ExpectedRoutes.FillPoints` | src/core/model/Reservation.cpp:57-79 | The point loop computes the specification function |
| `ExpectedRoutes.RoundTrip` | src/core/model/Reservation.cpp:14-81 | Decoding gives the encoded route back if and only if it has a point and at most 100000 per leg, or is the default; one without points becomes the default. Only the route's own numbers need be printed so that they can be read back |
| `ExpectedRoutes.NumbersExist` | src/core/model/Reservation.cpp:21-37 | For every route there are numbers printed so that they can be read back, so the round trip applies to all of them |
| `ExpectedRoutes.DecodeIff` | src/core/model/Reservation.cpp:39-81 | A text is read as exactly the route whose numbers stand in their places, and refused if there is none |
| `ReservationStates.Reservation.CheckInNow` | src/core/model/Reservation.cpp:176-182 | From confirmed only |
| `ReservationStates.Reservation.CompleteNow` | src/core/model/Reservation.cpp:183-189 | From checked in only |
| `ReservationStates.Reservation.MarkNoShowNow` | src/core/model/Reservation.cpp:198-204 | From confirmed only |
| `ReservationStates.Reservation.ExpireNow` | src/core/model/Reservation.cpp:205-211 | From pending payment only |
| `ReservationStates.Reservation.CancelNow` | src/core/model/Reservation.cpp:190-197 | From confirmed or pending payment |
| `ReservationStates.FromConfirmed` | src/core/model/Reservation.cpp:176-211 | The only sequences of accepted transitions of a confirmed order |
| `ReservationStates.FromPendingPayment` | src/core/model/Reservation.cpp:176-211 | Before payment an order can only be cancelled or expire, once |
| `ReservationStates.AcceptedSuffices` | src/core/model/Reservation.cpp:176-211 | Accepted transitions alone are accepted again and lead to the same state |
| `ReservationStates.EachWayEnds` | src/core/model/Reservation.cpp:176-211 | Each way can be gone and ends where it should |

## Left out

- Floating-point rounding: all arithmetic is over the reals, with any diagonal factor from 1 to 2 in place of the square root of two; the locale of printed numbers.
- The heap algorithms of the C++ library: any that meet their contract (`GridSearch.HeapAlgorithms`).
- The raster built from spots and obstacles (`GridPlanner.cpp:88-117`): the blocked cells are given.
- `GridOccupancy.BuildOccupancy`: the distance is compared by squares; counts are unbounded integers.
- The bodies of allocation, billing, reservations and booking rules: their answers are arbitrary functions (`ReplayServer.Environment`, `EntryPlanner.Environment`), so nothing about scores, prices or deposits is claimed.
- JSON, SQL text, sockets, processes, signals and file descriptors: only success, failure, order and content matter here.
- `BarrierGate.BarrierGate.Wait`: log texts, and callbacks that re-enter the barrier from a state-change notification.
- `OfflineEvents.OfflineQueue.Append`: a write that fails half way; appending is atomic here.
- `ReplayProtocol.FlushLosesIff`: events recorded while a reply can still arrive on a socket being closed; its runs record off line only, while those of `ReplayProtocol.NothingLostUndecided` record at any time.
- `ReplayServer.Server.EnterVehicle`: the allocation itself; a reservation check-in is taken as it comes, also for a plate that is inside, because the program does not ask.
- `ReplayServer.Server.LeaveVehicle`: how the fee and the deposit come about, and whether the spot is found occupied; both are part of the environment.
- `ReplayServer.KeyOf`: white space other than ASCII when a plate is trimmed.
- `LprPool.Scheduler.Shutdown`: called from within a callback; the program calls it only from its destructor. No caller of this program can submit after it, so `LprScheduler.SubmitAfterShutdown` describes the object and not a fault. Killing process trees and reading their output is part of the step that ends a task.
- `EntryPlanner.BackgroundEntryPlanner.Finish`: a callback that destroys the whole service.
- `ParkingRepositories.ParkingRepository.SaveEntry`: a rollback that itself fails; last-error texts.
- `ParkingStore.NextKeeps`: arrivals on bookings and reservations, reserving and cancelling are steps on values; only entry and exit are also methods on objects. The records that are closed are kept in the tables alone.
- `ExpectedRoutes.EncodedWords`: the loops that append the points to the text; the text is a function of the route.
- `ParkingStore.RestartSucceeds`: the checks of bookings, reservations and the layout signature at start.
- `ParkingLayouts.ReadDescription`: cutting a line into tokens, letter case, and the names of sides and spot types.
- `AssetCache.RuntimeCache.Prepare`: locking, symbolic links, ownership checks and reuse of indexed blobs, which are taken to have the source's content; metadata identify contents, and writes get fresh metadata.
- `ExpectedRoutes.RoundTrip`: how a number is printed and parsed; parsing stops at white space.
- Payment orders of the REST gateway, statistics, audit log, user interfaces, scripts for training and reports: not part of this model.
