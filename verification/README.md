# Stowage model: planner, checker and their files

A ship is a grid of container towers over a ship plan. At every port of a route a stowage
planner digs out what is due, puts back what it had to take off, then loads or rejects the
waiting cargo, and writes its crane instructions to a file. A simulator reads that file,
replays it on a ship of its own, audits it and scores it. This project models both, the files
between them and the hand-out of work to threads, and proves what the two promise each other.

Operations that change state are classes and methods with the loops of the original
(`ShipObject.Ship`, `Planner.StowageAlgorithm`, `Ordering.Sort`, `SimulationRun.Simulation`,
`Tickets.TaskSource`, the parsers). Each is proved against a function over values
(`ShipSpec`, `PlannerSpec`, `AuditSpec`, ...), and the lemmas are about those functions.

## How the files build on each other

- `Cargo`, `ShipSpec`, `Ship`: containers, instructions, the ship as a value and as an object.
- `Replay`, `Legal`: runs of instructions, two ships that go through the same run, and what the checker lets through.
- `PlannerSpec`, `Planner`, `Ordering`: the planner as functions, as an object, and the two load orders.
- `PlannerFacts`, `LoadFacts`, `UnloadChain`, `UnloadOnce`, `PlanIds`: what the phases of one port guarantee.
- `Lockstep`, `IdsOnBoard`, `Rotation`, `Agreement`: planner and checker side by side.
- `TowerPlan`, `LoadPlan`: what the planner writes at one port, instruction by instruction, and its flags.
- `LoadCut`, `StackOrder`: which containers are loaded, that the cut is at the far end of the route, and how they are stacked.
- `AuditSpec`, `Audit`, `Counts`: the checker's audit and score, that the planner passes, and what is counted of any list.
- `Voyage`, `VoyageGrows`: whole voyages.
- `CraneText`, `Handover`: instruction files, and that nothing is lost in them that the checker looks at.
- `RouteFile`, `ShipPlanFile`, `FileNames`, `ContainerId`, `PortFiles`: the other input files and the check of container ids.
- `SimulationRun`, `Travel`: the simulator object, and a travel from its files to its verdict.
- `FilesExist`: that there are files for every voyage that can be written down.
- `Examples`: travels on which something that holds for most cargo fails.
- `Tickets`, `Interleaving`, `Workers`: the shared counters from which threads take their work.

## Main results

1. Delivery: a ship that starts empty leaves every stop with containers for later stops only, and
   is empty after the last, exactly when each stop sends only such containers onward
   (`Voyage.VoyageDelivers`, `Voyage.VoyageEndsEmpty`). What a stop sends is read off its cargo:
   the first container of each id that is chosen (`LoadCut.PortSendsOnward`). It is enough that
   each eligible id is led by a container for a later stop, and needed when the eligible ids fit
   (`LoadCut.LedExactly`); distinct ids per stop are always delivered (`Voyage.DistinctIsDelivered`).
   `Examples.StrayHappens` is a travel on which a stranger is taken along and stays on board.
2. Acceptance: for any cargo the checker finds every instruction legal at its turn and its ship
   looks like the planner's by ids (`Lockstep.PlanReplayedByIds`, `Voyage.VoyageIsLegal`).
3. Agreement: the ships are equal container for container when no id of the cargo is on board
   (`Lockstep.PlanReplayed`). For any cargo `Agreement.ShipsAgreeExactly` says exactly when: for
   every container that stays, the unload scan does not unload it, or no other container of its id
   waits in front. The condition speaks of ship and cargo only, because no id is unloaded twice at
   a port (`UnloadOnce.ScanUnloadsOnce`, `Agreement.PlanUnloadsOnce`); along a voyage the ships are
   equal as long as it holds (`Voyage.VoyageAgreesExactly`). `Examples.ClashHappens` is a travel on
   which it fails, and on which the checker then counts an error although nothing went wrong.
4. Audit: the planner's list always passes the checker's audit, for any cargo
   (`Audit.PlanPassesAudit`). Over a voyage, whether or not the ships came apart, all errors are of
   the unload audit, and a stop has none exactly when what the checker takes for due is due for the
   planner (`Voyage.StopErrorsExactly`, `VoyageGrows.NoErrorsInAll`); so there is none when no id
   waits at two stops and the port codes do not mislead the checker (`Voyage.VoyageHasNoErrors`).
5. Unique ids: in no state of any voyage, between instructions included, do two containers on
   board share an id, whatever the cargo (`Voyage.VoyageKeepsIdsUniqueThroughout`).
6. Optimal cut: for any cargo one container is loaded for each eligible id, as long as there is
   room (`LoadCut.LoadsAllThatFit`); with distinct ids nothing left behind is nearer than anything
   loaded (`LoadCut.LoadCutIsOptimal`). Algorithm A moreover stacks what it loads so that none of it
   stands above one that leaves earlier, when all fits or the first block can all be loaded
   (`StackOrder.FarFirstStacks`).
7. Files: reading back any printed list gives the list, rejects with their id only, for every id
   that can come out of a file (`CraneText.ReadUndoesPrintAll`, `PortFiles.CargoIsPrintable`). How
   any line splits follows from two laws (`CraneText.SplitPart`, `CraneText.SplitBoth`).
8. Score: over any voyage the score is ten a load and three a move, less five for each container
   still on board (`Voyage.VoyageScore`).
9. End to end: `Travel.RunTravel` goes from the texts of the files and the listing of their folder
   to the statistics, and carries results 1, 2, 4 and 8 over to the numbers that it records.
   Conversely every voyage whose ports and containers can be written down is the run of some
   travel (`FilesExist.EveryVoyageIsATravel`), so what fails on a voyage fails on files.
10. Threads: one counter gives out every index once under any interleaving
    (`Tickets.IndicesOnce`); serial calls for a task run the same pairs as the two loops
    (`Tickets.ServedAreAllPairs`). However workers interleave, each call is answered
    (`Interleaving.CallIsAnswered`) and all workers come to an end (`Workers.WorkersEnd`). But no
    pair is run twice for certain exactly when there is at most one worker or no travel
    (`Workers.WorkersRunOnceExactly`), and every pair is run for certain exactly when there is one
    worker or no travel (`Workers.WorkersRunAllExactly`). `Interleaving.PairsAreUniqueExactly` and
    `Interleaving.PairsAreCompleteExactly` say the same for a given number of calls.
11. The plan itself, in terms of ship, route and cargo only: the unload scan clears every tower
    once, row by row; from the lowest due container up it takes them off one by one, moves each that
    is not due to the best other tower while fewer were taken off than there was room elsewhere,
    unloads the rest, and puts back what came to the port and is not due, in that order
    (`TowerPlan.ScanExactly`). Then it answers the containers one by one: `LoadPlan.LoadPhaseExactly`
    says of each exactly when it is loaded and where, and of each flag exactly when it is raised.
12. The checker itself, on any list: exactly when an instruction is legal, by places and heights
    (`Legal.StatusExactly`), where the container then stands (`Legal.LoadStandsThere`,
    `Legal.MoveStandsThere`, `Legal.UnloadTakesThat`), and what is counted: one error for each
    instruction that is not legal at its turn, for each waiting container without an answer that
    stands, and for each container due without an unload that stands (`Counts.PortErrorsCounted`).
    On a voyage that gives the number of errors of each stop (`Voyage.StopErrorsCounted`).

## Where the code and its documentation differ

- Line 50 of the original repository's own README.md says that each thread gets a unique pair of
  algorithm and travel. The reset of the algorithm counter and the increment of the travel counter
  are two steps, so two calls can get the same pair, and a pair can be left out.
  `Workers.WorkersRunOnceExactly` and `Workers.WorkersRunAllExactly` say when.
- Where a stop has no cargo file one is generated, always under the name `empty.cargo_data`
  (common/FileParser.cpp:843-905). The checker takes the port code from the name
  (common/FileParser.cpp:223), so at such a stop it audits the port "empty": what is due there is
  not audited, and a container destined for "empty" counts as an error although the planner does
  right to keep it (`Examples.MisnamedHappens`, `PortFiles.CodeAtStop`, `Voyage.AgreedStopErrors`).
- The message of a container that is loaded back after its unload is chosen by a type that is
  always passed as reject (simulator/Simulation.cpp:458). Only the number of errors is modelled.
- In the reader of instruction files a flag stays set after the first complete line, so an
  incomplete line is dropped before it and kept, with zeros, after it
  (`CraneText.ReadsFromFirstComplete`).
- The blank test of a field compares with character 13 under the name of a tabulator
  (common/FileParser.cpp:552, common/FileParser.h:32). The model compares with character 13.
- The checker looks neither at the emptiness of a source tower nor at the source height of a
  move (simulator/Simulation.cpp:222-245). `ShipSpec.LegalUnloadOfNothing` is an unload that it
  lets through and that has no defined effect; soundness is stated for non-empty sources, which
  the planner's own instructions always have.

## Model

| member | source | states |
|---|---|---|
| Cargo.GetContainerIdxById | common/Port.cpp:20-29 | the search returns the first container with the id, or NOT_FOUND exactly when there is none |
| ShipObject.Ship.constructor | common/Ship.cpp:12-23 | a new ship has the plan's grid of empty towers |
| ShipObject.Ship.Copy | algorithm/StowageAlgorithm.cpp:79 | a copied ship has the same contents and is a ship of its own |
| ShipObject.Ship.GetCapacityExcludeTower | common/Ship.cpp:153-168 | the nested loops add up the free places of all towers but one |
| ShipObject.Ship.GetCapacity | common/Ship.cpp:148-151 | no tower is left out |
| ShipObject.Ship.GetContainerIdxById | common/Ship.cpp:118-140 | the place found is the first in row-major order, each tower from the bottom |
| ShipObject.Ship.IsContainerOnShip | common/Ship.cpp:142-146 | true exactly when some container on board carries the id |
| ShipObject.Ship.PerformInstruction | common/Ship.cpp:35-71 | the towers and the port vector after the change in place are those of the instruction's effect on values |
| ShipSpec.AcceptedKeeps | common/Ship.cpp:35-71 | every accepted instruction keeps all towers within the ship's height, conserves the containers of ship and port together, and keeps free plus taken places constant |
| ShipSpec.LegalIsPerformable | simulator/Simulation.cpp:203-257 | a legal instruction has a defined effect exactly when its source tower is not empty |
| ShipSpec.LegalUnloadOfNothing | simulator/Simulation.cpp:222-227 | an unload from an empty raised tower is legal and has no defined effect |
| ShipSpec.CapacityAndLoad | common/Ship.cpp:148-168 | free places plus containers on board are the places of the plan, for every ship |
| ShipSpec.CapacitySign | common/Ship.cpp:153-173 | on a sound ship free room is never negative, and zero exactly when every tower that counts is full |
| ShipSpec.OnBoardMember | common/Ship.cpp:118-140 | a container is on board exactly when it stands in some tower |
| ShipSpec.FindFromIsFirst | common/Ship.cpp:118-140 | the place found for an id is the first one, row by row and each tower from the bottom, and none is found exactly when it stands nowhere |
| Legal.StatusExactly | simulator/Simulation.cpp:203-257 | each of the four answers of the checker exactly in its case, by places and heights written out: a load and the destination of a move at the next free height, an unload at the topmost container, a load of a container that waits |
| Legal.LoadStandsThere | common/Ship.cpp:35-71 | after a legal load the first waiting container of the id stands at exactly the height that the load names, and nothing else changed |
| Legal.UnloadTakesThat | common/Ship.cpp:35-71 | a legal unload takes the container at exactly the height that it names, the topmost one, to the end of the port's vector |
| Legal.MoveStandsThere | common/Ship.cpp:35-71 | after a legal move between two towers the topmost container of the one stands on the other at exactly the height that the move names; a move within a tower changes nothing |
| Legal.SkippedChangesNothing | simulator/Simulation.cpp:277-337 | an instruction that is not legal changes neither ship nor port |
| Replay.RunKeeps | common/Ship.cpp:82-89 | a whole accepted run keeps soundness, containers and the sum of free and taken places |
| Replay.LockstepIds | simulator/Simulation.cpp:277-337 | a ship that looks the same by ids, with at least the same ids at its port, accepts the same run and looks the same at its end |
| Replay.LockstepSame | simulator/Simulation.cpp:277-337 | from equal ships and ports that agree on the ids involved the run ends in equal ships |
| PlannerFacts.BestTowerIsBest | algorithm/StowageAlgorithm.cpp:277-306 | the tower found is free and not the source, no other such tower holds fewer other destinations, and no earlier one as few; none is found exactly when there is none |
| PlannerFacts.BestTowerExactly | algorithm/StowageAlgorithm.cpp:255-306 | the same with heights and sets of destinations written out: of the towers with a free place besides the source the first one with the fewest distinct destinations other than the container's |
| PlannerFacts.MoveTargetExists | algorithm/StowageAlgorithm.cpp:362-375 | while the other towers have room in all, a tower to move to is found and it is not full |
| PlannerFacts.LoadTargetExists | algorithm/StowageAlgorithm.cpp:415-424 | a tower to load to is found exactly while the ship has room |
| PlannerFacts.DigStep | algorithm/StowageAlgorithm.cpp:355-395 | the current height is the top of the source tower, the instruction is accepted, and the room counted before the loop less the containers moved is still there |
| PlannerFacts.ReturnEmit | algorithm/StowageAlgorithm.cpp:232-252 | a container going back fits, is the very one that was taken off, and lands on top of its tower |
| PlannerFacts.ReturnAllFacts | algorithm/StowageAlgorithm.cpp:225-253 | what is not due is back on the tower, what is due is what remains at the port |
| PlannerFacts.UnloadScanClears | algorithm/StowageAlgorithm.cpp:81-88 | after the scan nothing on board is due here although later towers push containers onto cleared ones; everything else is still on board and nothing came on board |
| TowerPlan.RemovesExactly | algorithm/StowageAlgorithm.cpp:346-396 | the n-th instruction of a dig-out names the container n places below the old top; it is a move to the best other tower, at the height where that tower ends, exactly when the container is not due and n is less than the room that the other towers had before, else an unload |
| TowerPlan.ReturnsExactly | algorithm/StowageAlgorithm.cpp:225-253 | what is not due is stacked again one by one in the order in which it left the tower |
| TowerPlan.TowerExactly | algorithm/StowageAlgorithm.cpp:324-396 | all that is written for one tower: nothing if nothing is due, else a dig-out down to the lowest due container and the loads that put back; and how the tower stands after that |
| TowerPlan.ScanExactly | algorithm/StowageAlgorithm.cpp:81-88 | the unload scan writes that for every tower once, row by row, each on the ship as the tower before left it |
| UnloadChain.UnloadIsChain | algorithm/StowageAlgorithm.cpp:81-88 | the scan is a chain of towers, each an accepted run that tells in its unloads what left the ship |
| LoadFacts.DecideAccepted | algorithm/StowageAlgorithm.cpp:125-154 | the next instruction is a reject or an accepted load, and a load names an id that is neither on board nor loaded here and leaves at a later stop |
| LoadPlan.ChecksExactly | algorithm/StowageAlgorithm.cpp:198-222 | each of the four flags exactly in its case: an id on the ship before unloading, an id that fails the check, a weight of -1, a destination that is not five letters |
| LoadPlan.DecideExactly | algorithm/StowageAlgorithm.cpp:125-154 | a container is loaded exactly when it is not for this stop, none of its id was loaded here, nothing is wrong with it, a later stop is its destination and some tower has a free place; then on the best tower at the height where it ends; and each flag is raised exactly in its case |
| LoadPlan.LoadPhaseExactly | algorithm/StowageAlgorithm.cpp:107-157 | the load phase writes one such instruction for each container in the order given, on the ship as the ones before left it, and the port's flags are those that some container raises |
| LoadPlan.LastStopExactly | algorithm/StowageAlgorithm.cpp:115-120 | at the last stop with waiting cargo nothing is loaded or rejected, and just that is flagged |
| LoadFacts.LoadAllFacts | algorithm/StowageAlgorithm.cpp:125-154 | the load loop is an accepted run that answers every waiting container with a load or a reject, and loads no id that was on board |
| LoadFacts.PlanPortKeepsIdsUnique | algorithm/StowageAlgorithm.cpp:70-105 | one port keeps the ship sound and ids on board unique, for any cargo |
| UnloadOnce.ScanUnloadsOnce | algorithm/StowageAlgorithm.cpp:81-88 | the unload scan unloads no id twice: what was put back stands on a tower that is not dug out again |
| PlanIds.PlanSpeaks | algorithm/StowageAlgorithm.cpp:70-105 | every instruction has one of the four kinds and names a container that is on board or waits |
| Planner.StowageAlgorithm.constructor | algorithm/StowageAlgorithm.cpp:26-60 | a new planner stands at the first stop with an empty ship |
| Planner.StowageAlgorithm.NextPort | algorithm/StowageAlgorithm.cpp:17-24 | the index moves on by one, the code only within the route |
| Planner.StowageAlgorithm.NumPortsInTowerOtherThan | algorithm/StowageAlgorithm.cpp:255-268 | the number of distinct destinations in the tower besides the given one |
| Planner.StowageAlgorithm.GetIdxOfBestTowerForMove | algorithm/StowageAlgorithm.cpp:277-306 | the loops find the best tower or NOT_FOUND twice |
| Planner.StowageAlgorithm.GetIdxOfBestTowerForLoad | algorithm/StowageAlgorithm.cpp:270-275 | the best tower with no source left out |
| Planner.StowageAlgorithm.AddInstructionsRemoveAllAboveContainers | algorithm/StowageAlgorithm.cpp:346-396 | ship, list and removed containers after the dig-out loop are those of the specification, which TowerPlan.RemovesExactly spells out, and the ship stays sound |
| Planner.StowageAlgorithm.AddInstructionsReturnContainersNotForThisPort | algorithm/StowageAlgorithm.cpp:225-253 | ship, list and copy after the loop are those of the specification, and the ship stays sound |
| Planner.StowageAlgorithm.AddInstructionsToUnloadContainers | algorithm/StowageAlgorithm.cpp:324-344 | one tower of the scan is dug out from its lowest due container on, and ids stay unique |
| Planner.StowageAlgorithm.ContainerDestInNextRoutePorts | algorithm/StowageAlgorithm.cpp:308-318 | true exactly when a later stop is the destination |
| Planner.StowageAlgorithm.CheckContainerErrorsBeforeLoad | algorithm/StowageAlgorithm.cpp:198-222 | each of the four flags exactly in its case, written out |
| Planner.StowageAlgorithm.GetNextLoadInstruction | algorithm/StowageAlgorithm.cpp:398-429 | the branches give the reject or the load of the specification, with its flags |
| Planner.StowageAlgorithm.AddInstructionsToLoadContainers | algorithm/StowageAlgorithm.cpp:107-157 | at a last port with cargo nothing is loaded; else the cargo is put in the algorithm's order and the loop gives ship, list and flags of the specification |
| Planner.StowageAlgorithm.GetInstructionsForCargo | algorithm/StowageAlgorithm.cpp:70-105 | the planner's whole work at one port; the cargo is permuted into the algorithm's order, the planner stands at the next stop |
| Planner.VerifySeaportCode | common/Port.cpp:40-52 | true exactly for five letters |
| LoadPlan.SeaportCodeExactly | common/Port.cpp:40-52 | the same by character codes |
| Ordering.CompareByRoute | algorithm/StowageAlgorithm.cpp:431-452 | the route scan is exactly the comparison of the next visits, off-route last, reversed for far first, hence a strict weak order |
| Ordering.Sort | algorithm/_308570647_b.cpp:10-15 | a prefix sorted in place: a sorted permutation of it, the rest untouched |
| Ordering.OrderContainersForLoad | algorithm/_308570647_a.cpp:9-33 | the result is a permutation; for A, when the cargo exceeds the room, the first containers are far first and none of the others is nearer than any of them |
| Ordering.OrderExactly | algorithm/_308570647_a.cpp:9-33 | both orders by next visits alone: B near first; A far first as far as there is room, then near first, and nothing of the rest nearer than what comes before |
| Ordering.BlockStaysBefore | algorithm/_308570647_a.cpp:19-24 | sorting the first block again keeps it before everything that follows |
| LoadCut.PlanLoads | algorithm/StowageAlgorithm.cpp:107-157 | for any cargo the ship after the port is the ship after unloading plus the first container of each chosen id |
| LoadCut.RoomIsCapacity | algorithm/StowageAlgorithm.cpp:107-157 | the room after unloading is the places of the plan less what stays, counted on the ship before |
| LoadCut.PortSendsOnward | algorithm/StowageAlgorithm.cpp:107-157 | for any cargo, what leaves the port is bound for later stops exactly when what came was bound for this stop or later ones and the first container of each chosen id is bound for a later stop |
| LoadCut.LedExactly | algorithm/StowageAlgorithm.cpp:107-157 | a port sends only such containers onward if each eligible id is led by one; with room for the eligible ids exactly then |
| LoadCut.LoadsAllThatFit | algorithm/StowageAlgorithm.cpp:107-157 | for any cargo the number loaded is the smaller of the room after unloading and the number of eligible ids |
| LoadCut.LoadCutIsOptimal | algorithm/_308570647_a.cpp:9-33 | for both algorithms and distinct ids, as many eligible containers are loaded as fit, and none of the others has a nearer next visit |
| StackOrder.FarFirstStacks | algorithm/_308570647_a.cpp:19-31 | for algorithm A and distinct ids, when all that waits fits or the whole first block can be loaded, every tower is as unloading left it with containers on top of which none leaves later than one under it |
| Lockstep.PlanReplayedByIds | simulator/Simulation.cpp:203-257 | for any cargo every instruction of the planner's list is legal at its turn on a ship that looks the same, and the ships look the same at the end |
| Lockstep.PlanReplayed | simulator/Simulation.cpp:277-337 | from equal ships, when no id of the cargo is on board, the ships are equal at the end, duplicate ids in the cargo included |
| IdsOnBoard.UniqueIsCarriedOnce | common/Ship.cpp:118-146 | ids on board are unique exactly when no id stands in two places |
| IdsOnBoard.PlanKeepsIdsUniqueThroughout | algorithm/StowageAlgorithm.cpp:70-157 | between any two instructions of a port's list, on either ship, ids on board are unique, for any cargo |
| Rotation.RunTurns | common/Ship.cpp:51-66 | a run turns the queue of the containers of one id once for each unload of it, and does nothing else to it |
| Rotation.PlanTells | algorithm/StowageAlgorithm.cpp:355-395 | every unload of the planner names the container that it takes |
| Agreement.PlanUnloadsOnce | algorithm/StowageAlgorithm.cpp:70-105 | no id is unloaded twice at a port, and none in the load phase |
| Agreement.CheckerQueue | simulator/Simulation.cpp:277-337 | what the checker holds of an id after a port, on board and waiting, for any cargo: the queue it began with, turned once if the scan unloads the id |
| Agreement.ShipsAgreeExactly | simulator/Simulation.cpp:277-337 | the two ships are equal after a port exactly when each container that stays is not unloaded in the scan, or no other container of its id waits in front |
| Agreement.OneClashDiffers | simulator/Simulation.cpp:277-337 | a container unloaded and put back while another of its id waits in front makes the ships differ |
| Agreement.OneClashSwaps | simulator/Simulation.cpp:277-337 | after such a clash the checker has the container that waited on board and the planner the one that stayed |
| AuditSpec.LastIdx | simulator/Simulation.cpp:515-529 | the last instruction of a type for an id, NOT_FOUND exactly when there is none |
| AuditSpec.NextIdx | simulator/Simulation.cpp:531-545 | the first one from a place on, NOT_FOUND exactly when there is none |
| AuditSpec.AuditExactly | simulator/Simulation.cpp:404-465 | on any list, by places alone: an id passes as loaded exactly when some load of it has no later unload, or it has no load and a reject; as unloaded exactly when some unload of it has no later load |
| AuditSpec.NoLoadedErrors | simulator/Simulation.cpp:339-351 | no error is counted exactly when every waiting container passes |
| AuditSpec.NoUnloadedErrors | simulator/Simulation.cpp:367-390 | no error is counted exactly when every container that is due passes |
| AuditSpec.ScoreCounts | simulator/Simulation.cpp:547-569 | the score is five a load or unload and three a move |
| AuditSpec.RunBalance | simulator/Simulation.cpp:143-201 | an accepted run has one more container on board for each load and one less for each unload |
| Counts.IllegalCounted | simulator/Simulation.cpp:277-337 | the replay counts one error for each instruction that is not legal on the ship and port as the ones before left them |
| Counts.LoadedErrorsCounted | simulator/Simulation.cpp:339-351 | one error for each waiting container without a load that stands and without a reject in its place |
| Counts.UnloadedErrorsCounted | simulator/Simulation.cpp:367-390 | one error for each container that is due and has no unload that stands |
| Counts.PortErrorsCounted | simulator/Simulation.cpp:143-201 | the errors of a port are these three together, the second but at the last stop |
| Counts.ScoreExactly | simulator/Simulation.cpp:547-569 | the score is five for each place of the list with a load or an unload and three for each with a move |
| Audit.DueIsUnloaded | simulator/Simulation.cpp:404-465 | every container that is due has an unload with no later load |
| Audit.WaitingIsAnswered | simulator/Simulation.cpp:404-465 | every waiting container has a load with no later unload, or no load and a reject |
| Audit.PlanPassesAudit | simulator/Simulation.cpp:339-465 | at every port, for any cargo, each waiting container has a load with no later unload or no load and a reject, and each container due has an unload with no later load; so both audits count nothing |
| Audit.PassesExactly | simulator/Simulation.cpp:404-465 | an id passes as unloaded exactly when the planner has a container with it that is due |
| Voyage.VoyageKeepsIdsUnique | algorithm/StowageAlgorithm.cpp:70-157 | at every stop of every voyage the ship is sound and ids on board are unique |
| Voyage.VoyageKeepsIdsUniqueThroughout | algorithm/StowageAlgorithm.cpp:70-157 | the same between any two instructions, on the planner's ship and on the checker's |
| Voyage.VoyageDelivers | algorithm/StowageAlgorithm.cpp:70-157 | leaving a stop, every container on board is destined for a later one exactly when each stop so far sent only such containers onward |
| Voyage.VoyageEndsEmpty | algorithm/StowageAlgorithm.cpp:17-24 | the ship is empty after the last stop exactly when each stop did |
| Voyage.LedStopSends | algorithm/StowageAlgorithm.cpp:107-157 | a stop does if each eligible id of its cargo is led by a container for a later stop, and so if no id waits twice there |
| Voyage.DistinctIsDelivered | algorithm/StowageAlgorithm.cpp:70-157 | when no id waits twice at one stop everything is delivered |
| Voyage.VoyageIsLegal | simulator/Simulation.cpp:90-104 | on every voyage, whatever the cargo, no instruction is illegal at its turn |
| Voyage.VoyageShipsAgree | simulator/Simulation.cpp:90-104 | when no id waits at two stops the two ships are equal at every stop |
| Voyage.StopErrorsExactly | simulator/Simulation.cpp:143-201 | for any cargo and any stop, the ships apart or not: all errors are of the unload audit, and there is none exactly when each container that the checker takes for due has the id of one that is due for the planner |
| Voyage.StopErrorsCounted | simulator/Simulation.cpp:143-201 | the number of errors of a stop: the containers on the checker's ship that it takes for due where the planner has none of that id that is |
| Voyage.AgreedStopErrors | simulator/Simulation.cpp:143-201 | at a stop that both ships reach with the same containers no error is recorded exactly when the checker has the stop's code or nothing on board is destined for the code it has |
| Voyage.NextStopAgreesExactly | simulator/Simulation.cpp:90-104 | the ships leave such a stop the same exactly when each container that stays keeps its place in front of the others of its id |
| Voyage.VoyageAgreesExactly | simulator/Simulation.cpp:90-104 | the ships are equal at every stop up to one exactly when at every stop before it each container that stays keeps its place |
| Voyage.SwapIsCounted | simulator/Simulation.cpp:367-390 | once the ships hold different containers of one id they differ, and a stop at which only the checker's is due counts an error |
| Voyage.VoyageHasNoErrors | simulator/Simulation.cpp:143-201 | no error is recorded at any stop when no id waits at two stops and nothing waits for a code that the checker has in place of a stop's |
| Voyage.VoyageBalance | simulator/Simulation.cpp:547-569 | at every stop loads exceed unloads by the containers on board |
| Voyage.VoyageScore | simulator/Simulation.cpp:547-569 | after any number of stops the score is ten a load and three a move less five for each container on board; the ship is empty exactly when loads equal unloads |
| VoyageGrows.NoErrorsInAll | simulator/Simulation.cpp:90-104 | the recorded errors of a voyage add up to zero exactly when at every stop what the checker takes for due is due for the planner |
| VoyageGrows.LongerByOne | simulator/Simulation.cpp:90-104 | what one more stop adds to errors, score and the checker's ship |
| VoyageGrows.RunExists | simulator/Simulation.cpp:90-104 | there is a voyage for every ship plan, route, cargo and order of loading |
| CraneText.SplitLine | common/FileParser.cpp:268-282 | the loop over the stream gives the fields of the line |
| CraneText.SplitPart | common/FileParser.cpp:268-282 | a line without a delimiter gives one field at most, the line without the white space in front and the blanks behind |
| CraneText.SplitBoth | common/FileParser.cpp:268-282 | of any two parts with a delimiter between them the fields are those of the one and then those of the other |
| CraneText.SkipExactly | common/FileParser.cpp:268-282 | what is skipped in front is all the white space there, by character codes |
| CraneText.TrimExactly | common/FileParser.cpp:268-282 | what is cut off behind is all the blanks there |
| CraneText.SplitIsClean | common/FileParser.cpp:268-282 | a field is never empty, holds no delimiter, does not begin with white space and does not end with a blank |
| CraneText.SplitJoin | common/FileParser.cpp:268-282 | splitting undoes joining for every list of such fields |
| CraneText.ParseFileToVector | common/FileParser.cpp:285-309 | the loop drops carriage returns, empty lines, comments and lines without a field |
| CraneText.KeptExactly | common/FileParser.cpp:285-309 | a line is dropped exactly when it holds nothing but carriage returns, or begins with # but for these, or holds nothing but white space and commas |
| CraneText.LinesExactly | common/FileParser.cpp:285-309 | the lines of a text: what stands before a line feed, then the lines of what stands after it |
| CraneText.StoiByDigits | common/FileParser.cpp:1056-1064 | what a string of digits means, digit by digit, and a minus sign in front |
| CraneText.StoiUndoesToString | common/FileParser.cpp:1056-1064 | every printed integer reads back as itself |
| CraneText.PrintIsJoin | common/Instruction.cpp:34-46 | the printed line is the join of the letter of the kind, the id, height, row and column, and of a move height, row and column of its destination |
| CraneText.WriteInstructionVector | common/FileParser.cpp:1099-1103 | the file holds one printed line for each instruction, in order |
| CraneText.ReadCraneInstructions | common/FileParser.cpp:1041-1081 | the loop with its flag gives the list of the specification, or the exception of a failed conversion |
| CraneText.ReadUndoesPrint | common/FileParser.cpp:1041-1097 | one printed instruction of any kind reads back, a reject with its id only |
| CraneText.ReadUndoesPrintAll | common/FileParser.cpp:1041-1097 | reading back the file of any printed list gives the list, rejects with their id only |
| CraneText.ReadsFromFirstComplete | common/FileParser.cpp:1041-1081 | reading succeeds exactly when every number converts, and gives the instructions of all lines from the first complete one on, of incomplete ones too |
| CraneText.IncompleteLine | common/FileParser.cpp:1048-1072 | which lines are incomplete, and that such a line gives an instruction with zeros for what it lacks |
| CraneText.CompleteLine | common/FileParser.cpp:1048-1072 | a complete line that is no reject is read exactly when its numbers are, those of a destination only in a move of eight fields |
| CraneText.CompleteLineSays | common/FileParser.cpp:1048-1072 | which instruction it gives then, by its letter |
| CraneText.CompleteMoveSays | common/FileParser.cpp:1048-1072 | the same for a move of eight fields, destination included |
| Handover.VerdictSurvivesFile | simulator/Simulation.cpp:164-183 | errors, replay, acceptance and score are the same for a list and for what is left of it in its file |
| RouteFile.KeepValidLines | common/FileParser.cpp:155-169 | exactly the lines of one field that is a seaport code are kept, and any other is an error |
| RouteFile.CodesExactly | common/FileParser.cpp:155-169 | the codes kept are those of all lines of one field that is five letters, in the order of the lines |
| RouteFile.DropRepeats | common/FileParser.cpp:171-197 | the counter-driven loop is run compression, and its flag is set exactly when two neighbours are equal |
| RouteFile.CompressIsRuns | common/FileParser.cpp:171-197 | the input is the result with each entry repeated at least once |
| RouteFile.CompressUndoesExpand | common/FileParser.cpp:171-197 | a list without equal neighbours is the only compression of its repetitions |
| RouteFile.InputFileRoutesValidation | common/FileParser.cpp:150-208 | a route is usable exactly when two entries are left, and each error is raised exactly in its case |
| RouteFile.RouteIsClean | common/FileParser.cpp:150-208 | a route holds seaport codes with no equal neighbours, and repeats were dropped exactly when it is shorter than the list of valid lines |
| ShipPlanFile.JudgeExactly | common/FileParser.cpp:80-110 | of any line: exactly when it is taken and what it says then, and exactly when each of the three errors is raised, the shape being checked before the number of floors and that before the position |
| ShipPlanFile.DuplicateIsDisagreement | common/FileParser.cpp:111-126 | the fatal duplicate error is raised exactly when two accepted lines for one cell disagree |
| ShipPlanFile.ErrorsExactly | common/FileParser.cpp:80-126 | each of the other errors is raised exactly when some line raises it, or, for the bad format, repeats the floors that the first line for its cell gave |
| ShipPlanFile.FirstSaidIsFirst | common/FileParser.cpp:111-126 | a cell takes its floors from the first accepted line for it: it starts that many below the top, or at 0 without a line |
| ShipPlanFile.SizeExactly | common/FileParser.cpp:32-56 | a first line is good exactly when it is three numbers above zero: floors, length, width |
| ShipPlanFile.PermutedLines | common/FileParser.cpp:68-127 | permuted lines give the same floors, or are both fatal |
| ShipPlanFile.FloorStartFits | common/FileParser.cpp:68-127 | the first usable floor of a cell lies between zero and the number of floors |
| ShipPlanFile.CheckPosDescShipPlanFile | common/FileParser.cpp:68-127 | the loop with its map fills the grid in place with what the first accepted line for each cell says, and raises the errors of the specification |
| ShipPlanFile.ReadShipPlan | common/FileParser.cpp:13-66 | whatever the position lines say the plan meets the ship's invariant; it is fatal exactly when the first line is not good or lines disagree |
| PortFiles.OrganizePortFilesByRoutes | common/FileParser.cpp:843-914 | one file for each stop, the first one scanned for its visit or else an empty one; extra files are those beyond the visits of their port |
| PortFiles.FileFor | common/FileParser.cpp:857-903 | the file at a stop has the stop's code and the number of its visit |
| PortFiles.OccursExactly | common/FileParser.cpp:857-903 | the visits counted are the places of the route with that code |
| PortFiles.FileIsUsed | common/FileParser.cpp:857-903 | a scanned file is used exactly when its visit takes place and no earlier file is for the same visit |
| FileNames.NameInFolder | common/FileParser.cpp:382-394 | whatever the folder is called, the name found in the path of one of its files is that file's, without its type |
| PortFiles.ScanCargoFiles | common/FileParser.cpp:571-619 | the loop over the folder takes the cargo files of ports on the route, for visits from the first on, in the order of the listing |
| PortFiles.ScanFinds | common/FileParser.cpp:571-619 | the scan takes exactly those files |
| PortFiles.WantedExactly | common/FileParser.cpp:571-619 | a file that is named by a port, an underscore and a number is taken exactly when the port is on the route and the number is one or more, and it is for that visit |
| PortFiles.ScannedIsNamed | common/FileParser.cpp:355-381 | a file is recorded under the port and the visit in its name |
| PortFiles.CodeAtStop | common/FileParser.cpp:843-905 | the code that a reader takes from the path of the file at a stop is the stop's if the folder has a file for that visit, and "empty" if not |
| PortFiles.ReadPortFile | common/FileParser.cpp:211-265 | the cargo read, with each of the five flags raised exactly in its case: repeated ids, ids that fail the check, bad destinations, lines of another shape or with a bad weight, ids of another length |
| PortFiles.EntryExactly | common/FileParser.cpp:226-262 | a line gives a container exactly when it has three fields and an id of eleven characters: id, destination, and the weight, which is -1 if it is no number |
| PortFiles.CargoExactly | common/FileParser.cpp:211-265 | the cargo is those containers of all such lines, in the order of the lines |
| PortFiles.CargoIsPrintable | common/FileParser.cpp:211-309 | ids that were read from a file survive being written and read again |
| ContainerId.CheckId | common/Container.cpp:11-74 | the loops and comparisons give the check of an id of eleven characters |
| ContainerId.VerifyIdExactly | common/Container.cpp:11-74 | of the ids with six digits for a serial number those pass that have three capital letters, one of three categories, and the check digit that the weighted sum leaves |
| ContainerId.LettersSkipMultiples | common/Container.cpp:42-57 | the values of the letters grow from 10 to 38 and leave out exactly the multiples of 11, as Annex A of ISO 6346 has them |
| ContainerId.OneDigitCompletes | common/Container.cpp:39-71 | an id that is formed as it should be is completed by exactly one character, its check digit |
| ContainerId.WrongDigitPassesExactly | common/Container.cpp:39-71 | one wrong digit of the serial number goes unnoticed exactly when the sums leave 0 and 10 |
| SimulationRun.Simulation.VerifyInstruction | simulator/Simulation.cpp:203-257 | the branches give the status of the specification |
| SimulationRun.Simulation.VerifyAndPerformInstruction | simulator/Simulation.cpp:277-337 | a legal instruction takes effect, any other counts as one error and is skipped |
| SimulationRun.Simulation.PerformAll | simulator/Simulation.cpp:174-180 | the replay loop ends with the ship of the run and counts each instruction that is not legal at its turn |
| SimulationRun.Simulation.GetIdxLastInstructionOfType | simulator/Simulation.cpp:515-529 | the backward loop finds the last one |
| SimulationRun.Simulation.FindIdxNextInstructionOfType | simulator/Simulation.cpp:531-545 | the forward loop finds the next one |
| SimulationRun.Simulation.VerifyContainerByType | simulator/Simulation.cpp:404-465 | one error exactly when the container does not pass |
| SimulationRun.Simulation.VerifyCargoLoaded | simulator/Simulation.cpp:339-351 | one error for each waiting container that does not pass |
| SimulationRun.Simulation.VerifyCargoUnloaded | simulator/Simulation.cpp:367-390 | one error for each container that is due and does not pass |
| SimulationRun.Simulation.GetInstructionScores | simulator/Simulation.cpp:547-569 | the score of the list |
| SimulationRun.Simulation.SimulateAlgorithmOnPort | simulator/Simulation.cpp:143-201 | one port through the instruction file: the checker's ship, errors and score are those of the planner's list, although it reads the file, has its own ship and cargo, and takes the port's code from the name of the cargo file |
| SimulationRun.Simulation.RunSingleTravel | simulator/Simulation.cpp:63-107 | for any cargo a whole travel records no error exactly when at every stop what the checker takes for due is due for the planner, and ten operations a load and three a move less five for each container left on board, which is none exactly when each stop sent only containers for later stops onward |
| Travel.ReadStops | common/FileParser.cpp:571-619 | from the listing of the folder to the code and the cargo of each stop: those of the file for that visit, or "empty" and nothing |
| Travel.RunTravel | simulator/Simulation.cpp:63-107 | the same from the texts of the files and the folder; it runs exactly when ship plan and route have no fatal error |
| FilesExist.CargoReadsBack | common/FileParser.cpp:211-265 | reading the cargo file written for any cargo of ids of eleven characters gives the cargo |
| FilesExist.RouteReadsBack | common/FileParser.cpp:150-208 | reading the route file written for any route without equal neighbours gives the route |
| FilesExist.PlanReadsBack | common/FileParser.cpp:13-127 | reading the file written for any valid ship plan gives the plan, without a fatal error |
| FilesExist.FilesForEveryCargo | common/FileParser.cpp:571-619 | for every route, every cargo and every choice of the stops that have a file there is a folder from which just that is read |
| FilesExist.EveryVoyageIsATravel | simulator/Simulation.cpp:63-107 | every voyage whose ports and containers can be written down is the run of some travel |
| Examples.ShipsComeApart | simulator/Simulation.cpp:277-390 | a voyage on which the ships differ and an error is counted, for any three containers of which two share an id and meet at the second stop |
| Examples.NotDelivered | algorithm/StowageAlgorithm.cpp:107-157 | a voyage that leaves a container on board, for any two containers of one id of which the first is for no stop, in any order of loading |
| Examples.ErrorThatIsNone | simulator/Simulation.cpp:367-390 | a voyage on which an error is counted at a stop without a cargo file while the ships agree |
| Examples.ClashHappens | simulator/Simulation.cpp:277-390 | the first is the run of a travel from its files, with ids that pass the check and a file for every stop |
| Examples.StrayHappens | algorithm/StowageAlgorithm.cpp:107-157 | so is the second |
| Examples.MisnamedHappens | common/FileParser.cpp:843-905 | so is the third, with the later files missing |
| Tickets.IndicesOnce | simulator/Simulation.cpp:624-639 | under every interleaving the indices given out are exactly those below the counter, each to one call, the counter never passes the size, and a call without an index means that all are given out |
| Tickets.CallEnds | simulator/Simulation.cpp:624-639 | no call fails more often than there were indices left when it began, so each call ends |
| Tickets.AloneTakesNext | simulator/Simulation.cpp:624-639 | a call that no other interrupts takes the next index without a failed exchange |
| Tickets.TaskSource.GetTask | simulator/Simulation.cpp:573-622 | the loop ends, and one uninterrupted call is one step of the pair of counters |
| Tickets.SerialTasks | simulator/Simulation.cpp:573-650 | call k gives out algorithm k mod A and travel k div A, and nothing after A times T calls |
| Tickets.ServedAreAllPairs | simulator/Simulation.cpp:43-56 | one worker runs the same pairs as the two loops, each exactly once |
| Interleaving.AloneIsSerial | simulator/Simulation.cpp:573-622 | a call that no other interrupts, access by access, is a serial call |
| Interleaving.InterleavedTasksExist | simulator/Simulation.cpp:573-650 | however calls interleave, every pair given out exists |
| Interleaving.CallIsAnswered | simulator/Simulation.cpp:573-622 | whatever other calls do, a call has its answer after four accesses and three more for each travel index that was left |
| Interleaving.PairsAreUniqueExactly | simulator/Simulation.cpp:573-650 | calls get distinct pairs under every interleaving exactly when there is no travel, or no more calls than algorithms, or one call more and a single travel |
| Interleaving.PairsAreCompleteExactly | simulator/Simulation.cpp:573-650 | when all calls have ended every pair was given out, under every interleaving, exactly when there is no travel, or a single travel and as many calls as algorithms |
| Workers.WorkersEnd | simulator/ThreadPoolExecutor.cpp:8-15 | however the workers interleave, the turns that they take together before all are over are bounded |
| Workers.OneWorkerIsSerial | simulator/ThreadPoolExecutor.cpp:8-15 | a single worker runs the serial order, and all of it when it is over |
| Workers.WorkersRunOnceExactly | simulator/ThreadPoolExecutor.cpp:8-40 | no pair is run twice, under every interleaving of the workers, exactly when there is at most one worker or no travel |
| Workers.WorkersRunAllExactly | simulator/ThreadPoolExecutor.cpp:8-40 | when all workers are over every pair was run, under every interleaving, exactly when there is one worker or no travel |

## Left out

- Lockstep.PlanReplayed: gives a sufficient condition; the exact one is Agreement.ShipsAgreeExactly.
- Voyage.VoyageHasNoErrors: gives a sufficient condition on the cargo files; the exact one, stop by stop on the two ships, is Voyage.StopErrorsExactly.
- LoadCut.LedExactly: the condition on the leading containers is needed only when the eligible ids fit; LoadCut.PortSendsOnward is exact without room.
- StackOrder.FarFirstStacks: gives a sufficient condition; when part of the first block is rejected, later containers are loaded near first on top of it.
- ContainerId.VerifyIdExactly: is about serial numbers made of digits; of any other the check asks only that it begins with a number, and its characters count by their distance from 0.
- Travel.RunTravel: takes the height of the ship within the range of the source's integers, and a folder whose cargo files can all be read.
- The weight balance calculator always approves (simulator/WeightBalanceCalculator.cpp:8-15), so the branches for a refusal are not modelled.
- Planner and readers are given the check of container ids as any predicate on strings; ContainerId.VerifyId is the one that the program has.
- Sorting is by selection; callers learn only that the result is a sorted permutation, as of a sort that is not stable.
- Integers are unbounded; overflow and conversions out of range are not modelled.
- File and directory access beyond names and texts, the command line, error files and their mutexes, and the messages of errors and warnings.
- Workers.WorkersEnd: counts an index taken from a counter as one turn; Tickets.CallEnds bounds the steps of that. The request to stop early, which the program never makes, is not modelled.
- Loading and registering algorithms, and creating and joining threads. The accesses of the shared counters are single steps; the statistics are not shared.
- The results table and its sorting by errors and operations.
- Files are texts: one text is written and read, and an error of the stream is not modelled.
