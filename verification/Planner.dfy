/** The stowage planner object. Its loops change the ship it owns and grow the list of
    instructions; each method is proved to compute what PlannerSpec says. */
module Planner {
  import opened Cargo
  import opened ShipSpec
  import opened ShipObject
  import opened PlannerSpec
  import opened PlannerFacts
  import opened LoadFacts
  import opened LoadPlan
  import opened Ordering

  const NO_SOURCE := -1

  class StowageAlgorithm {
    const algorithm: Algorithm
    const verifyId: string -> bool
    const ship: Ship
    var currPort: string
    var currPortIdx: nat
    var route: seq<string>

    ghost function Here(): Stop
      reads this
    {
      Stop(route, currPortIdx, currPort, verifyId)
    }

    ghost predicate Valid()
      reads this, ship
    {
      Sound(ship.Value()) && UniqueIds(OnBoard(ship.Value()))
    }

    /** A planner whose ship plan and route were read without a fatal error. */
    constructor (algorithm: Algorithm, verifyId: string -> bool, plan: ShipPlan, route: seq<string>)
      requires ValidPlan(plan) && route != []
      ensures Valid() && fresh(ship) && ship.Value() == Empty(plan)
      ensures this.algorithm == algorithm && Here() == Stop(route, 0, route[0], verifyId)
    {
      this.algorithm := algorithm;
      this.verifyId := verifyId;
      this.ship := new Ship(plan);
      this.route := route;
      this.currPort := route[0];
      this.currPortIdx := 0;
      new;
      EmptyHasNothing(plan, 0, 0);
    }

    method NextPort()
      modifies this
      ensures route == old(route) && currPortIdx == old(currPortIdx) + 1
      ensures currPort == if currPortIdx < |route| then route[currPortIdx] else old(currPort)
    {
      currPortIdx := currPortIdx + 1;
      if currPortIdx < |route| {
        currPort := route[currPortIdx];
      }
    }

    // ----- choosing a tower -----

    method NumPortsInTowerOtherThan(row: int, col: int, code: string) returns (n: int)
      requires ship.Valid() && InGrid(ship.plan, row, col)
      ensures n == NumPortsOther(ship.Value(), row, col, code) == |DestsIn(ship.containers[row][col]) - {code}|
    {
      OthersAreDests(ship.Value(), row, col, code);
      var tower := ship.containers[row][col];
      var ports: set<string> := {};
      for k := 0 to |tower|
        invariant ports == OtherPorts(tower[..k], code)
      {
        OtherPortsPush(tower[..k], tower[k], code);
        assert tower[..k + 1] == tower[..k] + [tower[k]];
        if tower[k].dest != code {
          ports := ports + {tower[k].dest};
        }
      }
      assert tower[..|tower|] == tower;
      n := |ports|;
    }

    ghost function Chosen(row: int, col: int): Option<Spot> {
      if row == NOT_FOUND then None else Some(Spot(row, col))
    }

    method GetIdxOfBestTowerForMove(sourceRow: int, sourceCol: int, container: Container)
        returns (bestRow: int, bestCol: int)
      requires ship.Valid()
      ensures Chosen(bestRow, bestCol) == BestTower(ship.Value(), sourceRow, sourceCol, container.dest)
      ensures bestRow == NOT_FOUND <==> bestCol == NOT_FOUND
    {
      bestRow, bestCol := NOT_FOUND, NOT_FOUND;
      var bestTowerNumPorts := INT_MAX;
      ghost var s := ship.Value();
      for row := 0 to ship.plan.length
        invariant bestRow == NOT_FOUND <==> bestCol == NOT_FOUND
        invariant bestRow != NOT_FOUND ==> InGrid(s.plan, bestRow, bestCol)
        invariant bestTowerNumPorts ==
                  if bestRow == NOT_FOUND then INT_MAX else NumPortsOther(s, bestRow, bestCol, container.dest)
        invariant BestFrom(s, sourceRow, sourceCol, container.dest, row, 0, Chosen(bestRow, bestCol)) ==
                  BestTower(s, sourceRow, sourceCol, container.dest)
      {
        for col := 0 to ship.plan.width
          invariant bestRow == NOT_FOUND <==> bestCol == NOT_FOUND
          invariant bestRow != NOT_FOUND ==> InGrid(s.plan, bestRow, bestCol)
          invariant bestTowerNumPorts ==
                    if bestRow == NOT_FOUND then INT_MAX else NumPortsOther(s, bestRow, bestCol, container.dest)
          invariant BestFrom(s, sourceRow, sourceCol, container.dest, row, col, Chosen(bestRow, bestCol)) ==
                    BestTower(s, sourceRow, sourceCol, container.dest)
        {
          if !ship.IsTowerFull(row, col) && !(row == sourceRow && col == sourceCol) {
            var currTowerNumPorts := NumPortsInTowerOtherThan(row, col, container.dest);
            FewOtherPorts(Tower(s, row, col), container.dest);
            if currTowerNumPorts < bestTowerNumPorts {
              bestRow, bestCol := row, col;
              bestTowerNumPorts := currTowerNumPorts;
            }
          }
        }
      }
    }

    method GetIdxOfBestTowerForLoad(container: Container) returns (bestRow: int, bestCol: int)
      requires ship.Valid()
      ensures Chosen(bestRow, bestCol) == BestTower(ship.Value(), NO_SOURCE, NO_SOURCE, container.dest)
      ensures bestRow == NOT_FOUND <==> bestCol == NOT_FOUND
    {
      bestRow, bestCol := GetIdxOfBestTowerForMove(NO_SOURCE, NO_SOURCE, container);
    }

    // ----- unloading -----

    /** A move while fewer containers were taken off than there was room elsewhere, else an unload. */
    method ChooseDigInstruction(row: int, col: int, container: Container, currHeight: int, topHeight: int,
                                otherTowerCapacity: int)
        returns (instruction: Instruction)
      requires Sound(ship.Value()) && InGrid(ship.plan, row, col)
      requires topHeight - currHeight < otherTowerCapacity ==> CapacityExcluding(ship.Value(), row, col) > 0
      ensures instruction ==
              DigInstruction(ship.Value(), row, col, container, currPort, otherTowerCapacity, topHeight, currHeight)
    {
      var movedContainers := topHeight - currHeight;
      if movedContainers < otherTowerCapacity && container.dest != currPort {
        MoveTargetExists(ship.Value(), row, col, container.dest);
        var destRow, destCol := GetIdxOfBestTowerForMove(row, col, container);
        var destHeight := ship.GetContainerTowerHeight(destRow, destCol);
        instruction := Move(row, col, currHeight, destRow, destCol, destHeight, container.id);
      } else {
        instruction := Unload(row, col, currHeight, container.id);
      }
    }

    /** One turn of the dig-out loop. */
    method TakeOffTop(row: int, col: int, floorHeight: int, otherTowerCapacity: int, topHeight: int, currHeight: int,
                      instructions: seq<Instruction>, removed: seq<Container>)
        returns (instructions': seq<Instruction>, removed': seq<Container>)
      requires DigReady(Work(ship.Value(), removed, instructions), row, col, floorHeight, otherTowerCapacity, topHeight,
                        currHeight)
      requires floorHeight <= currHeight
      modifies ship
      ensures Shaped(ship.Value()) && Tower(old(ship.Value()), row, col) != []
      ensures Work(ship.Value(), removed', instructions') ==
              Emit(Work(old(ship.Value()), removed, instructions),
                   DigInstruction(old(ship.Value()), row, col, Last(Tower(old(ship.Value()), row, col)),
                                  currPort, otherTowerCapacity, topHeight, currHeight))
    {
      DigStep(Work(ship.Value(), removed, instructions), row, col, floorHeight, currPort, otherTowerCapacity, topHeight,
              currHeight);
      var container := ship.GetContainerAtPos(row, col, currHeight);
      var instruction := ChooseDigInstruction(row, col, container, currHeight, topHeight, otherTowerCapacity);
      LegalIsPerformable(ship.Value(), removed, instruction);
      instructions' := instructions + [instruction];
      removed' := ship.PerformInstruction(instruction, removed);
    }

    method AddInstructionsRemoveAllAboveContainers(row: int, col: int, floorHeight: int, instructions: seq<Instruction>)
        returns (instructions': seq<Instruction>, removed: seq<Container>)
      requires Sound(ship.Value()) && InGrid(ship.plan, row, col)
      requires ship.plan.floorStart[row][col] <= floorHeight < Height(ship.Value(), row, col)
      modifies ship
      ensures Sound(ship.Value())
      ensures Work(ship.Value(), removed, instructions') ==
              RemoveAllAbove(Work(old(ship.Value()), [], instructions), row, col, floorHeight, currPort)
    {
      instructions', removed := instructions, [];
      var otherTowerCapacity := ship.GetCapacityExcludeTower(row, col);
      var topHeight := ship.GetContainerTowerHeight(row, col) - 1;
      var currHeight := topHeight;
      ghost var dug := RemoveAllAbove(Work(ship.Value(), [], instructions), row, col, floorHeight, currPort);
      RemoveAllStarts(Work(ship.Value(), [], instructions), row, col, floorHeight, currPort, topHeight,
                      otherTowerCapacity);
      while currHeight >= floorHeight
        invariant DigReady(Work(ship.Value(), removed, instructions'), row, col, floorHeight, otherTowerCapacity,
                           topHeight, currHeight)
        invariant DigOut(Work(ship.Value(), removed, instructions'), row, col, floorHeight, currPort,
                         otherTowerCapacity, topHeight, currHeight) == dug
        decreases currHeight
      {
        ghost var w1 := DigTurn(Work(ship.Value(), removed, instructions'), row, col, floorHeight, currPort,
                                otherTowerCapacity, topHeight, currHeight);
        instructions', removed :=
            TakeOffTop(row, col, floorHeight, otherTowerCapacity, topHeight, currHeight, instructions', removed);
        currHeight := currHeight - 1;
      }
      DigOutEnds(Work(ship.Value(), removed, instructions'), row, col, floorHeight, currPort, otherTowerCapacity,
                 topHeight);
    }

    method AddInstructionsReturnContainersNotForThisPort(row: int, col: int, instructions: seq<Instruction>,
                                                         removed: seq<Container>)
        returns (instructions': seq<Instruction>, ghost left: seq<Container>)
      requires ReturnReady(Work(ship.Value(), removed, instructions), row, col, removed)
      modifies ship
      ensures Sound(ship.Value())
      ensures Work(ship.Value(), left, instructions') ==
              ReturnAll(Work(old(ship.Value()), removed, instructions), row, col, currPort, removed)
    {
      instructions' := instructions;
      var removedCopy := removed;
      for k := 0 to |removed|
        invariant ReturnReady(Work(ship.Value(), removedCopy, instructions'), row, col, removed[k..])
        invariant ReturnAll(Work(ship.Value(), removedCopy, instructions'), row, col, currPort, removed[k..]) ==
                  ReturnAll(Work(old(ship.Value()), removed, instructions), row, col, currPort, removed)
      {
        ghost var w := Work(ship.Value(), removedCopy, instructions');
        assert removed[k..][1..] == removed[k + 1..];
        ReturnStep(w, row, col, removed[k..]);
        ReturnEmit(w, row, col, removed[k..]);
        var container := removed[k];
        if container.dest != currPort {
          var instruction := Load(row, col, ship.GetContainerTowerHeight(row, col), container.id);
          instructions' := instructions' + [instruction];
          LegalIsPerformable(ship.Value(), removedCopy, instruction);
          removedCopy := ship.PerformInstruction(instruction, removedCopy);
          assert Work(ship.Value(), removedCopy, instructions') == Emit(w, instruction);
        }
      }
      left := removedCopy;
    }

    /** Takes everything from height floorHeight up off the tower and puts back what is not due here. */
    method ClearTower(row: int, col: int, floorHeight: int, instructions: seq<Instruction>)
        returns (instructions': seq<Instruction>, ghost left: seq<Container>)
      requires Valid() && InGrid(ship.plan, row, col)
      requires ship.plan.floorStart[row][col] <= floorHeight < Height(ship.Value(), row, col)
      modifies ship
      ensures Sound(ship.Value())
      ensures var dug := RemoveAllAbove(Work(old(ship.Value()), [], instructions), row, col, floorHeight, currPort);
              Work(ship.Value(), left, instructions') == ReturnAll(dug, row, col, currPort, dug.port)
    {
      ghost var w0 := Work(ship.Value(), [], instructions);
      var removed;
      instructions', removed := AddInstructionsRemoveAllAboveContainers(row, col, floorHeight, instructions);
      DigOutTower(w0, Work(ship.Value(), removed, instructions'), row, col, floorHeight, currPort);
      instructions', left := AddInstructionsReturnContainersNotForThisPort(row, col, instructions', removed);
    }

    /** Height of the lowest container of the tower that is due here; the tower's height if there is none. */
    method LowestDueHeight(row: int, col: int) returns (floorHeight: int)
      requires ship.Valid() && InGrid(ship.plan, row, col)
      ensures floorHeight == ship.plan.floorStart[row][col] + FirstDue(Tower(ship.Value(), row, col), currPort)
    {
      floorHeight := ship.plan.floorStart[row][col];
      while floorHeight < ship.GetContainerTowerHeight(row, col)
        invariant ship.plan.floorStart[row][col] <= floorHeight <= ship.GetContainerTowerHeight(row, col)
        invariant forall k :: 0 <= k < floorHeight - ship.plan.floorStart[row][col] ==>
                    Tower(ship.Value(), row, col)[k].dest != currPort
        decreases ship.GetContainerTowerHeight(row, col) - floorHeight
      {
        if ship.GetContainerAtPos(row, col, floorHeight).dest == currPort {
          return;
        }
        floorHeight := floorHeight + 1;
      }
    }

    method AddInstructionsToUnloadContainers(row: int, col: int, instructions: seq<Instruction>)
        returns (instructions': seq<Instruction>, ghost left: seq<Container>)
      requires Valid() && InGrid(ship.plan, row, col)
      modifies ship
      ensures Valid()
      ensures Work(ship.Value(), left, instructions') ==
              UnloadTower(old(ship.Value()), instructions, row, col, currPort)
    {
      UnloadTowerKeeps(ship.Value(), instructions, row, col, currPort);
      var floorHeight := LowestDueHeight(row, col);
      if floorHeight < ship.GetContainerTowerHeight(row, col) {
        instructions', left := ClearTower(row, col, floorHeight, instructions);
      } else {
        instructions', left := instructions, [];
      }
    }

    // ----- loading -----

    method ContainerDestInNextRoutePorts(container: Container) returns (b: bool)
      ensures b == OnRoute(Here(), container.dest)
      ensures b <==> exists k :: currPortIdx < k < |route| && route[k] == container.dest
    {
      var i := currPortIdx + 1;
      while i < |route|
        invariant currPortIdx + 1 <= i
        invariant forall j :: currPortIdx + 1 <= j < i && j < |route| ==> route[j] != container.dest
      {
        if container.dest == route[i] {
          return true;
        }
        i := i + 1;
      }
      return false;
    }

    method CheckContainerErrorsBeforeLoad(container: Container, shipBeforeUnload: Ship) returns (errors: set<AlgError>)
      requires shipBeforeUnload.Valid()
      ensures errors == CheckBeforeLoad(container, shipBeforeUnload.Value(), Here())
      ensures CONTAINER_ID_ALREADY_ON_SHIP in errors <==> Aboard(shipBeforeUnload.Value(), container.id)
      ensures CONTAINER_ID_ISO in errors <==> !verifyId(container.id)
      ensures CONTAINER_WEIGHT in errors <==> container.weight == -1
      ensures CONTAINER_PORT_DEST in errors <==> !FiveLetters(container.dest)
    {
      ChecksExactly(container, shipBeforeUnload.Value(), Here());
      errors := {};
      var onShip := shipBeforeUnload.IsContainerOnShip(container.id);
      if onShip {
        errors := errors + {CONTAINER_ID_ALREADY_ON_SHIP};
      }
      if !verifyId(container.id) {
        errors := errors + {CONTAINER_ID_ISO};
      }
      if container.weight == BAD_WEIGHT {
        errors := errors + {CONTAINER_WEIGHT};
      }
      var goodCode := VerifySeaportCode(container.dest);
      if !goodCode {
        errors := errors + {CONTAINER_PORT_DEST};
      }
    }

    method GetNextLoadInstruction(container: Container, shipBeforeUnload: Ship)
        returns (instruction: Instruction, errors: set<AlgError>)
      requires ship.Valid() && shipBeforeUnload.Valid()
      ensures Choice(instruction, errors) == NextLoad(ship.Value(), container, shipBeforeUnload.Value(), Here())
    {
      var rowIdx, colIdx := 0, 0;
      var floorHeight := ship.GetContainerTowerHeight(rowIdx, colIdx);
      errors := CheckContainerErrorsBeforeLoad(container, shipBeforeUnload);
      var onRoute := ContainerDestInNextRoutePorts(container);
      if errors != {} || !onRoute {
        return Reject(rowIdx, colIdx, floorHeight, container.id), errors;
      }
      rowIdx, colIdx := GetIdxOfBestTowerForLoad(container);
      BestTowerIsBest(ship.Value(), NO_SOURCE, NO_SOURCE, container.dest);
      if rowIdx == NOT_FOUND || colIdx == NOT_FOUND {
        return Reject(0, 0, 0, container.id), errors + {CONTAINERS_EXCEEDS_CAPACITY};
      }
      floorHeight := ship.GetContainerTowerHeight(rowIdx, colIdx);
      instruction := Load(rowIdx, colIdx, floorHeight, container.id);
    }

    predicate IsLastPort()
      reads this
    {
      |route| - 1 == currPortIdx
    }

    /** The instruction for the next container of the ordered cargo. */
    method DecideOnContainer(container: Container, loadedContainers: seq<Container>, shipBeforeUnload: Ship)
        returns (instruction: Instruction, errors: set<AlgError>)
      requires ship.Valid() && shipBeforeUnload.Valid()
      ensures Choice(instruction, errors) ==
              Decide(ship.Value(), container, loadedContainers, shipBeforeUnload.Value(), Here())
      ensures DecidedSo(ship.Value(), container, exists y :: y in loadedContainers && y.id == container.id,
                        shipBeforeUnload.Value(), Here(), instruction)
    {
      DecideExactly(ship.Value(), container, loadedContainers, shipBeforeUnload.Value(), Here());
      var found := GetContainerIdxById(loadedContainers, container.id);
      if container.dest == currPort {
        instruction, errors := Reject(0, 0, 0, container.id), {CONTAINER_ID};
      } else if found != NOT_FOUND {
        instruction, errors := Reject(0, 0, 0, container.id), {CONTAINER_DUPLICATE_ID_ON_PORT};
      } else {
        instruction, errors := GetNextLoadInstruction(container, shipBeforeUnload);
      }
    }

    /** One turn of the load loop. */
    method LoadNextContainer(container: Container, port: seq<Container>, instructions: seq<Instruction>,
                             loadedContainers: seq<Container>,
                             errors: set<AlgError>, shipBeforeUnload: Ship, ghost rest: seq<Container>)
        returns (port': seq<Container>, instructions': seq<Instruction>, loadedContainers': seq<Container>,
                 errors': set<AlgError>)
      requires shipBeforeUnload != ship && rest != [] && container == rest[0]
      requires LoadReady(Loading(Work(ship.Value(), port, instructions), loadedContainers, errors),
                         shipBeforeUnload.Value(), rest)
      modifies ship
      ensures Sound(ship.Value())
      ensures Loading(Work(ship.Value(), port', instructions'), loadedContainers', errors') ==
              LoadOne(Loading(Work(old(ship.Value()), port, instructions), loadedContainers, errors),
                      container, old(shipBeforeUnload.Value()), Here())
    {
      ghost var l := Loading(Work(ship.Value(), port, instructions), loadedContainers, errors);
      DecideAccepted(l, container, rest, shipBeforeUnload.Value(), Here());
      LoadStep(l, rest, shipBeforeUnload.Value(), Here());
      var instruction, more := DecideOnContainer(container, loadedContainers, shipBeforeUnload);
      errors' := errors + more;
      LegalIsPerformable(ship.Value(), port, instruction);
      instructions' := instructions + [instruction];
      port' := ship.PerformInstruction(instruction, port);
      loadedContainers' := loadedContainers;
      if !instruction.Reject? {
        loadedContainers' := loadedContainers + [container];
      }
    }

    /** The load loop over the ordered cargo; port is the copy of the cargo to take from. */
    method LoadOrderedContainers(ordered: array<Container>, port: seq<Container>, instructions: seq<Instruction>,
                                 shipBeforeUnload: Ship)
        returns (instructions': seq<Instruction>, errors: set<AlgError>)
      requires shipBeforeUnload != ship
      requires LoadReady(Loading(Work(ship.Value(), port, instructions), [], {}), shipBeforeUnload.Value(), ordered[..])
      modifies ship
      ensures Valid() && shipBeforeUnload.Value() == old(shipBeforeUnload.Value())
      ensures var l := LoadAll(Loading(Work(old(ship.Value()), port, instructions), [], {}),
                               shipBeforeUnload.Value(), Here(), ordered[..]);
              instructions' == l.work.list && ship.Value() == l.work.ship && errors == l.errors
    {
      instructions', errors := instructions, {};
      var containersCopy := port;
      var loadedContainers: seq<Container> := [];
      ghost var before := shipBeforeUnload.Value();
      ghost var l0 := Loading(Work(ship.Value(), port, instructions), [], {});
      for n := 0 to ordered.Length
        invariant shipBeforeUnload.Value() == before
        invariant LoadReady(Loading(Work(ship.Value(), containersCopy, instructions'), loadedContainers, errors),
                            before, ordered[n..])
        invariant LoadAll(Loading(Work(ship.Value(), containersCopy, instructions'), loadedContainers, errors), before,
                          Here(), ordered[n..])
               == LoadAll(l0, before, Here(), ordered[..])
      {
        ghost var rest := ordered[n..];
        assert rest[1..] == ordered[n + 1..];
        LoadStep(Loading(Work(ship.Value(), containersCopy, instructions'), loadedContainers, errors), rest, before,
                 Here());
        containersCopy, instructions', loadedContainers, errors :=
          LoadNextContainer(ordered[n], containersCopy, instructions', loadedContainers, errors, shipBeforeUnload,
                            rest);
      }
      assert ordered[ordered.Length..] == [];
    }

    method AddInstructionsToLoadContainers(containersToLoad: array<Container>, instructions: seq<Instruction>,
                                           shipBeforeUnload: Ship)
        returns (instructions': seq<Instruction>, errors: set<AlgError>)
      requires Valid() && shipBeforeUnload != ship && shipBeforeUnload.Valid()
      requires OnBoard(ship.Value()) <= OnBoard(shipBeforeUnload.Value())
      modifies ship, containersToLoad
      ensures Valid() && multiset(containersToLoad[..]) == multiset(old(containersToLoad[..]))
      ensures shipBeforeUnload.Value() == old(shipBeforeUnload.Value())
      ensures LastPort(Here()) && old(containersToLoad[..]) != [] ==>
                && errors == {CONTAINERS_LAST_PORT_HAS_CONTAINERS} && instructions' == instructions
                && ship.Value() == old(ship.Value())
      ensures !(LastPort(Here()) && old(containersToLoad[..]) != []) ==>
                && LoadOrder(algorithm, Capacity(old(ship.Value())), route, currPortIdx, old(containersToLoad[..]),
                             containersToLoad[..])
                && var l := LoadAll(Loading(Work(old(ship.Value()), old(containersToLoad[..]), instructions), [], {}),
                                    shipBeforeUnload.Value(), Here(), containersToLoad[..]);
                   instructions' == l.work.list && ship.Value() == l.work.ship && errors == l.errors
    {
      instructions', errors := instructions, {};
      var containersCopy := containersToLoad[..];
      if IsLastPort() && containersToLoad.Length != 0 {
        errors := errors + {CONTAINERS_LAST_PORT_HAS_CONTAINERS};
      } else {
        var capacity := ship.GetCapacity();
        CapacitySign(ship.Value(), -1, -1);
        OrderContainersForLoad(algorithm, capacity, route, currPortIdx, containersToLoad);
        LoadStarts(ship.Value(), shipBeforeUnload.Value(), instructions, containersCopy, containersToLoad[..]);
        instructions', errors :=
            LoadOrderedContainers(containersToLoad, containersCopy, instructions, shipBeforeUnload);
      }
    }

    // ----- one port -----

    /** The unload scan over the towers of one row. */
    method UnloadRow(row: int, instructions: seq<Instruction>) returns (instructions': seq<Instruction>)
      requires Valid() && 0 <= row < ship.plan.length
      modifies ship
      ensures Valid() && ship.plan == old(ship.plan)
      ensures UnloadFrom(ship.Value(), instructions', currPort, row + 1, 0) ==
              UnloadFrom(old(ship.Value()), instructions, currPort, row, 0)
    {
      instructions' := instructions;
      ghost var scanned := UnloadFrom(ship.Value(), instructions, currPort, row, 0);
      for col := 0 to ship.plan.width
        invariant Valid() && ship.plan == old(ship.plan)
        invariant UnloadFrom(ship.Value(), instructions', currPort, row, col) == scanned
      {
        UnloadFromNext(ship.Value(), instructions', currPort, row, col);
        ghost var left;
        instructions', left := AddInstructionsToUnloadContainers(row, col, instructions');
      }
    }

    /** The unload scan over all towers. */
    method UnloadAllTowers() returns (instructions: seq<Instruction>)
      requires Valid()
      modifies ship
      ensures Valid()
      ensures Scan(ship.Value(), instructions) == UnloadFrom(old(ship.Value()), [], currPort, 0, 0)
    {
      instructions := [];
      ghost var scanned := UnloadFrom(ship.Value(), [], currPort, 0, 0);
      for row := 0 to ship.plan.length
        invariant Valid() && ship.plan == old(ship.plan)
        invariant UnloadFrom(ship.Value(), instructions, currPort, row, 0) == scanned
      {
        instructions := UnloadRow(row, instructions);
      }
    }

    /** The planner's whole work at one port. The waiting cargo is put in order in place. */
    method GetInstructionsForCargo(containersToLoad: array<Container>)
        returns (instructions: seq<Instruction>, errors: set<AlgError>)
      requires Valid()
      modifies this, ship, containersToLoad
      ensures Valid() && multiset(containersToLoad[..]) == multiset(old(containersToLoad[..]))
      ensures var p := PlanPort(old(ship.Value()), old(Here()), old(containersToLoad[..]), containersToLoad[..]);
              ship.Value() == p.ship && instructions == p.list && errors == p.errors
      ensures !(LastPort(old(Here())) && old(containersToLoad[..]) != []) ==>
                LoadOrder(algorithm, Capacity(UnloadFrom(old(ship.Value()), [], old(currPort), 0, 0).ship),
                          route, old(currPortIdx), old(containersToLoad[..]), containersToLoad[..])
      ensures route == old(route) && currPortIdx == old(currPortIdx) + 1
      ensures currPort == if currPortIdx < |route| then route[currPortIdx] else old(currPort)
    {
      var shipBeforeUnload := new Ship.Copy(ship);
      UnloadScanClears(ship.Value(), [], currPort);
      instructions := UnloadAllTowers();
      instructions, errors := AddInstructionsToLoadContainers(containersToLoad, instructions, shipBeforeUnload);
      NextPort();
    }
  }

  method VerifySeaportCode(code: string) returns (b: bool)
    ensures b == SeaportCode(code)
    ensures b <==> FiveLetters(code)
  {
    SeaportCodeExactly(code);
    if |code| != SEAPORT_CODE_LEN {
      return false;
    }
    for i := 0 to |code|
      invariant forall k :: 0 <= k < i ==> IsLetter(code[k])
    {
      if (code[i] < 'a' || code[i] > 'z') && (code[i] < 'A' || code[i] > 'Z') {
        return false;
      }
    }
    return true;
  }

  lemma UnloadTowerKeeps(s: Stowage, list: seq<Instruction>, row: int, col: int, code: string)
    requires Sound(s) && UniqueIds(OnBoard(s)) && InGrid(s.plan, row, col)
    ensures var w := UnloadTower(s, list, row, col, code); Sound(w.ship) && UniqueIds(OnBoard(w.ship))
  {
    UnloadTowerFacts(s, list, row, col, code);
    ClearedIsScanned(s, UnloadTower(s, list, row, col, code), list, row, col, code);
  }

  lemma OtherPortsPush(t: seq<Container>, x: Container, code: string)
    ensures OtherPorts(t + [x], code) == OtherPorts(t, code) + (if x.dest != code then {x.dest} else {})
  {
    assert forall y :: y in t + [x] <==> y in t || y == x;
  }

  lemma {:induction false} FewOtherPorts(t: seq<Container>, code: string)
    ensures |OtherPorts(t, code)| <= |t|
  {
    if t != [] {
      var front := DropLast(t);
      assert t == front + [Last(t)];
      FewOtherPorts(front, code);
      OtherPortsPush(front, Last(t), code);
    }
  }

  lemma {:induction false} EmptyHasNothing(p: ShipPlan, r: int, c: int)
    requires ValidPlan(p) && 0 <= r <= p.length && 0 <= c <= p.width
    ensures BoardFrom(Empty(p), r, c) == multiset{}
    decreases p.length - r, p.width - c
  {
    if r < p.length {
      if c == p.width {
        EmptyHasNothing(p, r + 1, 0);
      } else {
        EmptyHasNothing(p, r, c + 1);
      }
    }
  }
}
