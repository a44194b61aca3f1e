/** The simulator object: it runs the planner along a travel, reads the planner's files,
    replays them on its own ship, audits them, and adds up errors and operations. */
module SimulationRun {
  import opened Cargo
  import opened ShipSpec
  import opened Replay
  import opened ShipObject
  import opened PlannerSpec
  import opened Planner
  import opened Ordering
  import opened AuditSpec
  import opened Legal
  import opened CraneText
  import opened Handover
  import opened Lockstep
  import opened Voyage
  import opened VoyageGrows

  /** No instruction of the list is legal while its source tower is empty; there the source
      reads past the end of a vector. */
  ghost predicate Defined(s: Stowage, port: seq<Container>, list: seq<Instruction>)
    requires Shaped(s)
    decreases |list|
  {
    list == [] || (
      && (Verify(list[0], s, port) == LEGAL ==> SourceReady(s, list[0]))
      && var o := Step(s, port, list[0]);
         Defined(o.ship, o.port, list[1..]))
  }

  lemma {:induction false} AcceptedIsDefined(s: Stowage, port: seq<Container>, list: seq<Instruction>)
    requires Shaped(s) && AllAccepted(s, port, list)
    ensures Defined(s, port, list)
    decreases |list|
  {
    if list != [] {
      var o := Step(s, port, list[0]);
      AcceptedIsDefined(o.ship, o.port, list[1..]);
    }
  }

  /** What is recorded of a whole run, in errors and operations, whatever the cargo. What the
      planner writes is legal at its turn; there is an error exactly when at some stop the checker
      takes a container for due where the planner has none that is; the operations are ten a load
      and three a move less five for each container left on board, which is none exactly when each
      stop sent only containers for later stops onward. So there is no error when no id waits at
      two stops and the checker's codes do not mislead it, and nothing is left on board when no id
      waits twice at one stop. */
  ghost predicate Recorded(t: Trip, errors: int, operations: int)
    requires ValidTrip(t) && |t.plans| == |t.route|
  {
    var n := |t.route|;
    && (forall k: nat :: k < n ==> IllegalIn(CheckerShip(t, k), t.cargos[k], t.plans[k].list) == 0)
    && errors == TotalErrors(t)
    && (errors == 0 <==> forall k :: 0 <= k < n ==> DueAlike(t, k))
    && (DistinctAcrossPorts(t) && CodesApart(t) ==> errors == 0)
    && operations == 10 * TotalCount(t, n, LOAD) + 3 * TotalCount(t, n, MOVE) - 5 * |OnBoard(CheckerShip(t, n))|
    && (OnBoard(CheckerShip(t, n)) == multiset{} <==> AllTrue(Sends(t)))
    && (DistinctPerPort(t) ==> AllTrue(Sends(t)))
  }

  class Simulation {
    var numErrors: nat
    var totalOperations: int

    constructor ()
      ensures numErrors == 0 && totalOperations == 0
    {
      numErrors, totalOperations := 0, 0;
    }

    // ----- one instruction -----

    method VerifyInstruction(i: Instruction, ship: Ship, containersAtPort: seq<Container>) returns (status: Status)
      requires ship.Valid()
      ensures status == Verify(i, ship.Value(), containersAtPort)
      ensures status == LEGAL <==>
              i.Reject? || (PlacesInside(ship.plan, i) && HeightsFit(ship.Value(), i) &&
                            (i.Load? ==> Waits(containersAtPort, i.id)))
    {
      StatusExactly(i, ship.Value(), containersAtPort);
      if i.Reject? {
        return LEGAL;
      }
      if i.col >= ship.plan.width || i.row >= ship.plan.length || i.floor >= ship.plan.height
         || i.row < 0 || i.col < 0 || i.floor < 0 {
        return ILLEGAL_IDX;
      }
      var towerHeight := ship.GetContainerTowerHeight(i.row, i.col);
      if (i.Load? && i.floor != towerHeight) || (i.Unload? && i.floor != towerHeight - 1) {
        return ILLEGAL_HEIGHT;
      }
      if i.Move? {
        if i.destCol >= ship.plan.width || i.destRow >= ship.plan.length || i.destFloor >= ship.plan.height
           || i.destRow < 0 || i.destCol < 0 || i.destFloor < 0 {
          return ILLEGAL_IDX;
        }
        if i.destFloor != ship.GetContainerTowerHeight(i.destRow, i.destCol) {
          return ILLEGAL_HEIGHT;
        }
      }
      if i.Load? {
        var containerIdx := GetContainerIdxById(containersAtPort, i.id);
        if containerIdx == NOT_FOUND {
          return NON_EXISTANT_CONT_ID;
        }
      }
      return LEGAL;
    }

    /** A legal instruction is performed, any other is an error and is skipped. */
    method VerifyAndPerformInstruction(i: Instruction, ship: Ship, port: seq<Container>) returns (port': seq<Container>)
      requires ship.Valid() && (Verify(i, ship.Value(), port) == LEGAL ==> SourceReady(ship.Value(), i))
      modifies this`numErrors, ship
      ensures ship.Valid() && Outcome(ship.Value(), port') == Step(old(ship.Value()), port, i)
      ensures numErrors == old(numErrors) + if Verify(i, old(ship.Value()), port) == LEGAL then 0 else 1
    {
      port' := port;
      var status := VerifyInstruction(i, ship, port);
      if status == LEGAL {
        LegalIsPerformable(ship.Value(), port, i);
        port' := ship.PerformInstruction(i, port);
      } else {
        numErrors := numErrors + 1;
      }
    }

    /** The replay loop of one port. */
    method PerformAll(list: seq<Instruction>, ship: Ship, port: seq<Container>)
      requires ship.Valid() && Defined(ship.Value(), port, list)
      modifies this`numErrors, ship
      ensures ship.Valid() && ship.Value() == Run(old(ship.Value()), port, list).ship
      ensures numErrors == old(numErrors) + IllegalIn(old(ship.Value()), port, list)
    {
      var portNow := port;
      assert list[0..] == list;
      for k := 0 to |list|
        invariant ship.Valid() && Defined(ship.Value(), portNow, list[k..])
        invariant Run(ship.Value(), portNow, list[k..]) == Run(old(ship.Value()), port, list)
        invariant numErrors + IllegalIn(ship.Value(), portNow, list[k..]) ==
                  old(numErrors) + IllegalIn(old(ship.Value()), port, list)
      {
        assert list[k..][1..] == list[k + 1..];
        portNow := VerifyAndPerformInstruction(list[k], ship, portNow);
      }
    }

    // ----- the audit -----

    method GetIdxLastInstructionOfType(list: seq<Instruction>, t: Type, id: string) returns (k: int)
      ensures k == LastIdx(list, t, id)
    {
      var i := |list| - 1;
      while i >= 0
        invariant -1 <= i < |list|
        invariant forall j :: i < j < |list| ==> !Names(list[j], t, id)
      {
        if list[i].id == id && t == TypeOf(list[i]) {
          assert list[i] in list;
          return i;
        }
        i := i - 1;
      }
      return NOT_FOUND;
    }

    method FindIdxNextInstructionOfType(list: seq<Instruction>, start: nat, t: Type, id: string) returns (k: int)
      requires start <= |list|
      ensures k == NextIdx(list, start, t, id)
    {
      for i := start to |list|
        invariant forall j :: start <= j < i ==> !Names(list[j], t, id)
      {
        if list[i].id == id && t == TypeOf(list[i]) {
          return i;
        }
      }
      return NOT_FOUND;
    }

    method VerifyContainerByType(list: seq<Instruction>, id: string, t: Type)
      requires t == LOAD || t == UNLOAD
      modifies this`numErrors
      ensures numErrors ==
              old(numErrors) + if (if t == LOAD then Answered(list, id) else UnloadStands(list, id)) then 0 else 1
    {
      AuditExactly(list, id);
      var otherType := if t == LOAD then UNLOAD else LOAD;
      var last := GetIdxLastInstructionOfType(list, t, id);
      if last == NOT_FOUND {
        if t == LOAD {
          var lastReject := GetIdxLastInstructionOfType(list, REJECT, id);
          if lastReject == NOT_FOUND {
            numErrors := numErrors + 1;
          }
        } else {
          numErrors := numErrors + 1;
        }
      } else {
        var otherAfter := FindIdxNextInstructionOfType(list, last + 1, otherType, id);
        if otherAfter != NOT_FOUND {
          numErrors := numErrors + 1;
        }
      }
    }

    method VerifyCargoLoaded(list: seq<Instruction>, cargo: seq<Container>)
      modifies this`numErrors
      ensures numErrors == old(numErrors) + LoadedErrors(list, cargo)
    {
      assert cargo[0..] == cargo;
      for k := 0 to |cargo|
        invariant numErrors + LoadedErrors(list, cargo[k..]) == old(numErrors) + LoadedErrors(list, cargo)
      {
        assert cargo[k..][1..] == cargo[k + 1..];
        AuditExactly(list, cargo[k].id);
        VerifyContainerByType(list, cargo[k].id, LOAD);
      }
    }

    method VerifyTowerUnloaded(list: seq<Instruction>, tower: seq<Container>, code: string)
      modifies this`numErrors
      ensures numErrors == old(numErrors) + TowerErrors(list, tower, code)
    {
      assert tower[0..] == tower;
      for k := 0 to |tower|
        invariant numErrors + TowerErrors(list, tower[k..], code) == old(numErrors) + TowerErrors(list, tower, code)
      {
        assert tower[k..][1..] == tower[k + 1..];
        AuditExactly(list, tower[k].id);
        if tower[k].dest == code {
          VerifyContainerByType(list, tower[k].id, UNLOAD);
        }
      }
    }

    method VerifyCargoUnloaded(list: seq<Instruction>, shipBefore: Ship, code: string)
      requires shipBefore.Valid()
      modifies this`numErrors
      ensures numErrors == old(numErrors) + UnloadedErrorsFrom(list, shipBefore.Value(), code, 0, 0)
    {
      for row := 0 to shipBefore.plan.length
        invariant numErrors + UnloadedErrorsFrom(list, shipBefore.Value(), code, row, 0)
                  == old(numErrors) + UnloadedErrorsFrom(list, shipBefore.Value(), code, 0, 0)
      {
        for col := 0 to shipBefore.plan.width
          invariant numErrors + UnloadedErrorsFrom(list, shipBefore.Value(), code, row, col)
                    == old(numErrors) + UnloadedErrorsFrom(list, shipBefore.Value(), code, 0, 0)
        {
          VerifyTowerUnloaded(list, shipBefore.containers[row][col], code);
        }
      }
    }

    // ----- the score -----

    method GetInstructionScores(list: seq<Instruction>) returns (scores: int)
      ensures scores == Score(list)
    {
      scores := 0;
      assert list[0..] == list;
      for k := 0 to |list|
        invariant scores + Score(list[k..]) == Score(list)
      {
        assert list[k..][1..] == list[k + 1..];
        match TypeOf(list[k]) {
          case LOAD => scores := scores + LOAD_UNLOAD_SCORE;
          case UNLOAD => scores := scores + LOAD_UNLOAD_SCORE;
          case MOVE => scores := scores + MOVE_SCORE;
          case REJECT =>
          case UNSET =>
        }
      }
    }

    // ----- one port -----

    /** The planner's list goes through its file and comes back. */
    method ReadBack(instructions: seq<Instruction>) returns (read: seq<Instruction>)
      requires forall i :: i in instructions ==> Printable(i)
      ensures read == WrittenAll(instructions)
    {
      var file := WriteInstructionVector(instructions);
      var dataList := ParseFileToVector(LinesOf(file));
      ReadUndoesPrintAll(instructions, false);
      var result := ReadCraneInstructions(dataList);
      read := result.value;
    }

    /** The checker's part of one port: the score, the replay and the two audits. */
    method CheckPort(list: seq<Instruction>, ship: Ship, cargo: seq<Container>, code: string, lastPort: bool)
        returns (scores: int)
      requires ship.Valid() && Defined(ship.Value(), cargo, list)
      modifies this`numErrors, ship
      ensures ship.Valid() && ship.Value() == Run(old(ship.Value()), cargo, list).ship
      ensures numErrors == old(numErrors) + PortErrors(old(ship.Value()), code, cargo, list, lastPort)
      ensures scores == Score(list)
    {
      var shipBeforeInstructions := new Ship.Copy(ship);
      scores := GetInstructionScores(list);
      PerformAll(list, ship, cargo);
      if !lastPort {
        VerifyCargoLoaded(list, cargo);
      }
      VerifyCargoUnloaded(list, shipBeforeInstructions, code);
    }

    /** One port: the planner plans from its own ship, the checker reads the planner's file and
        works on its own ship and its own copy of the cargo. The code of the port is, for the
        checker, the one in the name of the cargo file. */
    method SimulateAlgorithmOnPort(planner: StowageAlgorithm, ship: Ship, cargo: seq<Container>, code: string,
                                   lastPort: bool)
        returns (scores: int, ghost order: seq<Container>, ghost plan: PortPlan)
      requires planner.Valid() && ship.Valid() && ship != planner.ship
      requires SameIds(planner.ship.Value(), ship.Value())
      requires (forall x :: x in OnBoard(planner.ship.Value()) ==> PrintableId(x.id)) && PrintableCargo(cargo)
      modifies this`numErrors, planner, planner.ship, ship
      ensures planner.Valid() && ship.Valid() && multiset(order) == multiset(cargo)
      ensures plan == PlanPort(old(planner.ship.Value()), old(planner.Here()), cargo, order)
      ensures planner.ship.Value() == plan.ship && ship.Value() == Run(old(ship.Value()), cargo, plan.list).ship
      ensures numErrors == old(numErrors) + PortErrors(old(ship.Value()), code, cargo, plan.list, lastPort)
      ensures scores == Score(plan.list)
      ensures planner.route == old(planner.route) && planner.currPortIdx == old(planner.currPortIdx) + 1
      ensures planner.currPortIdx < |planner.route| ==> planner.currPort == planner.route[planner.currPortIdx]
    {
      ghost var s, stop := planner.ship.Value(), planner.Here();
      var containers := new Container[|cargo|](i requires 0 <= i < |cargo| => cargo[i]);
      assert containers[..] == cargo;
      var instructions, errors := planner.GetInstructionsForCargo(containers);
      order := containers[..];
      plan := PlanPort(s, stop, cargo, order);
      PlanReplayedByIds(s, stop, cargo, order, ship.Value());
      PlanIsPrintable(s, stop, cargo, order);
      var list := ReadBack(instructions);
      VerdictSurvivesFile(ship.Value(), code, cargo, instructions, lastPort);
      AcceptedIsDefined(ship.Value(), cargo, list);
      scores := CheckPort(list, ship, cargo, code, lastPort);
    }

    // ----- one travel -----

    /** Planner and checker stand at the end of a run. */
    ghost predicate At(t: Trip, planner: StowageAlgorithm, ship: Ship)
      reads planner, planner.ship, ship
    {
      && ValidTrip(t) && planner.Valid() && ship.Valid()
      && planner.ship.Value() == ShipAfter(t, |t.plans|) && ship.Value() == CheckerShip(t, |t.plans|)
      && planner.route == t.route && planner.currPortIdx == |t.plans| && planner.verifyId == t.verifyId
      && (|t.plans| < |t.route| ==> planner.currPort == t.route[|t.plans|])
    }

    /** The run grows by one stop. */
    method SimulatePortWith(planner: StowageAlgorithm, ship: Ship, cargo: seq<Container>, code: string, ghost t: Trip)
        returns (scores: int, ghost t': Trip)
      requires At(t, planner, ship) && ship != planner.ship && |t.plans| < |t.route| && code == t.codes[|t.plans|]
      requires PrintableCargo(cargo) && AllPrintable(t.cargos)
      modifies this`numErrors, planner, planner.ship, ship
      ensures At(t', planner, ship)
      ensures Begun(t') == Begun(t) && t'.cargos == t.cargos + [cargo]
      ensures numErrors + TotalErrors(t) == old(numErrors) + TotalErrors(t')
      ensures scores + TotalScore(t, |t.plans|) == TotalScore(t', |t'.plans|)
    {
      ghost var k := |t.plans|;
      VoyageLooksAlike(t, k);
      VoyageKeepsIdsUnique(t, k);
      BoardIsPrintable(t, k);
      ghost var order, plan;
      scores, order, plan :=
          SimulateAlgorithmOnPort(planner, ship, cargo, code, planner.currPortIdx == |planner.route| - 1);
      t' := Longer(t, cargo, order, plan);
      LongerIsValid(t, cargo, order, plan);
      LongerByOne(t, cargo, order, plan);
    }

    /** One turn of the loop over the ports. */
    method SimulateNextPort(planner: StowageAlgorithm, ship: Ship, codes: seq<string>, cargos: seq<seq<Container>>,
                            ghost t: Trip)
        returns (scores: int, ghost t': Trip)
      requires At(t, planner, ship) && ship != planner.ship && codes == t.codes
      requires t.cargos <= cargos && |t.cargos| < |cargos| == |t.route| && AllPrintable(cargos)
      modifies this`numErrors, planner, planner.ship, ship
      ensures At(t', planner, ship)
      ensures Begun(t') == Begun(t) && t'.cargos <= cargos && |t'.cargos| == |t.cargos| + 1
      ensures numErrors + TotalErrors(t) == old(numErrors) + TotalErrors(t')
      ensures scores + TotalScore(t, |t.plans|) == TotalScore(t', |t'.plans|)
    {
      NextCargo(t.cargos, cargos);
      scores, t' := SimulatePortWith(planner, ship, cargos[planner.currPortIdx], codes[planner.currPortIdx], t);
    }

    /** A whole travel whose files were read without a fatal error; the codes are those in the
        names of the cargo files. */
    method RunSingleTravel(algorithm: Algorithm, verifyId: string -> bool, plan: ShipPlan, route: seq<string>,
                           codes: seq<string>, cargos: seq<seq<Container>>) returns (ghost t: Trip)
      requires ValidPlan(plan) && route != [] && |cargos| == |codes| == |route|
      requires AllPrintable(cargos)
      modifies this
      ensures ValidTrip(t) && Begun(t) == Trip(plan, route, codes, verifyId, [], [], []) && t.cargos == cargos
      ensures |t.plans| == |t.route|
      ensures Recorded(t, numErrors - old(numErrors), totalOperations - old(totalOperations))
    {
      t := RunFromStart(algorithm, verifyId, plan, route, codes, cargos);
      TravelEnds(t);
    }

    /** Ship and planner are set up, and the loop over the ports runs. */
    method RunFromStart(algorithm: Algorithm, verifyId: string -> bool, plan: ShipPlan, route: seq<string>,
                        codes: seq<string>, cargos: seq<seq<Container>>) returns (ghost t: Trip)
      requires ValidPlan(plan) && route != [] && |cargos| == |codes| == |route|
      requires AllPrintable(cargos)
      modifies this
      ensures ValidTrip(t) && Begun(t) == Trip(plan, route, codes, verifyId, [], [], []) && t.cargos == cargos
      ensures numErrors == old(numErrors) + TotalErrors(t)
      ensures totalOperations == old(totalOperations) + TotalScore(t, |t.plans|)
    {
      var simulationShip := new Ship(plan);
      var planner := new StowageAlgorithm(algorithm, verifyId, plan, route);
      ghost var t0 := Trip(plan, route, codes, verifyId, [], [], []);
      assert At(t0, planner, simulationShip);
      var operations;
      operations, t := SimulateAllPorts(planner, simulationShip, codes, cargos, t0);
      totalOperations := totalOperations + operations;
    }

    /** The loop over the ports of a travel. */
    method SimulateAllPorts(planner: StowageAlgorithm, ship: Ship, codes: seq<string>, cargos: seq<seq<Container>>,
                            ghost t0: Trip)
        returns (operations: int, ghost t: Trip)
      requires At(t0, planner, ship) && ship != planner.ship && t0 == Begun(t0)
      requires |cargos| == |t0.route| && codes == t0.codes && AllPrintable(cargos)
      modifies this`numErrors, planner, planner.ship, ship
      ensures ValidTrip(t) && Begun(t) == t0 && t.cargos == cargos
      ensures numErrors == old(numErrors) + TotalErrors(t)
      ensures operations == TotalScore(t, |t.plans|)
    {
      operations := 0;
      t := t0;
      for portIdx := 0 to |cargos|
        invariant At(t, planner, ship)
        invariant Begun(t) == t0 && t.cargos <= cargos && |t.cargos| == portIdx
        invariant numErrors == old(numErrors) + TotalErrors(t)
        invariant operations == TotalScore(t, |t.plans|)
      {
        var scores;
        scores, t := SimulateNextPort(planner, ship, codes, cargos, t);
        operations := operations + scores;
      }
    }
  }

  lemma LeftOnBoard(t: Trip)
    requires ValidTrip(t) && |t.plans| == |t.route|
    ensures TotalScore(t, |t.route|) == 10 * TotalCount(t, |t.route|, LOAD) + 3 * TotalCount(t, |t.route|, MOVE)
                                        - 5 * |OnBoard(CheckerShip(t, |t.route|))|
    ensures OnBoard(CheckerShip(t, |t.route|)) == multiset{} <==> AllTrue(Sends(t))
  {
    var n := |t.route|;
    VoyageScore(t, n);
    VoyageEndsEmpty(t);
    VoyageLooksAlike(t, n);
    SameIdsSize(ShipAfter(t, n), CheckerShip(t, n), 0, 0);
    assert forall m: multiset<Container> :: |m| == 0 <==> m == multiset{};
  }

  lemma TravelEnds(t: Trip)
    requires ValidTrip(t) && |t.plans| == |t.route|
    ensures Recorded(t, TotalErrors(t), TotalScore(t, |t.route|))
  {
    forall k: nat | k < |t.route|
      ensures IllegalIn(CheckerShip(t, k), t.cargos[k], t.plans[k].list) == 0
    {
      VoyageIsLegal(t, k);
    }
    NoErrorsInAll(t);
    LeftOnBoard(t);
    if DistinctPerPort(t) {
      DistinctIsDelivered(t);
    }
  }
}
