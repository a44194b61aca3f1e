/** Three voyages on which something that holds for most cargo fails, with ids that pass the check of
    container ids: the two ships come apart and an error is counted, a container is taken along that
    can never leave, and an error is counted at a port without a cargo file. */
module Examples {
  import opened Cargo
  import opened ContainerId
  import opened ShipSpec
  import opened PlannerSpec
  import opened PlannerFacts
  import opened LoadCut
  import opened Ordering
  import opened Rotation
  import opened CraneText
  import opened Travel
  import opened FilesExist
  import opened Voyage
  import opened VoyageGrows

  // ----- a ship of one tower -----

  /** One tower of two floors. */
  ghost function SmallPlan(): (p: ShipPlan)
    ensures ValidPlan(p)
  {
    ShipPlan(1, 1, 2, [[0]])
  }

  ghost function With(t: seq<Container>): (s: Stowage)
    ensures Shaped(s) && s.plan == SmallPlan() && Tower(s, 0, 0) == t
    ensures |t| <= 2 ==> Sound(s)
    ensures OnBoard(s) == multiset(t)
  {
    var s := Stowage(SmallPlan(), [[t]]);
    OneTower(s, t);
    s
  }

  lemma OneTower(s: Stowage, t: seq<Container>)
    requires s == Stowage(SmallPlan(), [[t]])
    ensures Shaped(s) && OnBoard(s) == multiset(t)
  {
    assert BoardFrom(s, 1, 0) == multiset{};
    assert BoardFrom(s, 0, 1) == multiset{};
    assert BoardFrom(s, 0, 0) == multiset(t) + BoardFrom(s, 0, 1);
  }

  lemma NothingOnIt()
    ensures Empty(SmallPlan()) == With([])
  {
    var s, s' := Empty(SmallPlan()), With([]);
    assert s.towers[0][0] == Tower(s, 0, 0) == [];
    assert s.towers[0] == [[]] && s'.towers[0] == [Tower(s', 0, 0)];
  }

  lemma SetWith(t: seq<Container>, t': seq<Container>)
    ensures SetTower(With(t), 0, 0, t') == With(t')
  {
    assert With(t).towers[0][0 := t'] == [t'];
    assert With(t).towers[0 := [t']] == [[t']];
  }

  lemma Room(t: seq<Container>)
    ensures CapacityExcluding(With(t), 0, 0) == 0 && Capacity(With(t)) == 2 - |t|
  {
    var s := With(t);
    assert FreeFrom(s, 0, 0, 1, 0) == 0 && FreeFrom(s, 0, 0, 0, 1) == 0;
    assert FreeFrom(s, -1, -1, 1, 0) == 0 && FreeFrom(s, -1, -1, 0, 1) == 0;
  }

  // ----- loading it -----

  lemma OnlyTower(t: seq<Container>, dest: string)
    requires |t| < 2
    ensures BestTower(With(t), -1, -1, dest) == Some(Spot(0, 0))
  {
    Room(t);
    LoadTargetExists(With(t), dest);
    BestTowerIsBest(With(t), -1, -1, dest);
  }

  lemma LoadsOne(l: Loading, t: seq<Container>, x: Container, before: Stowage, stop: Stop) returns (l': Loading)
    requires l.work.ship == With(t) && |t| < 2 && l.work.port != [] && l.work.port[0] == x
    requires Shaped(before) && Eligible(x, before, stop) && IndexOf(l.loaded, x.id) == NOT_FOUND
    ensures l' == LoadOne(l, x, before, stop)
    ensures l'.work.ship == With(t + [x]) && l'.work.port == l.work.port[1..] && l'.loaded == l.loaded + [x]
  {
    OnlyTower(t, x.dest);
    SetWith(t, t + [x]);
    assert NextLoad(With(t), x, before, stop).instruction == Load(0, 0, |t|, x.id);
    l' := LoadOne(l, x, before, stop);
  }

  ghost predicate StackReady(l: Loading, t: seq<Container>, rest: seq<Container>, before: Stowage, stop: Stop) {
    && l.work.ship == With(t) && l.work.port == rest && |t| + |rest| <= 2 && Shaped(before) && DistinctIds(rest)
    && forall x :: x in rest ==> Eligible(x, before, stop) && IndexOf(l.loaded, x.id) == NOT_FOUND
  }

  lemma StackNext(l: Loading, t: seq<Container>, rest: seq<Container>, before: Stowage, stop: Stop)
      returns (l': Loading)
    requires StackReady(l, t, rest, before, stop) && rest != []
    ensures l' == LoadOne(l, rest[0], before, stop) && StackReady(l', t + [rest[0]], rest[1..], before, stop)
  {
    l' := LoadsOne(l, t, rest[0], before, stop);
    OtherIdsUnseen(rest, l.loaded);
    assert forall x :: x in rest[1..] ==> x in rest;
  }

  lemma LoadAllNext(l: Loading, before: Stowage, stop: Stop, rest: seq<Container>)
    requires Shaped(l.work.ship) && Shaped(before) && rest != []
    ensures LoadAll(l, before, stop, rest) == LoadAll(LoadOne(l, rest[0], before, stop), before, stop, rest[1..])
  {
  }

  lemma HeadMoves(t: seq<Container>, rest: seq<Container>)
    requires rest != []
    ensures t + [rest[0]] + rest[1..] == t + rest
  {
  }

  /** Containers that all can be loaded and fit are stacked in their order. */
  lemma {:induction false} LoadsStack(l: Loading, t: seq<Container>, rest: seq<Container>, before: Stowage, stop: Stop)
      returns (end: Loading)
    requires StackReady(l, t, rest, before, stop)
    ensures end == LoadAll(l, before, stop, rest) && end.work.ship == With(t + rest)
    decreases |rest|
  {
    if rest == [] {
      end := l;
      assert t + [] == t;
    } else {
      var l' := StackNext(l, t, rest, before, stop);
      LoadAllNext(l, before, stop, rest);
      end := LoadsStack(l', t + [rest[0]], rest[1..], before, stop);
      HeadMoves(t, rest);
    }
  }

  lemma NothingToUnload(code: string)
    ensures UnloadFrom(With([]), [], code, 0, 0) == Scan(With([]), [])
  {
    var s := With([]);
    UnloadFromNext(s, [], code, 0, 0);
    assert UnloadTower(s, [], 0, 0, code) == Work(s, [], []);
    assert UnloadFrom(s, [], code, 1, 0) == Scan(s, []);
    UnloadFromNextRow(s, [], code, 0, 1, UnloadFrom(s, [], code, 0, 1));
  }

  lemma FirstStopStacks(stop: Stop, cargo: seq<Container>)
    requires |cargo| <= 2 && DistinctIds(cargo) && !LastPort(stop)
    requires forall x :: x in cargo ==> Eligible(x, With([]), stop)
    ensures PlanPort(With([]), stop, cargo, cargo).ship == With(cargo)
  {
    NothingToUnload(stop.code);
    var end := LoadsStack(Loading(Work(With([]), cargo, []), [], {}), [], cargo, With([]), stop);
    assert [] + cargo == cargo;
  }

  /** A container that the planner takes on board at the first stop. */
  predicate Loadable(x: Container, route: seq<string>, verifyId: string -> bool) {
    && route != [] && x.dest != route[0] && x.dest in route && SeaportCode(x.dest)
    && verifyId(x.id) && x.weight != BAD_WEIGHT
  }

  lemma LoadableIsEligible(x: Container, route: seq<string>, verifyId: string -> bool)
    requires Loadable(x, route, verifyId)
    ensures Eligible(x, With([]), Stop(route, 0, route[0], verifyId))
  {
    assert OnBoard(With([])) == multiset{};
    var k :| 0 <= k < |route| && route[k] == x.dest;
    assert NextVisit(route, 1, x.dest) < |route|;
  }

  /** The ship that leaves the first stop. */
  lemma AfterFirstStop(t: Trip, cargo: seq<Container>)
    requires ValidTrip(t) && t.plan == SmallPlan() && |t.plans| >= 1 && |t.route| >= 2
    requires t.cargos[0] == t.orders[0] == cargo && |cargo| <= 2 && DistinctIds(cargo)
    requires forall x :: x in cargo ==> Loadable(x, t.route, t.verifyId)
    ensures ShipAfter(t, 1) == With(cargo)
    ensures CheckerShip(t, 1) == ShipAfter(t, 1)
  {
    assert Planned(t, 0);
    NothingOnIt();
    forall x | x in cargo
      ensures Eligible(x, With([]), StopAt(t, 0))
    {
      LoadableIsEligible(x, t.route, t.verifyId);
    }
    FirstStopStacks(StopAt(t, 0), cargo);
    FirstStopAgrees(t);
  }

  lemma FirstStopAgrees(t: Trip)
    requires ValidTrip(t) && |t.plans| >= 1
    ensures CheckerShip(t, 1) == ShipAfter(t, 1)
  {
    EmptyShip(t.plan);
    NextStopAgreesExactly(t, 0);
  }

  // ----- digging out the lower of two containers -----

  lemma UnloadsTop(t: seq<Container>, port: seq<Container>, list: seq<Instruction>)
    requires 1 <= |t| <= 2
    ensures var i := Unload(0, 0, |t| - 1, Last(t).id);
            Emit(Work(With(t), port, list), i) == Work(With(DropLast(t)), port + [Last(t)], list + [i])
  {
    SetWith(t, DropLast(t));
  }

  lemma TopComesOff(due: Container, stays: Container) returns (w1: Work)
    ensures w1 == Emit(Work(With([due, stays]), [], []), Unload(0, 0, 1, stays.id))
    ensures w1 == Work(With([due]), [stays], [Unload(0, 0, 1, stays.id)])
  {
    UnloadsTop([due, stays], [], []);
    assert DropLast([due, stays]) == [due];
    assert [] + [stays] == [stays];
    w1 := Emit(Work(With([due, stays]), [], []), Unload(0, 0, 1, stays.id));
  }

  lemma DigsUpper(due: Container, stays: Container, here: string) returns (w1: Work)
    ensures w1 == Work(With([due]), [stays], [Unload(0, 0, 1, stays.id)])
    ensures DigOut(Work(With([due, stays]), [], []), 0, 0, 0, here, 0, 1, 1) == DigOut(w1, 0, 0, 0, here, 0, 1, 0)
  {
    var w0 := Work(With([due, stays]), [], []);
    w1 := TopComesOff(due, stays);
    assert DigInstruction(w0.ship, 0, 0, stays, here, 0, 1, 1) == Unload(0, 0, 1, stays.id);
    DigOutNext(w0, 0, 0, 0, here, 0, 1, 1);
  }

  lemma DigsLower(due: Container, port: seq<Container>, list: seq<Instruction>, here: string)
    requires due.dest == here
    ensures DigOut(Work(With([due]), port, list), 0, 0, 0, here, 0, 1, 0) ==
            Work(With([]), port + [due], list + [Unload(0, 0, 0, due.id)])
  {
    var w1 := Work(With([due]), port, list);
    var w2 := Work(With([]), port + [due], list + [Unload(0, 0, 0, due.id)]);
    UnloadsTop([due], port, list);
    assert DropLast([due]) == [];
    assert DigInstruction(w1.ship, 0, 0, due, here, 0, 1, 0) == Unload(0, 0, 0, due.id);
    assert DigOut(w2, 0, 0, 0, here, 0, 1, -1) == w2;
    DigOutNext(w1, 0, 0, 0, here, 0, 1, 0);
  }

  lemma BothLists<T>(a: T, b: T)
    ensures [a] + [b] == [a, b]
  {
  }

  lemma DigsBoth(due: Container, stays: Container, here: string) returns (dug: Work)
    requires due.dest == here
    ensures dug == RemoveAllAbove(Work(With([due, stays]), [], []), 0, 0, 0, here)
    ensures dug == Work(With([]), [stays, due], [Unload(0, 0, 1, stays.id), Unload(0, 0, 0, due.id)])
  {
    Room([due, stays]);
    RemoveAllStarts(Work(With([due, stays]), [], []), 0, 0, 0, here, 1, 0);
    var w1 := DigsUpper(due, stays, here);
    DigsLower(due, [stays], [Unload(0, 0, 1, stays.id)], here);
    BothLists(stays, due);
    BothLists(Unload(0, 0, 1, stays.id), Unload(0, 0, 0, due.id));
    dug := RemoveAllAbove(Work(With([due, stays]), [], []), 0, 0, 0, here);
  }

  lemma PutsBack(due: Container, stays: Container, here: string, list: seq<Instruction>)
    requires due.dest == here && stays.dest != here
    ensures var w := ReturnAll(Work(With([]), [stays, due], list), 0, 0, here, [stays, due]);
            w.ship == With([stays]) && w.list == list + [Load(0, 0, 0, stays.id)]
  {
    var dug := Work(With([]), [stays, due], list);
    var w := Emit(dug, Load(0, 0, 0, stays.id));
    SetWith([], [stays]);
    assert IndexOf(dug.port, stays.id) == 0;
    assert [] + [stays] == [stays];
    assert w.ship == With([stays]);
    assert dug.port[1..] == [due] && [due][1..] == [];
    assert ReturnAll(w, 0, 0, here, []) == w;
    assert ReturnAll(w, 0, 0, here, [due]) == w;
  }

  lemma UnloadsInList(due: Container, stays: Container)
    requires due.id != stays.id
    ensures Unloads([Unload(0, 0, 1, stays.id), Unload(0, 0, 0, due.id), Load(0, 0, 0, stays.id)], stays.id) == 1
  {
    var a, b, c := Unload(0, 0, 1, stays.id), Unload(0, 0, 0, due.id), Load(0, 0, 0, stays.id);
    assert [a, b, c][..2] == [a, b] && [a, b][..1] == [a] && [a][..0] == [];
    assert Unloads([a], stays.id) == 1;
    assert Unloads([a, b], stays.id) == 1;
  }

  lemma TowerDug(due: Container, stays: Container, here: string) returns (w: Work)
    requires due.dest == here && stays.dest != here
    ensures w == UnloadTower(With([due, stays]), [], 0, 0, here)
    ensures w.ship == With([stays])
    ensures w.list == [Unload(0, 0, 1, stays.id), Unload(0, 0, 0, due.id), Load(0, 0, 0, stays.id)]
  {
    var list := [Unload(0, 0, 1, stays.id), Unload(0, 0, 0, due.id)];
    var dug := DigsBoth(due, stays, here);
    PutsBack(due, stays, here, list);
    assert FirstDue([due, stays], here) == 0;
    w := UnloadTower(With([due, stays]), [], 0, 0, here);
  }

  lemma StaysIsDugOut(due: Container, stays: Container, here: string)
    requires due.dest == here && stays.dest != here && due.id != stays.id
    ensures Unloads(UnloadFrom(With([due, stays]), [], here, 0, 0).list, stays.id) == 1
  {
    var s := With([due, stays]);
    var w := TowerDug(due, stays, here);
    UnloadFromNext(s, [], here, 0, 0);
    var u := UnloadFrom(w.ship, w.list, here, 0, 1);
    UnloadFromNextRow(w.ship, w.list, here, 0, 1, u);
    assert u == Scan(w.ship, w.list);
    UnloadsInList(due, stays);
  }

  // ----- voyages -----

  /** Each stop's cargo is in an order that the algorithm makes. */
  ghost predicate OrderedBy(alg: Algorithm, t: Trip)
    requires ValidTrip(t)
  {
    forall k :: 0 <= k < |t.plans| ==>
      Shaped(ShipAfter(t, k)) &&
      LoadOrder(alg, RoomAfter(ShipAfter(t, k), t.route[k]), t.route, k, t.cargos[k], t.orders[k])
  }

  /** At the third stop the ships differ and an error is counted, though every stop has its file. */
  ghost predicate ComesApart(t: Trip) {
    && ValidTrip(t) && |t.plans| == 4 && t.codes == t.route && OrderedBy(B, t)
    && CheckerShip(t, 2) != ShipAfter(t, 2) && ErrorsAt(t, 2) > 0 && TotalErrors(t) > 0
  }

  /** Every stop has its file and is passed, and the ship is not empty. */
  ghost predicate LeavesSome(t: Trip) {
    && ValidTrip(t) && |t.plans| == |t.route| == 2 && t.codes == t.route
    && Shaped(ShipAfter(t, 2)) && OnBoard(ShipAfter(t, 2)) != multiset{}
  }

  /** The ships agree at the second stop, which has no file, and an error is counted there. */
  ghost predicate CountsNone(t: Trip) {
    && ValidTrip(t) && |t.plans| == 3 && OrderedBy(B, t)
    && CheckerShip(t, 1) == ShipAfter(t, 1) && ErrorsAt(t, 1) > 0 && TotalErrors(t) > 0
  }

  /** One stop, where two containers are loaded in the order of their stops; and one where the lower
      is due and another container with the id of the upper waits. */
  predicate Clashing(route: seq<string>, verifyId: string -> bool, due: Container, stays: Container, waits: Container) {
    && |route| == 4 && route[1] != route[2] && route[1] != route[3] && route[2] != route[3]
    && due.dest == route[1] && stays.dest == route[3] && waits.dest == route[2]
    && Loadable(due, route, verifyId) && Loadable(stays, route, verifyId)
    && due.id != stays.id && waits.id == stays.id
  }

  lemma NearFirst(route: seq<string>, verifyId: string -> bool, due: Container, stays: Container, waits: Container)
    requires Clashing(route, verifyId, due, stays, waits)
    ensures Sorted(route, 0, false, [due, stays])
  {
    assert NextVisit(route, 1, due.dest) == 1;
    assert NextVisit(route, 1, stays.dest) >= 1;
  }

  lemma SmallCargoIsOrdered(t: Trip)
    requires ValidTrip(t) && t.orders == t.cargos
    requires forall k :: 0 <= k < |t.cargos| ==> Sorted(t.route, k, false, t.cargos[k])
    ensures OrderedBy(B, t)
  {
    forall k | 0 <= k < |t.plans|
      ensures Shaped(ShipAfter(t, k))
    {
      VoyageKeepsIdsUnique(t, k);
    }
  }

  lemma ClashAtSecondStop(t: Trip, due: Container, stays: Container, waits: Container)
    requires ValidTrip(t) && t.plan == SmallPlan() && Clashing(t.route, t.verifyId, due, stays, waits)
    requires t.cargos == t.orders == [[due, stays], [waits], [], []]
    ensures CheckerShip(t, 1) == ShipAfter(t, 1) && ClashesAt(t, 1, stays) && WithId(t.cargos[1], stays.id)[0] == waits
  {
    AfterFirstStop(t, [due, stays]);
    StaysIsDugOut(due, stays, t.route[1]);
    assert WithId([waits], stays.id) == [waits];
    assert stays in OnBoard(With([due, stays]));
  }

  /** A container is dug out and put back where another one with its id waits. From there on the
      checker has the one that waited on board and the planner the one that stayed; at the next stop
      the checker counts an error although all is as it should be. No file is missing. */
  lemma ShipsComeApart(route: seq<string>, verifyId: string -> bool, due: Container, stays: Container, waits: Container)
      returns (t: Trip)
    requires Clashing(route, verifyId, due, stays, waits)
    ensures ComesApart(t) && t.route == route && t.verifyId == verifyId && t.cargos == [[due, stays], [waits], [], []]
  {
    var cargos := [[due, stays], [waits], [], []];
    t := RunExists(SmallPlan(), route, route, verifyId, cargos, cargos);
    NearFirst(route, verifyId, due, stays, waits);
    SmallCargoIsOrdered(t);
    ClashAtSecondStop(t, due, stays, waits);
    var y := ClashSwaps(t, 1, stays);
    SwapIsCounted(t, 2, stays, y);
    ErrorInAll(t, 2);
  }

  lemma ErrorInAll(t: Trip, k: nat)
    requires ValidTrip(t) && k < |t.plans| && ErrorsAt(t, k) > 0
    ensures TotalErrors(t) > 0
  {
    StopErrorsExactly(t, k);
    NoErrorsInAll(t);
  }

  // ----- a stranger is taken along -----

  /** Two containers of one id, of which the first is for no stop of the route. */
  predicate Straying(route: seq<string>, verifyId: string -> bool, stray: Container, meant: Container) {
    |route| == 2 && Loadable(meant, route, verifyId) && stray.id == meant.id && stray.dest !in route
  }

  lemma StrayLeads(route: seq<string>, verifyId: string -> bool, stray: Container, meant: Container)
    requires Straying(route, verifyId, stray, meant)
    ensures var stop := Stop(route, 0, route[0], verifyId);
            && !LedOnward([stray, meant], With([]), stop)
            && EligibleIds([stray, meant], With([]), stop) == {meant.id}
  {
    var stop := Stop(route, 0, route[0], verifyId);
    LoadableIsEligible(meant, route, verifyId);
    assert meant in [stray, meant] && Taken([stray, meant], meant.id) == stray;
    assert NextVisit(route, 1, stray.dest) == |route|;
  }

  lemma NothingStays(code: string)
    ensures RoomAfter(With([]), code) == 2
  {
    NothingToUnload(code);
    DistinctIdsUnique([]);
    RoomIsCapacity(With([]), code);
    Room([]);
  }

  lemma StrayIsSent(route: seq<string>, verifyId: string -> bool, stray: Container, meant: Container,
                    ordered: seq<Container>)
    requires Straying(route, verifyId, stray, meant) && multiset(ordered) == multiset([stray, meant])
    ensures !SendsOnward(With([]), Stop(route, 0, route[0], verifyId), [stray, meant], ordered)
  {
    StrayLeads(route, verifyId, stray, meant);
    NothingStays(route[0]);
    LedExactly(With([]), Stop(route, 0, route[0], verifyId), [stray, meant], ordered);
  }

  lemma FirstStopFails(t: Trip, stray: Container, meant: Container)
    requires ValidTrip(t) && t.plan == SmallPlan() && Straying(t.route, t.verifyId, stray, meant)
    requires |t.cargos| == 2 && t.cargos[0] == [stray, meant]
    ensures !AllTrue(Sends(t))
  {
    assert Planned(t, 0);
    NothingOnIt();
    StrayIsSent(t.route, t.verifyId, stray, meant, t.orders[0]);
    assert !Sends(t)[0];
  }

  /** The planner decides to load the second container, but the first one of the id is what comes on
      board, in any order of loading, and it is still on board after the last stop. */
  lemma NotDelivered(route: seq<string>, verifyId: string -> bool, stray: Container, meant: Container,
                     ordered: seq<Container>)
      returns (t: Trip)
    requires Straying(route, verifyId, stray, meant) && multiset(ordered) == multiset([stray, meant])
    ensures LeavesSome(t) && t.route == route && t.verifyId == verifyId
    ensures t.cargos == [[stray, meant], []] && t.orders == [ordered, []]
  {
    t := RunExists(SmallPlan(), route, route, verifyId, [[stray, meant], []], [ordered, []]);
    FirstStopFails(t, stray, meant);
    VoyageEndsEmpty(t);
  }

  // ----- an error at a stop without a cargo file -----

  /** A container for the port that the checker names where a file had to be generated. */
  predicate Misnamed(route: seq<string>, verifyId: string -> bool, x: Container) {
    |route| == 3 && x.dest == "empty" == route[2] && route[1] != route[2] && Loadable(x, route, verifyId)
  }

  /** There is no cargo file for the second stop. The planner does right to leave the container on
      board there; the checker takes it for due and counts an error. */
  lemma ErrorThatIsNone(route: seq<string>, verifyId: string -> bool, x: Container) returns (t: Trip)
    requires Misnamed(route, verifyId, x)
    ensures CountsNone(t) && t.route == route && t.verifyId == verifyId && t.cargos == [[x], [], []]
    ensures t.codes == [route[0], "empty", "empty"]
  {
    t := RunExists(SmallPlan(), route, [route[0], "empty", "empty"], verifyId, [[x], [], []], [[x], [], []]);
    SmallCargoIsOrdered(t);
    AfterFirstStop(t, [x]);
    assert x in OnBoard(CheckerShip(t, 1));
    AgreedStopErrors(t, 1);
    ErrorInAll(t, 1);
  }

  // ----- with real ids -----

  const ID_A := "CSQU3054383"
  const ID_B := "MSCU0000012"

  lemma FirstSum(id: string)
    requires id == ID_A
    ensures WeightedSum(id, CHECK_DIGIT_INDEX) == 6185
  {
    SumIs(id, [13, 30, 28, 32, 3, 0, 5, 4, 3, 8]);
  }

  lemma FirstIdPasses(id: string)
    requires id == ID_A
    ensures VerifyId(id) && IsPlainId(id) && id[0] == 'C'
  {
    FirstSum(id);
    PlainIdPasses(id, 6185);
  }

  lemma SecondSum(id: string)
    requires id == ID_B
    ensures WeightedSum(id, CHECK_DIGIT_INDEX) == 904
  {
    SumIs(id, [24, 30, 13, 32, 0, 0, 0, 0, 0, 1]);
  }

  lemma SecondIdPasses(id: string)
    requires id == ID_B
    ensures VerifyId(id) && IsPlainId(id) && id[0] == 'M'
  {
    SecondSum(id);
    PlainIdPasses(id, 904);
  }

  /** Such an id can be written and read. */
  lemma IdIsWritable(id: string)
    requires IsPlainId(id)
    ensures PrintableId(id) && id[0] != '#'
  {
    assert forall k :: 0 <= k < |id| ==> IsCapital(id[k]) || IsDigit(id[k]);
  }

  /** Two ids that pass the check, and five port codes. */
  lemma RealIds() returns (a: string, b: string)
    ensures VerifyId(a) && VerifyId(b) && a != b
    ensures PrintableId(a) && a[0] != '#' && PrintableId(b) && b[0] != '#'
  {
    a := FirstId();
    b := SecondId();
  }

  lemma FirstId() returns (id: string)
    ensures VerifyId(id) && PrintableId(id) && id[0] == 'C'
  {
    id := ID_A;
    FirstIdPasses(id);
    IdIsWritable(id);
  }

  lemma SecondId() returns (id: string)
    ensures VerifyId(id) && PrintableId(id) && id[0] == 'M'
  {
    id := ID_B;
    SecondIdPasses(id);
    IdIsWritable(id);
  }

  lemma RealCodes() returns (codes: seq<string>)
    ensures |codes| == 5 && codes[4] == "empty" && forall k :: 0 <= k < 5 ==> SeaportCode(codes[k])
    ensures forall j, k :: 0 <= j < k < 5 ==> codes[j] != codes[k]
  {
    codes := ["AAAAA", "BBBBB", "CCCCC", "DDDDD", "empty"];
    assert forall j, k :: 0 <= j < k < 5 ==> codes[j][0] != codes[k][0];
  }

  predicate GoodRoute(route: seq<string>) {
    (forall k :: 0 <= k < |route| ==> SeaportCode(route[k])) && forall j, k :: 0 <= j < k < |route| ==>
        route[j] != route[k]
  }

  /** A container with a real id, for the port with the given code. */
  lemma RealContainer(id: string, code: string) returns (x: Container)
    requires VerifyId(id) && PrintableId(id) && id[0] != '#' && SeaportCode(code)
    ensures x.id == id && x.dest == code && x.weight == 1 && Fileable(x)
    ensures forall route, k :: 1 <= k < |route| && route[k] == code && route[0] != code ==> Loadable(x, route, VerifyId)
  {
    x := Container(id, code, 1);
    CodeIsClean(code);
  }

  lemma RealClash() returns (route: seq<string>, due: Container, stays: Container, waits: Container)
    ensures Clashing(route, VerifyId, due, stays, waits)
    ensures GoodRoute(route) && Fileable(due) && Fileable(stays) && Fileable(waits)
  {
    var codes := RealCodes();
    var a, b := RealIds();
    route := codes[..4];
    due := RealContainer(a, route[1]);
    stays := RealContainer(b, route[3]);
    waits := RealContainer(b, route[2]);
  }

  lemma RealStray() returns (route: seq<string>, stray: Container, meant: Container)
    ensures Straying(route, VerifyId, stray, meant)
    ensures GoodRoute(route) && Fileable(stray) && Fileable(meant)
  {
    var codes := RealCodes();
    var a, b := RealIds();
    route := codes[..2];
    stray := RealContainer(a, codes[2]);
    meant := RealContainer(a, codes[1]);
  }

  lemma RealMisnamed() returns (route: seq<string>, x: Container)
    ensures Misnamed(route, VerifyId, x)
    ensures GoodRoute(route) && Fileable(x)
  {
    var codes := RealCodes();
    var a, b := RealIds();
    route := codes[2..];
    x := RealContainer(a, route[2]);
  }

  predicate AllFileable(cargos: seq<seq<Container>>) {
    forall k, x :: 0 <= k < |cargos| && x in cargos[k] ==> Fileable(x)
  }

  lemma FewFileable(cargos: seq<seq<Container>>, a: seq<Container>, b: seq<Container>)
    requires |cargos| >= 2 && cargos[0] == a && cargos[1] == b && forall k :: 2 <= k < |cargos| ==> cargos[k] == []
    requires (forall x :: x in a ==> Fileable(x)) && forall x :: x in b ==> Fileable(x)
    ensures AllFileable(cargos)
  {
  }

  lemma IsWritable(t: Trip, present: seq<bool>)
    requires ValidTrip(t) && |t.plans| == |t.route| >= 2 && |present| == |t.route| && GoodRoute(t.route)
    requires AllFileable(t.cargos)
    requires forall k :: 0 <= k < |t.cargos| && !present[k] ==> t.cargos[k] == []
    requires forall k :: 0 <= k < |t.route| ==> t.codes[k] == if present[k] then t.route[k] else "empty"
    ensures Writable(t, present)
  {
  }

  lemma AllPresent(t: Trip) returns (present: seq<bool>)
    requires ValidTrip(t) && |t.plans| == |t.route| >= 2 && GoodRoute(t.route) && AllFileable(t.cargos) &&
             t.codes == t.route
    ensures Writable(t, present)
  {
    present := seq(|t.route|, k => true);
    IsWritable(t, present);
  }

  /** What a travel reads, and the voyage that it makes of it. */
  datatype Case = Case(planText: string, routeText: string, folder: Folder, trip: Trip)

  /** A case with the real check of container ids. */
  ghost predicate IsReal(c: Case) {
    && CanRun(c.planText, c.routeText) && Listed(c.folder)
    && RunOf(c.trip, c.planText, c.routeText, c.folder, VerifyId)
  }

  lemma CaseOf(t: Trip, present: seq<bool>) returns (c: Case)
    requires Writable(t, present) && t.verifyId == VerifyId
    ensures c.trip == t && IsReal(c)
  {
    var planText, routeText, folder := EveryVoyageIsATravel("travel", t, present);
    c := Case(planText, routeText, folder, t);
  }

  // ----- what happens -----

  lemma ClashIsFileable(cargos: seq<seq<Container>>, due: Container, stays: Container, waits: Container)
    requires cargos == [[due, stays], [waits], [], []] && Fileable(due) && Fileable(stays) && Fileable(waits)
    ensures AllFileable(cargos)
  {
    FewFileable(cargos, [due, stays], [waits]);
  }

  lemma ClashVoyage() returns (t: Trip, present: seq<bool>)
    ensures Writable(t, present) && t.verifyId == VerifyId && ComesApart(t)
  {
    var route, due, stays, waits := RealClash();
    t := ShipsComeApart(route, VerifyId, due, stays, waits);
    ClashIsFileable(t.cargos, due, stays, waits);
    present := AllPresent(t);
  }

  lemma StrayVoyage() returns (t: Trip, present: seq<bool>)
    ensures Writable(t, present) && t.verifyId == VerifyId && LeavesSome(t)
  {
    var route, stray, meant := RealStray();
    t := NotDelivered(route, VerifyId, stray, meant, [stray, meant]);
    FewFileable(t.cargos, [stray, meant], []);
    present := AllPresent(t);
  }

  lemma MisnamedVoyage() returns (t: Trip)
    ensures Writable(t, [true, false, false]) && t.verifyId == VerifyId && CountsNone(t)
  {
    var route, x := RealMisnamed();
    t := ErrorThatIsNone(route, VerifyId, x);
    FewFileable(t.cargos, [x], []);
    IsWritable(t, [true, false, false]);
  }

  /** Each of the three happens on a travel, from its files on. */
  lemma ClashHappens() returns (c: Case)
    ensures IsReal(c) && ComesApart(c.trip)
  {
    var t, present := ClashVoyage();
    c := CaseOf(t, present);
  }

  lemma StrayHappens() returns (c: Case)
    ensures IsReal(c) && LeavesSome(c.trip)
  {
    var t, present := StrayVoyage();
    c := CaseOf(t, present);
  }

  lemma MisnamedHappens() returns (c: Case)
    ensures IsReal(c) && CountsNone(c.trip)
  {
    var t := MisnamedVoyage();
    c := CaseOf(t, [true, false, false]);
  }
}
