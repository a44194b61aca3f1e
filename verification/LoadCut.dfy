/** Which waiting containers are loaded, and that the cut is made at the far end of the route. */
module LoadCut {
  import opened Cargo
  import opened ShipSpec
  import opened PlannerSpec
  import opened PlannerFacts
  import opened LoadFacts
  import opened Ordering

  /** Nothing but a lack of room can keep the container from being loaded at this port. */
  ghost predicate Eligible(x: Container, before: Stowage, stop: Stop)
    requires Shaped(before)
  {
    && x.dest != stop.code && !Aboard(before, x.id) && stop.verifyId(x.id) && x.weight != -1
    && SeaportCode(x.dest) && exists k :: stop.idx < k < |stop.route| && stop.route[k] == x.dest
  }

  ghost function Wanted(before: Stowage, stop: Stop): Container -> bool
    requires Shaped(before)
  {
    x => Eligible(x, before, stop)
  }

  /** The containers that are chosen from `rest` while `room` lasts: wanted, and of an id not seen yet. */
  ghost function Chosen(rest: seq<Container>, seen: seq<Container>, room: int,
                        wanted: Container -> bool): seq<Container>
    decreases |rest|
  {
    if rest == [] then []
    else if wanted(rest[0]) && IndexOf(seen, rest[0].id) == NOT_FOUND && room > 0
    then [rest[0]] + Chosen(rest[1..], seen + [rest[0]], room - 1, wanted)
    else Chosen(rest[1..], seen, room, wanted)
  }

  /** The container that a load of the id takes from the cargo. */
  function Taken(cargo: seq<Container>, id: string): Container
    requires IndexOf(cargo, id) != NOT_FOUND
  {
    cargo[IndexOf(cargo, id)]
  }

  ghost predicate FromCargo(cargo: seq<Container>, xs: seq<Container>) {
    forall x :: x in xs ==> IndexOf(cargo, x.id) != NOT_FOUND
  }

  /** What is taken from the cargo for the chosen containers. */
  ghost function TakenFor(cargo: seq<Container>, xs: seq<Container>): multiset<Container>
    requires FromCargo(cargo, xs)
  {
    if xs == [] then multiset{} else multiset{Taken(cargo, xs[0].id)} + TakenFor(cargo, xs[1..])
  }

  /** Of every id not loaded yet, the copy of the cargo still holds what the cargo held. */
  ghost predicate Untouched(cargo: seq<Container>, l: Loading) {
    forall id :: IndexOf(l.loaded, id) == NOT_FOUND ==> WithId(l.work.port, id) == WithId(cargo, id)
  }

  lemma DecideByEligible(l: Loading, x: Container, rest: seq<Container>, before: Stowage, stop: Stop)
    requires LoadReady(l, before, rest) && x in rest
    ensures var d := Decide(l.work.ship, x, l.loaded, before, stop);
            && (d.instruction.Load? <==>
                Eligible(x, before, stop) && IndexOf(l.loaded, x.id) == NOT_FOUND && Capacity(l.work.ship) > 0)
            && (CONTAINERS_EXCEEDS_CAPACITY in d.errors <==>
                  Eligible(x, before, stop) && IndexOf(l.loaded, x.id) == NOT_FOUND && Capacity(l.work.ship) <= 0)
  {
    LoadTargetExists(l.work.ship, x.dest);
    BestTowerIsBest(l.work.ship, -1, -1, x.dest);
    assert CONTAINERS_EXCEEDS_CAPACITY !in CheckBeforeLoad(x, before, stop);
  }

  lemma LoadTakes(l: Loading, rest: seq<Container>, before: Stowage, stop: Stop, cargo: seq<Container>)
    requires LoadReady(l, before, rest) && rest != [] && Untouched(cargo, l)
    requires Decide(l.work.ship, rest[0], l.loaded, before, stop).instruction.Load?
    ensures var l' := LoadOne(l, rest[0], before, stop);
            && IndexOf(cargo, rest[0].id) != NOT_FOUND
            && OnBoard(l'.work.ship) == OnBoard(l.work.ship) + multiset{Taken(cargo, rest[0].id)}
            && Capacity(l'.work.ship) == Capacity(l.work.ship) - 1
            && Untouched(cargo, l')
  {
    var x := rest[0];
    DecideAccepted(l, x, rest, before, stop);
    LoadKeepsUnique(l, x, rest, before, stop);
    var l' := LoadOne(l, x, before, stop);
    CapacityAndLoad(l.work.ship);
    CapacityAndLoad(l'.work.ship);
    WithIdFirst(l.work.port, x.id);
    WithIdFirst(cargo, x.id);
    forall id | IndexOf(l'.loaded, id) == NOT_FOUND
      ensures WithId(l'.work.port, id) == WithId(cargo, id)
    {
      IndexOfAppend(l.loaded, x, id);
      WithIdRemove(l.work.port, x.id, id);
    }
  }

  /** What the load phase does for any cargo, duplicate ids included: it loads the chosen
      containers, and what comes on board is the first container of each chosen id. */
  ghost predicate Loads(l: Loading, l': Loading, chosen: seq<Container>, cargo: seq<Container>)
    requires Shaped(l.work.ship) && Shaped(l'.work.ship)
  {
    && l'.loaded == l.loaded + chosen
    && FromCargo(cargo, chosen)
    && OnBoard(l'.work.ship) == OnBoard(l.work.ship) + TakenFor(cargo, chosen)
  }

  lemma {:induction false} LoadAllChooses(l: Loading, before: Stowage, stop: Stop, rest: seq<Container>,
                                          cargo: seq<Container>)
      returns (l': Loading, chosen: seq<Container>)
    requires LoadReady(l, before, rest) && Untouched(cargo, l)
    ensures l' == LoadAll(l, before, stop, rest)
    ensures chosen == Chosen(rest, l.loaded, Capacity(l.work.ship), Wanted(before, stop))
    ensures Loads(l, l', chosen, cargo)
    decreases |rest|
  {
    if rest == [] {
      l', chosen := l, [];
    } else {
      var l1 := LoadOne(l, rest[0], before, stop);
      var isLoad := Decide(l.work.ship, rest[0], l.loaded, before, stop).instruction.Load?;
      FirstDecided(l, before, stop, rest, cargo);
      ChosenNext(rest, l.loaded, Capacity(l.work.ship), Wanted(before, stop), isLoad);
      l', chosen := LoadAllChooses(l1, before, stop, rest[1..], cargo);
      if isLoad {
        LoadsOneMore(l, l1, l', rest[0], chosen, cargo);
        chosen := [rest[0]] + chosen;
      }
    }
  }

  lemma ChosenNext(rest: seq<Container>, seen: seq<Container>, room: int, wanted: Container -> bool, taken: bool)
    requires rest != [] && (taken <==> wanted(rest[0]) && IndexOf(seen, rest[0].id) == NOT_FOUND && room > 0)
    ensures Chosen(rest, seen, room, wanted) ==
            if taken
            then [rest[0]] + Chosen(rest[1..], seen + [rest[0]], room - 1, wanted)
            else Chosen(rest[1..], seen, room, wanted)
  {
  }

  /** What the first container of the rest does to the load loop. */
  lemma FirstDecided(l: Loading, before: Stowage, stop: Stop, rest: seq<Container>, cargo: seq<Container>)
    requires LoadReady(l, before, rest) && Untouched(cargo, l) && rest != []
    ensures var x := rest[0];
            var l1 := LoadOne(l, x, before, stop);
            var isLoad := Decide(l.work.ship, x, l.loaded, before, stop).instruction.Load?;
            && LoadReady(l1, before, rest[1..]) && Untouched(cargo, l1)
            && (isLoad <==>
                Wanted(before, stop)(x) && IndexOf(l.loaded, x.id) == NOT_FOUND && Capacity(l.work.ship) > 0)
            && (isLoad ==> && IndexOf(cargo, x.id) != NOT_FOUND && l1.loaded == l.loaded + [x]
                           && Capacity(l1.work.ship) == Capacity(l.work.ship) - 1
                           && OnBoard(l1.work.ship) == OnBoard(l.work.ship) + multiset{Taken(cargo, x.id)})
            && (!isLoad ==> l1.work.ship == l.work.ship && l1.loaded == l.loaded)
  {
    DecideByEligible(l, rest[0], rest, before, stop);
    DecideAccepted(l, rest[0], rest, before, stop);
    LoadStep(l, rest, before, stop);
    if Decide(l.work.ship, rest[0], l.loaded, before, stop).instruction.Load? {
      LoadTakes(l, rest, before, stop, cargo);
    }
  }

  lemma LoadsOneMore(l: Loading, l1: Loading, l': Loading, x: Container, more: seq<Container>, cargo: seq<Container>)
    requires Shaped(l.work.ship) && Shaped(l1.work.ship) && Shaped(l'.work.ship)
    requires IndexOf(cargo, x.id) != NOT_FOUND && l1.loaded == l.loaded + [x]
    requires OnBoard(l1.work.ship) == OnBoard(l.work.ship) + multiset{Taken(cargo, x.id)}
    requires Loads(l1, l', more, cargo)
    ensures Loads(l, l', [x] + more, cargo)
  {
    assert ([x] + more)[1..] == more;
  }

  // ----- where the loaded containers go -----

  /** Every id of which an eligible container waits is led, in the cargo's order, by one that leaves at a later stop. */
  ghost predicate LedOnward(cargo: seq<Container>, before: Stowage, stop: Stop)
    requires Shaped(before)
  {
    forall x :: x in cargo && Eligible(x, before, stop) ==>
      IndexOf(cargo, x.id) != NOT_FOUND && OnRoute(stop, Taken(cargo, x.id).dest)
  }

  lemma DistinctAreLed(cargo: seq<Container>, before: Stowage, stop: Stop)
    requires Shaped(before) && DistinctIds(cargo)
    ensures LedOnward(cargo, before, stop)
    ensures forall x :: x in cargo ==> IndexOf(cargo, x.id) != NOT_FOUND && Taken(cargo, x.id) == x
  {
    forall x | x in cargo
      ensures IndexOf(cargo, x.id) != NOT_FOUND && Taken(cargo, x.id) == x
    {
      var k := IndexOf(cargo, x.id);
      var j :| 0 <= j < |cargo| && cargo[j] == x;
      assert !(k < j);
    }
  }

  lemma {:induction false} ChosenFacts(rest: seq<Container>, seen: seq<Container>, room: int, wanted: Container -> bool)
    ensures forall x :: x in Chosen(rest, seen, room, wanted) ==> x in rest && wanted(x)
    decreases |rest|
  {
    if rest != [] {
      var x := rest[0];
      if wanted(x) && IndexOf(seen, x.id) == NOT_FOUND && room > 0 {
        ChosenFacts(rest[1..], seen + [x], room - 1, wanted);
      } else {
        ChosenFacts(rest[1..], seen, room, wanted);
      }
      assert forall y :: y in rest <==> y == x || y in rest[1..];
    }
  }

  /** With room for all ids, some container of every wanted id is chosen. */
  lemma {:induction false} AllIdsChosen(rest: seq<Container>, seen: seq<Container>, room: int,
                                        wanted: Container -> bool, ids: set<string>, x: Container)
    requires |ids| <= room && forall y :: y in rest && wanted(y) && IndexOf(seen, y.id) == NOT_FOUND ==> y.id in ids
    requires x in rest && wanted(x) && IndexOf(seen, x.id) == NOT_FOUND
    ensures exists y :: y in Chosen(rest, seen, room, wanted) && y.id == x.id
    decreases |rest|
  {
    var z := rest[0];
    assert forall y :: y in rest[1..] ==> y in rest;
    if wanted(z) && IndexOf(seen, z.id) == NOT_FOUND {
      assert z.id in ids && |ids - {z.id}| == |ids| - 1;
      var ch := Chosen(rest[1..], seen + [z], room - 1, wanted);
      assert Chosen(rest, seen, room, wanted) == [z] + ch;
      assert z in [z] + ch;
      if z.id != x.id {
        SeenMore(rest, seen, wanted, ids);
        IndexOfAppend(seen, z, x.id);
        AllIdsChosen(rest[1..], seen + [z], room - 1, wanted, ids - {z.id}, x);
        var y :| y in ch && y.id == x.id;
        assert y in [z] + ch;
      }
    } else {
      AllIdsChosen(rest[1..], seen, room, wanted, ids, x);
    }
  }

  lemma SeenMore(rest: seq<Container>, seen: seq<Container>, wanted: Container -> bool, ids: set<string>)
    requires rest != [] && forall y :: y in rest && wanted(y) && IndexOf(seen, y.id) == NOT_FOUND ==> y.id in ids
    ensures forall y :: y in rest[1..] && wanted(y) && IndexOf(seen + [rest[0]], y.id) == NOT_FOUND ==>
            y.id in ids - {rest[0].id}
  {
    forall y | y in rest[1..] && wanted(y) && IndexOf(seen + [rest[0]], y.id) == NOT_FOUND
      ensures y.id in ids - {rest[0].id}
    {
      IndexOfAppend(seen, rest[0], y.id);
      assert y in rest;
    }
  }

  lemma {:induction false} TakenForMember(cargo: seq<Container>, xs: seq<Container>, z: Container)
    requires FromCargo(cargo, xs)
    ensures z in TakenFor(cargo, xs) <==> exists x :: x in xs && Taken(cargo, x.id) == z
  {
    if xs != [] {
      TakenForMember(cargo, xs[1..], z);
      assert forall x :: x in xs <==> x == xs[0] || x in xs[1..];
    }
  }

  /** The planner's ship after loading, in terms of the ship after unloading. */
  lemma PlanLoads(s: Stowage, stop: Stop, cargo: seq<Container>, ordered: seq<Container>)
    requires Sound(s) && UniqueIds(OnBoard(s)) && multiset(ordered) == multiset(cargo)
    requires !(LastPort(stop) && cargo != [])
    ensures var u := UnloadFrom(s, [], stop.code, 0, 0).ship;
            var chosen := Chosen(ordered, [], Capacity(u), Wanted(s, stop));
            && FromCargo(cargo, chosen)
            && OnBoard(PlanPort(s, stop, cargo, ordered).ship) == OnBoard(u) + TakenFor(cargo, chosen)
  {
    var u := UnloadFrom(s, [], stop.code, 0, 0);
    UnloadScanClears(s, [], stop.code);
    LoadStarts(u.ship, s, u.list, cargo, ordered);
    var l', chosen := LoadAllChooses(Loading(Work(u.ship, cargo, u.list), [], {}), s, stop, ordered, cargo);
  }

  /** A ship whose containers all leave at this or a later stop. */
  ghost predicate Bound(s: Stowage, route: seq<string>, k: nat)
    requires Shaped(s)
  {
    forall x :: x in OnBoard(s) ==> NextVisit(route, k, x.dest) < |route|
  }

  /** The containers that come on board for the chosen ones leave at later stops. */
  ghost predicate ChosenLeave(cargo: seq<Container>, chosen: seq<Container>, stop: Stop) {
    forall x :: x in chosen ==> IndexOf(cargo, x.id) != NOT_FOUND && OnRoute(stop, Taken(cargo, x.id).dest)
  }

  ghost function StayingFrom(s: Stowage, code: string, r: int, c: int): multiset<Container>
    requires Shaped(s) && 0 <= r <= s.plan.length && 0 <= c <= s.plan.width
    decreases s.plan.length - r, s.plan.width - c
  {
    if r == s.plan.length then multiset{}
    else if c == s.plan.width then StayingFrom(s, code, r + 1, 0)
    else multiset(Staying(Tower(s, r, c), code)) + StayingFrom(s, code, r, c + 1)
  }

  /** The places of the plan that are free once everything due has left. */
  ghost function RoomAfter(s: Stowage, code: string): int
    requires Shaped(s)
  {
    Places(s.plan) - |StayingFrom(s, code, 0, 0)|
  }

  lemma {:induction false} StayingCount(t: seq<Container>, code: string, x: Container)
    ensures multiset(Staying(t, code))[x] == if x.dest == code then 0 else multiset(t)[x]
  {
    if t != [] {
      StayingCount(t[1..], code, x);
      assert t == [t[0]] + t[1..];
    }
  }

  /** Of the containers at (r, c) and after it those stay that are not due. */
  lemma {:induction false} StayingFromCount(s: Stowage, code: string, r: int, c: int, x: Container) returns (all: nat)
    requires Shaped(s) && 0 <= r <= s.plan.length && 0 <= c <= s.plan.width
    ensures all == BoardFrom(s, r, c)[x]
    ensures StayingFrom(s, code, r, c)[x] == if x.dest == code then 0 else all
    decreases s.plan.length - r, s.plan.width - c, 1
  {
    if r == s.plan.length {
      all := 0;
    } else if c == s.plan.width {
      all := StayingFromCount(s, code, r + 1, 0, x);
    } else {
      all := StayingFromTower(s, code, r, c, x);
    }
  }

  lemma {:induction false} StayingFromTower(s: Stowage, code: string, r: int, c: int, x: Container) returns (all: nat)
    requires Shaped(s) && InGrid(s.plan, r, c)
    ensures all == BoardFrom(s, r, c)[x]
    ensures StayingFrom(s, code, r, c)[x] == if x.dest == code then 0 else all
    decreases s.plan.length - r, s.plan.width - c, 0
  {
    var rest := StayingFromCount(s, code, r, c + 1, x);
    StayingCount(Tower(s, r, c), code, x);
    all := multiset(Tower(s, r, c))[x] + rest;
    BoardFromHere(s, r, c, x);
    StayingFromHere(s, code, r, c, x);
  }

  lemma StayingFromHere(s: Stowage, code: string, r: int, c: int, x: Container)
    requires Shaped(s) && InGrid(s.plan, r, c)
    ensures StayingFrom(s, code, r, c)[x] ==
            multiset(Staying(Tower(s, r, c), code))[x] + StayingFrom(s, code, r, c + 1)[x]
  {
  }

  /** The free room after unloading, read off the ship before it. */
  lemma RoomIsCapacity(s: Stowage, code: string)
    requires Sound(s) && UniqueIds(OnBoard(s))
    ensures Capacity(UnloadFrom(s, [], code, 0, 0).ship) == RoomAfter(s, code)
  {
    var u := UnloadFrom(s, [], code, 0, 0).ship;
    UnloadScanClears(s, [], code);
    forall x
      ensures OnBoard(u)[x] == StayingFrom(s, code, 0, 0)[x]
    {
      var all := StayingFromCount(s, code, 0, 0, x);
    }
    assert OnBoard(u) == StayingFrom(s, code, 0, 0);
    CapacityAndLoad(u);
  }

  /** What is chosen at this port brings only containers for later stops on board. At a last
      port with cargo nothing is chosen. */
  ghost predicate SendsOnward(s: Stowage, stop: Stop, cargo: seq<Container>, ordered: seq<Container>)
    requires Shaped(s)
  {
    (LastPort(stop) && cargo != []) ||
    ChosenLeave(cargo, Chosen(ordered, [], RoomAfter(s, stop.code), Wanted(s, stop)), stop)
  }

  lemma TakenLeave(cargo: seq<Container>, chosen: seq<Container>, stop: Stop)
    requires FromCargo(cargo, chosen)
    ensures ChosenLeave(cargo, chosen, stop) <==> forall z :: z in TakenFor(cargo, chosen) ==> OnRoute(stop, z.dest)
  {
    if ChosenLeave(cargo, chosen, stop) {
      forall z | z in TakenFor(cargo, chosen)
        ensures OnRoute(stop, z.dest)
      {
        TakenForMember(cargo, chosen, z);
      }
    }
    if forall z :: z in TakenFor(cargo, chosen) ==> OnRoute(stop, z.dest) {
      forall x | x in chosen
        ensures IndexOf(cargo, x.id) != NOT_FOUND && OnRoute(stop, Taken(cargo, x.id).dest)
      {
        TakenForMember(cargo, chosen, Taken(cargo, x.id));
      }
    }
  }

  /** What is left of a ship after unloading is bound for later stops exactly when the ship was
      bound for this stop and later ones. */
  lemma UnloadedIsBound(s: Stowage, u: Stowage, stop: Stop)
    requires Shaped(s) && Shaped(u)
    requires stop.idx < |stop.route| && stop.code == stop.route[stop.idx]
    requires forall x :: OnBoard(u)[x] == if x.dest == stop.code then 0 else OnBoard(s)[x]
    ensures Bound(u, stop.route, stop.idx + 1) <==> Bound(s, stop.route, stop.idx)
  {
    forall x: Container
      ensures x.dest == stop.code ==> NextVisit(stop.route, stop.idx, x.dest) < |stop.route| && x !in OnBoard(u)
      ensures x.dest != stop.code ==>
              (x in OnBoard(u) <==> x in OnBoard(s)) &&
                  NextVisit(stop.route, stop.idx + 1, x.dest) == NextVisit(stop.route, stop.idx, x.dest)
    {
    }
  }

  lemma BoundWith(u: Stowage, p: Stowage, taken: multiset<Container>, stop: Stop)
    requires Shaped(u) && Shaped(p) && OnBoard(p) == OnBoard(u) + taken
    ensures Bound(p, stop.route, stop.idx + 1) <==>
            Bound(u, stop.route, stop.idx + 1) && forall z :: z in taken ==> OnRoute(stop, z.dest)
  {
    assert forall z :: z in OnBoard(p) <==> z in OnBoard(u) || z in taken;
  }

  /** What leaves the port is bound for later stops exactly when what came was bound for this
      stop or later ones and what is chosen here brings only containers for later stops. */
  lemma PortSendsOnward(s: Stowage, stop: Stop, cargo: seq<Container>, ordered: seq<Container>)
    requires Sound(s) && UniqueIds(OnBoard(s)) && multiset(ordered) == multiset(cargo)
    requires stop.idx < |stop.route| && stop.code == stop.route[stop.idx]
    ensures Bound(PlanPort(s, stop, cargo, ordered).ship, stop.route, stop.idx + 1) <==>
            Bound(s, stop.route, stop.idx) && SendsOnward(s, stop, cargo, ordered)
  {
    var u := UnloadFrom(s, [], stop.code, 0, 0).ship;
    UnloadScanClears(s, [], stop.code);
    RoomIsCapacity(s, stop.code);
    UnloadedIsBound(s, u, stop);
    if !(LastPort(stop) && cargo != []) {
      PlanLoads(s, stop, cargo, ordered);
      var chosen := Chosen(ordered, [], Capacity(u), Wanted(s, stop));
      TakenLeave(cargo, chosen, stop);
      BoundWith(u, PlanPort(s, stop, cargo, ordered).ship, TakenFor(cargo, chosen), stop);
    }
  }

  lemma SameMembers(a: seq<Container>, b: seq<Container>)
    requires multiset(a) == multiset(b)
    ensures |a| == |b| && forall x :: x in a <==> x in b
  {
    assert |multiset(a)| == |multiset(b)|;
    assert forall x :: x in a <==> x in multiset(a);
    assert forall x :: x in b <==> x in multiset(b);
  }

  lemma LedLeave(cargo: seq<Container>, ordered: seq<Container>, room: int, before: Stowage, stop: Stop)
    requires Shaped(before) && multiset(ordered) == multiset(cargo) && LedOnward(cargo, before, stop)
    ensures ChosenLeave(cargo, Chosen(ordered, [], room, Wanted(before, stop)), stop)
  {
    ChosenFacts(ordered, [], room, Wanted(before, stop));
    SameMembers(ordered, cargo);
    forall x | x in Chosen(ordered, [], room, Wanted(before, stop))
      ensures IndexOf(cargo, x.id) != NOT_FOUND && OnRoute(stop, Taken(cargo, x.id).dest)
    {
      assert x in cargo && Eligible(x, before, stop);
    }
  }

  /** The ids of the eligible containers. */
  ghost function EligibleIds(cargo: seq<Container>, before: Stowage, stop: Stop): set<string>
    requires Shaped(before)
  {
    set x | x in cargo && Eligible(x, before, stop) :: x.id
  }

  lemma ChosenAreLed(cargo: seq<Container>, ordered: seq<Container>, room: int, before: Stowage, stop: Stop)
    requires Shaped(before) && multiset(ordered) == multiset(cargo) && |EligibleIds(cargo, before, stop)| <= room
    requires ChosenLeave(cargo, Chosen(ordered, [], room, Wanted(before, stop)), stop)
    ensures LedOnward(cargo, before, stop)
  {
    SameMembers(ordered, cargo);
    forall x | x in cargo && Eligible(x, before, stop)
      ensures IndexOf(cargo, x.id) != NOT_FOUND && OnRoute(stop, Taken(cargo, x.id).dest)
    {
      AllIdsChosen(ordered, [], room, Wanted(before, stop), EligibleIds(cargo, before, stop), x);
    }
  }

  /** It is enough that each eligible id is led, in the cargo's order, by a container for a later
      stop; with room for all eligible ids that is what it takes. */
  lemma LedExactly(s: Stowage, stop: Stop, cargo: seq<Container>, ordered: seq<Container>)
    requires Shaped(s) && multiset(ordered) == multiset(cargo) && !(LastPort(stop) && cargo != [])
    ensures LedOnward(cargo, s, stop) ==> SendsOnward(s, stop, cargo, ordered)
    ensures |EligibleIds(cargo, s, stop)| <= RoomAfter(s, stop.code) ==>
              (SendsOnward(s, stop, cargo, ordered) <==> LedOnward(cargo, s, stop))
  {
    var room := RoomAfter(s, stop.code);
    if LedOnward(cargo, s, stop) {
      LedLeave(cargo, ordered, room, s, stop);
    }
    if |EligibleIds(cargo, s, stop)| <= room && SendsOnward(s, stop, cargo, ordered) {
      ChosenAreLed(cargo, ordered, room, s, stop);
    }
  }

  // ----- the cut -----

  /** The wanted containers, in their order. */
  ghost function Filter(xs: seq<Container>, wanted: Container -> bool): seq<Container> {
    if xs == [] then []
    else (if wanted(xs[0]) then [xs[0]] else []) + Filter(xs[1..], wanted)
  }

  lemma {:induction false} FilterCount(xs: seq<Container>, wanted: Container -> bool, x: Container)
    ensures multiset(Filter(xs, wanted))[x] == if wanted(x) then multiset(xs)[x] else 0
  {
    if xs != [] {
      FilterCount(xs[1..], wanted, x);
      assert xs == [xs[0]] + xs[1..];
    }
  }

  /** How many are wanted does not depend on the order. */
  lemma FilterPermuted(xs: seq<Container>, ys: seq<Container>, wanted: Container -> bool)
    requires multiset(xs) == multiset(ys)
    ensures multiset(Filter(xs, wanted)) == multiset(Filter(ys, wanted))
  {
    forall x
      ensures multiset(Filter(xs, wanted))[x] == multiset(Filter(ys, wanted))[x]
    {
      FilterCount(xs, wanted, x);
      FilterCount(ys, wanted, x);
    }
  }

  function Min(a: int, b: int): int {
    if a < b then a else b
  }

  lemma {:induction false} ChosenOfDistinct(rest: seq<Container>, seen: seq<Container>, room: int,
                                            wanted: Container -> bool)
    requires DistinctIds(rest) && room >= 0
    requires forall x :: x in rest ==> IndexOf(seen, x.id) == NOT_FOUND
    ensures var e := Filter(rest, wanted); Chosen(rest, seen, room, wanted) == e[..Min(room, |e|)]
    decreases |rest|
  {
    if rest != [] {
      var x := rest[0];
      assert forall y :: y in rest[1..] ==> y in rest;
      OtherIdsUnseen(rest, seen);
      if wanted(x) && room > 0 {
        ChosenOfDistinct(rest[1..], seen + [x], room - 1, wanted);
        TakeOneMore(x, Filter(rest[1..], wanted), room);
      } else {
        ChosenOfDistinct(rest[1..], seen, room, wanted);
      }
    }
  }

  lemma TakeOneMore(x: Container, e: seq<Container>, room: int)
    requires room > 0
    ensures ([x] + e)[..Min(room, |[x] + e|)] == [x] + e[..Min(room - 1, |e|)]
  {
  }

  lemma OtherIdsUnseen(rest: seq<Container>, seen: seq<Container>)
    requires rest != [] && DistinctIds(rest)
    requires forall x :: x in rest ==> IndexOf(seen, x.id) == NOT_FOUND
    ensures DistinctIds(rest[1..])
    ensures forall x :: x in rest[1..] ==> IndexOf(seen + [rest[0]], x.id) == NOT_FOUND
  {
    forall y | y in rest[1..]
      ensures IndexOf(seen + [rest[0]], y.id) == NOT_FOUND
    {
      IndexOfAppend(seen, rest[0], y.id);
      var k :| 0 <= k < |rest[1..]| && rest[1..][k] == y;
      assert rest[0].id != rest[k + 1].id;
    }
  }

  /** Position in xs of its k-th wanted container. */
  ghost function PositionOf(xs: seq<Container>, wanted: Container -> bool, k: nat): (p: nat)
    requires k < |Filter(xs, wanted)|
    ensures k <= p < |xs| && xs[p] == Filter(xs, wanted)[k]
  {
    if wanted(xs[0]) then
      if k == 0 then 0 else 1 + PositionOf(xs[1..], wanted, k - 1)
    else 1 + PositionOf(xs[1..], wanted, k)
  }

  lemma {:induction false} PositionsGrow(xs: seq<Container>, wanted: Container -> bool, j: nat, k: nat)
    requires j < k < |Filter(xs, wanted)|
    ensures PositionOf(xs, wanted, j) < PositionOf(xs, wanted, k)
  {
    if wanted(xs[0]) {
      if j > 0 {
        PositionsGrow(xs[1..], wanted, j - 1, k - 1);
      }
    } else {
      PositionsGrow(xs[1..], wanted, j, k);
    }
  }

  /** In either algorithm's order no wanted container beyond the room is nearer than one within it. */
  lemma OrderCutsFar(alg: Algorithm, capacity: int, route: seq<string>, idx: nat, cargo: seq<Container>,
                     ordered: seq<Container>,
                     wanted: Container -> bool, j: nat, k: nat)
    requires capacity >= 0 && LoadOrder(alg, capacity, route, idx, cargo, ordered)
    requires j < capacity <= k < |Filter(ordered, wanted)|
    ensures var e := Filter(ordered, wanted);
            NextVisit(route, idx + 1, e[j].dest) <= NextVisit(route, idx + 1, e[k].dest)
  {
    var p, q := PositionOf(ordered, wanted, j), PositionOf(ordered, wanted, k);
    PositionsGrow(ordered, wanted, j, k);
    if alg == A && p >= capacity {
      assert ordered[capacity..][p - capacity] == ordered[p] && ordered[capacity..][q - capacity] == ordered[q];
    }
    assert Rank(route, idx, false, ordered[p]) <= Rank(route, idx, false, ordered[q]);
  }

  lemma PermutedDistinct(a: seq<Container>, b: seq<Container>)
    requires multiset(a) == multiset(b) && DistinctIds(b)
    ensures DistinctIds(a)
  {
    DistinctIdsUnique(b);
    forall i, j | 0 <= i < j < |a|
      ensures a[i].id != a[j].id
    {
      assert a == a[..i] + [a[i]] + a[i + 1..j] + [a[j]] + a[j + 1..];
      assert a[i] in multiset(a) && a[j] in multiset(a);
      assert a[i] == a[j] ==> multiset(a)[a[i]] >= 2;
    }
  }

  lemma {:induction false} TakenAreChosen(cargo: seq<Container>, xs: seq<Container>)
    requires FromCargo(cargo, xs)
    requires forall x :: x in xs ==> Taken(cargo, x.id) == x
    ensures TakenFor(cargo, xs) == multiset(xs)
  {
    if xs != [] {
      TakenAreChosen(cargo, xs[1..]);
      assert xs == [xs[0]] + xs[1..];
    }
  }

  /** The eligible containers of a cargo, in the order in which they stand. */
  ghost function EligibleOf(xs: seq<Container>, before: Stowage, stop: Stop): seq<Container>
    requires Shaped(before)
  {
    Filter(xs, Wanted(before, stop))
  }

  /** The cut of either algorithm, for cargo with distinct ids: what is loaded are the first
      eligible containers of its order, as many as there is room for after unloading, and
      none of the others is nearer. */
  lemma LoadCutIsOptimal(alg: Algorithm, s: Stowage, stop: Stop, cargo: seq<Container>, ordered: seq<Container>)
    requires Sound(s) && UniqueIds(OnBoard(s)) && DistinctIds(cargo)
    requires !(LastPort(stop) && cargo != [])
    requires LoadOrder(alg, Capacity(UnloadFrom(s, [], stop.code, 0, 0).ship), stop.route, stop.idx, cargo, ordered)
    ensures var u := UnloadFrom(s, [], stop.code, 0, 0).ship;
            var e := EligibleOf(ordered, s, stop);
            var n := Min(Capacity(u), |EligibleOf(cargo, s, stop)|);
            && multiset(e) == multiset(EligibleOf(cargo, s, stop))
            && 0 <= n <= |e|
            && OnBoard(PlanPort(s, stop, cargo, ordered).ship) == OnBoard(u) + multiset(e[..n])
            && forall j, k :: 0 <= j < n <= k < |e| ==> NextStop(stop, e[j].dest) <= NextStop(stop, e[k].dest)
  {
    var u := UnloadFrom(s, [], stop.code, 0, 0).ship;
    UnloadScanClears(s, [], stop.code);
    CapacitySign(u, -1, -1);
    PlanLoads(s, stop, cargo, ordered);
    CutIsOptimal(alg, s, u, PlanPort(s, stop, cargo, ordered).ship, stop, cargo, ordered);
  }

  lemma CutIsOptimal(alg: Algorithm, s: Stowage, u: Stowage, p: Stowage, stop: Stop, cargo: seq<Container>,
                     ordered: seq<Container>)
    requires Shaped(s) && Shaped(u) && Shaped(p) && DistinctIds(cargo) && Capacity(u) >= 0
    requires LoadOrder(alg, Capacity(u), stop.route, stop.idx, cargo, ordered)
    requires FromCargo(cargo, Chosen(ordered, [], Capacity(u), Wanted(s, stop)))
    requires OnBoard(p) == OnBoard(u) + TakenFor(cargo, Chosen(ordered, [], Capacity(u), Wanted(s, stop)))
    ensures var e := EligibleOf(ordered, s, stop);
            var n := Min(Capacity(u), |EligibleOf(cargo, s, stop)|);
            && multiset(e) == multiset(EligibleOf(cargo, s, stop))
            && 0 <= n <= |e|
            && OnBoard(p) == OnBoard(u) + multiset(e[..n])
            && forall j, k :: 0 <= j < n <= k < |e| ==> NextStop(stop, e[j].dest) <= NextStop(stop, e[k].dest)
  {
    var wanted := Wanted(s, stop);
    var e := Filter(ordered, wanted);
    FilterPermuted(ordered, cargo, wanted);
    assert |multiset(e)| == |multiset(Filter(cargo, wanted))|;
    ChosenAreTaken(s, stop, cargo, ordered, Capacity(u));
    OthersAreNoNearer(alg, Capacity(u), stop, cargo, ordered, wanted, e);
  }

  lemma OthersAreNoNearer(alg: Algorithm, room: nat, stop: Stop, cargo: seq<Container>, ordered: seq<Container>,
                          wanted: Container -> bool, e: seq<Container>)
    requires LoadOrder(alg, room, stop.route, stop.idx, cargo, ordered) && e == Filter(ordered, wanted)
    ensures forall j, k :: 0 <= j < Min(room, |e|) <= k < |e| ==> NextStop(stop, e[j].dest) <= NextStop(stop, e[k].dest)
  {
    forall j, k | 0 <= j < Min(room, |e|) <= k < |e|
      ensures NextStop(stop, e[j].dest) <= NextStop(stop, e[k].dest)
    {
      OrderCutsFar(alg, room, stop.route, stop.idx, cargo, ordered, wanted, j, k);
    }
  }

  lemma ChosenAreTaken(s: Stowage, stop: Stop, cargo: seq<Container>, ordered: seq<Container>, room: int)
    requires Shaped(s) && DistinctIds(cargo) && multiset(ordered) == multiset(cargo) && room >= 0
    requires FromCargo(cargo, Chosen(ordered, [], room, Wanted(s, stop)))
    ensures var e := Filter(ordered, Wanted(s, stop));
            TakenFor(cargo, Chosen(ordered, [], room, Wanted(s, stop))) == multiset(e[..Min(room, |e|)])
  {
    PermutedDistinct(ordered, cargo);
    ChosenOfDistinct(ordered, [], room, Wanted(s, stop));
    ChosenFacts(ordered, [], room, Wanted(s, stop));
    SameMembers(ordered, cargo);
    DistinctAreLed(cargo, s, stop);
    TakenAreChosen(cargo, Chosen(ordered, [], room, Wanted(s, stop)));
  }

  // ----- how many are loaded, for any cargo -----

  /** The wanted ids that were not seen yet. */
  ghost function NewIds(rest: seq<Container>, seen: seq<Container>, wanted: Container -> bool): set<string> {
    set x | x in rest && wanted(x) && IndexOf(seen, x.id) == NOT_FOUND :: x.id
  }

  lemma NewIdsNext(rest: seq<Container>, seen: seq<Container>, wanted: Container -> bool)
    requires rest != []
    ensures var x := rest[0];
            if wanted(x) && IndexOf(seen, x.id) == NOT_FOUND
            then x.id in NewIds(rest, seen, wanted)
                 && NewIds(rest[1..], seen + [x], wanted) == NewIds(rest, seen, wanted) - {x.id}
            else NewIds(rest, seen, wanted) == NewIds(rest[1..], seen, wanted)
  {
    var x := rest[0];
    assert forall y :: y in rest <==> y == x || y in rest[1..];
    forall id
      ensures IndexOf(seen + [x], id) == NOT_FOUND <==> IndexOf(seen, id) == NOT_FOUND && x.id != id
    {
      IndexOfAppend(seen, x, id);
    }
  }

  lemma {:induction false} NothingChosen(rest: seq<Container>, seen: seq<Container>, room: int,
                                         wanted: Container -> bool)
    requires room <= 0
    ensures Chosen(rest, seen, room, wanted) == []
  {
    if rest != [] {
      NothingChosen(rest[1..], seen, room, wanted);
    }
  }

  lemma {:induction false} ChosenCount(rest: seq<Container>, seen: seq<Container>, room: nat, wanted: Container -> bool)
    ensures |Chosen(rest, seen, room, wanted)| == Min(room, |NewIds(rest, seen, wanted)|)
    decreases |rest|
  {
    if room == 0 {
      NothingChosen(rest, seen, room, wanted);
    } else if rest != [] {
      NewIdsNext(rest, seen, wanted);
      var x := rest[0];
      if wanted(x) && IndexOf(seen, x.id) == NOT_FOUND {
        ChosenCount(rest[1..], seen + [x], room - 1, wanted);
      } else {
        ChosenCount(rest[1..], seen, room, wanted);
      }
    }
  }

  lemma {:induction false} TakenForSize(cargo: seq<Container>, xs: seq<Container>)
    requires FromCargo(cargo, xs)
    ensures |TakenFor(cargo, xs)| == |xs|
  {
    if xs != [] {
      TakenForSize(cargo, xs[1..]);
    }
  }

  lemma ChosenPerId(s: Stowage, stop: Stop, cargo: seq<Container>, ordered: seq<Container>, room: nat)
    requires Shaped(s) && multiset(ordered) == multiset(cargo)
    ensures |Chosen(ordered, [], room, Wanted(s, stop))| == Min(room, |EligibleIds(cargo, s, stop)|)
  {
    ChosenCount(ordered, [], room, Wanted(s, stop));
    SameMembers(ordered, cargo);
    assert NewIds(ordered, [], Wanted(s, stop)) == EligibleIds(cargo, s, stop);
  }

  lemma LoadedSize(s: Stowage, stop: Stop, cargo: seq<Container>, ordered: seq<Container>, u: Stowage)
      returns (room: nat)
    requires Sound(s) && UniqueIds(OnBoard(s)) && multiset(ordered) == multiset(cargo)
    requires !(LastPort(stop) && cargo != []) && u == UnloadFrom(s, [], stop.code, 0, 0).ship
    ensures room == Capacity(u)
    ensures |OnBoard(PlanPort(s, stop, cargo, ordered).ship)| ==
            |OnBoard(u)| + |Chosen(ordered, [], room, Wanted(s, stop))|
  {
    UnloadScanClears(s, [], stop.code);
    CapacitySign(u, -1, -1);
    PlanLoads(s, stop, cargo, ordered);
    TakenForSize(cargo, Chosen(ordered, [], Capacity(u), Wanted(s, stop)));
    room := Capacity(u);
  }

  /** For any cargo, with repeated ids or not: one container is loaded for each eligible id, or as
      many as there is room for after unloading. */
  lemma LoadsAllThatFit(s: Stowage, stop: Stop, cargo: seq<Container>, ordered: seq<Container>)
    requires Sound(s) && UniqueIds(OnBoard(s)) && multiset(ordered) == multiset(cargo)
    requires !(LastPort(stop) && cargo != [])
    ensures |OnBoard(PlanPort(s, stop, cargo, ordered).ship)| ==
            |OnBoard(UnloadFrom(s, [], stop.code, 0, 0).ship)| +
                Min(RoomAfter(s, stop.code), |EligibleIds(cargo, s, stop)|)
  {
    RoomIsCapacity(s, stop.code);
    var room := LoadedSize(s, stop, cargo, ordered, UnloadFrom(s, [], stop.code, 0, 0).ship);
    ChosenPerId(s, stop, cargo, ordered, room);
  }
}
