/** What loading far ones first is for: of the containers that one port loads on a tower none
    stands above one that leaves earlier. */
module StackOrder {
  import opened Cargo
  import opened ShipSpec
  import opened PlannerSpec
  import opened PlannerFacts
  import opened LoadFacts
  import opened Ordering
  import opened LoadCut

  /** Tower t is tower `below` with containers on top of which none leaves later than one under it. */
  ghost predicate Stacked(stop: Stop, below: seq<Container>, t: seq<Container>) {
    && below <= t
    && forall p, q :: |below| <= p < q < |t| ==> NextStop(stop, t[q].dest) <= NextStop(stop, t[p].dest)
  }

  /** Nothing still to come leaves later than what was put on tower `below`. */
  ghost predicate NoneLater(stop: Stop, below: seq<Container>, t: seq<Container>, rest: seq<Container>) {
    forall p, q :: |below| <= p < |t| && 0 <= q < |rest| ==> NextStop(stop, rest[q].dest) <= NextStop(stop, t[p].dest)
  }

  ghost predicate ShipStacked(stop: Stop, u: Stowage, s: Stowage) {
    && Shaped(u) && Shaped(s) && s.plan == u.plan
    && forall r, c :: InGrid(u.plan, r, c) ==> Stacked(stop, Tower(u, r, c), Tower(s, r, c))
  }

  ghost predicate RestFits(stop: Stop, u: Stowage, s: Stowage, rest: seq<Container>) {
    && Shaped(u) && Shaped(s) && s.plan == u.plan
    && forall r, c :: InGrid(u.plan, r, c) ==> NoneLater(stop, Tower(u, r, c), Tower(s, r, c), rest)
  }

  /** Each container still to come is the only one of its id at the port. */
  ghost predicate AllThere(port: seq<Container>, rest: seq<Container>) {
    forall k :: 0 <= k < |rest| ==> WithId(port, rest[k].id) == [rest[k]]
  }

  ghost predicate InFarOrder(stop: Stop, rest: seq<Container>) {
    forall p, q :: 0 <= p < q < |rest| ==> NextStop(stop, rest[q].dest) <= NextStop(stop, rest[p].dest)
  }

  lemma StackOne(stop: Stop, below: seq<Container>, t: seq<Container>, rest: seq<Container>)
    requires rest != [] && InFarOrder(stop, rest) && Stacked(stop, below, t) && NoneLater(stop, below, t, rest)
    ensures Stacked(stop, below, t + [rest[0]]) && NoneLater(stop, below, t + [rest[0]], rest[1..])
    ensures NoneLater(stop, below, t, rest[1..])
  {
  }

  lemma StackShip(stop: Stop, u: Stowage, s: Stowage, rest: seq<Container>, r: int, c: int)
    requires rest != [] && InFarOrder(stop, rest) && ShipStacked(stop, u, s) && RestFits(stop, u, s, rest)
    requires InGrid(u.plan, r, c)
    ensures ShipStacked(stop, u, SetTower(s, r, c, Tower(s, r, c) + [rest[0]]))
    ensures RestFits(stop, u, SetTower(s, r, c, Tower(s, r, c) + [rest[0]]), rest[1..])
    ensures RestFits(stop, u, s, rest[1..])
  {
    var s' := SetTower(s, r, c, Tower(s, r, c) + [rest[0]]);
    forall i, j | InGrid(u.plan, i, j)
      ensures Stacked(stop, Tower(u, i, j), Tower(s', i, j))
      ensures NoneLater(stop, Tower(u, i, j), Tower(s', i, j), rest[1..])
      ensures NoneLater(stop, Tower(u, i, j), Tower(s, i, j), rest[1..])
    {
      assert Stacked(stop, Tower(u, i, j), Tower(s, i, j)) && NoneLater(stop, Tower(u, i, j), Tower(s, i, j), rest);
      StackOne(stop, Tower(u, i, j), Tower(s, i, j), rest);
    }
  }

  /** A load takes the very container it is for. */
  lemma LoadsItself(l: Loading, rest: seq<Container>, before: Stowage, stop: Stop) returns (i: Instruction)
    requires LoadReady(l, before, rest) && rest != [] && AllThere(l.work.port, rest)
    ensures i == Decide(l.work.ship, rest[0], l.loaded, before, stop).instruction && i.id == rest[0].id
    ensures var l' := LoadOne(l, rest[0], before, stop);
            && IndexOf(l.work.port, rest[0].id) != NOT_FOUND
            && (i.Load? ==>
                && InGrid(l.work.ship.plan, i.row, i.col)
                && l'.work.ship == SetTower(l.work.ship, i.row, i.col, Tower(l.work.ship, i.row, i.col) + [rest[0]])
                && l'.work.port == RemoveAt(l.work.port, IndexOf(l.work.port, rest[0].id)))
            && (!i.Load? ==> l'.work.ship == l.work.ship && l'.work.port == l.work.port)
  {
    var x := rest[0];
    DecideAccepted(l, x, rest, before, stop);
    WithIdFirst(l.work.port, x.id);
    assert WithId(l.work.port, x.id) == [x];
    i := Decide(l.work.ship, x, l.loaded, before, stop).instruction;
  }

  lemma OthersStay(port: seq<Container>, rest: seq<Container>)
    requires rest != [] && DistinctIds(rest) && AllThere(port, rest)
    requires IndexOf(port, rest[0].id) != NOT_FOUND
    ensures DistinctIds(rest[1..]) && AllThere(port, rest[1..])
    ensures AllThere(RemoveAt(port, IndexOf(port, rest[0].id)), rest[1..])
  {
    forall k | 0 <= k < |rest| - 1
      ensures WithId(RemoveAt(port, IndexOf(port, rest[0].id)), rest[1..][k].id) == [rest[1..][k]]
    {
      assert rest[1..][k] == rest[k + 1] && rest[0].id != rest[k + 1].id;
      WithIdRemove(port, rest[0].id, rest[k + 1].id);
    }
  }

  lemma {:induction false} LoadAllStacks(l: Loading, u: Stowage, before: Stowage, stop: Stop, rest: seq<Container>)
      returns (l': Loading)
    requires LoadReady(l, before, rest) && DistinctIds(rest) && AllThere(l.work.port, rest)
    requires InFarOrder(stop, rest) && ShipStacked(stop, u, l.work.ship) && RestFits(stop, u, l.work.ship, rest)
    ensures l' == LoadAll(l, before, stop, rest) && ShipStacked(stop, u, l'.work.ship)
    decreases |rest|
  {
    if rest == [] {
      l' := l;
    } else {
      var l1 := OneStacks(l, u, before, stop, rest);
      l' := LoadAllStacks(l1, u, before, stop, rest[1..]);
    }
  }

  lemma OneStacks(l: Loading, u: Stowage, before: Stowage, stop: Stop, rest: seq<Container>) returns (l1: Loading)
    requires LoadReady(l, before, rest) && DistinctIds(rest) && AllThere(l.work.port, rest) && rest != []
    requires InFarOrder(stop, rest) && ShipStacked(stop, u, l.work.ship) && RestFits(stop, u, l.work.ship, rest)
    ensures l1 == LoadOne(l, rest[0], before, stop)
    ensures LoadAll(l, before, stop, rest) == LoadAll(l1, before, stop, rest[1..])
    ensures LoadReady(l1, before, rest[1..]) && DistinctIds(rest[1..]) && AllThere(l1.work.port, rest[1..])
    ensures InFarOrder(stop, rest[1..]) && ShipStacked(stop, u, l1.work.ship) &&
            RestFits(stop, u, l1.work.ship, rest[1..])
  {
    l1 := LoadOne(l, rest[0], before, stop);
    var i := LoadsItself(l, rest, before, stop);
    OthersStay(l.work.port, rest);
    LoadStep(l, rest, before, stop);
    if i.Load? {
      StackShip(stop, u, l.work.ship, rest, i.row, i.col);
    } else {
      StackShip(stop, u, l.work.ship, rest, 0, 0);
    }
  }

  /** The load loop over one part of the cargo, then over the rest. */
  lemma {:induction false} LoadAllTwice(l: Loading, before: Stowage, stop: Stop, a: seq<Container>, b: seq<Container>)
    requires LoadReady(l, before, a + b)
    ensures var l1 := LoadAll(l, before, stop, a);
            LoadReady(l1, before, b) && LoadAll(l, before, stop, a + b) == LoadAll(l1, before, stop, b)
    decreases |a|
  {
    if a == [] {
      assert a + b == b;
    } else {
      assert (a + b)[1..] == a[1..] + b;
      LoadStep(l, a + b, before, stop);
      LoadAllTwice(LoadOne(l, a[0], before, stop), before, stop, a[1..], b);
    }
  }

  /** On a full ship nothing is loaded. */
  lemma {:induction false} FullRejects(l: Loading, before: Stowage, stop: Stop, rest: seq<Container>)
    requires LoadReady(l, before, rest) && Capacity(l.work.ship) == 0
    ensures LoadAll(l, before, stop, rest).work.ship == l.work.ship
    decreases |rest|
  {
    if rest != [] {
      DecideByEligible(l, rest[0], rest, before, stop);
      DecideAccepted(l, rest[0], rest, before, stop);
      LoadStep(l, rest, before, stop);
      FullRejects(LoadOne(l, rest[0], before, stop), before, stop, rest[1..]);
    }
  }

  /** Each of the containers can be loaded but for room, and there is room for all. */
  ghost predicate AllFit(l: Loading, before: Stowage, stop: Stop, rest: seq<Container>)
    requires Shaped(before) && Shaped(l.work.ship)
  {
    && |rest| <= Capacity(l.work.ship)
    && forall x :: x in rest ==> Eligible(x, before, stop) && IndexOf(l.loaded, x.id) == NOT_FOUND
  }

  lemma OneFits(l: Loading, before: Stowage, stop: Stop, rest: seq<Container>) returns (l1: Loading)
    requires LoadReady(l, before, rest) && DistinctIds(rest) && AllThere(l.work.port, rest) && rest != []
    requires AllFit(l, before, stop, rest)
    ensures l1 == LoadOne(l, rest[0], before, stop) && LoadReady(l1, before, rest[1..])
    ensures DistinctIds(rest[1..]) && AllThere(l1.work.port, rest[1..]) && AllFit(l1, before, stop, rest[1..])
    ensures Capacity(l1.work.ship) == Capacity(l.work.ship) - 1
  {
    var x := rest[0];
    l1 := LoadOne(l, x, before, stop);
    DecideByEligible(l, x, rest, before, stop);
    var i := LoadsItself(l, rest, before, stop);
    OthersStay(l.work.port, rest);
    LoadStep(l, rest, before, stop);
    PushTakesPlace(l.work.ship, i.row, i.col, x);
    StillNotLoaded(l.loaded, rest);
  }

  lemma PushTakesPlace(s: Stowage, r: int, c: int, x: Container)
    requires Shaped(s) && InGrid(s.plan, r, c)
    ensures Capacity(SetTower(s, r, c, Tower(s, r, c) + [x])) == Capacity(s) - 1
  {
    OnBoardPush(s, r, c, x);
    CapacityAndLoad(s);
    CapacityAndLoad(SetTower(s, r, c, Tower(s, r, c) + [x]));
  }

  lemma StillNotLoaded(loaded: seq<Container>, rest: seq<Container>)
    requires rest != [] && DistinctIds(rest) && forall x :: x in rest ==> IndexOf(loaded, x.id) == NOT_FOUND
    ensures forall y :: y in rest[1..] ==> y in rest && IndexOf(loaded + [rest[0]], y.id) == NOT_FOUND
  {
    forall y | y in rest[1..]
      ensures y in rest && IndexOf(loaded + [rest[0]], y.id) == NOT_FOUND
    {
      var k :| 0 < k < |rest| && y == rest[k];
      assert rest[0].id != rest[k].id;
      IndexOfAppend(loaded, rest[0], y.id);
    }
  }

  lemma {:induction false} AllAreLoaded(l: Loading, before: Stowage, stop: Stop, rest: seq<Container>)
    requires LoadReady(l, before, rest) && DistinctIds(rest) && AllThere(l.work.port, rest)
    requires AllFit(l, before, stop, rest)
    ensures Capacity(LoadAll(l, before, stop, rest).work.ship) == Capacity(l.work.ship) - |rest|
    decreases |rest|
  {
    if rest != [] {
      var l1 := OneFits(l, before, stop, rest);
      AllAreLoaded(l1, before, stop, rest[1..]);
    }
  }

  /** The load loop stacks the first containers in far order; the rest finds no room. */
  lemma FirstStack(l: Loading, u: Stowage, before: Stowage, stop: Stop, first: seq<Container>, rest: seq<Container>)
    requires LoadReady(l, before, first + rest) && l.work.ship == u
    requires DistinctIds(first) && AllThere(l.work.port, first) && InFarOrder(stop, first)
    requires rest == [] || (AllFit(l, before, stop, first) && |first| == Capacity(u))
    ensures ShipStacked(stop, u, LoadAll(l, before, stop, first + rest).work.ship)
  {
    assert LoadReady(l, before, first) by {
      assert forall x :: x in first ==> x in first + rest;
    }
    var l1 := LoadAllStacks(l, u, before, stop, first);
    LoadAllTwice(l, before, stop, first, rest);
    if rest != [] {
      AllAreLoaded(l, before, stop, first);
      FullRejects(l1, before, stop, rest);
    }
  }

  lemma DistinctOrdered(cargo: seq<Container>, ordered: seq<Container>)
    requires multiset(ordered) == multiset(cargo) && DistinctIds(cargo)
    ensures DistinctIds(ordered) && AllThere(cargo, ordered)
  {
    PermutedDistinct(ordered, cargo);
    forall k | 0 <= k < |ordered|
      ensures WithId(cargo, ordered[k].id) == [ordered[k]]
    {
      assert ordered[k] in multiset(ordered);
      OnlyOneOfId(cargo, ordered[k]);
    }
  }

  lemma {:induction false} OnlyOneOfId(cargo: seq<Container>, x: Container)
    requires DistinctIds(cargo) && x in cargo
    ensures WithId(cargo, x.id) == [x]
  {
    var rest := cargo[1..];
    forall k | 0 <= k < |rest|
      ensures rest[k].id != cargo[0].id
    {
      assert cargo[k + 1] == rest[k];
    }
    if cargo[0] == x {
      WithIdNone(rest, x.id);
    } else {
      assert x in rest;
      OnlyOneOfId(rest, x);
    }
  }

  /** The containers that algorithm A puts far first: as many as there is room for. */
  function FarBlock(ordered: seq<Container>, room: nat): seq<Container> {
    if room < |ordered| then ordered[..room] else ordered
  }

  lemma BlockIsFarFirst(stop: Stop, room: nat, cargo: seq<Container>, ordered: seq<Container>)
    requires LoadOrder(A, room, stop.route, stop.idx, cargo, ordered)
    ensures InFarOrder(stop, FarBlock(ordered, room))
  {
    OrderExactly(A, room, stop.route, stop.idx, cargo, ordered);
    var n := if room < |ordered| then room else |ordered|;
    assert FarFirst(stop.route, stop.idx, ordered, 0, n);
    assert FarBlock(ordered, room) == ordered[..n];
  }

  lemma BlockStacks(s: Stowage, u: Scan, stop: Stop, cargo: seq<Container>, ordered: seq<Container>, room: nat)
    requires Sound(s) && UniqueIds(OnBoard(s)) && DistinctIds(cargo) && multiset(ordered) == multiset(cargo)
    requires u == UnloadFrom(s, [], stop.code, 0, 0) && room == Capacity(u.ship)
    requires InFarOrder(stop, FarBlock(ordered, room))
    requires room < |ordered| ==> forall x :: x in ordered[..room] ==> Eligible(x, s, stop)
    ensures ShipStacked(stop, u.ship, LoadAll(Loading(Work(u.ship, cargo, u.list), [], {}), s, stop, ordered).work.ship)
  {
    var first := FarBlock(ordered, room);
    var rest := ordered[|first|..];
    assert first + rest == ordered;
    UnloadScanClears(s, [], stop.code);
    LoadStarts(u.ship, s, u.list, cargo, ordered);
    DistinctOrdered(cargo, ordered);
    FirstStack(Loading(Work(u.ship, cargo, u.list), [], {}), u.ship, s, stop, first, rest);
  }

  /** Algorithm A, with distinct ids at the port, when all that waits fits or all of the first block
      can be loaded: every tower is as the unload scan left it, with containers on top of which none
      leaves later than one under it. So none of them is dug out for another of them. */
  lemma FarFirstStacks(s: Stowage, stop: Stop, cargo: seq<Container>, ordered: seq<Container>)
    requires Sound(s) && UniqueIds(OnBoard(s)) && DistinctIds(cargo)
    requires LoadOrder(A, RoomAfter(s, stop.code), stop.route, stop.idx, cargo, ordered)
    requires RoomAfter(s, stop.code) < |cargo| ==>
               forall k :: 0 <= k < RoomAfter(s, stop.code) && k < |ordered| ==> Eligible(ordered[k], s, stop)
    ensures ShipStacked(stop, UnloadFrom(s, [], stop.code, 0, 0).ship, PlanPort(s, stop, cargo, ordered).ship)
  {
    var u, room := UnloadFrom(s, [], stop.code, 0, 0), RoomAfter(s, stop.code);
    UnloadScanClears(s, [], stop.code);
    RoomIsCapacity(s, stop.code);
    CapacitySign(u.ship, -1, -1);
    SameMembers(ordered, cargo);
    BlockIsFarFirst(stop, room, cargo, ordered);
    if !(LastPort(stop) && cargo != []) {
      BlockStacks(s, u, stop, cargo, ordered, room);
    }
  }
}
