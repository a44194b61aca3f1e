/** The unload scan unloads no id twice: what was put back stands on a tower that the scan does
    not dig out again. */
module UnloadOnce {
  import opened Cargo
  import opened ShipSpec
  import opened PlannerSpec
  import opened PlannerFacts
  import opened UnloadChain
  import opened IdsOnBoard
  import opened Rotation

  lemma {:induction false} UnloadsAppend(a: seq<Instruction>, b: seq<Instruction>, id: string)
    ensures Unloads(a + b, id) == Unloads(a, id) + Unloads(b, id)
    decreases |b|
  {
    if b == [] {
      assert a + b == a;
    } else {
      var front := b[..|b| - 1];
      assert (a + b)[..|a + b| - 1] == a + front;
      UnloadsAppend(a, front, id);
    }
  }

  lemma {:induction false} NoUnloads(list: seq<Instruction>, id: string)
    requires forall i :: i in list ==> !(i.Unload? && i.id == id)
    ensures Unloads(list, id) == 0
    decreases |list|
  {
    if list != [] {
      var front := list[..|list| - 1];
      assert list == front + [list[|list| - 1]];
      NoUnloads(front, id);
    }
  }

  // ----- one tower -----

  lemma DigStepCounts(w: Work, row: int, col: int, floor: int, code: string, cap: int, top: int, h: int, id: string)
    requires DigReady(w, row, col, floor, cap, top, h) && floor <= h
    ensures Tower(w.ship, row, col) != []
    ensures var i := DigInstruction(w.ship, row, col, Last(Tower(w.ship, row, col)), code, cap, top, h);
            |WithId(Emit(w, i).port, id)| == |WithId(w.port, id)| + Unloads([i], id)
  {
    DigStep(w, row, col, floor, code, cap, top, h);
    var x := Last(Tower(w.ship, row, col));
    WithIdPush(w.port, x, id);
    var i := DigInstruction(w.ship, row, col, x, code, cap, top, h);
    assert [i][..0] == [];
  }

  /** Digging out puts a container of the id to the port for each unload of it. */
  lemma {:induction false} DigOutCounts(w: Work, row: int, col: int, floor: int, code: string, cap: int, top: int,
                                        h: int, id: string)
      returns (w': Work)
    requires DigReady(w, row, col, floor, cap, top, h)
    ensures w' == DigOut(w, row, col, floor, code, cap, top, h)
    ensures |WithId(w'.port, id)| + Unloads(w.list, id) == |WithId(w.port, id)| + Unloads(w'.list, id)
    decreases h - floor + 1
  {
    if floor <= h {
      DigStep(w, row, col, floor, code, cap, top, h);
      DigStepCounts(w, row, col, floor, code, cap, top, h, id);
      DigOutNext(w, row, col, floor, code, cap, top, h);
      var i := DigInstruction(w.ship, row, col, Last(Tower(w.ship, row, col)), code, cap, top, h);
      UnloadsAppend(w.list, [i], id);
      w' := DigOutCounts(Emit(w, i), row, col, floor, code, cap, top, h - 1, id);
    } else {
      w' := w;
    }
  }

  lemma RemoveAllCounts(w0: Work, row: int, col: int, floor: int, code: string, id: string) returns (dug: Work)
    requires Sound(w0.ship) && w0.port == [] && InGrid(w0.ship.plan, row, col)
    requires w0.ship.plan.floorStart[row][col] <= floor < Height(w0.ship, row, col)
    ensures dug == RemoveAllAbove(w0, row, col, floor, code)
    ensures Unloads(dug.list, id) == Unloads(w0.list, id) + |WithId(dug.port, id)|
  {
    var top := Height(w0.ship, row, col) - 1;
    dug := DigOutCounts(w0, row, col, floor, code, CapacityExcluding(w0.ship, row, col), top, top, id);
  }

  /** Putting back unloads nothing. */
  lemma ReturnCounts(dug: Work, w: Work, row: int, col: int, code: string, id: string)
    requires Shaped(dug.ship) && InGrid(dug.ship.plan, row, col) && w == ReturnAll(dug, row, col, code, dug.port)
    ensures Unloads(w.list, id) == Unloads(dug.list, id)
  {
    ReturnAllTold(dug, row, col, code, dug.port);
    assert w.list == dug.list + New(dug, w);
    UnloadsAppend(dug.list, New(dug, w), id);
    NoUnloads(New(dug, w), id);
  }

  /** With unique ids a container stands in one tower only. */
  lemma PlacedOnce(s: Stowage, y: Container, i: int, j: int, a: int, b: int)
    requires Shaped(s) && UniqueIds(OnBoard(s)) && InGrid(s.plan, i, j) && InGrid(s.plan, a, b)
    requires y in Tower(s, i, j) && y in Tower(s, a, b)
    ensures i == a && j == b
  {
    if !(i == a && j == b) {
      PlacedTwice(s, y, i, j, a, b);
    }
  }

  lemma PlacedTwice(s: Stowage, y: Container, i: int, j: int, a: int, b: int)
    requires Shaped(s) && InGrid(s.plan, i, j) && InGrid(s.plan, a, b) && !(i == a && j == b)
    requires y in Tower(s, i, j) && y in Tower(s, a, b)
    ensures OnBoard(s)[y] >= 2
  {
    var none: seq<Container> := [];
    var s' := SetTower(s, i, j, none);
    OnBoardSet(s, i, j, none);
    OnBoardMember(s', y);
    assert (OnBoard(s') + multiset(Tower(s, i, j)))[y] == (OnBoard(s) + multiset(none))[y];
  }

  /** What was dug out of a tower stood on that tower. */
  lemma DugFromTower(w0: Work, dug: Work, row: int, col: int, code: string, n: nat, x: Container)
    requires Sound(w0.ship) && UniqueIds(OnBoard(w0.ship)) && w0.port == [] && Dug(w0, dug, row, col, code, n) &&
             x in dug.port
    ensures Shaped(dug.ship) && x in Tower(w0.ship, row, col) && x !in OnBoard(dug.ship)
  {
    ExtendsKeeps(w0, dug);
    assert OnBoard(dug.ship) + multiset(dug.port) == OnBoard(w0.ship);
    assert x in multiset(dug.port);
    OnBoardMember(w0.ship, x);
    var i, j :| InGrid(w0.ship.plan, i, j) && x in Tower(w0.ship, i, j);
    if !(i == row && j == col) {
      assert Grew(Tower(w0.ship, i, j), Tower(dug.ship, i, j), code);
      OnBoardMember(dug.ship, x);
    }
  }

  // ----- the scan -----

  /** No container at (r, c) or after it was unloaded yet. */
  ghost predicate Untouched(s: Stowage, list: seq<Instruction>, r: int, c: int)
    requires Shaped(s)
  {
    forall i, j, x :: InGrid(s.plan, i, j) && AtOrAfter(i, j, r, c) && x in Tower(s, i, j) ==> Unloads(list, x.id) == 0
  }

  ghost predicate OnceEach(list: seq<Instruction>) {
    forall id :: Unloads(list, id) <= 1
  }

  lemma WithIdAtMostOne(port: seq<Container>, m: multiset<Container>, id: string)
    requires UniqueIds(m) && multiset(port) <= m
    ensures |WithId(port, id)| <= 1
  {
    UniqueIdsPart(multiset(port), m);
    forall x | x in WithId(port, id)
      ensures multiset(WithId(port, id))[x] == multiset(port)[x]
    {
      WithIdCount(port, x);
    }
    AtMostOne(WithId(port, id), multiset(port));
  }

  /** A tower that was dug out and put back: each id is still unloaded at most once. */
  lemma TowerOnce(w0: Work, dug: Work, list: seq<Instruction>, row: int, col: int, code: string, n: nat, id: string)
    requires Sound(w0.ship) && UniqueIds(OnBoard(w0.ship)) && w0.port == [] && InGrid(w0.ship.plan, row, col)
    requires Dug(w0, dug, row, col, code, n) && multiset(dug.port) <= OnBoard(w0.ship)
    requires Untouched(w0.ship, w0.list, row, col) && OnceEach(w0.list)
    requires Unloads(list, id) == Unloads(w0.list, id) + |WithId(dug.port, id)|
    ensures Unloads(list, id) <= 1
  {
    WithIdAtMostOne(dug.port, OnBoard(w0.ship), id);
    assert Unloads(w0.list, id) <= 1;
    if WithId(dug.port, id) != [] {
      var x := WithId(dug.port, id)[0];
      assert x in WithId(dug.port, id);
      DugFromTower(w0, dug, row, col, code, n, x);
      assert AtOrAfter(row, col, row, col);
    }
  }

  /** A container of a later tower was neither unloaded before nor with this tower. */
  lemma LaterUntouched(w0: Work, dug: Work, list: seq<Instruction>, row: int, col: int, code: string, n: nat, i: int,
                       j: int, y: Container)
    requires Sound(w0.ship) && UniqueIds(OnBoard(w0.ship)) && w0.port == [] && InGrid(w0.ship.plan, row, col)
    requires Dug(w0, dug, row, col, code, n) && Untouched(w0.ship, w0.list, row, col)
    requires Unloads(list, y.id) == Unloads(w0.list, y.id) + |WithId(dug.port, y.id)|
    requires Shaped(dug.ship) && InGrid(w0.ship.plan, i, j) && AtOrAfter(i, j, row, col + 1) &&
             y in Tower(dug.ship, i, j)
    ensures Unloads(list, y.id) == 0
  {
    ExtendsKeeps(w0, dug);
    assert OnBoard(dug.ship) + multiset(dug.port) == OnBoard(w0.ship);
    OnBoardMember(dug.ship, y);
    assert y in OnBoard(w0.ship);
    NotAmongRemoved(w0, dug, row, col, code, n, y);
    UniqueIdsPart(OnBoard(dug.ship), OnBoard(w0.ship));
    CameFromHereOrLater(w0, dug, row, col, code, n, i, j, y);
  }

  lemma NotAmongRemoved(w0: Work, dug: Work, row: int, col: int, code: string, n: nat, y: Container)
    requires Sound(w0.ship) && UniqueIds(OnBoard(w0.ship)) && w0.port == []
    requires Dug(w0, dug, row, col, code, n) && Shaped(dug.ship) && y in OnBoard(dug.ship)
    ensures WithId(dug.port, y.id) == []
  {
    ExtendsKeeps(w0, dug);
    assert OnBoard(dug.ship) + multiset(dug.port) == OnBoard(w0.ship);
    forall x | x in dug.port
      ensures x.id != y.id
    {
      DugFromTower(w0, dug, row, col, code, n, x);
      assert x in multiset(dug.port);
      assert x in OnBoard(w0.ship) && y in OnBoard(w0.ship);
    }
    WithIdNone(dug.port, y.id);
  }

  lemma CameFromHereOrLater(w0: Work, dug: Work, row: int, col: int, code: string, n: nat, i: int, j: int, y: Container)
    requires Sound(w0.ship) && UniqueIds(OnBoard(w0.ship)) && InGrid(w0.ship.plan, row, col)
    requires Dug(w0, dug, row, col, code, n) && Untouched(w0.ship, w0.list, row, col)
    requires Shaped(dug.ship) && UniqueIds(OnBoard(dug.ship)) && y in OnBoard(w0.ship)
    requires InGrid(w0.ship.plan, i, j) && AtOrAfter(i, j, row, col + 1) && y in Tower(dug.ship, i, j)
    ensures Unloads(w0.list, y.id) == 0
  {
    OnBoardMember(w0.ship, y);
    var a, b :| InGrid(w0.ship.plan, a, b) && y in Tower(w0.ship, a, b);
    if !AtOrAfter(a, b, row, col) {
      assert Grew(Tower(w0.ship, a, b), Tower(dug.ship, a, b), code);
      PlacedOnce(dug.ship, y, i, j, a, b);
    }
  }

  /** What one tower of the scan keeps. */
  ghost predicate Kept(w: Work, row: int, col: int) {
    Shaped(w.ship) && Untouched(w.ship, w.list, row, col + 1) && OnceEach(w.list)
  }

  lemma DueTowerKeeps(w0: Work, dug: Work, w: Work, row: int, col: int, floor: int, code: string)
    requires Sound(w0.ship) && UniqueIds(OnBoard(w0.ship)) && w0.port == [] && InGrid(w0.ship.plan, row, col)
    requires w0.ship.plan.floorStart[row][col] <= floor < Height(w0.ship, row, col)
    requires dug == RemoveAllAbove(w0, row, col, floor, code)
    requires w == ReturnAll(dug, row, col, code, dug.port)
    requires Untouched(w0.ship, w0.list, row, col) && OnceEach(w0.list)
    ensures Kept(w, row, col)
  {
    var n := Height(w0.ship, row, col) - floor;
    DigOutTower(w0, dug, row, col, floor, code);
    ReturnAllFacts(dug, row, col, code, dug.port);
    forall id
      ensures Unloads(w.list, id) == Unloads(w0.list, id) + |WithId(dug.port, id)|
    {
      var same := RemoveAllCounts(w0, row, col, floor, code, id);
      ReturnCounts(dug, w, row, col, code, id);
    }
    DugAndReturnedKeeps(w0, dug, w, row, col, code, n);
  }

  lemma DugAndReturnedKeeps(w0: Work, dug: Work, w: Work, row: int, col: int, code: string, n: nat)
    requires Sound(w0.ship) && UniqueIds(OnBoard(w0.ship)) && w0.port == [] && InGrid(w0.ship.plan, row, col)
    requires Dug(w0, dug, row, col, code, n) && multiset(dug.port) <= OnBoard(w0.ship)
    requires Returned(dug, w, row, col, code, dug.port)
    requires Untouched(w0.ship, w0.list, row, col) && OnceEach(w0.list)
    requires forall id :: Unloads(w.list, id) == Unloads(w0.list, id) + |WithId(dug.port, id)|
    ensures Kept(w, row, col)
  {
    forall id
      ensures Unloads(w.list, id) <= 1
    {
      TowerOnce(w0, dug, w.list, row, col, code, n, id);
    }
    forall i, j, y | InGrid(w.ship.plan, i, j) && AtOrAfter(i, j, row, col + 1) && y in Tower(w.ship, i, j)
      ensures Unloads(w.list, y.id) == 0
    {
      assert Tower(w.ship, i, j) == Tower(dug.ship, i, j);
      LaterUntouched(w0, dug, w.list, row, col, code, n, i, j, y);
    }
  }

  lemma NothingDueKeeps(s: Stowage, list: seq<Instruction>, row: int, col: int, code: string)
    requires Shaped(s) && InGrid(s.plan, row, col) && FirstDue(Tower(s, row, col), code) == |Tower(s, row, col)|
    requires Untouched(s, list, row, col) && OnceEach(list)
    ensures UnloadTower(s, list, row, col, code) == Work(s, [], list)
    ensures Kept(Work(s, [], list), row, col)
  {
    assert forall i, j :: AtOrAfter(i, j, row, col + 1) ==> AtOrAfter(i, j, row, col);
  }

  lemma SomethingDueKeeps(s: Stowage, list: seq<Instruction>, row: int, col: int, code: string, k: nat)
      returns (w: Work)
    requires Sound(s) && UniqueIds(OnBoard(s)) && InGrid(s.plan, row, col)
    requires k == FirstDue(Tower(s, row, col), code) < |Tower(s, row, col)|
    requires Untouched(s, list, row, col) && OnceEach(list)
    ensures w == UnloadTower(s, list, row, col, code) && Kept(w, row, col)
  {
    var w0 := Work(s, [], list);
    var floor := s.plan.floorStart[row][col] + k;
    var dug := RemoveAllAbove(w0, row, col, floor, code);
    w := ReturnAll(dug, row, col, code, dug.port);
    DueTowerKeeps(w0, dug, w, row, col, floor, code);
  }

  lemma TowerKeeps(s: Stowage, list: seq<Instruction>, row: int, col: int, code: string) returns (w: Work)
    requires Sound(s) && UniqueIds(OnBoard(s)) && InGrid(s.plan, row, col)
    requires Untouched(s, list, row, col) && OnceEach(list)
    ensures w == UnloadTower(s, list, row, col, code) && Kept(w, row, col)
  {
    var k := FirstDue(Tower(s, row, col), code);
    if k < |Tower(s, row, col)| {
      w := SomethingDueKeeps(s, list, row, col, code, k);
    } else {
      NothingDueKeeps(s, list, row, col, code);
      w := Work(s, [], list);
    }
  }

  /** A finished tower, with all that the next step of the scan needs. */
  lemma FinishedTowerKeeps(s: Stowage, list: seq<Instruction>, row: int, col: int, code: string) returns (w: Work)
    requires Sound(s) && UniqueIds(OnBoard(s)) && InGrid(s.plan, row, col)
    requires Untouched(s, list, row, col) && OnceEach(list)
    ensures w == UnloadTower(s, list, row, col, code) && Kept(w, row, col)
    ensures Sound(w.ship) && UniqueIds(OnBoard(w.ship)) && w.ship.plan == s.plan
  {
    w := FinishedTower(s, list, row, col, code);
    var same := TowerKeeps(s, list, row, col, code);
  }

  lemma {:induction false} ScanOnceEach(s: Stowage, list: seq<Instruction>, code: string, r: int, c: int)
    requires Sound(s) && UniqueIds(OnBoard(s)) && 0 <= r <= s.plan.length && 0 <= c <= s.plan.width
    requires Untouched(s, list, r, c) && OnceEach(list)
    ensures OnceEach(UnloadFrom(s, list, code, r, c).list)
    decreases s.plan.length - r, s.plan.width - c, 1
  {
    if r < s.plan.length {
      if c == s.plan.width {
        NextRowUntouched(s, list, r, c);
        ScanOnceEach(s, list, code, r + 1, 0);
      } else {
        FromTowerOnceEach(s, list, code, r, c);
      }
    }
  }

  lemma NextRowUntouched(s: Stowage, list: seq<Instruction>, r: int, c: int)
    requires Shaped(s) && c == s.plan.width && Untouched(s, list, r, c)
    ensures Untouched(s, list, r + 1, 0)
  {
    assert forall i, j :: InGrid(s.plan, i, j) && AtOrAfter(i, j, r + 1, 0) ==> AtOrAfter(i, j, r, c);
  }

  lemma {:induction false} FromTowerOnceEach(s: Stowage, list: seq<Instruction>, code: string, r: int, c: int)
    requires Sound(s) && UniqueIds(OnBoard(s)) && InGrid(s.plan, r, c)
    requires Untouched(s, list, r, c) && OnceEach(list)
    ensures OnceEach(UnloadFrom(s, list, code, r, c).list)
    decreases s.plan.length - r, s.plan.width - c, 0
  {
    var w := FinishedTowerKeeps(s, list, r, c, code);
    UnloadFromNext(s, list, code, r, c);
    ScanOnceEach(w.ship, w.list, code, r, c + 1);
  }

  /** At one port no id is unloaded twice. */
  lemma ScanUnloadsOnce(s: Stowage, code: string, id: string)
    requires Sound(s) && UniqueIds(OnBoard(s))
    ensures Unloads(UnloadFrom(s, [], code, 0, 0).list, id) <= 1
  {
    ScanOnceEach(s, [], code, 0, 0);
  }
}
