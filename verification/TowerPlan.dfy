/** The unload scan instruction by instruction, without the functions by which the planner decides:
    what is taken off each tower, which of it is moved and where, and what is put back. */
module TowerPlan {
  import opened Cargo
  import opened ShipSpec
  import opened Replay
  import opened PlannerSpec
  import opened PlannerFacts

  // ----- taking off -----

  /** Instruction n takes container n from the top off tower t, which is the tower at (row, col) of
      ship s0. It is a move to the best tower when the container is not due and fewer than `room`
      were taken off before, else an unload. */
  ghost predicate DugSo(s0: Stowage, row: int, col: int, code: string, room: int, digs: seq<Instruction>, n: nat)
    requires Shaped(s0) && InGrid(s0.plan, row, col) && n < |digs| <= |s0.towers[row][col]|
  {
    var s := Run(s0, [], digs[..n]).ship;
    var depth := |s0.towers[row][col]| - 1 - n;
    var x, i := s0.towers[row][col][depth], digs[n];
    && i.id == x.id && i.row == row && i.col == col && i.floor == s0.plan.floorStart[row][col] + depth
    && if x.dest != code && n < room then
         && i.Move? && IsBest(s, row, col, x.dest, i.destRow, i.destCol)
         && i.destFloor == s.plan.floorStart[i.destRow][i.destCol] + |s.towers[i.destRow][i.destCol]|
       else i.Unload?
  }

  /** The containers that were taken off tower t to the port, in the order in which they left it. */
  function Removed(t: seq<Container>, digs: seq<Instruction>): seq<Container>
    requires |digs| <= |t|
  {
    if digs == [] then []
    else
      Removed(t, digs[..|digs| - 1]) + (if digs[|digs| - 1].Unload? then [t[|t| - |digs|]] else [])
  }

  /** Where the dig-out loop stands after some instructions. */
  ghost predicate Digging(s0: Stowage, row: int, col: int, code: string, room: int, digs: seq<Instruction>, w: Work) {
    && Shaped(s0) && Shaped(w.ship) && InGrid(s0.plan, row, col) && |digs| <= |s0.towers[row][col]|
    && Run(s0, [], digs) == Outcome(w.ship, w.port)
    && w.port == Removed(s0.towers[row][col], digs)
    && w.ship.towers[row][col] == s0.towers[row][col][..|s0.towers[row][col]| - |digs|]
    && forall n :: 0 <= n < |digs| ==> DugSo(s0, row, col, code, room, digs, n)
  }

  lemma DugBefore(s0: Stowage, row: int, col: int, code: string, room: int, digs: seq<Instruction>, i: Instruction,
                  n: nat)
    requires Shaped(s0) && InGrid(s0.plan, row, col) && n < |digs| < |s0.towers[row][col]|
    ensures DugSo(s0, row, col, code, room, digs + [i], n) <==> DugSo(s0, row, col, code, room, digs, n)
  {
    assert (digs + [i])[..n] == digs[..n];
  }

  /** What the loop decides about the top container. */
  lemma DigDecided(w: Work, row: int, col: int, floor: int, code: string, cap: int, top: int, h: int)
      returns (i: Instruction)
    requires DigReady(w, row, col, floor, cap, top, h) && floor <= h
    ensures Tower(w.ship, row, col) != []
    ensures i == DigInstruction(w.ship, row, col, Last(Tower(w.ship, row, col)), code, cap, top, h)
    ensures var x := Last(w.ship.towers[row][col]);
            && i.id == x.id && i.row == row && i.col == col && i.floor == h
            && if x.dest != code && top - h < cap then
                 && i.Move? && IsBest(w.ship, row, col, x.dest, i.destRow, i.destCol)
                 && i.destFloor == w.ship.plan.floorStart[i.destRow][i.destCol] +
                                   |w.ship.towers[i.destRow][i.destCol]|
               else i.Unload?
  {
    var x := Last(Tower(w.ship, row, col));
    i := DigInstruction(w.ship, row, col, x, code, cap, top, h);
    if x.dest != code && top - h < cap {
      MoveTargetExists(w.ship, row, col, x.dest);
      BestTowerExactly(w.ship, row, col, x.dest);
    }
  }

  /** What the instruction does to the tower and to the port. */
  lemma TakesTop(w: Work, row: int, col: int, i: Instruction)
    requires Shaped(w.ship) && InGrid(w.ship.plan, row, col) && Accepted(w.ship, w.port, i)
    requires i.row == row && i.col == col && (i.Unload? || (i.Move? && !(i.destRow == row && i.destCol == col)))
    ensures var t, w' := w.ship.towers[row][col], Emit(w, i);
            && t != [] && w'.ship.towers[row][col] == t[..|t| - 1]
            && w'.port == w.port + if i.Unload? then [t[|t| - 1]] else []
  {
    assert Tower(Emit(w, i).ship, row, col) == DropLast(Tower(w.ship, row, col));
  }

  lemma RemovedOneMore(t: seq<Container>, digs: seq<Instruction>, i: Instruction, all: seq<Instruction>)
    requires |digs| < |t| && all == digs + [i]
    ensures Removed(t, all) == Removed(t, digs) + if i.Unload? then [t[|t| - 1 - |digs|]] else []
  {
    FrontOf(digs, i, all);
    RemovedLast(t, all, digs);
  }

  lemma FrontOf(digs: seq<Instruction>, i: Instruction, all: seq<Instruction>)
    requires all == digs + [i]
    ensures |all| == |digs| + 1 && all[..|all| - 1] == digs && all[|all| - 1] == i
  {
  }

  lemma RemovedLast(t: seq<Container>, all: seq<Instruction>, front: seq<Instruction>)
    requires all != [] && |all| <= |t| && front == all[..|all| - 1]
    ensures Removed(t, all) == Removed(t, front) + if all[|all| - 1].Unload? then [t[|t| - |all|]] else []
  {
  }

  lemma DigsOneMore(s0: Stowage, row: int, col: int, floor: int, code: string, cap: int, top: int, h: int,
                    digs: seq<Instruction>, w: Work)
      returns (i: Instruction)
    requires Digging(s0, row, col, code, cap, digs, w) && DigReady(w, row, col, floor, cap, top, h) && floor <= h
    requires top == s0.plan.floorStart[row][col] + |s0.towers[row][col]| - 1 && h == top - |digs|
    ensures Tower(w.ship, row, col) != []
    ensures i == DigInstruction(w.ship, row, col, Last(Tower(w.ship, row, col)), code, cap, top, h)
    ensures Digging(s0, row, col, code, cap, digs + [i], Emit(w, i))
  {
    var t := s0.towers[row][col];
    i := DigDecided(w, row, col, floor, code, cap, top, h);
    DigStep(w, row, col, floor, code, cap, top, h);
    TakesTop(w, row, col, i);
    RunOneFurther(s0, [], digs, i);
    var more := digs + [i];
    RemovedOneMore(t, digs, i, more);
    assert t[..|t| - |digs|][..|t| - |more|] == t[..|t| - |more|];
    forall n | 0 <= n < |more|
      ensures DugSo(s0, row, col, code, cap, more, n)
    {
      if n < |digs| {
        DugBefore(s0, row, col, code, cap, digs, i, n);
      } else {
        assert more[..n] == digs;
      }
    }
  }

  lemma {:induction false} DigsToFloor(s0: Stowage, row: int, col: int, floor: int, code: string, cap: int, top: int,
                                       h: int, digs: seq<Instruction>, w: Work)
      returns (all: seq<Instruction>, w': Work)
    requires Digging(s0, row, col, code, cap, digs, w) && DigReady(w, row, col, floor, cap, top, h)
    requires top == s0.plan.floorStart[row][col] + |s0.towers[row][col]| - 1 && h == top - |digs|
    ensures w' == DigOut(w, row, col, floor, code, cap, top, h)
    ensures Digging(s0, row, col, code, cap, all, w') && |all| == top - floor + 1
    ensures digs <= all && w'.list == w.list + all[|digs|..]
    decreases h - floor + 1
  {
    if floor <= h {
      var i := DigsOneMore(s0, row, col, floor, code, cap, top, h, digs, w);
      DigStep(w, row, col, floor, code, cap, top, h);
      DigOutNext(w, row, col, floor, code, cap, top, h);
      all, w' := DigsToFloor(s0, row, col, floor, code, cap, top, h - 1, digs + [i], Emit(w, i));
      AddedSince(digs, i, all, w.list, w'.list);
    } else {
      all, w' := digs, w;
      assert all[|digs|..] == [];
    }
  }

  // ----- putting back -----

  /** The loads stack the containers one by one on a tower of height h. */
  ghost predicate PutBackSo(loads: seq<Instruction>, row: int, col: int, h: int, back: seq<Container>) {
    && |loads| == |back|
    && forall j :: 0 <= j < |back| ==> loads[j] == Load(row, col, h + j, back[j].id)
  }

  lemma PutBackOneMore(loads: seq<Instruction>, row: int, col: int, h: int, x: Container, back: seq<Container>)
    requires PutBackSo(loads, row, col, h + 1, back)
    ensures PutBackSo([Load(row, col, h, x.id)] + loads, row, col, h, [x] + back)
  {
    var all, xs := [Load(row, col, h, x.id)] + loads, [x] + back;
    forall j | 0 <= j < |xs|
      ensures all[j] == Load(row, col, h + j, xs[j].id)
    {
      if j > 0 {
        assert all[j] == loads[j - 1] && xs[j] == back[j - 1];
      }
    }
  }

  /** Putting back went well: the loads stack what was to go back, and nothing else happened. */
  ghost predicate PutBack(w: Work, row: int, col: int, back: seq<Container>, loads: seq<Instruction>, w': Work) {
    && Shaped(w.ship) && InGrid(w.ship.plan, row, col) && Shaped(w'.ship) && w'.ship.plan == w.ship.plan
    && w'.list == w.list + loads && PutBackSo(loads, row, col, Height(w.ship, row, col), back)
    && Tower(w'.ship, row, col) == Tower(w.ship, row, col) + back
  }

  lemma {:induction false} ReturnsExactly(w: Work, row: int, col: int, code: string, rest: seq<Container>)
      returns (loads: seq<Instruction>, w': Work)
    requires ReturnReady(w, row, col, rest)
    ensures w' == ReturnAll(w, row, col, code, rest)
    ensures PutBack(w, row, col, Staying(rest, code), loads, w')
    decreases |rest|
  {
    if rest == [] {
      loads, w' := [], w;
      PutBackNothing(w, row, col, code);
    } else if rest[0].dest == code {
      ReturnStep(w, row, col, rest);
      StayingNext(rest, code);
      loads, w' := ReturnsExactly(w, row, col, code, rest[1..]);
    } else {
      var i, w1 := PutOne(w, row, col, code, rest);
      loads, w' := ReturnsExactly(w1, row, col, code, rest[1..]);
      PutBackNext(w, row, col, rest[0], w1, Staying(rest[1..], code), loads, w');
      loads := [i] + loads;
    }
  }

  lemma PutBackNothing(w: Work, row: int, col: int, code: string)
    requires Shaped(w.ship) && InGrid(w.ship.plan, row, col)
    ensures PutBack(w, row, col, Staying([], code), [], w)
  {
    assert w.list + [] == w.list && Tower(w.ship, row, col) + [] == Tower(w.ship, row, col);
  }

  lemma StayingNext(rest: seq<Container>, code: string)
    requires rest != []
    ensures Staying(rest, code) ==
            if rest[0].dest == code then Staying(rest[1..], code) else [rest[0]] + Staying(rest[1..], code)
  {
    assert [] + Staying(rest[1..], code) == Staying(rest[1..], code);
  }

  lemma PutOne(w: Work, row: int, col: int, code: string, rest: seq<Container>) returns (i: Instruction, w1: Work)
    requires ReturnReady(w, row, col, rest) && rest != [] && rest[0].dest != code
    ensures Shaped(w.ship) && InGrid(w.ship.plan, row, col)
    ensures i == Load(row, col, Height(w.ship, row, col), rest[0].id) && ReturnReady(w1, row, col, rest[1..])
    ensures w1.ship == SetTower(w.ship, row, col, Tower(w.ship, row, col) + [rest[0]]) && w1.list == w.list + [i]
    ensures ReturnAll(w, row, col, code, rest) == ReturnAll(w1, row, col, code, rest[1..])
    ensures Staying(rest, code) == [rest[0]] + Staying(rest[1..], code)
  {
    i := Load(row, col, Height(w.ship, row, col), rest[0].id);
    w1 := Emit(w, i);
    ReturnStep(w, row, col, rest);
    ReturnEmit(w, row, col, rest);
  }

  lemma PutBackNext(w: Work, row: int, col: int, x: Container, w1: Work, back: seq<Container>,
                    loads: seq<Instruction>, w': Work)
    requires Shaped(w.ship) && InGrid(w.ship.plan, row, col)
    requires w1.ship == SetTower(w.ship, row, col, Tower(w.ship, row, col) + [x])
    requires w1.list == w.list + [Load(row, col, Height(w.ship, row, col), x.id)]
    requires PutBack(w1, row, col, back, loads, w')
    ensures PutBack(w, row, col, [x] + back, [Load(row, col, Height(w.ship, row, col), x.id)] + loads, w')
  {
    PutBackOneMore(loads, row, col, Height(w.ship, row, col), x, back);
  }

  // ----- one tower -----

  /** What is written for one tower of ship s: all from the lowest due container up is taken off,
      and of what came to the port that which is not due is put back in the order in which it came.
      k is the place of the lowest due container, or the number of containers if none is due. */
  ghost predicate ClearedSo(s: Stowage, row: int, col: int, code: string, k: nat, digs: seq<Instruction>,
                            loads: seq<Instruction>)
    requires Shaped(s) && InGrid(s.plan, row, col)
  {
    var t := s.towers[row][col];
    && k <= |t| && (forall j :: 0 <= j < k ==> t[j].dest != code) && (k < |t| ==> t[k].dest == code)
    && |digs| == |t| - k
    && (forall n :: 0 <= n < |digs| ==> DugSo(s, row, col, code, CapacityExcluding(s, row, col), digs, n))
    && PutBackSo(loads, row, col, s.plan.floorStart[row][col] + k, Staying(Removed(t, digs), code))
  }

  lemma DugDown(s: Stowage, list: seq<Instruction>, row: int, col: int, code: string, floor: int)
      returns (digs: seq<Instruction>, dug: Work)
    requires Sound(s) && InGrid(s.plan, row, col) && s.plan.floorStart[row][col] <= floor < Height(s, row, col)
    ensures dug == RemoveAllAbove(Work(s, [], list), row, col, floor, code) && dug.list == list + digs
    ensures Digging(s, row, col, code, CapacityExcluding(s, row, col), digs, dug)
    ensures |digs| == Height(s, row, col) - floor
  {
    var w0 := Work(s, [], list);
    var top, cap := Height(s, row, col) - 1, CapacityExcluding(s, row, col);
    RemoveAllStarts(w0, row, col, floor, code, top, cap);
    assert s.towers[row][col][..|s.towers[row][col]|] == s.towers[row][col];
    digs, dug := DigsToFloor(s, row, col, floor, code, cap, top, top, [], w0);
    assert digs[0..] == digs;
  }

  /** All from height floor up was taken off and written down. */
  ghost predicate DugTo(s: Stowage, list: seq<Instruction>, row: int, col: int, floor: int, code: string, dug: Work)
    requires Shaped(s) && InGrid(s.plan, row, col)
  {
    && list <= dug.list && |dug.list| - |list| == Height(s, row, col) - floor
    && Digging(s, row, col, code, CapacityExcluding(s, row, col), dug.list[|list|..], dug)
  }

  lemma RemovesExactly(s: Stowage, list: seq<Instruction>, row: int, col: int, floor: int, code: string, dug: Work)
    requires Sound(s) && InGrid(s.plan, row, col) && s.plan.floorStart[row][col] <= floor < Height(s, row, col)
    requires dug == RemoveAllAbove(Work(s, [], list), row, col, floor, code)
    ensures DugTo(s, list, row, col, floor, code, dug)
  {
    var digs, same := DugDown(s, list, row, col, code, floor);
    assert (list + digs)[|list|..] == digs;
  }

  lemma DueTowerExactly(s: Stowage, list: seq<Instruction>, row: int, col: int, code: string, k: nat)
      returns (digs: seq<Instruction>, loads: seq<Instruction>, w: Work)
    requires Sound(s) && UniqueIds(OnBoard(s)) && InGrid(s.plan, row, col)
    requires k == FirstDue(Tower(s, row, col), code) < |Tower(s, row, col)|
    ensures w == UnloadTower(s, list, row, col, code) && Shaped(w.ship) && w.ship.plan == s.plan
    ensures ClearedSo(s, row, col, code, k, digs, loads) && w.list == list + (digs + loads)
    ensures var t := s.towers[row][col]; w.ship.towers[row][col] == t[..k] + Staying(Removed(t, digs), code)
  {
    var dug;
    digs, dug := DugDown(s, list, row, col, code, s.plan.floorStart[row][col] + k);
    loads, w := AllPutBack(s, list, row, col, code, k, dug);
    ClearedBy(s, row, col, code, k, digs, dug, loads, w);
    ThreeLists(list, digs, loads);
  }

  lemma ThreeLists(a: seq<Instruction>, b: seq<Instruction>, c: seq<Instruction>)
    ensures (a + b) + c == a + (b + c)
  {
  }

  lemma AllPutBack(s: Stowage, list: seq<Instruction>, row: int, col: int, code: string, k: nat, dug: Work)
      returns (loads: seq<Instruction>, w: Work)
    requires Sound(s) && UniqueIds(OnBoard(s)) && InGrid(s.plan, row, col)
    requires k == FirstDue(Tower(s, row, col), code) < |Tower(s, row, col)|
    requires dug == RemoveAllAbove(Work(s, [], list), row, col, s.plan.floorStart[row][col] + k, code)
    ensures w == UnloadTower(s, list, row, col, code) && PutBack(dug, row, col, Staying(dug.port, code), loads, w)
  {
    DigOutTower(Work(s, [], list), dug, row, col, s.plan.floorStart[row][col] + k, code);
    loads, w := ReturnsExactly(dug, row, col, code, dug.port);
    UnloadTowerIs(s, list, row, col, code, k, dug);
  }

  lemma UnloadTowerIs(s: Stowage, list: seq<Instruction>, row: int, col: int, code: string, k: nat, dug: Work)
    requires Shaped(s) && InGrid(s.plan, row, col)
    requires k == FirstDue(Tower(s, row, col), code) < |Tower(s, row, col)|
    requires dug == RemoveAllAbove(Work(s, [], list), row, col, s.plan.floorStart[row][col] + k, code)
    ensures UnloadTower(s, list, row, col, code) == ReturnAll(dug, row, col, code, dug.port)
  {
  }

  lemma ClearedBy(s: Stowage, row: int, col: int, code: string, k: nat, digs: seq<Instruction>, dug: Work,
                  loads: seq<Instruction>, w: Work)
    requires Shaped(s) && InGrid(s.plan, row, col) && k == FirstDue(Tower(s, row, col), code)
    requires Digging(s, row, col, code, CapacityExcluding(s, row, col), digs, dug)
    requires |digs| == |Tower(s, row, col)| - k && dug.ship.plan == s.plan
    requires PutBack(dug, row, col, Staying(dug.port, code), loads, w)
    ensures ClearedSo(s, row, col, code, k, digs, loads)
    ensures var t := s.towers[row][col]; w.ship.towers[row][col] == t[..k] + Staying(Removed(t, digs), code)
  {
  }

  /** The tower before and after. */
  lemma TowerExactly(s: Stowage, list: seq<Instruction>, row: int, col: int, code: string)
      returns (k: nat, digs: seq<Instruction>, loads: seq<Instruction>, w: Work)
    requires Sound(s) && UniqueIds(OnBoard(s)) && InGrid(s.plan, row, col)
    ensures w == UnloadTower(s, list, row, col, code) && Shaped(w.ship) && w.ship.plan == s.plan
    ensures ClearedSo(s, row, col, code, k, digs, loads) && w.list == list + (digs + loads)
    ensures var t := s.towers[row][col]; w.ship.towers[row][col] == t[..k] + Staying(Removed(t, digs), code)
  {
    k := FirstDue(Tower(s, row, col), code);
    if k < |Tower(s, row, col)| {
      digs, loads, w := DueTowerExactly(s, list, row, col, code, k);
    } else {
      digs, loads, w := [], [], Work(s, [], list);
      NothingWritten(s, list, row, col, code, k);
    }
  }

  lemma NothingWritten(s: Stowage, list: seq<Instruction>, row: int, col: int, code: string, k: nat)
    requires Shaped(s) && InGrid(s.plan, row, col) && k == FirstDue(Tower(s, row, col), code) == |Tower(s, row, col)|
    ensures UnloadTower(s, list, row, col, code) == Work(s, [], list)
    ensures ClearedSo(s, row, col, code, k, [], []) && list == list + ([] + [])
    ensures var t := s.towers[row][col]; t == t[..k] + Staying(Removed(t, []), code)
  {
  }

  // ----- the scan -----

  /** One tower of the scan: where it stands, the ship before and after, and what was written. */
  datatype Clearing = Clearing(row: int, col: int, before: Stowage, list: seq<Instruction>, after: Stowage)

  ghost predicate IsClearing(c: Clearing, p: ShipPlan, code: string) {
    && Shaped(c.before) && c.before.plan == p && InGrid(p, c.row, c.col)
    && c.after == Run(c.before, [], c.list).ship
    && exists k, digs, loads :: ClearedSo(c.before, c.row, c.col, code, k, digs, loads) && c.list == digs + loads
  }

  function ListOf(cs: seq<Clearing>): seq<Instruction> {
    if cs == [] then [] else cs[0].list + ListOf(cs[1..])
  }

  /** The clearings go from ship s to ship s', each from where the one before ended. */
  ghost predicate Lead(cs: seq<Clearing>, s: Stowage, s': Stowage) {
    if cs == [] then s' == s else cs[0].before == s && Lead(cs[1..], cs[0].after, s')
  }

  /** All towers from (r, c) on are cleared, row by row. */
  ghost predicate RowByRow(cs: seq<Clearing>, p: ShipPlan, r: int, c: int) {
    && (forall m :: 0 <= m < |cs| ==> InGrid(p, cs[m].row, cs[m].col) && AtOrAfter(cs[m].row, cs[m].col, r, c))
    && (forall m, n :: 0 <= m < n < |cs| ==> AtOrAfter(cs[n].row, cs[n].col, cs[m].row, cs[m].col + 1))
    && (forall i, j :: InGrid(p, i, j) && AtOrAfter(i, j, r, c) ==>
          exists m :: 0 <= m < |cs| && cs[m].row == i && cs[m].col == j)
  }

  lemma RowByRowMore(cs: seq<Clearing>, p: ShipPlan, d: Clearing)
    requires InGrid(p, d.row, d.col) && RowByRow(cs, p, d.row, d.col + 1)
    ensures RowByRow([d] + cs, p, d.row, d.col)
  {
    var all := [d] + cs;
    forall i, j | InGrid(p, i, j) && AtOrAfter(i, j, d.row, d.col)
      ensures exists m :: 0 <= m < |all| && all[m].row == i && all[m].col == j
    {
      if i == d.row && j == d.col {
        assert all[0] == d;
      } else {
        var m :| 0 <= m < |cs| && cs[m].row == i && cs[m].col == j;
        assert all[m + 1] == cs[m];
      }
    }
  }

  lemma RowByRowNextRow(cs: seq<Clearing>, p: ShipPlan, r: int)
    requires RowByRow(cs, p, r + 1, 0)
    ensures RowByRow(cs, p, r, p.width)
  {
    assert forall i, j :: InGrid(p, i, j) ==> (AtOrAfter(i, j, r, p.width) <==> AtOrAfter(i, j, r + 1, 0));
  }

  lemma TowerIsClearing(s: Stowage, list: seq<Instruction>, row: int, col: int, code: string)
      returns (d: Clearing, w: Work)
    requires Sound(s) && UniqueIds(OnBoard(s)) && InGrid(s.plan, row, col)
    ensures w == UnloadTower(s, list, row, col, code) && Sound(w.ship) && UniqueIds(OnBoard(w.ship))
    ensures w.ship.plan == s.plan
    ensures IsClearing(d, s.plan, code) && d.row == row && d.col == col && d.before == s && d.after == w.ship
    ensures w.list == list + d.list
  {
    var k, digs, loads;
    k, digs, loads, w := TowerExactly(s, list, row, col, code);
    UnloadTowerFacts(s, list, row, col, code);
    ClearedIsScanned(s, w, list, row, col, code);
    assert New(Work(s, [], list), w) == digs + loads;
    d := Clearing(row, col, s, digs + loads, w.ship);
  }

  ghost predicate ScannedSo(cs: seq<Clearing>, s: Stowage, list: seq<Instruction>, u: Scan, code: string, r: int,
                            c: int)
    requires Shaped(s)
  {
    && (forall m :: 0 <= m < |cs| ==> IsClearing(cs[m], s.plan, code))
    && RowByRow(cs, s.plan, r, c) && Lead(cs, s, u.ship) && u.list == list + ListOf(cs)
  }

  lemma ListMore(d: Clearing, cs: seq<Clearing>, s: Stowage, s': Stowage)
    requires d.before == s && Lead(cs, d.after, s')
    ensures Lead([d] + cs, s, s') && ListOf([d] + cs) == d.list + ListOf(cs)
  {
    assert ([d] + cs)[1..] == cs;
  }

  lemma ScannedMore(d: Clearing, cs: seq<Clearing>, s: Stowage, list: seq<Instruction>, u: Scan, code: string)
    requires Shaped(s) && Shaped(d.after) && d.after.plan == s.plan
    requires IsClearing(d, s.plan, code) && d.before == s
    requires ScannedSo(cs, d.after, list + d.list, u, code, d.row, d.col + 1)
    ensures ScannedSo([d] + cs, s, list, u, code, d.row, d.col)
  {
    RowByRowMore(cs, s.plan, d);
    ThreeLists(list, d.list, ListOf(cs));
    ListMore(d, cs, s, u.ship);
    AllClearings(d, cs, s.plan, code);
  }

  lemma AllClearings(d: Clearing, cs: seq<Clearing>, p: ShipPlan, code: string)
    requires IsClearing(d, p, code) && forall m :: 0 <= m < |cs| ==> IsClearing(cs[m], p, code)
    ensures forall m :: 0 <= m < |cs| + 1 ==> IsClearing(([d] + cs)[m], p, code)
  {
  }

  lemma {:induction false} ScanFromExactly(s: Stowage, list: seq<Instruction>, code: string, r: int, c: int)
      returns (cs: seq<Clearing>, u: Scan)
    requires Sound(s) && UniqueIds(OnBoard(s)) && 0 <= r <= s.plan.length && 0 <= c <= s.plan.width
    ensures u == UnloadFrom(s, list, code, r, c)
    ensures ScannedSo(cs, s, list, u, code, r, c)
    decreases s.plan.length - r, s.plan.width - c, 1
  {
    if r == s.plan.length {
      cs, u := [], Scan(s, list);
    } else if c == s.plan.width {
      u := UnloadFrom(s, list, code, r, c);
      UnloadFromNextRow(s, list, code, r, c, u);
      cs, u := ScanFromExactly(s, list, code, r + 1, 0);
      RowByRowNextRow(cs, s.plan, r);
    } else {
      cs, u := TowerThenRest(s, list, code, r, c);
    }
  }

  lemma {:induction false} TowerThenRest(s: Stowage, list: seq<Instruction>, code: string, r: int, c: int)
      returns (cs: seq<Clearing>, u: Scan)
    requires Sound(s) && UniqueIds(OnBoard(s)) && InGrid(s.plan, r, c)
    ensures u == UnloadFrom(s, list, code, r, c)
    ensures ScannedSo(cs, s, list, u, code, r, c)
    decreases s.plan.length - r, s.plan.width - c, 0
  {
    var d, w := TowerIsClearing(s, list, r, c, code);
    UnloadFromNext(s, list, code, r, c);
    cs, u := ScanFromExactly(w.ship, w.list, code, r, c + 1);
    ScannedMore(d, cs, s, list, u, code);
    cs := [d] + cs;
  }

  /** The unload scan clears every tower once, row by row, each on the ship as the one before left it. */
  lemma ScanExactly(s: Stowage, code: string) returns (cs: seq<Clearing>)
    requires Sound(s) && UniqueIds(OnBoard(s))
    ensures var u := UnloadFrom(s, [], code, 0, 0);
            && (forall m :: 0 <= m < |cs| ==> IsClearing(cs[m], s.plan, code))
            && RowByRow(cs, s.plan, 0, 0) && Lead(cs, s, u.ship) && u.list == ListOf(cs)
  {
    var u;
    cs, u := ScanFromExactly(s, [], code, 0, 0);
    assert [] + ListOf(cs) == ListOf(cs);
  }
}
