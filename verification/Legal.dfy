/** What the checker lets through, what it answers to the rest, and what an instruction that was
    let through does. */
module Legal {
  import opened Cargo
  import opened ShipSpec
  import opened Replay

  ghost predicate Inside(p: ShipPlan, row: int, col: int, floor: int) {
    0 <= row < p.length && 0 <= col < p.width && 0 <= floor < p.height
  }

  /** The height named is where the next container of the tower will stand. */
  ghost predicate OnTop(s: Stowage, row: int, col: int, floor: int)
    requires Shaped(s) && InGrid(s.plan, row, col)
  {
    floor == s.plan.floorStart[row][col] + |s.towers[row][col]|
  }

  /** The heights that are checked: of a load and of the destination of a move the next free
      place, of an unload the topmost container. The source height of a move is not checked. */
  ghost predicate HeightsFit(s: Stowage, i: Instruction)
    requires Shaped(s) && InGrid(s.plan, i.row, i.col) && (i.Move? ==> InGrid(s.plan, i.destRow, i.destCol))
  {
    && (i.Load? ==> OnTop(s, i.row, i.col, i.floor))
    && (i.Unload? ==> OnTop(s, i.row, i.col, i.floor + 1))
    && (i.Move? ==> OnTop(s, i.destRow, i.destCol, i.destFloor))
  }

  /** All places named lie in the ship. */
  ghost predicate PlacesInside(p: ShipPlan, i: Instruction) {
    Inside(p, i.row, i.col, i.floor) && (i.Move? ==> Inside(p, i.destRow, i.destCol, i.destFloor))
  }

  ghost predicate Waits(port: seq<Container>, id: string) {
    exists x :: x in port && x.id == id
  }

  /** The four answers of the checker. */
  lemma StatusExactly(i: Instruction, s: Stowage, port: seq<Container>)
    requires Shaped(s)
    ensures var status := Verify(i, s, port);
            && (status == ILLEGAL_IDX <==> !i.Reject? && !PlacesInside(s.plan, i))
            && (status == ILLEGAL_HEIGHT <==> !i.Reject? && PlacesInside(s.plan, i) && !HeightsFit(s, i))
            && (status == NON_EXISTANT_CONT_ID <==>
                i.Load? && PlacesInside(s.plan, i) && HeightsFit(s, i) && !Waits(port, i.id))
            && (status == LEGAL <==>
                i.Reject? || (PlacesInside(s.plan, i) && HeightsFit(s, i) && (i.Load? ==> Waits(port, i.id))))
  {
    var k := IndexOf(port, i.id);
    assert k != NOT_FOUND ==> port[k] in port;
  }

  // ----- what an instruction does -----

  /** Besides the towers named the ships are the same. */
  ghost predicate SameBut(s: Stowage, s': Stowage, i: Instruction)
    requires Shaped(s) && Shaped(s') && s'.plan == s.plan
  {
    forall r, c :: InGrid(s.plan, r, c) ==>
      || (r == i.row && c == i.col)
      || (i.Move? && r == i.destRow && c == i.destCol)
      || s'.towers[r][c] == s.towers[r][c]
  }

  /** After a legal load the first container of its id that waited stands where the load says. */
  lemma LoadStandsThere(s: Stowage, port: seq<Container>, i: Instruction) returns (k: nat, o: Outcome)
    requires Shaped(s) && i.Load? && Verify(i, s, port) == LEGAL
    ensures k < |port| && port[k].id == i.id && forall j :: 0 <= j < k ==> port[j].id != i.id
    ensures o == Step(s, port, i) && Shaped(o.ship) && o.ship.plan == s.plan && SameBut(s, o.ship, i)
    ensures InGrid(s.plan, i.row, i.col) && i.floor == s.plan.floorStart[i.row][i.col] + |s.towers[i.row][i.col]|
    ensures o.ship.towers[i.row][i.col] == s.towers[i.row][i.col] + [port[k]]
    ensures o.port == port[..k] + port[k + 1..]
  {
    StatusExactly(i, s, port);
    k := IndexOf(port, i.id);
    o := Step(s, port, i);
    assert forall r, c :: InGrid(s.plan, r, c) ==> Tower(o.ship, r, c) == o.ship.towers[r][c];
  }

  /** A legal unload takes the container that stands where it says, which is the topmost one of
      its tower, to the end of the port's vector, unless the tower is empty. */
  lemma UnloadTakesThat(s: Stowage, port: seq<Container>, i: Instruction) returns (o: Outcome)
    requires Shaped(s) && i.Unload? && Verify(i, s, port) == LEGAL
    ensures o == Step(s, port, i) && Shaped(o.ship) && o.ship.plan == s.plan && SameBut(s, o.ship, i)
    ensures InGrid(s.plan, i.row, i.col)
    ensures var t, k := s.towers[i.row][i.col], i.floor - s.plan.floorStart[i.row][i.col];
            && k == |t| - 1
            && (t != [] ==> o.ship.towers[i.row][i.col] == t[..k] && o.port == port + [t[k]])
            && (t == [] ==> o == Outcome(s, port))
  {
    StatusExactly(i, s, port);
    o := Step(s, port, i);
    assert forall r, c :: InGrid(s.plan, r, c) ==> Tower(o.ship, r, c) == o.ship.towers[r][c];
  }

  /** A legal move between two towers puts the topmost container of the one where it says on the
      other, unless the tower is empty; a legal move to the same tower changes nothing. */
  lemma MoveStandsThere(s: Stowage, port: seq<Container>, i: Instruction) returns (o: Outcome)
    requires Shaped(s) && i.Move? && Verify(i, s, port) == LEGAL
    ensures o == Step(s, port, i) && Shaped(o.ship) && o.ship.plan == s.plan && SameBut(s, o.ship, i)
    ensures InGrid(s.plan, i.row, i.col) && InGrid(s.plan, i.destRow, i.destCol) && o.port == port
    ensures var t, d := s.towers[i.row][i.col], s.towers[i.destRow][i.destCol];
            && i.destFloor == s.plan.floorStart[i.destRow][i.destCol] + |d|
            && (t == [] || (i.row == i.destRow && i.col == i.destCol) ==> o == Outcome(s, port))
            && (t != [] && !(i.row == i.destRow && i.col == i.destCol) ==>
                && o.ship.towers[i.row][i.col] == t[..|t| - 1]
                && o.ship.towers[i.destRow][i.destCol] == d + [t[|t| - 1]])
  {
    StatusExactly(i, s, port);
    o := Step(s, port, i);
    var t, d := Tower(s, i.row, i.col), Tower(s, i.destRow, i.destCol);
    if t != [] {
      var s1 := SetTower(s, i.destRow, i.destCol, d + [Last(t)]);
      assert o.ship == SetTower(s1, i.row, i.col, DropLast(Tower(s1, i.row, i.col)));
      assert forall r, c :: InGrid(s.plan, r, c) ==> Tower(o.ship, r, c) == o.ship.towers[r][c];
      if i.row == i.destRow && i.col == i.destCol {
        MoveToItself(s, i.row, i.col, t, Last(t));
      }
    }
  }

  lemma MoveToItself(s: Stowage, r: int, c: int, t: seq<Container>, x: Container)
    requires Shaped(s) && InGrid(s.plan, r, c) && t == Tower(s, r, c)
    ensures var s1 := SetTower(s, r, c, t + [x]); SetTower(s1, r, c, DropLast(Tower(s1, r, c))) == s
  {
    var s1 := SetTower(s, r, c, t + [x]);
    var s2 := SetTower(s1, r, c, DropLast(Tower(s1, r, c)));
    assert DropLast(t + [x]) == t;
    assert s2.towers[r] == s.towers[r];
    assert s2.towers == s.towers;
  }

  /** What is not legal, and a reject, changes nothing. */
  lemma SkippedChangesNothing(s: Stowage, port: seq<Container>, i: Instruction)
    requires Shaped(s) && (i.Reject? || i.Blank? || Verify(i, s, port) != LEGAL)
    ensures Step(s, port, i) == Outcome(s, port)
  {
  }
}
