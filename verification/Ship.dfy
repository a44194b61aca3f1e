/** The ship object: its towers are changed in place, one instruction at a time. */
module ShipObject {
  import opened Cargo
  import opened ShipSpec

  class Ship {
    var plan: ShipPlan
    var containers: seq<seq<seq<Container>>>

    ghost function Value(): Stowage
      reads this
    {
      Stowage(plan, containers)
    }

    ghost predicate Valid()
      reads this
    {
      Shaped(Value())
    }

    /** A ship without containers. */
    constructor (p: ShipPlan)
      requires ValidPlan(p)
      ensures Valid() && Value() == Empty(p)
    {
      plan := p;
      new;
      containers := [];
      for i := 0 to p.length
        invariant plan == p && |containers| == i
        invariant containers == Empty(p).towers[..i]
      {
        var row: seq<seq<Container>> := [];
        for j := 0 to p.width
          invariant |row| == j && forall k :: 0 <= k < j ==> row[k] == []
        {
          row := row + [[]];
        }
        assert row == Empty(p).towers[i];
        containers := containers + [row];
      }
    }

    /** The copy of a ship, as assigning one ship to another makes it. */
    constructor Copy(other: Ship)
      ensures Value() == other.Value()
    {
      plan := other.plan;
      containers := other.containers;
    }

    function GetContainerTowerHeight(row: int, col: int): (h: int)
      requires Valid() && InGrid(plan, row, col)
      reads this
      ensures h == Height(Value(), row, col)
    {
      |containers[row][col]| + plan.floorStart[row][col]
    }

    function GetContainerAtPos(row: int, col: int, floorHeight: int): (x: Container)
      requires Valid() && InGrid(plan, row, col)
      requires 0 <= floorHeight - plan.floorStart[row][col] < |containers[row][col]|
      reads this
      ensures x == Tower(Value(), row, col)[floorHeight - plan.floorStart[row][col]]
    {
      containers[row][col][floorHeight - plan.floorStart[row][col]]
    }

    function IsTowerFull(row: int, col: int): (b: bool)
      requires Valid() && InGrid(plan, row, col)
      reads this
      ensures b == Full(Value(), row, col)
    {
      GetContainerTowerHeight(row, col) >= plan.height
    }

    /** Free room of all towers but one, summed up in nested loops. */
    method GetCapacityExcludeTower(excludeRow: int, excludeCol: int) returns (capacity: int)
      requires Valid()
      ensures capacity == CapacityExcluding(Value(), excludeRow, excludeCol)
    {
      capacity := 0;
      for row := 0 to plan.length
        invariant capacity + FreeFrom(Value(), excludeRow, excludeCol, row, 0) ==
                  CapacityExcluding(Value(), excludeRow, excludeCol)
      {
        for col := 0 to plan.width
          invariant capacity + FreeFrom(Value(), excludeRow, excludeCol, row, col) ==
                    CapacityExcluding(Value(), excludeRow, excludeCol)
        {
          if !(col == excludeCol && row == excludeRow) {
            capacity := capacity + plan.height - GetContainerTowerHeight(row, col);
          }
        }
      }
    }

    method GetCapacity() returns (capacity: int)
      requires Valid()
      ensures capacity == Capacity(Value())
    {
      capacity := GetCapacityExcludeTower(-1, -1);
    }

    /** Search in row-major order, each tower from the bottom; (-1, -1, -1) if the id is not on board. */
    method GetContainerIdxById(id: string) returns (row: int, col: int, floorIdx: int)
      requires Valid()
      ensures match FindFrom(Value(), id, 0, 0)
              case Some(p) => row == p.row && col == p.col && floorIdx == p.idx
              case None => row == NOT_FOUND && col == NOT_FOUND && floorIdx == NOT_FOUND
    {
      row, col, floorIdx := NOT_FOUND, NOT_FOUND, NOT_FOUND;
      for r := 0 to plan.length
        invariant FindFrom(Value(), id, r, 0) == FindFrom(Value(), id, 0, 0)
      {
        for c := 0 to plan.width
          invariant FindFrom(Value(), id, r, c) == FindFrom(Value(), id, 0, 0)
        {
          for k := 0 to |containers[r][c]|
            invariant forall j :: 0 <= j < k ==> containers[r][c][j].id != id
          {
            if containers[r][c][k].id == id {
              return r, c, k;
            }
          }
          assert IndexOf(Tower(Value(), r, c), id) == NOT_FOUND;
        }
      }
    }

    method IsContainerOnShip(id: string) returns (b: bool)
      requires Valid()
      ensures b == Aboard(Value(), id)
    {
      var row, col, floorIdx := GetContainerIdxById(id);
      FindFromIsFirst(Value(), id, 0, 0);
      FindFromSound(Value(), id, 0, 0);
      b := !(row == NOT_FOUND || col == NOT_FOUND || floorIdx == NOT_FOUND);
    }

    /** One crane instruction, on this ship and the vector of containers at the port. */
    method PerformInstruction(i: Instruction, port: seq<Container>) returns (port': seq<Container>)
      requires Valid() && Performable(Value(), port, i)
      modifies this
      ensures Valid() && plan == old(plan)
      ensures Outcome(Value(), port') == Perform(old(Value()), port, i)
    {
      port' := port;
      match i {
        case Unload(r, c, f, _) =>
          port' := port + [GetContainerAtPos(r, c, f)];
          PopBack(r, c);
        case Load(r, c, _, id) =>
          var k := Cargo.GetContainerIdxById(port, id);
          PushBack(r, c, port[k]);
          port' := RemoveAt(port, k);
        case Move(r, c, _, dr, dc, _, _) =>
          PushBack(dr, dc, Last(containers[r][c]));
          PopBack(r, c);
        case Reject(_, _, _, _) =>
        case Blank(_, _, _, _) =>
      }
    }

    method PushBack(r: int, c: int, x: Container)
      requires Valid() && InGrid(plan, r, c)
      modifies this`containers
      ensures Value() == SetTower(old(Value()), r, c, old(containers[r][c]) + [x])
    {
      containers := containers[r := containers[r][c := containers[r][c] + [x]]];
    }

    method PopBack(r: int, c: int)
      requires Valid() && InGrid(plan, r, c) && containers[r][c] != []
      modifies this`containers
      ensures Value() == SetTower(old(Value()), r, c, DropLast(old(containers[r][c])))
    {
      containers := containers[r := containers[r][c := DropLast(containers[r][c])]];
    }
  }
}
