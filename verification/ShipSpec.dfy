/** The ship as a value: a grid of container towers over a ship plan, the room that is left
    in it, and what one crane instruction does to it. */
module ShipSpec {
  import opened Cargo

  /** Largest value of the source's integers. */
  const INT_MAX := 2147483647

  datatype ShipPlan = ShipPlan(width: int, length: int, height: int, floorStart: seq<seq<int>>)

  ghost predicate ValidPlan(p: ShipPlan) {
    && 0 < p.width && 0 < p.length && 0 < p.height <= INT_MAX
    && |p.floorStart| == p.length
    && (forall r :: 0 <= r < p.length ==> |p.floorStart[r]| == p.width)
    && (forall r, c :: InGrid(p, r, c) ==> 0 <= p.floorStart[r][c] <= p.height)
  }

  predicate InGrid(p: ShipPlan, row: int, col: int) {
    0 <= row < p.length && 0 <= col < p.width
  }

  /** Position (i, j) is (r, c) or comes after it in row-major order. */
  predicate AtOrAfter(i: int, j: int, r: int, c: int) {
    i > r || (i == r && j >= c)
  }

  datatype Stowage = Stowage(plan: ShipPlan, towers: seq<seq<seq<Container>>>)

  ghost predicate Shaped(s: Stowage) {
    && ValidPlan(s.plan)
    && |s.towers| == s.plan.length
    && forall r :: 0 <= r < s.plan.length ==> |s.towers[r]| == s.plan.width
  }

  ghost function Tower(s: Stowage, r: int, c: int): seq<Container>
    requires Shaped(s) && InGrid(s.plan, r, c)
  {
    s.towers[r][c]
  }

  ghost function Height(s: Stowage, r: int, c: int): int
    requires Shaped(s) && InGrid(s.plan, r, c)
  {
    s.plan.floorStart[r][c] + |Tower(s, r, c)|
  }

  /** The ship invariant: no tower stands out above the ship's height. */
  ghost predicate Sound(s: Stowage) {
    Shaped(s) && forall r, c :: InGrid(s.plan, r, c) ==> Height(s, r, c) <= s.plan.height
  }

  /** The ship without a container. */
  ghost function Empty(p: ShipPlan): (s: Stowage)
    requires ValidPlan(p)
    ensures Sound(s) && s.plan == p
    ensures forall r, c :: InGrid(p, r, c) ==> Tower(s, r, c) == []
  {
    Stowage(p, seq(p.length, r => seq(p.width, c => [])))
  }

  ghost predicate Full(s: Stowage, r: int, c: int)
    requires Shaped(s) && InGrid(s.plan, r, c)
  {
    Height(s, r, c) >= s.plan.height
  }

  ghost function SetTower(s: Stowage, r: int, c: int, t: seq<Container>): (s': Stowage)
    requires Shaped(s) && InGrid(s.plan, r, c)
    ensures Shaped(s') && s'.plan == s.plan
    ensures Tower(s', r, c) == t
    ensures forall i, j :: InGrid(s.plan, i, j) && (i != r || j != c) ==> Tower(s', i, j) == Tower(s, i, j)
  {
    s.(towers := s.towers[r := s.towers[r][c := t]])
  }

  // ----- everything on board -----

  /** The containers standing at (r, c) and after it, in row-major order. */
  ghost function BoardFrom(s: Stowage, r: int, c: int): multiset<Container>
    requires Shaped(s) && 0 <= r <= s.plan.length && 0 <= c <= s.plan.width
    decreases s.plan.length - r, s.plan.width - c
  {
    if r == s.plan.length then multiset{}
    else if c == s.plan.width then BoardFrom(s, r + 1, 0)
    else multiset(Tower(s, r, c)) + BoardFrom(s, r, c + 1)
  }

  ghost function OnBoard(s: Stowage): multiset<Container>
    requires Shaped(s)
  {
    BoardFrom(s, 0, 0)
  }

  ghost predicate Aboard(s: Stowage, id: string)
    requires Shaped(s)
  {
    exists x :: x in OnBoard(s) && x.id == id
  }

  /** x stands in a tower at (r, c) or after it. */
  ghost predicate StandsFrom(s: Stowage, r: int, c: int, x: Container)
    requires Shaped(s)
  {
    exists i, j :: InGrid(s.plan, i, j) && AtOrAfter(i, j, r, c) && x in Tower(s, i, j)
  }

  lemma StandsFromHere(s: Stowage, r: int, c: int, x: Container)
    requires Shaped(s) && InGrid(s.plan, r, c)
    ensures StandsFrom(s, r, c, x) <==> x in Tower(s, r, c) || StandsFrom(s, r, c + 1, x)
  {
    assert AtOrAfter(r, c, r, c);
  }

  lemma {:induction false} BoardFromMember(s: Stowage, r: int, c: int, x: Container)
    requires Shaped(s) && 0 <= r <= s.plan.length && 0 <= c <= s.plan.width
    ensures x in BoardFrom(s, r, c) <==> StandsFrom(s, r, c, x)
    decreases s.plan.length - r, s.plan.width - c
  {
    if r < s.plan.length {
      if c == s.plan.width {
        BoardFromMember(s, r + 1, 0, x);
        assert StandsFrom(s, r, c, x) <==> StandsFrom(s, r + 1, 0, x);
      } else {
        BoardFromMember(s, r, c + 1, x);
        StandsFromHere(s, r, c, x);
      }
    }
  }

  lemma OnBoardMember(s: Stowage, x: Container)
    requires Shaped(s)
    ensures x in OnBoard(s) <==> exists i, j :: InGrid(s.plan, i, j) && x in Tower(s, i, j)
  {
    BoardFromMember(s, 0, 0, x);
    assert forall i, j :: InGrid(s.plan, i, j) ==> AtOrAfter(i, j, 0, 0);
  }

  lemma BoardFromNextRow(s: Stowage, r: int, c: int)
    requires Shaped(s) && 0 <= r < s.plan.length && c == s.plan.width
    ensures BoardFrom(s, r, c) == BoardFrom(s, r + 1, 0)
  {
  }

  lemma BoardFromHere(s: Stowage, i: int, j: int, x: Container)
    requires Shaped(s) && InGrid(s.plan, i, j)
    ensures BoardFrom(s, i, j)[x] == multiset(Tower(s, i, j))[x] + BoardFrom(s, i, j + 1)[x]
  {
  }

  /** What one tower counts for: its old containers are replaced by the new ones. */
  ghost predicate Replaced(s: Stowage, r: int, c: int, t: seq<Container>, i: int, j: int, x: Container)
    requires Shaped(s) && InGrid(s.plan, r, c) && 0 <= i <= s.plan.length && 0 <= j <= s.plan.width
  {
    BoardFrom(SetTower(s, r, c, t), i, j)[x] + (if AtOrAfter(r, c, i, j) then multiset(Tower(s, r, c))[x] else 0)
    == BoardFrom(s, i, j)[x] + (if AtOrAfter(r, c, i, j) then multiset(t)[x] else 0)
  }

  lemma {:induction false} BoardFromSet(s: Stowage, r: int, c: int, t: seq<Container>, i: int, j: int, x: Container)
    requires Shaped(s) && InGrid(s.plan, r, c) && 0 <= i <= s.plan.length && 0 <= j <= s.plan.width
    ensures Replaced(s, r, c, t, i, j, x)
    decreases s.plan.length - i, s.plan.width - j
  {
    if i < s.plan.length {
      if j == s.plan.width {
        BoardFromSet(s, r, c, t, i + 1, 0, x);
      } else {
        BoardFromSet(s, r, c, t, i, j + 1, x);
        ReplacedHere(s, r, c, t, i, j, x);
      }
    }
  }

  lemma ReplacedHere(s: Stowage, r: int, c: int, t: seq<Container>, i: int, j: int, x: Container)
    requires Shaped(s) && InGrid(s.plan, r, c) && InGrid(s.plan, i, j) && Replaced(s, r, c, t, i, j + 1, x)
    ensures Replaced(s, r, c, t, i, j, x)
  {
    BoardFromHere(s, i, j, x);
    BoardFromHere(SetTower(s, r, c, t), i, j, x);
  }

  lemma OnBoardSet(s: Stowage, r: int, c: int, t: seq<Container>)
    requires Shaped(s) && InGrid(s.plan, r, c)
    ensures OnBoard(SetTower(s, r, c, t)) + multiset(Tower(s, r, c)) == OnBoard(s) + multiset(t)
  {
    forall x
      ensures OnBoard(SetTower(s, r, c, t))[x] + multiset(Tower(s, r, c))[x] == OnBoard(s)[x] + multiset(t)[x]
    {
      BoardFromSet(s, r, c, t, 0, 0, x);
    }
  }

  /** Putting a container on a tower, and taking the top one off. */
  lemma OnBoardPush(s: Stowage, r: int, c: int, x: Container)
    requires Shaped(s) && InGrid(s.plan, r, c)
    ensures OnBoard(SetTower(s, r, c, Tower(s, r, c) + [x])) == OnBoard(s) + multiset{x}
  {
    var t := Tower(s, r, c);
    OnBoardSet(s, r, c, t + [x]);
    assert multiset(t + [x]) == multiset{x} + multiset(t);
    Cancel(OnBoard(SetTower(s, r, c, t + [x])), OnBoard(s) + multiset{x}, multiset(t));
  }

  lemma OnBoardPop(s: Stowage, r: int, c: int)
    requires Shaped(s) && InGrid(s.plan, r, c) && Tower(s, r, c) != []
    ensures var t := Tower(s, r, c);
            OnBoard(SetTower(s, r, c, DropLast(t))) + multiset{Last(t)} == OnBoard(s)
  {
    var t := Tower(s, r, c);
    assert t == DropLast(t) + [Last(t)];
    OnBoardSet(s, r, c, DropLast(t));
    assert multiset(t) == multiset{Last(t)} + multiset(DropLast(t));
    Cancel(OnBoard(SetTower(s, r, c, DropLast(t))) + multiset{Last(t)}, OnBoard(s), multiset(DropLast(t)));
  }

  // ----- the room that is left -----

  /** Free places of the towers at (r, c) and after it, one tower left out. */
  ghost function FreeFrom(s: Stowage, exRow: int, exCol: int, r: int, c: int): int
    requires Shaped(s) && 0 <= r <= s.plan.length && 0 <= c <= s.plan.width
    decreases s.plan.length - r, s.plan.width - c
  {
    if r == s.plan.length then 0
    else if c == s.plan.width then FreeFrom(s, exRow, exCol, r + 1, 0)
    else (if c == exCol && r == exRow then 0 else s.plan.height - Height(s, r, c))
         + FreeFrom(s, exRow, exCol, r, c + 1)
  }

  ghost function CapacityExcluding(s: Stowage, exRow: int, exCol: int): int
    requires Shaped(s)
  {
    FreeFrom(s, exRow, exCol, 0, 0)
  }

  ghost function Capacity(s: Stowage): int
    requires Shaped(s)
  {
    CapacityExcluding(s, -1, -1)
  }

  /** Places of the plan itself at (r, c) and after it. */
  ghost function PlacesFrom(p: ShipPlan, r: int, c: int): int
    requires ValidPlan(p) && 0 <= r <= p.length && 0 <= c <= p.width
    decreases p.length - r, p.width - c
  {
    if r == p.length then 0
    else if c == p.width then PlacesFrom(p, r + 1, 0)
    else p.height - p.floorStart[r][c] + PlacesFrom(p, r, c + 1)
  }

  ghost function Places(p: ShipPlan): int
    requires ValidPlan(p)
  {
    PlacesFrom(p, 0, 0)
  }

  lemma {:induction false} FreeAndTakenFrom(s: Stowage, r: int, c: int)
    requires Shaped(s) && 0 <= r <= s.plan.length && 0 <= c <= s.plan.width
    ensures FreeFrom(s, -1, -1, r, c) + |BoardFrom(s, r, c)| == PlacesFrom(s.plan, r, c)
    decreases s.plan.length - r, s.plan.width - c
  {
    if r < s.plan.length {
      if c == s.plan.width {
        FreeAndTakenFrom(s, r + 1, 0);
      } else {
        FreeAndTakenFrom(s, r, c + 1);
      }
    }
  }

  /** Free and taken places always add up to the places of the plan. */
  lemma CapacityAndLoad(s: Stowage)
    requires Shaped(s)
    ensures Capacity(s) + |OnBoard(s)| == Places(s.plan)
  {
    FreeAndTakenFrom(s, 0, 0);
  }

  lemma {:induction false} FreeExcluding(s: Stowage, exRow: int, exCol: int, r: int, c: int)
    requires Shaped(s) && 0 <= r <= s.plan.length && 0 <= c <= s.plan.width && InGrid(s.plan, exRow, exCol)
    ensures FreeFrom(s, exRow, exCol, r, c) == FreeFrom(s, -1, -1, r, c) -
            (if AtOrAfter(exRow, exCol, r, c) then s.plan.height - Height(s, exRow, exCol) else 0)
    decreases s.plan.length - r, s.plan.width - c
  {
    if r < s.plan.length {
      if c == s.plan.width {
        FreeExcluding(s, exRow, exCol, r + 1, 0);
      } else {
        FreeExcluding(s, exRow, exCol, r, c + 1);
      }
    }
  }

  lemma CapacityExcludingOne(s: Stowage, row: int, col: int)
    requires Shaped(s) && InGrid(s.plan, row, col)
    ensures CapacityExcluding(s, row, col) == Capacity(s) - (s.plan.height - Height(s, row, col))
  {
    FreeExcluding(s, row, col, 0, 0);
  }

  lemma {:induction false} FreeFromSign(s: Stowage, exRow: int, exCol: int, r: int, c: int)
    requires Sound(s) && 0 <= r <= s.plan.length && 0 <= c <= s.plan.width
    ensures FreeFrom(s, exRow, exCol, r, c) >= 0
    ensures FreeFrom(s, exRow, exCol, r, c) == 0 <==>
            forall i, j :: InGrid(s.plan, i, j) && AtOrAfter(i, j, r, c) && !(i == exRow && j == exCol) ==>
                Full(s, i, j)
    decreases s.plan.length - r, s.plan.width - c
  {
    if r < s.plan.length {
      if c == s.plan.width {
        FreeFromSign(s, exRow, exCol, r + 1, 0);
      } else {
        FreeFromSign(s, exRow, exCol, r, c + 1);
        assert InGrid(s.plan, r, c) && AtOrAfter(r, c, r, c);
        assert forall i, j :: InGrid(s.plan, i, j) ==>
            (AtOrAfter(i, j, r, c) <==> (i == r && j == c) || AtOrAfter(i, j, r, c + 1));
      }
    }
  }

  /** On a sound ship free room is never negative, and it is zero exactly when every
      tower that counts is full. */
  lemma CapacitySign(s: Stowage, exRow: int, exCol: int)
    requires Sound(s)
    ensures CapacityExcluding(s, exRow, exCol) >= 0
    ensures CapacityExcluding(s, exRow, exCol) == 0 <==>
            forall i, j :: InGrid(s.plan, i, j) && !(i == exRow && j == exCol) ==> Full(s, i, j)
  {
    FreeFromSign(s, exRow, exCol, 0, 0);
    assert forall i, j :: InGrid(s.plan, i, j) ==> AtOrAfter(i, j, 0, 0);
  }

  // ----- looking a container up on board -----

  datatype Place = Place(row: int, col: int, idx: int)

  /** The first place at (r, c) or after it that holds the id. */
  ghost function FindFrom(s: Stowage, id: string, r: int, c: int): Option<Place>
    requires Shaped(s) && 0 <= r <= s.plan.length && 0 <= c <= s.plan.width
    decreases s.plan.length - r, s.plan.width - c
  {
    if r == s.plan.length then None
    else if c == s.plan.width then FindFrom(s, id, r + 1, 0)
    else if IndexOf(Tower(s, r, c), id) != NOT_FOUND then Some(Place(r, c, IndexOf(Tower(s, r, c), id)))
    else FindFrom(s, id, r, c + 1)
  }

  ghost predicate HoldsId(m: multiset<Container>, id: string) {
    exists x :: x in m && x.id == id
  }

  lemma {:induction false} FindFromSound(s: Stowage, id: string, r: int, c: int)
    requires Shaped(s) && 0 <= r <= s.plan.length && 0 <= c <= s.plan.width
    ensures FindFrom(s, id, r, c).Some? <==> HoldsId(BoardFrom(s, r, c), id)
    decreases s.plan.length - r, s.plan.width - c
  {
    if r < s.plan.length {
      if c == s.plan.width {
        FindFromSound(s, id, r + 1, 0);
      } else {
        FindFromSound(s, id, r, c + 1);
        FoundHere(Tower(s, r, c), BoardFrom(s, r, c + 1), id);
      }
    }
  }

  lemma FoundHere(t: seq<Container>, rest: multiset<Container>, id: string)
    ensures HoldsId(multiset(t) + rest, id) <==> IndexOf(t, id) != NOT_FOUND || HoldsId(rest, id)
  {
    assert forall x :: x in multiset(t) + rest <==> x in t || x in rest;
    var k := IndexOf(t, id);
    if k != NOT_FOUND {
      assert t[k] in t && t[k].id == id;
    }
  }

  /** A container of the id stands in tower (i, j) with k containers under it. */
  ghost predicate StandsAt(s: Stowage, i: int, j: int, k: int, id: string)
    requires Shaped(s)
  {
    InGrid(s.plan, i, j) && 0 <= k < |s.towers[i][j]| && s.towers[i][j][k].id == id
  }

  /** The place found is the first in row-major order, each tower from the bottom; there is none
      exactly when the id stands nowhere at (r, c) or after it. */
  lemma {:induction false} FindFromIsFirst(s: Stowage, id: string, r: int, c: int)
    requires Shaped(s) && 0 <= r <= s.plan.length && 0 <= c <= s.plan.width
    ensures var f := FindFrom(s, id, r, c);
            && (f.None? ==> forall i, j, k :: StandsAt(s, i, j, k, id) ==> !AtOrAfter(i, j, r, c))
            && (f.Some? ==>
                && StandsAt(s, f.value.row, f.value.col, f.value.idx, id) && AtOrAfter(f.value.row, f.value.col, r, c)
                && forall i, j, k :: StandsAt(s, i, j, k, id) && AtOrAfter(i, j, r, c) ==>
                     || AtOrAfter(i, j, f.value.row, f.value.col + 1)
                     || (i == f.value.row && j == f.value.col && f.value.idx <= k))
    decreases s.plan.length - r, s.plan.width - c
  {
    if r < s.plan.length {
      if c == s.plan.width {
        FindFromIsFirst(s, id, r + 1, 0);
      } else {
        FindFromIsFirst(s, id, r, c + 1);
        NoneStandsHere(s, id, r, c);
      }
    }
  }

  lemma NoneStandsHere(s: Stowage, id: string, r: int, c: int)
    requires Shaped(s) && InGrid(s.plan, r, c)
    ensures var k := IndexOf(s.towers[r][c], id);
            && (k != NOT_FOUND ==> StandsAt(s, r, c, k, id))
            && forall j :: StandsAt(s, r, c, j, id) ==> k != NOT_FOUND && k <= j
  {
  }

  // ----- one crane instruction -----

  datatype Outcome = Outcome(ship: Stowage, port: seq<Container>)

  /** What the source needs for an instruction to have a defined effect. */
  ghost predicate Performable(s: Stowage, port: seq<Container>, i: Instruction)
    requires Shaped(s)
  {
    i.Reject? || (
      && InGrid(s.plan, i.row, i.col)
      && (i.Unload? ==> Tower(s, i.row, i.col) != [] &&
                        0 <= i.floor - s.plan.floorStart[i.row][i.col] < |Tower(s, i.row, i.col)|)
      && (i.Load? ==> IndexOf(port, i.id) != NOT_FOUND)
      && (i.Move? ==> InGrid(s.plan, i.destRow, i.destCol) && Tower(s, i.row, i.col) != []))
  }

  function Last<T>(t: seq<T>): T
    requires t != []
  {
    t[|t| - 1]
  }

  function DropLast<T>(t: seq<T>): seq<T>
    requires t != []
  {
    t[..|t| - 1]
  }

  ghost function Perform(s: Stowage, port: seq<Container>, i: Instruction): (o: Outcome)
    requires Shaped(s) && Performable(s, port, i)
    ensures Shaped(o.ship) && o.ship.plan == s.plan
  {
    match i
    case Unload(r, c, f, _) =>
      var t := Tower(s, r, c);
      Outcome(SetTower(s, r, c, DropLast(t)), port + [t[f - s.plan.floorStart[r][c]]])
    case Load(r, c, _, id) =>
      var k := IndexOf(port, id);
      Outcome(SetTower(s, r, c, Tower(s, r, c) + [port[k]]), RemoveAt(port, k))
    case Move(r, c, _, dr, dc, _, _) =>
      var s1 := SetTower(s, dr, dc, Tower(s, dr, dc) + [Last(Tower(s, r, c))]);
      Outcome(SetTower(s1, r, c, DropLast(Tower(s1, r, c))), port)
    case Reject(_, _, _, _) => Outcome(s, port)
    case Blank(_, _, _, _) => Outcome(s, port)
  }

  // ----- the checker's view of one instruction -----

  datatype Status = LEGAL | ILLEGAL_IDX | ILLEGAL_HEIGHT | NON_EXISTANT_CONT_ID

  predicate LegalPosition(p: ShipPlan, row: int, col: int, floor: int) {
    InGrid(p, row, col) && 0 <= floor < p.height
  }

  ghost function Verify(i: Instruction, s: Stowage, port: seq<Container>): Status
    requires Shaped(s)
  {
    if i.Reject? then LEGAL
    else if !LegalPosition(s.plan, i.row, i.col, i.floor) then ILLEGAL_IDX
    else if i.Load? && i.floor != Height(s, i.row, i.col) then ILLEGAL_HEIGHT
    else if i.Unload? && i.floor != Height(s, i.row, i.col) - 1 then ILLEGAL_HEIGHT
    else if i.Move? && !LegalPosition(s.plan, i.destRow, i.destCol, i.destFloor) then ILLEGAL_IDX
    else if i.Move? && i.destFloor != Height(s, i.destRow, i.destCol) then ILLEGAL_HEIGHT
    else if i.Load? && IndexOf(port, i.id) == NOT_FOUND then NON_EXISTANT_CONT_ID
    else LEGAL
  }

  /** The tower an instruction takes from is not empty. The checker does not look at this. */
  ghost predicate SourceReady(s: Stowage, i: Instruction)
    requires Shaped(s)
  {
    (i.Unload? || i.Move?) && InGrid(s.plan, i.row, i.col) ==> Tower(s, i.row, i.col) != []
  }

  ghost predicate Accepted(s: Stowage, port: seq<Container>, i: Instruction)
    requires Shaped(s)
  {
    Verify(i, s, port) == LEGAL && SourceReady(s, i)
  }

  /** A legal instruction has a defined effect exactly when its source tower is not empty. */
  lemma LegalIsPerformable(s: Stowage, port: seq<Container>, i: Instruction)
    requires Shaped(s) && Verify(i, s, port) == LEGAL
    ensures Performable(s, port, i) <==> SourceReady(s, i)
  {
  }

  /** The height check lets an unload from an empty raised tower through. */
  lemma LegalUnloadOfNothing(s: Stowage, port: seq<Container>, r: int, c: int, id: string)
    requires Shaped(s) && InGrid(s.plan, r, c) && Tower(s, r, c) == [] && s.plan.floorStart[r][c] > 0
    ensures var i := Unload(r, c, s.plan.floorStart[r][c] - 1, id);
            Verify(i, s, port) == LEGAL && !Performable(s, port, i)
  {
  }

  ghost predicate SameTowersBut(s: Stowage, s': Stowage, r: int, c: int)
    requires Shaped(s) && Shaped(s') && s'.plan == s.plan
  {
    forall i, j :: InGrid(s.plan, i, j) && (i != r || j != c) ==> Tower(s', i, j) == Tower(s, i, j)
  }

  /** Every accepted instruction keeps the ship sound, loses and invents no container,
      and keeps free plus taken places constant. */
  lemma AcceptedKeeps(s: Stowage, port: seq<Container>, i: Instruction)
    requires Sound(s) && Accepted(s, port, i)
    ensures Performable(s, port, i)
    ensures var o := Perform(s, port, i);
            && Sound(o.ship) && o.ship.plan == s.plan
            && OnBoard(o.ship) + multiset(o.port) == OnBoard(s) + multiset(port)
            && Capacity(o.ship) + |OnBoard(o.ship)| == Capacity(s) + |OnBoard(s)|
  {
    var o := Perform(s, port, i);
    CapacityAndLoad(s);
    CapacityAndLoad(o.ship);
    match i
    case Unload(r, c, f, _) =>
      OnBoardPop(s, r, c);
    case Load(r, c, _, id) =>
      OnBoardPush(s, r, c, port[IndexOf(port, id)]);
      RemoveAtKeeps(port, IndexOf(port, id));
    case Move(r, c, _, dr, dc, _, _) =>
      MoveKeeps(s, port, i);
    case Reject(_, _, _, _) =>
    case Blank(_, _, _, _) =>
  }

  lemma MoveKeeps(s: Stowage, port: seq<Container>, i: Instruction)
    requires Sound(s) && Accepted(s, port, i) && i.Move?
    ensures Performable(s, port, i)
    ensures var o := Perform(s, port, i); Sound(o.ship) && OnBoard(o.ship) == OnBoard(s) && o.port == port
  {
    var x := Last(Tower(s, i.row, i.col));
    var s1 := SetTower(s, i.destRow, i.destCol, Tower(s, i.destRow, i.destCol) + [x]);
    OnBoardPush(s, i.destRow, i.destCol, x);
    assert Last(Tower(s1, i.row, i.col)) == x;
    OnBoardPop(s1, i.row, i.col);
    Cancel(OnBoard(Perform(s, port, i).ship), OnBoard(s), multiset{x});
  }
}
