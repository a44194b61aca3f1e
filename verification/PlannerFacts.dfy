/** What the planner's work at one port guarantees, phase by phase. */
module PlannerFacts {
  import opened Cargo
  import opened ShipSpec
  import opened Replay
  import opened PlannerSpec

  // ----- lists that grow by accepted instructions -----

  ghost function New(w: Work, w': Work): seq<Instruction>
    requires |w.list| <= |w'.list|
  {
    w'.list[|w.list|..]
  }

  /** w' comes from w by an accepted run, which is exactly what was added to the list. */
  ghost predicate Extends(w: Work, w': Work) {
    && Shaped(w.ship) && w.list <= w'.list
    && AllAccepted(w.ship, w.port, New(w, w'))
    && Run(w.ship, w.port, New(w, w')) == Outcome(w'.ship, w'.port)
  }

  lemma ExtendsTransitive(a: Work, b: Work, c: Work)
    requires Extends(a, b) && Extends(b, c)
    ensures Extends(a, c) && New(a, c) == New(a, b) + New(b, c)
  {
    PrefixThen(a.list, b.list, c.list);
    RunAppend(a.ship, a.port, New(a, b), New(b, c));
  }

  lemma EmitExtends(w: Work, i: Instruction)
    requires Shaped(w.ship) && Accepted(w.ship, w.port, i)
    ensures Extends(w, Emit(w, i)) && New(w, Emit(w, i)) == [i]
  {
    assert New(w, Emit(w, i)) == [i];
    var o := Step(w.ship, w.port, i);
    assert Run(w.ship, w.port, [i]) == Run(o.ship, o.port, []);
    assert AllAccepted(o.ship, o.port, []);
    assert AllAccepted(w.ship, w.port, [i]);
  }

  lemma ExtendsKeeps(w: Work, w': Work)
    requires Extends(w, w') && Sound(w.ship)
    ensures Sound(w'.ship) && w'.ship.plan == w.ship.plan
    ensures OnBoard(w'.ship) + multiset(w'.port) == OnBoard(w.ship) + multiset(w.port)
    ensures Capacity(w'.ship) + |OnBoard(w'.ship)| == Capacity(w.ship) + |OnBoard(w.ship)|
  {
    RunKeeps(w.ship, w.port, New(w, w'));
  }

  // ----- the best tower -----

  /** best is the first of the best candidates among the towers before (r, c). */
  ghost predicate BestUpTo(s: Stowage, srcRow: int, srcCol: int, dest: string, r: int, c: int, best: Option<Spot>)
    requires Shaped(s)
  {
    match best
    case None => forall i, j :: Candidate(s, srcRow, srcCol, i, j) ==> AtOrAfter(i, j, r, c)
    case Some(p) =>
      && Candidate(s, srcRow, srcCol, p.row, p.col) && !AtOrAfter(p.row, p.col, r, c)
      && forall i, j :: Candidate(s, srcRow, srcCol, i, j) && !AtOrAfter(i, j, r, c) ==>
           && NumPortsOther(s, p.row, p.col, dest) <= NumPortsOther(s, i, j, dest)
           && (!AtOrAfter(i, j, p.row, p.col) ==> NumPortsOther(s, p.row, p.col, dest) < NumPortsOther(s, i, j, dest))
  }

  lemma {:induction false} BestFromIsBest(s: Stowage, srcRow: int, srcCol: int, dest: string, r: int, c: int,
                                          best: Option<Spot>)
    requires Shaped(s) && 0 <= r <= s.plan.length && 0 <= c <= s.plan.width
    requires BestUpTo(s, srcRow, srcCol, dest, r, c, best)
    ensures BestUpTo(s, srcRow, srcCol, dest, s.plan.length, 0, BestFrom(s, srcRow, srcCol, dest, r, c, best))
    decreases s.plan.length - r, s.plan.width - c
  {
    if r == s.plan.length {
      assert forall i, j :: Candidate(s, srcRow, srcCol, i, j) ==> !AtOrAfter(i, j, s.plan.length, 0);
    } else if c == s.plan.width {
      assert forall i, j :: Candidate(s, srcRow, srcCol, i, j) ==>
          (AtOrAfter(i, j, r, c) <==> AtOrAfter(i, j, r + 1, 0));
      BestFromIsBest(s, srcRow, srcCol, dest, r + 1, 0, best);
    } else {
      assert forall i, j :: AtOrAfter(i, j, r, c) <==> (i == r && j == c) || AtOrAfter(i, j, r, c + 1);
      var better := Candidate(s, srcRow, srcCol, r, c) &&
                    (best.Some? ==>
                     NumPortsOther(s, r, c, dest) < NumPortsOther(s, best.value.row, best.value.col, dest));
      BestFromIsBest(s, srcRow, srcCol, dest, r, c + 1, if better then Some(Spot(r, c)) else best);
    }
  }

  /** The chosen tower is the first, in row-major order, of the towers that are not full, are
      not the source, and mix the fewest other destinations; there is none exactly when every
      tower but the source is full. */
  lemma BestTowerIsBest(s: Stowage, srcRow: int, srcCol: int, dest: string)
    requires Shaped(s)
    ensures var best := BestTower(s, srcRow, srcCol, dest);
            && (best.None? <==> forall i, j :: !Candidate(s, srcRow, srcCol, i, j))
            && (best.Some? ==> Candidate(s, srcRow, srcCol, best.value.row, best.value.col))
            && (best.Some? ==> forall i, j :: Candidate(s, srcRow, srcCol, i, j) ==>
                  && NumPortsOther(s, best.value.row, best.value.col, dest) <= NumPortsOther(s, i, j, dest)
                  && (!AtOrAfter(i, j, best.value.row, best.value.col) ==>
                        NumPortsOther(s, best.value.row, best.value.col, dest) < NumPortsOther(s, i, j, dest)))
  {
    BestFromIsBest(s, srcRow, srcCol, dest, 0, 0, None);
    assert forall i, j :: Candidate(s, srcRow, srcCol, i, j) ==> !AtOrAfter(i, j, s.plan.length, 0);
  }

  function DestsIn(t: seq<Container>): set<string> {
    set x | x in t :: x.dest
  }

  /** The tower has a free place and is not the source. */
  ghost predicate HasPlace(s: Stowage, srcRow: int, srcCol: int, r: int, c: int)
    requires Shaped(s)
  {
    && InGrid(s.plan, r, c) && !(r == srcRow && c == srcCol)
    && s.plan.floorStart[r][c] + |s.towers[r][c]| < s.plan.height
  }

  /** The tower has a free place, is not the source, holds containers for the fewest destinations
      besides dest of all such towers, and is the first of those that hold so few. */
  ghost predicate IsBest(s: Stowage, srcRow: int, srcCol: int, dest: string, r: int, c: int)
    requires Shaped(s)
  {
    && HasPlace(s, srcRow, srcCol, r, c)
    && forall i, j :: HasPlace(s, srcRow, srcCol, i, j) ==>
       && |DestsIn(s.towers[r][c]) - {dest}| <= |DestsIn(s.towers[i][j]) - {dest}|
       && (i < r || (i == r && j < c) ==> |DestsIn(s.towers[r][c]) - {dest}| < |DestsIn(s.towers[i][j]) - {dest}|)
  }

  lemma OthersAreDests(s: Stowage, r: int, c: int, dest: string)
    requires Shaped(s) && InGrid(s.plan, r, c)
    ensures NumPortsOther(s, r, c, dest) == |DestsIn(s.towers[r][c]) - {dest}|
  {
    assert OtherPorts(Tower(s, r, c), dest) == DestsIn(s.towers[r][c]) - {dest};
  }

  /** The search finds the best tower, or none when no tower but the source has a free place. */
  lemma BestTowerExactly(s: Stowage, srcRow: int, srcCol: int, dest: string)
    requires Shaped(s)
    ensures var best := BestTower(s, srcRow, srcCol, dest);
            && (best.None? <==> forall i, j :: !HasPlace(s, srcRow, srcCol, i, j))
            && (best.Some? ==> IsBest(s, srcRow, srcCol, dest, best.value.row, best.value.col))
  {
    BestTowerIsBest(s, srcRow, srcCol, dest);
    forall i, j
      ensures Candidate(s, srcRow, srcCol, i, j) <==> HasPlace(s, srcRow, srcCol, i, j)
      ensures HasPlace(s, srcRow, srcCol, i, j) ==>
                NumPortsOther(s, i, j, dest) == |DestsIn(s.towers[i][j]) - {dest}|
    {
      if InGrid(s.plan, i, j) {
        OthersAreDests(s, i, j, dest);
      }
    }
  }

  /** While the other towers have room in all, a tower to move to is found. */
  lemma MoveTargetExists(s: Stowage, row: int, col: int, dest: string)
    requires Sound(s) && CapacityExcluding(s, row, col) > 0
    ensures var best := BestTower(s, row, col, dest);
            best.Some? && Candidate(s, row, col, best.value.row, best.value.col)
  {
    CapacitySign(s, row, col);
    BestTowerIsBest(s, row, col, dest);
    var i, j :| InGrid(s.plan, i, j) && !(i == row && j == col) && !Full(s, i, j);
    assert Candidate(s, row, col, i, j);
  }

  /** A tower to load to is found exactly while the ship has room. */
  lemma LoadTargetExists(s: Stowage, dest: string)
    requires Sound(s)
    ensures BestTower(s, -1, -1, dest).Some? <==> Capacity(s) > 0
    ensures Capacity(s) >= 0
  {
    CapacitySign(s, -1, -1);
    BestTowerIsBest(s, -1, -1, dest);
    if Capacity(s) > 0 {
      MoveTargetExists(s, -1, -1, dest);
    }
  }

  // ----- digging out -----

  /** Tower t' is tower t with containers that do not leave at this port put on top. */
  ghost predicate Grew(t: seq<Container>, t': seq<Container>, code: string) {
    t <= t' && forall k :: |t| <= k < |t'| ==> t'[k].dest != code
  }

  ghost predicate OthersGrew(s: Stowage, s': Stowage, row: int, col: int, code: string) {
    && Shaped(s) && Shaped(s') && s'.plan == s.plan
    && forall i, j :: InGrid(s.plan, i, j) && !(i == row && j == col) ==> Grew(Tower(s, i, j), Tower(s', i, j), code)
  }

  lemma OthersGrewTransitive(s: Stowage, s1: Stowage, s2: Stowage, row: int, col: int, code: string)
    requires OthersGrew(s, s1, row, col, code) && OthersGrew(s1, s2, row, col, code)
    ensures OthersGrew(s, s2, row, col, code)
  {
    forall i, j | InGrid(s.plan, i, j) && !(i == row && j == col)
      ensures Grew(Tower(s, i, j), Tower(s2, i, j), code)
    {
      var t, t1, t2 := Tower(s, i, j), Tower(s1, i, j), Tower(s2, i, j);
      assert Grew(t, t1, code) && Grew(t1, t2, code);
      forall k | |t| <= k < |t2|
        ensures t2[k].dest != code
      {
        if k < |t1| {
          assert t2[k] == t1[k];
        }
      }
    }
  }

  /** The dig-out loop's invariant. The room counted before the loop, less the containers
      taken off so far, is still there in the other towers. */
  ghost predicate DigReady(w: Work, row: int, col: int, floor: int, cap: int, top: int, h: int) {
    && Sound(w.ship) && InGrid(w.ship.plan, row, col)
    && w.ship.plan.floorStart[row][col] <= floor
    && floor - 1 <= h <= top
    && h == Height(w.ship, row, col) - 1
    && CapacityExcluding(w.ship, row, col) >= cap - (top - h)
  }

  ghost predicate Dug(w: Work, w': Work, row: int, col: int, code: string, n: nat) {
    && Extends(w, w')
    && OthersGrew(w.ship, w'.ship, row, col, code)
    && InGrid(w.ship.plan, row, col) && n <= |Tower(w.ship, row, col)|
    && Tower(w'.ship, row, col) == Tower(w.ship, row, col)[..|Tower(w.ship, row, col)| - n]
    && |w'.port| <= |w.port| + n
    && forall i :: i in New(w, w') ==> i.Unload? || i.Move?
  }

  /** One turn of the dig-out loop: its instruction is accepted, takes the top container off
      and keeps the loop invariant. */
  lemma DigStep(w: Work, row: int, col: int, floor: int, code: string, cap: int, top: int, h: int)
    requires DigReady(w, row, col, floor, cap, top, h) && floor <= h
    ensures 0 <= h - w.ship.plan.floorStart[row][col] == |Tower(w.ship, row, col)| - 1
    ensures var x := Last(Tower(w.ship, row, col));
            var i := DigInstruction(w.ship, row, col, x, code, cap, top, h);
            && Accepted(w.ship, w.port, i)
            && DigReady(Emit(w, i), row, col, floor, cap, top, h - 1)
            && Dug(w, Emit(w, i), row, col, code, 1)
  {
    var t := Tower(w.ship, row, col);
    var x := Last(t);
    var i := DigInstruction(w.ship, row, col, x, code, cap, top, h);
    if top - h < cap && x.dest != code {
      MoveTargetExists(w.ship, row, col, x.dest);
    }
    EmitExtends(w, i);
    AcceptedKeeps(w.ship, w.port, i);
    DigRoom(w, row, col, i);
    DigGrows(w, row, col, i, code);
  }

  lemma DigGrows(w: Work, row: int, col: int, i: Instruction, code: string)
    requires Shaped(w.ship) && InGrid(w.ship.plan, row, col) && Accepted(w.ship, w.port, i)
    requires (i.Unload? || i.Move?) && i.row == row && i.col == col
    requires i.Move? ==> Tower(w.ship, row, col) != [] && Last(Tower(w.ship, row, col)).dest != code
    ensures OthersGrew(w.ship, Emit(w, i).ship, row, col, code)
  {
    var w' := Emit(w, i);
    forall a, b | InGrid(w.ship.plan, a, b) && !(a == row && b == col)
      ensures Grew(Tower(w.ship, a, b), Tower(w'.ship, a, b), code)
    {
      if i.Move? && a == i.destRow && b == i.destCol {
        assert Tower(w'.ship, a, b) == Tower(w.ship, a, b) + [Last(Tower(w.ship, row, col))];
      }
    }
  }

  /** Taking one off a tower, by a move or an unload, costs the other towers at most one place. */
  lemma DigRoom(w: Work, row: int, col: int, i: Instruction)
    requires Sound(w.ship) && InGrid(w.ship.plan, row, col) && Accepted(w.ship, w.port, i)
    requires (i.Unload? && i.row == row && i.col == col) ||
             (i.Move? && i.row == row && i.col == col && !(i.destRow == row && i.destCol == col))
    ensures var s' := Emit(w, i).ship;
            && Tower(w.ship, row, col) != []
            && Tower(s', row, col) == DropLast(Tower(w.ship, row, col))
            && CapacityExcluding(s', row, col) >= CapacityExcluding(w.ship, row, col) - 1
  {
    AcceptedKeeps(w.ship, w.port, i);
    var s' := Emit(w, i).ship;
    CapacityExcludingOne(w.ship, row, col);
    CapacityExcludingOne(s', row, col);
    assert Tower(s', row, col) == DropLast(Tower(w.ship, row, col));
    if i.Unload? {
      OnBoardPop(w.ship, row, col);
      assert |OnBoard(s')| + 1 == |OnBoard(w.ship)|;
    } else {
      MoveKeeps(w.ship, w.port, i);
    }
  }

  lemma DugTransitive(a: Work, b: Work, c: Work, row: int, col: int, code: string, m: nat, n: nat)
    requires Dug(a, b, row, col, code, m) && Dug(b, c, row, col, code, n)
    ensures Dug(a, c, row, col, code, m + n)
  {
    ExtendsTransitive(a, b, c);
    OthersGrewTransitive(a.ship, b.ship, c.ship, row, col, code);
  }

  lemma DigOutNext(w: Work, row: int, col: int, floor: int, code: string, cap: int, top: int, h: int)
    requires Shaped(w.ship) && InGrid(w.ship.plan, row, col) && floor <= h
    requires 0 <= h - w.ship.plan.floorStart[row][col] == |Tower(w.ship, row, col)| - 1
    ensures var i := DigInstruction(w.ship, row, col, Last(Tower(w.ship, row, col)), code, cap, top, h);
            DigOut(w, row, col, floor, code, cap, top, h) == DigOut(Emit(w, i), row, col, floor, code, cap, top, h - 1)
  {
    var k := h - w.ship.plan.floorStart[row][col];
    assert Tower(w.ship, row, col)[k] == Last(Tower(w.ship, row, col));
  }

  /** One turn of the loop, and what is left to do after it. */
  lemma DigTurn(w: Work, row: int, col: int, floor: int, code: string, cap: int, top: int, h: int) returns (w1: Work)
    requires DigReady(w, row, col, floor, cap, top, h) && floor <= h
    ensures Tower(w.ship, row, col) != []
    ensures w1 == Emit(w, DigInstruction(w.ship, row, col, Last(Tower(w.ship, row, col)), code, cap, top, h))
    ensures DigReady(w1, row, col, floor, cap, top, h - 1) && Dug(w, w1, row, col, code, 1)
    ensures DigOut(w, row, col, floor, code, cap, top, h) == DigOut(w1, row, col, floor, code, cap, top, h - 1)
  {
    DigStep(w, row, col, floor, code, cap, top, h);
    DigOutNext(w, row, col, floor, code, cap, top, h);
    w1 := Emit(w, DigInstruction(w.ship, row, col, Last(Tower(w.ship, row, col)), code, cap, top, h));
  }

  lemma DigOutEnds(w: Work, row: int, col: int, floor: int, code: string, cap: int, top: int)
    requires Shaped(w.ship) && InGrid(w.ship.plan, row, col)
    ensures DigOut(w, row, col, floor, code, cap, top, floor - 1) == w
  {
  }

  lemma {:induction false} DigOutFacts(w: Work, row: int, col: int, floor: int, code: string, cap: int, top: int,
                                       h: int)
      returns (w': Work)
    requires DigReady(w, row, col, floor, cap, top, h)
    ensures w' == DigOut(w, row, col, floor, code, cap, top, h)
    ensures Dug(w, w', row, col, code, h - floor + 1)
    decreases h - floor + 1
  {
    if floor <= h {
      var w1 := DigTurn(w, row, col, floor, code, cap, top, h);
      w' := DigOutFacts(w1, row, col, floor, code, cap, top, h - 1);
      DugTransitive(w, w1, w', row, col, code, 1, h - floor);
    } else {
      w' := w;
      DugNothing(w, row, col, code);
    }
  }

  lemma DugNothing(w: Work, row: int, col: int, code: string)
    requires Sound(w.ship) && InGrid(w.ship.plan, row, col)
    ensures Dug(w, w, row, col, code, 0)
  {
    assert New(w, w) == [];
  }

  // ----- putting back -----

  /** The containers of the list that do not leave at the port. */
  function Staying(t: seq<Container>, code: string): seq<Container> {
    if t == [] then [] else (if t[0].dest == code then [] else [t[0]]) + Staying(t[1..], code)
  }

  /** Every load in the list brings back a container of `home` that does not leave at this port. */
  ghost predicate LoadsSpare(list: seq<Instruction>, home: multiset<Container>, code: string) {
    forall i :: i in list && i.Load? ==> exists x :: x in home && x.id == i.id && x.dest != code
  }

  lemma LoadsSpareMore(a: seq<Instruction>, b: seq<Instruction>, small: multiset<Container>, home: multiset<Container>,
                       code: string)
    requires LoadsSpare(a, home, code) && LoadsSpare(b, small, code) && small <= home
    ensures LoadsSpare(a + b, home, code)
  {
    forall i | i in a + b && i.Load?
      ensures exists x :: x in home && x.id == i.id && x.dest != code
    {
      if i !in a {
        var x :| x in small && x.id == i.id && x.dest != code;
        assert small[x] <= home[x];
      }
    }
  }

  ghost predicate ReturnReady(w: Work, row: int, col: int, rest: seq<Container>) {
    && Sound(w.ship) && InGrid(w.ship.plan, row, col)
    && UniqueIds(OnBoard(w.ship) + multiset(w.port))
    && multiset(rest) <= multiset(w.port)
    && Height(w.ship, row, col) + |rest| <= w.ship.plan.height
  }

  lemma HeadAndTail(rest: seq<Container>, m: multiset<Container>)
    requires rest != [] && multiset(rest) <= m
    ensures multiset(rest) == multiset{rest[0]} + multiset(rest[1..])
    ensures rest[0] in m && multiset(rest[1..]) <= m && multiset(rest[1..]) + multiset{rest[0]} <= m
  {
    assert rest == [rest[0]] + rest[1..];
    assert multiset(rest)[rest[0]] <= m[rest[0]];
    assert forall y :: multiset(rest[1..])[y] <= multiset(rest)[y];
  }

  /** With unique ids, the first container with x's id at a port that holds x is x itself. */
  lemma FirstIsItself(m: multiset<Container>, port: seq<Container>, x: Container)
    requires UniqueIds(m + multiset(port)) && x in port
    ensures IndexOf(port, x.id) != NOT_FOUND && port[IndexOf(port, x.id)] == x
  {
    var k := IndexOf(port, x.id);
    assert x in m + multiset(port) && port[k] in m + multiset(port);
  }

  /** One container going back: it is accepted and lands on top of the tower. */
  lemma ReturnEmit(w: Work, row: int, col: int, rest: seq<Container>)
    requires ReturnReady(w, row, col, rest) && rest != []
    ensures var x := rest[0];
            var i := Load(row, col, Height(w.ship, row, col), x.id);
            var w' := Emit(w, i);
            && Accepted(w.ship, w.port, i)
            && w'.ship == SetTower(w.ship, row, col, Tower(w.ship, row, col) + [x])
            && multiset(w'.port) + multiset{x} == multiset(w.port)
  {
    var x := rest[0];
    HeadAndTail(rest, multiset(w.port));
    FirstIsItself(OnBoard(w.ship), w.port, x);
    LoadEffect(w, row, col, x);
    RemoveAtKeeps(w.port, IndexOf(w.port, x.id));
  }

  lemma LoadEffect(w: Work, row: int, col: int, x: Container)
    requires Shaped(w.ship) && InGrid(w.ship.plan, row, col) && Height(w.ship, row, col) < w.ship.plan.height
    requires IndexOf(w.port, x.id) != NOT_FOUND && w.port[IndexOf(w.port, x.id)] == x
    ensures var i := Load(row, col, Height(w.ship, row, col), x.id);
            && Accepted(w.ship, w.port, i)
            && Emit(w, i).ship == SetTower(w.ship, row, col, Tower(w.ship, row, col) + [x])
            && Emit(w, i).port == RemoveAt(w.port, IndexOf(w.port, x.id))
  {
  }

  lemma ReturnStep(w: Work, row: int, col: int, rest: seq<Container>)
    requires ReturnReady(w, row, col, rest) && rest != []
    ensures ReturnReady(w, row, col, rest[1..])
    ensures ReturnReady(Emit(w, Load(row, col, Height(w.ship, row, col), rest[0].id)), row, col, rest[1..])
  {
    var i := Load(row, col, Height(w.ship, row, col), rest[0].id);
    HeadAndTail(rest, multiset(w.port));
    ReturnEmit(w, row, col, rest);
    AcceptedKeeps(w.ship, w.port, i);
    var w' := Emit(w, i);
    Cancelled(multiset(rest[1..]), multiset(w'.port), multiset{rest[0]});
  }

  lemma Cancelled(a: multiset<Container>, b: multiset<Container>, c: multiset<Container>)
    requires a + c <= b + c
    ensures a <= b
  {
    forall x
      ensures a[x] <= b[x]
    {
      assert (a + c)[x] <= (b + c)[x];
    }
  }

  /** What putting `rest` back does: it lands on the tower except for what is due, which is
      what remains at the port. */
  ghost predicate OnlyDueStays(p: seq<Container>, p': seq<Container>, rest: seq<Container>, code: string) {
    forall x :: multiset(p')[x] + (if x.dest == code then 0 else multiset(rest)[x]) == multiset(p)[x]
  }

  ghost predicate Returned(w: Work, w': Work, row: int, col: int, code: string, rest: seq<Container>) {
    && Extends(w, w')
    && InGrid(w.ship.plan, row, col) && Shaped(w'.ship) && w'.ship.plan == w.ship.plan
    && SameTowersBut(w.ship, w'.ship, row, col)
    && Grew(Tower(w.ship, row, col), Tower(w'.ship, row, col), code)
    && OnlyDueStays(w.port, w'.port, rest, code)
    && LoadsSpare(New(w, w'), multiset(rest), code)
  }

  lemma OneLoadSpares(i: Instruction, x: Container, board: multiset<Container>, code: string)
    requires x in board && x.id == i.id && x.dest != code
    ensures LoadsSpare([i], board, code)
  {
  }

  lemma ReturnOneMore(w: Work, w1: Work, w': Work, row: int, col: int, code: string, rest: seq<Container>)
    requires ReturnReady(w, row, col, rest) && rest != [] && rest[0].dest != code
    requires w1 == Emit(w, Load(row, col, Height(w.ship, row, col), rest[0].id))
    requires Returned(w1, w', row, col, code, rest[1..])
    ensures Returned(w, w', row, col, code, rest)
  {
    ReturnEmit(w, row, col, rest);
    var x := rest[0];
    var i := Load(row, col, Height(w.ship, row, col), x.id);
    HeadAndTail(rest, multiset(w.port));
    OneMoreInList(w, w1, w', i);
    OneLoadSpares(i, x, multiset(rest), code);
    LoadsSpareMore([i], New(w1, w'), multiset(rest[1..]), multiset(rest), code);
    OneMoreOnTower(w.ship, w1.ship, w'.ship, row, col, x, code);
    LeftOneMore(w.port, w1.port, w'.port, rest, code);
  }

  lemma OneMoreOnTower(s: Stowage, s1: Stowage, s': Stowage, row: int, col: int, x: Container, code: string)
    requires Shaped(s) && InGrid(s.plan, row, col) && s1 == SetTower(s, row, col, Tower(s, row, col) + [x]) &&
             x.dest != code
    requires Shaped(s') && s'.plan == s1.plan && SameTowersBut(s1, s', row, col)
    requires Grew(Tower(s1, row, col), Tower(s', row, col), code)
    ensures SameTowersBut(s, s', row, col) && Grew(Tower(s, row, col), Tower(s', row, col), code)
  {
    assert Tower(s1, row, col) == Tower(s, row, col) + [x];
  }

  lemma OneMoreInList(w: Work, w1: Work, w': Work, i: Instruction)
    requires Shaped(w.ship) && Accepted(w.ship, w.port, i) && w1 == Emit(w, i) && Extends(w1, w')
    ensures Extends(w, w') && New(w, w') == [i] + New(w1, w')
  {
    EmitExtends(w, i);
    ExtendsTransitive(w, w1, w');
  }

  lemma LeftOneMore(p: seq<Container>, p1: seq<Container>, p': seq<Container>, rest: seq<Container>, code: string)
    requires rest != [] && rest[0].dest != code
    requires multiset(p1) + multiset{rest[0]} == multiset(p)
    requires multiset(rest) == multiset{rest[0]} + multiset(rest[1..])
    requires OnlyDueStays(p1, p', rest[1..], code)
    ensures OnlyDueStays(p, p', rest, code)
  {
    forall y
      ensures multiset(p')[y] + (if y.dest == code then 0 else multiset(rest)[y]) == multiset(p)[y]
    {
      assert (multiset(p1) + multiset{rest[0]})[y] == multiset(p)[y];
    }
  }

  lemma ReturnSkip(w: Work, w': Work, row: int, col: int, code: string, rest: seq<Container>)
    requires ReturnReady(w, row, col, rest) && rest != [] && rest[0].dest == code
    requires Returned(w, w', row, col, code, rest[1..])
    ensures Returned(w, w', row, col, code, rest)
  {
    HeadAndTail(rest, multiset(w.port));
    forall i | i in New(w, w') && i.Load?
      ensures exists x :: x in multiset(rest) && x.id == i.id && x.dest != code
    {
      var x :| x in multiset(rest[1..]) && x.id == i.id && x.dest != code;
      assert x in multiset(rest);
    }
  }

  lemma {:induction false} ReturnAllFacts(w: Work, row: int, col: int, code: string, rest: seq<Container>)
    requires ReturnReady(w, row, col, rest)
    ensures Returned(w, ReturnAll(w, row, col, code, rest), row, col, code, rest)
    decreases |rest|
  {
    var w' := ReturnAll(w, row, col, code, rest);
    if rest == [] {
      assert New(w, w) == [];
    } else {
      ReturnStep(w, row, col, rest);
      if rest[0].dest == code {
        ReturnAllFacts(w, row, col, code, rest[1..]);
        ReturnSkip(w, w', row, col, code, rest);
      } else {
        var w1 := Emit(w, Load(row, col, Height(w.ship, row, col), rest[0].id));
        ReturnAllFacts(w1, row, col, code, rest[1..]);
        ReturnOneMore(w, w1, w', row, col, code, rest);
      }
    }
  }

  // ----- one tower of the scan -----

  ghost predicate Clean(t: seq<Container>, code: string) {
    forall k :: 0 <= k < |t| ==> t[k].dest != code
  }

  ghost predicate Cleared(s: Stowage, w: Work, list: seq<Instruction>, row: int, col: int, code: string)
    requires Shaped(s)
  {
    var w0 := Work(s, [], list);
    && Extends(w0, w)
    && OthersGrew(s, w.ship, row, col, code)
    && InGrid(s.plan, row, col) && Clean(Tower(w.ship, row, col), code)
    && (forall x :: x in w.port ==> x.dest == code)
    && LoadsSpare(New(w0, w), OnBoard(s), code)
  }

  lemma RemoveAllIsDug(w0: Work, row: int, col: int, floor: int, code: string) returns (dug: Work)
    requires Sound(w0.ship) && InGrid(w0.ship.plan, row, col)
    requires w0.ship.plan.floorStart[row][col] <= floor < Height(w0.ship, row, col)
    ensures dug == RemoveAllAbove(w0, row, col, floor, code)
    ensures Dug(w0, dug, row, col, code, Height(w0.ship, row, col) - floor)
  {
    var top, cap := Height(w0.ship, row, col) - 1, CapacityExcluding(w0.ship, row, col);
    RemoveAllStarts(w0, row, col, floor, code, top, cap);
    dug := DigOutFacts(w0, row, col, floor, code, cap, top, top);
  }

  lemma RemoveAllStarts(w0: Work, row: int, col: int, floor: int, code: string, top: int, cap: int)
    requires Sound(w0.ship) && InGrid(w0.ship.plan, row, col)
    requires w0.ship.plan.floorStart[row][col] <= floor < Height(w0.ship, row, col)
    requires top == Height(w0.ship, row, col) - 1 && cap == CapacityExcluding(w0.ship, row, col)
    ensures DigReady(w0, row, col, floor, cap, top, top)
    ensures RemoveAllAbove(w0, row, col, floor, code) == DigOut(w0, row, col, floor, code, cap, top, top)
  {
  }

  lemma DugIsReturnReady(w0: Work, dug: Work, row: int, col: int, floor: int, code: string)
    requires Sound(w0.ship) && UniqueIds(OnBoard(w0.ship)) && w0.port == [] && InGrid(w0.ship.plan, row, col)
    requires w0.ship.plan.floorStart[row][col] <= floor < Height(w0.ship, row, col)
    requires Dug(w0, dug, row, col, code, Height(w0.ship, row, col) - floor)
    ensures ReturnReady(dug, row, col, dug.port)
    ensures multiset(dug.port) <= OnBoard(w0.ship)
  {
    ExtendsKeeps(w0, dug);
    assert multiset(w0.port) == multiset{};
    assert OnBoard(dug.ship) + multiset(dug.port) == OnBoard(w0.ship);
  }

  /** Digging out a sound tower down to height floor leaves the planner ready to put back. */
  lemma DigOutTower(w0: Work, dug: Work, row: int, col: int, floor: int, code: string)
    requires Sound(w0.ship) && UniqueIds(OnBoard(w0.ship)) && w0.port == [] && InGrid(w0.ship.plan, row, col)
    requires w0.ship.plan.floorStart[row][col] <= floor < Height(w0.ship, row, col)
    requires dug == RemoveAllAbove(w0, row, col, floor, code)
    ensures Dug(w0, dug, row, col, code, Height(w0.ship, row, col) - floor)
    ensures ReturnReady(dug, row, col, dug.port)
    ensures multiset(dug.port) <= OnBoard(w0.ship)
  {
    var same := RemoveAllIsDug(w0, row, col, floor, code);
    DugIsReturnReady(w0, dug, row, col, floor, code);
  }

  lemma SomethingDue(w0: Work, dug: Work, w: Work, row: int, col: int, floor: int, code: string)
    requires Sound(w0.ship) && UniqueIds(OnBoard(w0.ship)) && w0.port == [] && InGrid(w0.ship.plan, row, col)
    requires floor == w0.ship.plan.floorStart[row][col] + FirstDue(Tower(w0.ship, row, col), code)
    requires floor < Height(w0.ship, row, col)
    requires dug == RemoveAllAbove(w0, row, col, floor, code)
    requires w == ReturnAll(dug, row, col, code, dug.port)
    ensures Cleared(w0.ship, w, w0.list, row, col, code)
  {
    DigOutTower(w0, dug, row, col, floor, code);
    ReturnAllFacts(dug, row, col, code, dug.port);
    DugAndReturned(w0, dug, w, row, col, code, Height(w0.ship, row, col) - floor);
  }

  lemma UnloadTowerFacts(s: Stowage, list: seq<Instruction>, row: int, col: int, code: string)
    requires Sound(s) && UniqueIds(OnBoard(s)) && InGrid(s.plan, row, col)
    ensures Cleared(s, UnloadTower(s, list, row, col, code), list, row, col, code)
  {
    var k := FirstDue(Tower(s, row, col), code);
    if k == |Tower(s, row, col)| {
      NothingDue(s, list, row, col, code);
    } else {
      var w0 := Work(s, [], list);
      var floor := s.plan.floorStart[row][col] + k;
      var dug := RemoveAllAbove(w0, row, col, floor, code);
      var w := ReturnAll(dug, row, col, code, dug.port);
      assert UnloadTower(s, list, row, col, code) == w;
      SomethingDue(w0, dug, w, row, col, floor, code);
      assert Cleared(s, w, list, row, col, code);
    }
  }

  lemma NothingDue(s: Stowage, list: seq<Instruction>, row: int, col: int, code: string)
    requires Sound(s) && InGrid(s.plan, row, col)
    requires FirstDue(Tower(s, row, col), code) == |Tower(s, row, col)|
    ensures Cleared(s, Work(s, [], list), list, row, col, code)
  {
    var w0 := Work(s, [], list);
    assert New(w0, w0) == [];
  }

  lemma DugAndReturned(w0: Work, dug: Work, w: Work, row: int, col: int, code: string, n: nat)
    requires Sound(w0.ship) && InGrid(w0.ship.plan, row, col)
    requires Dug(w0, dug, row, col, code, n) && Returned(dug, w, row, col, code, dug.port)
    requires w0.port == [] && multiset(dug.port) <= OnBoard(w0.ship)
    requires |Tower(w0.ship, row, col)| - n == FirstDue(Tower(w0.ship, row, col), code)
    ensures Cleared(w0.ship, w, w0.list, row, col, code)
  {
    ExtendsTransitive(w0, dug, w);
    OthersGrewThen(w0.ship, dug.ship, w.ship, row, col, code);
    OnlyDueIsLeft(dug, w, row, col, code);
    BothSpare(w0, dug, w, code);
    TowerIsClean(Tower(w0.ship, row, col), Tower(dug.ship, row, col), Tower(w.ship, row, col), code);
  }

  lemma BothSpare(w0: Work, dug: Work, w: Work, code: string)
    requires Extends(w0, dug) && Extends(dug, w) && multiset(dug.port) <= OnBoard(w0.ship)
    requires forall i :: i in New(w0, dug) ==> !i.Load?
    requires LoadsSpare(New(dug, w), multiset(dug.port), code)
    ensures |w0.list| <= |w.list| && LoadsSpare(New(w0, w), OnBoard(w0.ship), code)
  {
    ExtendsTransitive(w0, dug, w);
    LoadsSpareMore(New(w0, dug), New(dug, w), multiset(dug.port), OnBoard(w0.ship), code);
  }

  lemma TowerIsClean(t: seq<Container>, dug: seq<Container>, t': seq<Container>, code: string)
    requires dug == t[..FirstDue(t, code)] && Grew(dug, t', code)
    ensures Clean(t', code)
  {
  }

  lemma OnlyDueIsLeft(dug: Work, w: Work, row: int, col: int, code: string)
    requires Shaped(dug.ship) && Returned(dug, w, row, col, code, dug.port)
    ensures forall x :: x in w.port ==> x.dest == code
  {
    forall x | x in w.port
      ensures x.dest == code
    {
      assert multiset(w.port)[x] > 0;
    }
  }

  lemma OthersGrewThen(s: Stowage, s1: Stowage, s2: Stowage, row: int, col: int, code: string)
    requires OthersGrew(s, s1, row, col, code) && Shaped(s2) && s2.plan == s1.plan && SameTowersBut(s1, s2, row, col)
    ensures OthersGrew(s, s2, row, col, code)
  {
    forall i, j | InGrid(s.plan, i, j) && !(i == row && j == col)
      ensures Grew(Tower(s, i, j), Tower(s2, i, j), code)
    {
      assert Tower(s2, i, j) == Tower(s1, i, j);
    }
  }

  // ----- the whole scan -----

  lemma UnloadFromNext(s: Stowage, list: seq<Instruction>, code: string, r: int, c: int)
    requires Shaped(s) && InGrid(s.plan, r, c)
    ensures var w := UnloadTower(s, list, r, c, code);
            UnloadFrom(s, list, code, r, c) == UnloadFrom(w.ship, w.list, code, r, c + 1)
  {
  }

  lemma UnloadFromNextRow(s: Stowage, list: seq<Instruction>, code: string, r: int, c: int, u: Scan)
    requires Shaped(s) && 0 <= r < s.plan.length && c == s.plan.width && u == UnloadFrom(s, list, code, r, c)
    ensures u == UnloadFrom(s, list, code, r + 1, 0)
  {
  }

  /** What the scan keeps: soundness, unique ids, and every container that is not due here. */
  ghost predicate Scanned(s: Stowage, u: Scan, list: seq<Instruction>, code: string)
    requires Shaped(s)
  {
    && Sound(u.ship) && u.ship.plan == s.plan
    && UniqueIds(OnBoard(u.ship))
    && OnBoard(u.ship) <= OnBoard(s)
    && (forall x: Container :: x.dest != code ==> OnBoard(u.ship)[x] == OnBoard(s)[x])
    && list <= u.list
    && LoadsSpare(u.list[|list|..], OnBoard(s), code)
  }

  lemma ClearedIsScanned(s: Stowage, w: Work, list: seq<Instruction>, row: int, col: int, code: string)
    requires Sound(s) && UniqueIds(OnBoard(s)) && Cleared(s, w, list, row, col, code)
    ensures Scanned(s, Scan(w.ship, w.list), list, code)
  {
    ExtendsKeeps(Work(s, [], list), w);
    assert OnBoard(w.ship) + multiset(w.port) == OnBoard(s);
    forall x: Container | x.dest != code
      ensures OnBoard(w.ship)[x] == OnBoard(s)[x]
    {
      assert x !in multiset(w.port);
    }
    UniqueIdsPart(OnBoard(w.ship), OnBoard(s));
  }

  lemma ScannedTransitive(s: Stowage, s1: Stowage, l: seq<Instruction>, l1: seq<Instruction>, u: Scan, code: string)
    requires Shaped(s) && Scanned(s, Scan(s1, l1), l, code) && Scanned(s1, u, l1, code)
    ensures Scanned(s, u, l, code)
  {
    assert u.list[|l|..] == l1[|l|..] + u.list[|l1|..];
    LoadsSpareMore(l1[|l|..], u.list[|l1|..], OnBoard(s1), OnBoard(s), code);
  }

  ghost predicate CleanBefore(s: Stowage, r: int, c: int, code: string)
    requires Shaped(s)
  {
    forall i, j :: InGrid(s.plan, i, j) && !AtOrAfter(i, j, r, c) ==> Clean(Tower(s, i, j), code)
  }

  lemma CleanOneMore(s: Stowage, s': Stowage, r: int, c: int, code: string)
    requires Shaped(s) && CleanBefore(s, r, c, code) && InGrid(s.plan, r, c)
    requires OthersGrew(s, s', r, c, code) && Clean(Tower(s', r, c), code)
    ensures CleanBefore(s', r, c + 1, code)
  {
    forall i, j | InGrid(s'.plan, i, j) && !AtOrAfter(i, j, r, c + 1)
      ensures Clean(Tower(s', i, j), code)
    {
      if !(i == r && j == c) {
        assert Clean(Tower(s, i, j), code);
        assert Grew(Tower(s, i, j), Tower(s', i, j), code);
        var t, t' := Tower(s, i, j), Tower(s', i, j);
        assert forall k :: 0 <= k < |t| ==> t'[k] == t[k];
      }
    }
  }

  /** One tower of the scan, with all towers before it clean. */
  lemma TowerScanned(s: Stowage, list: seq<Instruction>, code: string, r: int, c: int)
    requires Sound(s) && UniqueIds(OnBoard(s)) && InGrid(s.plan, r, c) && CleanBefore(s, r, c, code)
    ensures var w := UnloadTower(s, list, r, c, code);
            Scanned(s, Scan(w.ship, w.list), list, code) && CleanBefore(w.ship, r, c + 1, code)
  {
    var w := UnloadTower(s, list, r, c, code);
    UnloadTowerFacts(s, list, r, c, code);
    ClearedIsScanned(s, w, list, r, c, code);
    CleanOneMore(s, w.ship, r, c, code);
  }

  ghost predicate ScannedClean(s: Stowage, u: Scan, list: seq<Instruction>, code: string)
    requires Shaped(s)
  {
    Scanned(s, u, list, code) && CleanBefore(u.ship, s.plan.length, 0, code)
  }

  lemma ScanTowerThenRest(s: Stowage, list: seq<Instruction>, code: string, w: Work, u: Scan)
    requires Shaped(s) && Scanned(s, Scan(w.ship, w.list), list, code) && ScannedClean(w.ship, u, w.list, code)
    ensures ScannedClean(s, u, list, code)
  {
    ScannedTransitive(s, w.ship, list, w.list, u, code);
  }

  lemma NothingScanned(s: Stowage, list: seq<Instruction>, code: string)
    requires Sound(s) && UniqueIds(OnBoard(s)) && CleanBefore(s, s.plan.length, 0, code)
    ensures ScannedClean(s, Scan(s, list), list, code)
  {
    assert list[|list|..] == [];
  }

  lemma CleanRow(s: Stowage, r: int, c: int, code: string)
    requires Shaped(s) && 0 <= r <= s.plan.length && 0 <= c <= s.plan.width && CleanBefore(s, r, c, code)
    ensures r == s.plan.length ==> CleanBefore(s, r, 0, code)
    ensures c == s.plan.width ==> CleanBefore(s, r + 1, 0, code)
  {
    if r == s.plan.length {
      assert forall i, j :: InGrid(s.plan, i, j) ==> !AtOrAfter(i, j, r, c);
    }
    if c == s.plan.width {
      assert forall i, j :: InGrid(s.plan, i, j) ==> (AtOrAfter(i, j, r, c) <==> AtOrAfter(i, j, r + 1, 0));
    }
  }

  lemma {:induction false} UnloadFromFacts(s: Stowage, list: seq<Instruction>, code: string, r: int, c: int)
      returns (u: Scan)
    requires Sound(s) && UniqueIds(OnBoard(s)) && 0 <= r <= s.plan.length && 0 <= c <= s.plan.width
    requires CleanBefore(s, r, c, code)
    ensures u == UnloadFrom(s, list, code, r, c)
    ensures ScannedClean(s, u, list, code)
    decreases s.plan.length - r, s.plan.width - c, 1
  {
    if r == s.plan.length {
      CleanRow(s, r, c, code);
      u := Scan(s, list);
      NothingScanned(s, list, code);
    } else if c == s.plan.width {
      CleanRow(s, r, c, code);
      u := UnloadFromFacts(s, list, code, r + 1, 0);
    } else {
      u := FromTowerFacts(s, list, code, r, c);
    }
  }

  lemma {:induction false} FromTowerFacts(s: Stowage, list: seq<Instruction>, code: string, r: int, c: int)
      returns (u: Scan)
    requires Sound(s) && UniqueIds(OnBoard(s)) && InGrid(s.plan, r, c) && CleanBefore(s, r, c, code)
    ensures u == UnloadFrom(s, list, code, r, c)
    ensures ScannedClean(s, u, list, code)
    decreases s.plan.length - r, s.plan.width - c, 0
  {
    var w := UnloadTower(s, list, r, c, code);
    TowerScanned(s, list, code, r, c);
    u := UnloadFromFacts(w.ship, w.list, code, r, c + 1);
    UnloadFromNext(s, list, code, r, c);
    ScanTowerThenRest(s, list, code, w, u);
  }

  /** After the unload scan nothing on board is due at this port, although clearing later
      towers puts containers onto earlier ones; everything else is still on board, and nothing
      came on board. */
  lemma UnloadScanClears(s: Stowage, list: seq<Instruction>, code: string)
    requires Sound(s) && UniqueIds(OnBoard(s))
    ensures var u := UnloadFrom(s, list, code, 0, 0);
            && Scanned(s, u, list, code)
            && forall x :: OnBoard(u.ship)[x] == if x.dest == code then 0 else OnBoard(s)[x]
  {
    assert forall i, j :: InGrid(s.plan, i, j) ==> AtOrAfter(i, j, 0, 0);
    var u := UnloadFromFacts(s, list, code, 0, 0);
    assert forall i, j :: InGrid(s.plan, i, j) ==> !AtOrAfter(i, j, s.plan.length, 0);
    forall x: Container | x.dest == code
      ensures x !in OnBoard(u.ship)
    {
      forall i, j | InGrid(u.ship.plan, i, j)
        ensures x !in Tower(u.ship, i, j)
      {
        assert Clean(Tower(u.ship, i, j), code);
      }
      OnBoardMember(u.ship, x);
    }
  }
}
