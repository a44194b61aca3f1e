/** Runs of crane instructions, and two ships that go through the same run side by side. */
module Replay {
  import opened Cargo
  import opened ShipSpec

  /** One turn of the checker: an accepted instruction is performed, any other is skipped. */
  ghost function Step(s: Stowage, port: seq<Container>, i: Instruction): (o: Outcome)
    requires Shaped(s)
    ensures Shaped(o.ship) && o.ship.plan == s.plan
  {
    if Accepted(s, port, i) then Perform(s, port, i) else Outcome(s, port)
  }

  ghost function Run(s: Stowage, port: seq<Container>, list: seq<Instruction>): (o: Outcome)
    requires Shaped(s)
    ensures Shaped(o.ship) && o.ship.plan == s.plan
    decreases |list|
  {
    if list == [] then Outcome(s, port)
    else
      var o := Step(s, port, list[0]);
      Run(o.ship, o.port, list[1..])
  }

  ghost predicate AllAccepted(s: Stowage, port: seq<Container>, list: seq<Instruction>)
    requires Shaped(s)
    decreases |list|
  {
    list == [] || (
      && Accepted(s, port, list[0])
      && var o := Step(s, port, list[0]);
         AllAccepted(o.ship, o.port, list[1..]))
  }

  lemma {:induction false} RunAppend(s: Stowage, port: seq<Container>, a: seq<Instruction>, b: seq<Instruction>)
    requires Shaped(s)
    ensures var o := Run(s, port, a);
            && Run(s, port, a + b) == Run(o.ship, o.port, b)
            && (AllAccepted(s, port, a + b) <==> AllAccepted(s, port, a) && AllAccepted(o.ship, o.port, b))
    decreases |a|
  {
    if a == [] {
      assert a + b == b;
    } else {
      assert (a + b)[1..] == a[1..] + b;
      var o := Step(s, port, a[0]);
      RunAppend(o.ship, o.port, a[1..], b);
    }
  }

  lemma RunOneFurther(s: Stowage, port: seq<Container>, list: seq<Instruction>, i: Instruction)
    requires Shaped(s)
    ensures var o := Run(s, port, list); Run(s, port, list + [i]) == Step(o.ship, o.port, i)
  {
    var o := Run(s, port, list);
    RunAppend(s, port, list, [i]);
    var o' := Step(o.ship, o.port, i);
    assert Run(o'.ship, o'.port, []) == o';
  }

  /** A whole accepted run keeps the ship sound and conserves the containers. */
  lemma {:induction false} RunKeeps(s: Stowage, port: seq<Container>, list: seq<Instruction>)
    requires Sound(s) && AllAccepted(s, port, list)
    ensures var o := Run(s, port, list);
            && Sound(o.ship)
            && OnBoard(o.ship) + multiset(o.port) == OnBoard(s) + multiset(port)
            && Capacity(o.ship) + |OnBoard(o.ship)| == Capacity(s) + |OnBoard(s)|
    decreases |list|
  {
    if list != [] {
      AcceptedKeeps(s, port, list[0]);
      var o := Step(s, port, list[0]);
      RunKeeps(o.ship, o.port, list[1..]);
    }
  }

  // ----- two ships that look the same by ids -----

  ghost predicate SameIds(s1: Stowage, s2: Stowage) {
    && Shaped(s1) && Shaped(s2) && s1.plan == s2.plan
    && forall r, c :: InGrid(s1.plan, r, c) ==> TowerIds(Tower(s1, r, c), Tower(s2, r, c))
  }

  ghost predicate TowerIds(t1: seq<Container>, t2: seq<Container>) {
    |t1| == |t2| && forall k :: 0 <= k < |t1| ==> t1[k].id == t2[k].id
  }

  /** Port p2 holds at least as many containers of each id as p1. */
  ghost predicate Covers(p1: seq<Container>, p2: seq<Container>) {
    forall id :: |WithId(p1, id)| <= |WithId(p2, id)|
  }

  /** p2 exceeds p1 by as much as q2 exceeds q1, id by id. */
  ghost predicate SameSurplus(p1: seq<Container>, p2: seq<Container>, q1: seq<Container>, q2: seq<Container>) {
    forall id :: |WithId(p2, id)| + |WithId(q1, id)| == |WithId(q2, id)| + |WithId(p1, id)|
  }

  lemma SetTowerIds(s1: Stowage, s2: Stowage, r: int, c: int, t1: seq<Container>, t2: seq<Container>)
    requires SameIds(s1, s2) && InGrid(s1.plan, r, c) && TowerIds(t1, t2)
    ensures SameIds(SetTower(s1, r, c, t1), SetTower(s2, r, c, t2))
  {
    var n1, n2 := SetTower(s1, r, c, t1), SetTower(s2, r, c, t2);
    forall i, j | InGrid(s1.plan, i, j)
      ensures TowerIds(Tower(n1, i, j), Tower(n2, i, j))
    {
      assert TowerIds(Tower(s1, i, j), Tower(s2, i, j));
      if i == r && j == c {
        assert Tower(n1, i, j) == t1 && Tower(n2, i, j) == t2;
      }
    }
  }

  lemma AcceptedAlike(s1: Stowage, p1: seq<Container>, s2: Stowage, p2: seq<Container>, i: Instruction)
    requires SameIds(s1, s2) && Covers(p1, p2) && Accepted(s1, p1, i)
    ensures Accepted(s2, p2, i)
  {
    if !i.Reject? {
      assert TowerIds(Tower(s1, i.row, i.col), Tower(s2, i.row, i.col));
      assert i.Move? ==> TowerIds(Tower(s1, i.destRow, i.destCol), Tower(s2, i.destRow, i.destCol));
    }
    if i.Load? {
      WithIdFirst(p1, i.id);
      WithIdFirst(p2, i.id);
      assert |WithId(p1, i.id)| <= |WithId(p2, i.id)|;
    }
  }

  lemma ShipsAlike(s1: Stowage, p1: seq<Container>, s2: Stowage, p2: seq<Container>, i: Instruction)
    requires SameIds(s1, s2) && Accepted(s1, p1, i) && Accepted(s2, p2, i)
    ensures SameIds(Step(s1, p1, i).ship, Step(s2, p2, i).ship)
  {
    if !i.Reject? {
      var t1, t2 := Tower(s1, i.row, i.col), Tower(s2, i.row, i.col);
      assert TowerIds(t1, t2);
      match i
      case Load(r, c, _, id) =>
        SetTowerIds(s1, s2, r, c, t1 + [p1[IndexOf(p1, id)]], t2 + [p2[IndexOf(p2, id)]]);
      case Unload(r, c, _, _) =>
        SetTowerIds(s1, s2, r, c, DropLast(t1), DropLast(t2));
      case Move(r, c, _, dr, dc, _, _) =>
        var u1, u2 := Tower(s1, dr, dc) + [Last(t1)], Tower(s2, dr, dc) + [Last(t2)];
        assert TowerIds(Tower(s1, dr, dc), Tower(s2, dr, dc));
        assert TowerIds(u1, u2);
        SetTowerIds(s1, s2, dr, dc, u1, u2);
        var n1, n2 := SetTower(s1, dr, dc, u1), SetTower(s2, dr, dc, u2);
        assert TowerIds(Tower(n1, r, c), Tower(n2, r, c));
        SetTowerIds(n1, n2, r, c, DropLast(Tower(n1, r, c)), DropLast(Tower(n2, r, c)));
      case Blank(_, _, _, _) =>
    }
  }

  /** How one instruction changes the containers of one id at a port. */
  lemma PortAfter(s: Stowage, p: seq<Container>, i: Instruction, id: string)
    requires Shaped(s) && Accepted(s, p, i)
    ensures i.Load? ==> WithId(p, i.id) != []
    ensures WithId(Step(s, p, i).port, id) ==
            if i.Load? && i.id == id then WithId(p, id)[1..]
            else if i.Unload? && Last(Tower(s, i.row, i.col)).id == id
                then WithId(p, id) + [Last(Tower(s, i.row, i.col))]
            else WithId(p, id)
  {
    if i.Load? {
      WithIdRemove(p, i.id, id);
      WithIdRemove(p, i.id, i.id);
    } else if i.Unload? {
      WithIdPush(p, Last(Tower(s, i.row, i.col)), id);
    }
  }

  lemma PortsAlikeFor(s1: Stowage, p1: seq<Container>, s2: Stowage, p2: seq<Container>, i: Instruction, id: string)
    requires SameIds(s1, s2) && Accepted(s1, p1, i) && Accepted(s2, p2, i)
    ensures |WithId(p2, id)| + |WithId(Step(s1, p1, i).port, id)| ==
            |WithId(Step(s2, p2, i).port, id)| + |WithId(p1, id)|
  {
    PortAfter(s1, p1, i, id);
    PortAfter(s2, p2, i, id);
    if i.Unload? {
      assert TowerIds(Tower(s1, i.row, i.col), Tower(s2, i.row, i.col));
    }
  }

  lemma PortsAlike(s1: Stowage, p1: seq<Container>, s2: Stowage, p2: seq<Container>, i: Instruction)
    requires SameIds(s1, s2) && Covers(p1, p2) && Accepted(s1, p1, i) && Accepted(s2, p2, i)
    ensures SameSurplus(p1, p2, Step(s1, p1, i).port, Step(s2, p2, i).port)
    ensures Covers(Step(s1, p1, i).port, Step(s2, p2, i).port)
  {
    forall id {
      PortsAlikeFor(s1, p1, s2, p2, i, id);
    }
    SurplusCovers(p1, p2, Step(s1, p1, i).port, Step(s2, p2, i).port);
  }

  lemma SurplusCovers(p1: seq<Container>, p2: seq<Container>, q1: seq<Container>, q2: seq<Container>)
    requires Covers(p1, p2) && SameSurplus(p1, p2, q1, q2)
    ensures Covers(q1, q2)
  {
    forall id
      ensures |WithId(q1, id)| <= |WithId(q2, id)|
    {
      assert |WithId(p1, id)| <= |WithId(p2, id)|;
    }
  }

  /** A ship that looks the same by ids, with at least the same ids at its port, accepts
      every instruction of the run and looks the same again at its end. */
  lemma {:induction false} LockstepIds(s1: Stowage, p1: seq<Container>, s2: Stowage, p2: seq<Container>,
                                       list: seq<Instruction>)
    requires SameIds(s1, s2) && Covers(p1, p2) && AllAccepted(s1, p1, list)
    ensures AllAccepted(s2, p2, list)
    ensures var o1, o2 := Run(s1, p1, list), Run(s2, p2, list);
            SameIds(o1.ship, o2.ship) && SameSurplus(p1, p2, o1.port, o2.port)
    decreases |list|
  {
    if list != [] {
      AcceptedAlike(s1, p1, s2, p2, list[0]);
      ShipsAlike(s1, p1, s2, p2, list[0]);
      PortsAlike(s1, p1, s2, p2, list[0]);
      var o1, o2 := Step(s1, p1, list[0]), Step(s2, p2, list[0]);
      LockstepIds(o1.ship, o1.port, o2.ship, o2.port, list[1..]);
    }
  }

  // ----- two ships that stay equal -----

  ghost predicate IdHere(s: Stowage, port: seq<Container>, id: string)
    requires Shaped(s)
  {
    exists x :: x in OnBoard(s) + multiset(port) && x.id == id
  }

  /** On every id that is on board or at p1, the two ports hold the same containers in the same order. */
  ghost predicate Agree(s: Stowage, p1: seq<Container>, p2: seq<Container>)
    requires Shaped(s)
  {
    forall id :: IdHere(s, p1, id) ==> WithId(p1, id) == WithId(p2, id)
  }

  /** The loaded container is the same from either port. */
  lemma SameChoice(s: Stowage, p1: seq<Container>, p2: seq<Container>, id: string)
    requires Shaped(s) && Agree(s, p1, p2) && IndexOf(p1, id) != NOT_FOUND
    ensures IdHere(s, p1, id)
    ensures IndexOf(p2, id) != NOT_FOUND && p2[IndexOf(p2, id)] == p1[IndexOf(p1, id)]
  {
    assert p1[IndexOf(p1, id)] in multiset(p1);
    assert IdHere(s, p1, id);
    WithIdFirst(p1, id);
    WithIdFirst(p2, id);
  }

  lemma SamePorts(s: Stowage, p1: seq<Container>, p2: seq<Container>, i: Instruction, id: string)
    requires Shaped(s) && Accepted(s, p1, i) && Accepted(s, p2, i)
    ensures WithId(p1, id) == WithId(p2, id) ==> WithId(Step(s, p1, i).port, id) == WithId(Step(s, p2, i).port, id)
    ensures i.Load? && i.id != id ==> WithId(Step(s, p2, i).port, id) == WithId(p2, id)
    ensures i.Unload? && Last(Tower(s, i.row, i.col)).id != id ==> WithId(Step(s, p2, i).port, id) == WithId(p2, id)
    ensures !i.Load? && !i.Unload? ==> WithId(Step(s, p2, i).port, id) == WithId(p2, id)
  {
    PortAfter(s, p1, i, id);
    PortAfter(s, p2, i, id);
  }

  lemma HereFromTop(s: Stowage, port: seq<Container>, r: int, c: int)
    requires Shaped(s) && InGrid(s.plan, r, c) && Tower(s, r, c) != []
    ensures IdHere(s, port, Last(Tower(s, r, c)).id)
  {
    var x := Last(Tower(s, r, c));
    OnBoardMember(s, x);
    assert x in OnBoard(s) + multiset(port);
  }

  /** What is neither on board nor at the port does not come there by an accepted instruction. */
  lemma HereStays(s: Stowage, port: seq<Container>, i: Instruction, id: string)
    requires Sound(s) && Accepted(s, port, i)
    ensures IdHere(Step(s, port, i).ship, Step(s, port, i).port, id) <==> IdHere(s, port, id)
  {
    AcceptedKeeps(s, port, i);
  }

  lemma LockstepSameOne(s: Stowage, p1: seq<Container>, p2: seq<Container>, i: Instruction)
    requires Sound(s) && Agree(s, p1, p2) && Accepted(s, p1, i)
    ensures Accepted(s, p2, i) && Step(s, p2, i).ship == Step(s, p1, i).ship
    ensures Sound(Step(s, p1, i).ship) && Agree(Step(s, p1, i).ship, Step(s, p1, i).port, Step(s, p2, i).port)
    ensures forall id :: !IdHere(s, p1, id) ==> WithId(Step(s, p2, i).port, id) == WithId(p2, id)
  {
    var o1 := Step(s, p1, i);
    AcceptedKeeps(s, p1, i);
    if i.Load? {
      SameChoice(s, p1, p2, i.id);
    } else if i.Unload? {
      HereFromTop(s, p1, i.row, i.col);
    }
    var o2 := Step(s, p2, i);
    forall id
      ensures !IdHere(s, p1, id) ==> WithId(o2.port, id) == WithId(p2, id)
      ensures IdHere(o1.ship, o1.port, id) ==> WithId(o1.port, id) == WithId(o2.port, id)
    {
      HereStays(s, p1, i, id);
      SamePorts(s, p1, p2, i, id);
    }
  }

  /** From equal ships and agreeing ports a run is accepted on both sides and leaves the
      ships equal, container for container; ids not involved keep their place at port p2. */
  lemma {:induction false} LockstepSame(s: Stowage, p1: seq<Container>, p2: seq<Container>, list: seq<Instruction>)
    requires Sound(s) && Agree(s, p1, p2) && AllAccepted(s, p1, list)
    ensures AllAccepted(s, p2, list) && Run(s, p2, list).ship == Run(s, p1, list).ship
    ensures Agree(Run(s, p1, list).ship, Run(s, p1, list).port, Run(s, p2, list).port)
    ensures forall id :: !IdHere(s, p1, id) ==> WithId(Run(s, p2, list).port, id) == WithId(p2, id)
    ensures forall id :: IdHere(s, p1, id) ==> WithId(Run(s, p2, list).port, id) == WithId(Run(s, p1, list).port, id)
    decreases |list|
  {
    if list != [] {
      LockstepSameOne(s, p1, p2, list[0]);
      AcceptedKeeps(s, p1, list[0]);
      var o1, o2 := Step(s, p1, list[0]), Step(s, p2, list[0]);
      forall id {
        HereStays(s, p1, list[0], id);
      }
      LockstepSame(o1.ship, o1.port, o2.port, list[1..]);
    }
  }
}
