/** The planner's list, replayed by the checker on its own ship and with its own port. The
    planner uses a fresh vector for every tower it digs out and a copy of the cargo for the
    load phase; the checker uses the one growing cargo of the port. */
module Lockstep {
  import opened Cargo
  import opened ShipSpec
  import opened Replay
  import opened PlannerSpec
  import opened PlannerFacts
  import opened LoadFacts
  import opened UnloadChain

  // ----- the unload phase -----

  /** Replaying the list on ship s2 with port p2 is accepted throughout, ends with a ship that
      looks like s' by ids, and takes no id away from the port. */
  ghost predicate ReplaysByIds(s': Stowage, s2: Stowage, p2: seq<Container>, list: seq<Instruction>)
    requires Shaped(s2)
  {
    var o := Run(s2, p2, list);
    AllAccepted(s2, p2, list) && SameIds(s', o.ship) && Covers(p2, o.port)
  }

  lemma ReplaysByIdsThen(s1: Stowage, s': Stowage, s2: Stowage, p2: seq<Container>,
                         l: seq<Instruction>, l1: seq<Instruction>, l2: seq<Instruction>)
    requires l <= l1 <= l2 && Shaped(s2) && ReplaysByIds(s1, s2, p2, l1[|l|..])
    requires var o := Run(s2, p2, l1[|l|..]); ReplaysByIds(s', o.ship, o.port, l2[|l1|..])
    ensures l <= l2 && ReplaysByIds(s', s2, p2, l2[|l|..])
  {
    PrefixThen(l, l1, l2);
    RunAppend(s2, p2, l1[|l|..], l2[|l1|..]);
    CoversTransitive(p2, Run(s2, p2, l1[|l|..]).port, Run(s2, p2, l2[|l|..]).port);
  }

  lemma ReplaysNothing(s: Stowage, s2: Stowage, p2: seq<Container>, list: seq<Instruction>)
    requires Shaped(s) && Shaped(s2)
    ensures list[|list|..] == []
    ensures SameIds(s, s2) ==> ReplaysByIds(s, s2, p2, [])
    ensures Apart(s, p2) ==> Replays(s, s, p2, [])
  {
  }

  lemma TowerReplaysByIds(s: Stowage, list: seq<Instruction>, code: string, w: Work, s2: Stowage, p2: seq<Container>)
    requires TowerDone(s, list, code, w) && SameIds(s, s2)
    ensures list <= w.list && ReplaysByIds(w.ship, s2, p2, w.list[|list|..])
  {
    LockstepIds(s, [], s2, p2, w.list[|list|..]);
    CoversMore(p2, Run(s2, p2, w.list[|list|..]).port, w.port);
  }

  lemma {:induction false} ChainReplaysByIds(s: Stowage, list: seq<Instruction>, code: string, ws: seq<Work>, u: Scan,
                                             s2: Stowage, p2: seq<Container>)
    requires Chain(s, list, code, ws, u) && SameIds(s, s2)
    ensures list <= u.list && ReplaysByIds(u.ship, s2, p2, u.list[|list|..])
    decreases |ws|
  {
    if ws == [] {
      ReplaysNothing(s, s2, p2, list);
    } else {
      var w := ws[0];
      TowerReplaysByIds(s, list, code, w, s2, p2);
      var o := Run(s2, p2, w.list[|list|..]);
      ChainReplaysByIds(w.ship, w.list, code, ws[1..], u, o.ship, o.port);
      ReplaysByIdsThen(w.ship, u.ship, s2, p2, list, w.list, u.list);
    }
  }

  lemma CoversMore(p2: seq<Container>, q2: seq<Container>, q1: seq<Container>)
    requires SameSurplus([], p2, q1, q2)
    ensures Covers(p2, q2)
  {
    assert forall id :: |WithId(p2, id)| + |WithId(q1, id)| == |WithId(q2, id)| + |WithId([], id)|;
  }

  lemma CoversTransitive(a: seq<Container>, b: seq<Container>, c: seq<Container>)
    requires Covers(a, b) && Covers(b, c)
    ensures Covers(a, c)
  {
    forall id
      ensures |WithId(a, id)| <= |WithId(c, id)|
    {
      assert |WithId(a, id)| <= |WithId(b, id)| && |WithId(b, id)| <= |WithId(c, id)|;
    }
  }

  /** Nothing at the port carries the id of a container on board. */
  ghost predicate Apart(s: Stowage, port: seq<Container>)
    requires Shaped(s)
  {
    forall id :: Aboard(s, id) ==> WithId(port, id) == []
  }

  lemma ApartAgrees(s: Stowage, port: seq<Container>)
    requires Shaped(s) && Apart(s, port)
    ensures Agree(s, [], port)
  {
    forall id | IdHere(s, [], id)
      ensures WithId([], id) == WithId(port, id)
    {
      assert Aboard(s, id);
    }
  }

  /** Replaying the list on the planner's own ship s, but with port p2, is accepted throughout
      and ends with ship s'; ids that were not on board keep their containers at the port. */
  ghost predicate Replays(s: Stowage, s': Stowage, p2: seq<Container>, list: seq<Instruction>)
    requires Shaped(s) && Shaped(s')
  {
    var o := Run(s, p2, list);
    && AllAccepted(s, p2, list) && o.ship == s' && Apart(s', o.port)
    && forall id :: !Aboard(s, id) ==> WithId(o.port, id) == WithId(p2, id)
  }

  lemma ReplaysThen(s: Stowage, s1: Stowage, s': Stowage, p2: seq<Container>,
                    l: seq<Instruction>, l1: seq<Instruction>, l2: seq<Instruction>)
    requires Shaped(s) && Shaped(s1) && Shaped(s') && OnBoard(s1) <= OnBoard(s)
    requires l <= l1 <= l2
    requires Replays(s, s1, p2, l1[|l|..]) && Replays(s1, s', Run(s, p2, l1[|l|..]).port, l2[|l1|..])
    ensures l <= l2 && Replays(s, s', p2, l2[|l|..])
  {
    PrefixThen(l, l1, l2);
    RunAppend(s, p2, l1[|l|..], l2[|l1|..]);
    forall id | !Aboard(s, id)
      ensures WithId(Run(s, p2, l2[|l|..]).port, id) == WithId(p2, id)
    {
      assert forall x :: OnBoard(s1)[x] <= OnBoard(s)[x];
      assert !Aboard(s1, id);
    }
  }

  /** With unique ids, what left a ship carries no id that is still on board. */
  lemma LeftIsApart(s: Stowage, s': Stowage, left: seq<Container>)
    requires Shaped(s) && Shaped(s') && UniqueIds(OnBoard(s)) && OnBoard(s') + multiset(left) == OnBoard(s)
    ensures Apart(s', left)
  {
    forall id | Aboard(s', id)
      ensures WithId(left, id) == []
    {
      var x :| x in OnBoard(s') && x.id == id;
      assert OnBoard(s')[x] + multiset(left)[x] <= 1;
      forall y | y in left
        ensures y.id != id
      {
        assert y in OnBoard(s) && x in OnBoard(s);
        assert y in multiset(left);
      }
      WithIdNone(left, id);
    }
  }

  lemma TowerReplays(s: Stowage, list: seq<Instruction>, code: string, w: Work, p2: seq<Container>)
    requires TowerDone(s, list, code, w) && Apart(s, p2)
    ensures list <= w.list && Replays(s, w.ship, p2, w.list[|list|..])
  {
    LeftIsApart(s, w.ship, w.port);
    var a := w.list[|list|..];
    ApartAgrees(s, p2);
    LockstepSame(s, [], p2, a);
    TowerApart(s, w, p2, Run(s, p2, a).port);
  }

  lemma TowerApart(s: Stowage, w: Work, p2: seq<Container>, q2: seq<Container>)
    requires Shaped(s) && Shaped(w.ship) && OnBoard(w.ship) + multiset(w.port) == OnBoard(s) && Apart(w.ship, w.port)
    requires forall id :: !IdHere(s, [], id) ==> WithId(q2, id) == WithId(p2, id)
    requires forall id :: IdHere(s, [], id) ==> WithId(q2, id) == WithId(w.port, id)
    ensures Apart(w.ship, q2)
    ensures forall id :: !Aboard(s, id) ==> WithId(q2, id) == WithId(p2, id)
  {
    assert forall x :: x in OnBoard(s) + multiset([]) <==> x in OnBoard(s);
    assert forall id :: IdHere(s, [], id) <==> Aboard(s, id);
    forall id | Aboard(w.ship, id)
      ensures WithId(q2, id) == []
    {
      var x :| x in OnBoard(w.ship) && x.id == id;
      assert x in OnBoard(s);
      assert Aboard(s, id);
    }
  }

  lemma {:induction false} ChainReplays(s: Stowage, list: seq<Instruction>, code: string, ws: seq<Work>, u: Scan,
                                        p2: seq<Container>)
    requires Sound(s) && Sound(u.ship) && Chain(s, list, code, ws, u) && Apart(s, p2)
    ensures list <= u.list && Replays(s, u.ship, p2, u.list[|list|..])
    decreases |ws|
  {
    if ws == [] {
      ReplaysNothing(s, s, p2, list);
    } else {
      var w := ws[0];
      TowerReplays(s, list, code, w, p2);
      ChainReplays(w.ship, w.list, code, ws[1..], u, Run(s, p2, w.list[|list|..]).port);
      ReplaysThen(s, w.ship, u.ship, p2, list, w.list, u.list);
    }
  }

  // ----- the whole port -----

  /** The planner's load phase at one port, from its start to its end. */
  lemma LoadPhase(s: Stowage, stop: Stop, cargo: seq<Container>, ordered: seq<Container>)
    requires Sound(s) && UniqueIds(OnBoard(s)) && multiset(ordered) == multiset(cargo)
    requires !(LastPort(stop) && cargo != [])
    ensures var u := UnloadFrom(s, [], stop.code, 0, 0);
            var w0 := Work(u.ship, cargo, u.list);
            var p := PlanPort(s, stop, cargo, ordered);
            && Sound(u.ship) && OnBoard(u.ship) <= OnBoard(s)
            && u.list <= p.list
            && AllAccepted(u.ship, cargo, p.list[|u.list|..])
            && Run(u.ship, cargo, p.list[|u.list|..]).ship == p.ship
  {
    var u := UnloadFrom(s, [], stop.code, 0, 0);
    UnloadScanClears(s, [], stop.code);
    LoadStarts(u.ship, s, u.list, cargo, ordered);
    LoadAllFacts(Loading(Work(u.ship, cargo, u.list), [], {}), s, stop, ordered);
  }

  /** From ships that look the same by ids the checker finds every instruction of the planner's
      list legal at its turn, for any cargo, and the ships look the same by ids at the end. */
  lemma PlanReplayedByIds(s: Stowage, stop: Stop, cargo: seq<Container>, ordered: seq<Container>, s2: Stowage)
    requires Sound(s) && UniqueIds(OnBoard(s)) && SameIds(s, s2)
    requires multiset(ordered) == multiset(cargo)
    ensures var p := PlanPort(s, stop, cargo, ordered);
            AllAccepted(s2, cargo, p.list) && SameIds(p.ship, Run(s2, cargo, p.list).ship)
  {
    var u := UnloadIsChain(s, [], stop.code, 0, 0);
    var ws :| Chain(s, [], stop.code, ws, u);
    ChainReplaysByIds(s, [], stop.code, ws, u, s2, cargo);
    assert u.list[0..] == u.list;
    if !(LastPort(stop) && cargo != []) {
      LoadPhase(s, stop, cargo, ordered);
      LoadReplaysByIds(u, cargo, PlanPort(s, stop, cargo, ordered), s2);
    }
  }

  lemma LoadReplaysByIds(u: Scan, cargo: seq<Container>, p: PortPlan, s2: Stowage)
    requires Shaped(u.ship) && Shaped(s2) && ReplaysByIds(u.ship, s2, cargo, u.list)
    requires u.list <= p.list && AllAccepted(u.ship, cargo, p.list[|u.list|..])
    requires Run(u.ship, cargo, p.list[|u.list|..]).ship == p.ship
    ensures AllAccepted(s2, cargo, p.list) && SameIds(p.ship, Run(s2, cargo, p.list).ship)
  {
    var o := Run(s2, cargo, u.list);
    var b := p.list[|u.list|..];
    LockstepIds(u.ship, cargo, o.ship, o.port, b);
    assert p.list == u.list + b;
    RunAppend(s2, cargo, u.list, b);
  }

  /** From equal ships, when no id of the cargo is on board, the checker's ship equals the
      planner's ship at the end, container for container. */
  lemma PlanReplayed(s: Stowage, stop: Stop, cargo: seq<Container>, ordered: seq<Container>)
    requires Sound(s) && UniqueIds(OnBoard(s)) && Apart(s, cargo)
    requires multiset(ordered) == multiset(cargo)
    ensures var p := PlanPort(s, stop, cargo, ordered);
            AllAccepted(s, cargo, p.list) && Run(s, cargo, p.list).ship == p.ship
  {
    UnloadScanClears(s, [], stop.code);
    var u := UnloadIsChain(s, [], stop.code, 0, 0);
    var ws :| Chain(s, [], stop.code, ws, u);
    ChainReplays(s, [], stop.code, ws, u, cargo);
    assert u.list[0..] == u.list;
    if !(LastPort(stop) && cargo != []) {
      LoadPhase(s, stop, cargo, ordered);
      LoadReplays(s, u, cargo, PlanPort(s, stop, cargo, ordered));
    }
  }

  lemma LoadReplays(s: Stowage, u: Scan, cargo: seq<Container>, p: PortPlan)
    requires Shaped(s) && Sound(u.ship) && OnBoard(u.ship) <= OnBoard(s) && Apart(s, cargo)
    requires Replays(s, u.ship, cargo, u.list)
    requires u.list <= p.list && AllAccepted(u.ship, cargo, p.list[|u.list|..])
    requires Run(u.ship, cargo, p.list[|u.list|..]).ship == p.ship
    ensures AllAccepted(s, cargo, p.list) && Run(s, cargo, p.list).ship == p.ship
  {
    var o := Run(s, cargo, u.list);
    var b := p.list[|u.list|..];
    CargoAgrees(s, u, cargo, o.port);
    LockstepSame(u.ship, cargo, o.port, b);
    assert p.list == u.list + b;
    RunAppend(s, cargo, u.list, b);
  }

  lemma CargoAgrees(s: Stowage, u: Scan, cargo: seq<Container>, port: seq<Container>)
    requires Shaped(s) && Apart(s, cargo) && Shaped(u.ship) && OnBoard(u.ship) <= OnBoard(s)
    requires Apart(u.ship, port)
    requires forall id :: !Aboard(s, id) ==> WithId(port, id) == WithId(cargo, id)
    ensures Agree(u.ship, cargo, port)
  {
    forall id | IdHere(u.ship, cargo, id)
      ensures WithId(cargo, id) == WithId(port, id)
    {
      var x :| x in OnBoard(u.ship) + multiset(cargo) && x.id == id;
      if x in OnBoard(u.ship) {
        assert OnBoard(u.ship)[x] <= OnBoard(s)[x];
        assert Aboard(s, id) && Aboard(u.ship, id);
      } else {
        assert x in WithId(cargo, id);
      }
    }
  }
}
