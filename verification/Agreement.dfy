/** Exactly when the checker's ship equals the planner's after one port, for any cargo. */
module Agreement {
  import opened Cargo
  import opened ShipSpec
  import opened Replay
  import opened PlannerSpec
  import opened PlannerFacts
  import opened LoadFacts
  import opened LoadCut
  import opened Lockstep
  import opened PlanIds
  import opened IdsOnBoard
  import opened Rotation
  import opened UnloadOnce

  lemma CarriedIsIt(s: Stowage, y: Container)
    requires Shaped(s) && UniqueIds(OnBoard(s)) && y in OnBoard(s)
    ensures Carried(s, y.id) == [y]
  {
    UniqueIsCarriedOnce(s);
    var cs := CarriedCountFrom(s, y, 0, 0);
    assert |Carried(s, y.id)| <= 1;
    OneOfFew(cs, y);
  }

  lemma CarriedIsAboard(s: Stowage, id: string)
    requires Shaped(s) && Carried(s, id) != []
    ensures Aboard(s, id)
  {
    var x := Carried(s, id)[0];
    CarriedIds(s, id, 0, 0);
    var cs := CarriedCountFrom(s, x, 0, 0);
    assert x in multiset(Carried(s, id));
  }

  lemma CarriedNowhere(s: Stowage, id: string)
    requires Shaped(s) && !Aboard(s, id)
    ensures Carried(s, id) == []
  {
    if Carried(s, id) != [] {
      CarriedIsAboard(s, id);
    }
  }

  /** Ships that look the same by ids are equal when each container is carried by both. */
  lemma EqualByContents(s1: Stowage, s2: Stowage)
    requires SameIds(s1, s2) && UniqueIds(OnBoard(s1)) && UniqueIds(OnBoard(s2))
    ensures s1 == s2 <==> forall y :: y in OnBoard(s1) ==> Carried(s2, y.id) == [y]
  {
    if s1 == s2 {
      forall y | y in OnBoard(s1)
        ensures Carried(s2, y.id) == [y]
      {
        CarriedIsIt(s1, y);
      }
    }
    if forall y :: y in OnBoard(s1) ==> Carried(s2, y.id) == [y] {
      forall r, c | InGrid(s1.plan, r, c)
        ensures Tower(s1, r, c) == Tower(s2, r, c)
      {
        EqualTowers(s1, s2, r, c);
      }
      EqualShips(s1, s2);
    }
  }

  lemma EqualTowers(s1: Stowage, s2: Stowage, r: int, c: int)
    requires SameIds(s1, s2) && UniqueIds(OnBoard(s2)) && InGrid(s1.plan, r, c)
    requires forall y :: y in OnBoard(s1) ==> Carried(s2, y.id) == [y]
    ensures Tower(s1, r, c) == Tower(s2, r, c)
  {
    var t1, t2 := Tower(s1, r, c), Tower(s2, r, c);
    assert TowerIds(t1, t2);
    forall k | 0 <= k < |t1|
      ensures t1[k] == t2[k]
    {
      OnBoardMember(s1, t1[k]);
      OnBoardMember(s2, t2[k]);
      CarriedIsIt(s2, t2[k]);
    }
  }

  lemma EqualShips(s1: Stowage, s2: Stowage)
    requires Shaped(s1) && Shaped(s2) && s1.plan == s2.plan
    requires forall r, c :: InGrid(s1.plan, r, c) ==> Tower(s1, r, c) == Tower(s2, r, c)
    ensures s1 == s2
  {
    forall r | 0 <= r < s1.plan.length
      ensures s1.towers[r] == s2.towers[r]
    {
      assert forall c :: 0 <= c < s1.plan.width ==>
             s1.towers[r][c] == Tower(s1, r, c) && s2.towers[r][c] == Tower(s2, r, c);
    }
  }

  // ----- what the checker has at the end -----

  /** The checker's queue of an id at the end of a port: the queue it began with, turned once
      if the unload scan unloads the id. */
  lemma CheckerQueue(s: Stowage, stop: Stop, cargo: seq<Container>, ordered: seq<Container>, id: string)
    requires Sound(s) && UniqueIds(OnBoard(s)) && multiset(ordered) == multiset(cargo)
    ensures var o := Run(s, cargo, PlanPort(s, stop, cargo, ordered).list);
            Queue(o.ship, o.port, id) ==
              if Unloads(UnloadFrom(s, [], stop.code, 0, 0).list, id) == 0 then Queue(s, cargo, id)
              else TurnOnce(Queue(s, cargo, id))
  {
    assert SameIds(s, s);
    PlanReplayedByIds(s, stop, cargo, ordered, s);
    PlanTells(s, stop, cargo, ordered, s);
    PlanKeepsIdsUniqueThroughout(s, stop, cargo, ordered, s);
    RunTurns(s, cargo, PlanPort(s, stop, cargo, ordered).list, id);
    var n := PlanUnloadsOnce(s, stop, cargo, ordered, id);
    assert n == 1 ==> Turned(Queue(s, cargo, id), n) == TurnOnce(Turned(Queue(s, cargo, id), 0));
  }

  /** x keeps its place in front of the checker's queue of its id: it is not unloaded in the
      scan, or the first waiting container of its id is none or is x again. */
  ghost predicate StaysInFront(x: Container, cargo: seq<Container>, scanned: seq<Instruction>) {
    || Unloads(scanned, x.id) == 0
    || WithId(cargo, x.id) == []
    || WithId(cargo, x.id)[0] == x
  }

  /** What was loaded here: the first container of an id that was not on board. */
  ghost predicate Fresh(s: Stowage, cargo: seq<Container>, scanned: seq<Instruction>, y: Container)
    requires Shaped(s)
  {
    !Aboard(s, y.id) && Unloads(scanned, y.id) == 0 && WithId(cargo, y.id) != [] && WithId(cargo, y.id)[0] == y
  }

  lemma ScanSparesStrangers(s: Stowage, code: string, id: string) returns (u: Scan)
    requires Sound(s) && UniqueIds(OnBoard(s)) && !Aboard(s, id)
    ensures u == UnloadFrom(s, [], code, 0, 0)
    ensures forall i :: i in u.list ==> i.id != id
  {
    UnloadSpeaks(s, [], code, 0, 0, other => other != id);
    u := UnloadFrom(s, [], code, 0, 0);
  }

  lemma LoadAnswers(s: Stowage, stop: Stop, cargo: seq<Container>, ordered: seq<Container>, u: Scan,
                    list: seq<Instruction>)
    requires Sound(s) && UniqueIds(OnBoard(s)) && multiset(ordered) == multiset(cargo) &&
             u == UnloadFrom(s, [], stop.code, 0, 0)
    requires !(LastPort(stop) && cargo != []) && list == PlanPort(s, stop, cargo, ordered).list
    ensures u.list <= list && Answers(list[|u.list|..], ordered, s)
  {
    UnloadScanClears(s, [], stop.code);
    LoadStarts(u.ship, s, u.list, cargo, ordered);
    LoadAllFacts(Loading(Work(u.ship, cargo, u.list), [], {}), s, stop, ordered);
  }

  /** What the load phase adds to the list holds no unload. */
  lemma LoadPart(s: Stowage, stop: Stop, cargo: seq<Container>, ordered: seq<Container>, u: Scan)
      returns (b: seq<Instruction>)
    requires Sound(s) && UniqueIds(OnBoard(s)) && multiset(ordered) == multiset(cargo) &&
             u == UnloadFrom(s, [], stop.code, 0, 0)
    ensures PlanPort(s, stop, cargo, ordered).list == u.list + b && forall i :: i in b ==> !i.Unload?
  {
    var list := PlanPort(s, stop, cargo, ordered).list;
    if LastPort(stop) && cargo != [] {
      b := [];
      assert u.list + [] == u.list;
    } else {
      LoadAnswers(s, stop, cargo, ordered, u, list);
      b := list[|u.list|..];
    }
  }

  /** At one port no id is unloaded twice, and none in the load phase. */
  lemma PlanUnloadsOnce(s: Stowage, stop: Stop, cargo: seq<Container>, ordered: seq<Container>, id: string)
      returns (n: nat)
    requires Sound(s) && UniqueIds(OnBoard(s)) && multiset(ordered) == multiset(cargo)
    ensures n == Unloads(PlanPort(s, stop, cargo, ordered).list, id) ==
            Unloads(UnloadFrom(s, [], stop.code, 0, 0).list, id) <= 1
  {
    var u := UnloadFrom(s, [], stop.code, 0, 0);
    var b := LoadPart(s, stop, cargo, ordered, u);
    n := Unloads(u.list, id);
    UnloadsAppend(u.list, b, id);
    NoUnloads(b, id);
    ScanUnloadsOnce(s, stop.code, id);
  }

  lemma StrangersAreNotUnloaded(s: Stowage, code: string, id: string)
    requires Sound(s) && UniqueIds(OnBoard(s)) && !Aboard(s, id)
    ensures Unloads(UnloadFrom(s, [], code, 0, 0).list, id) == 0
  {
    var u := ScanSparesStrangers(s, code, id);
    NoUnloads(u.list, id);
  }

  /** What is on board after the port was on board before and is not due, or was loaded here. */
  lemma StayedOrFresh(s: Stowage, stop: Stop, cargo: seq<Container>, ordered: seq<Container>, y: Container)
    requires Sound(s) && UniqueIds(OnBoard(s)) && multiset(ordered) == multiset(cargo)
    ensures var p := PlanPort(s, stop, cargo, ordered);
            && (y in OnBoard(s) && y.dest != stop.code ==> y in OnBoard(p.ship))
            && (y in OnBoard(p.ship) ==>
                  (y in OnBoard(s) && y.dest != stop.code) ||
                      Fresh(s, cargo, UnloadFrom(s, [], stop.code, 0, 0).list, y))
  {
    UnloadScanClears(s, [], stop.code);
    if !(LastPort(stop) && cargo != []) {
      PlanLoads(s, stop, cargo, ordered);
      var u := UnloadFrom(s, [], stop.code, 0, 0).ship;
      var chosen := Chosen(ordered, [], Capacity(u), Wanted(s, stop));
      if y in TakenFor(cargo, chosen) {
        TakenForMember(cargo, chosen, y);
        ChosenFacts(ordered, [], Capacity(u), Wanted(s, stop));
        var x :| x in chosen && Taken(cargo, x.id) == y;
        assert Eligible(x, s, stop);
        WithIdFirst(cargo, y.id);
        StrangersAreNotUnloaded(s, stop.code, y.id);
      }
    }
  }

  /** What the checker carries of an id that the planner carries is the front of its queue. */
  lemma FrontOfQueue(p: Stowage, o: Outcome, y: Container) returns (z: Container)
    requires SameIds(p, o.ship) && UniqueIds(OnBoard(p)) && y in OnBoard(p)
    ensures Carried(o.ship, y.id) == [z]
    ensures Queue(o.ship, o.port, y.id) != [] && Queue(o.ship, o.port, y.id)[0] == z
  {
    CarriedIsIt(p, y);
    CarriedAlike(p, o.ship, y.id, 0, 0);
    z := Carried(o.ship, y.id)[0];
  }

  lemma FrontAtStart(s: Stowage, cargo: seq<Container>, scanned: seq<Instruction>, y: Container)
    requires Shaped(s) && UniqueIds(OnBoard(s)) && (y in OnBoard(s) || Fresh(s, cargo, scanned, y))
    ensures y in OnBoard(s) ==> Queue(s, cargo, y.id) == [y] + WithId(cargo, y.id)
    ensures y !in OnBoard(s) ==>
            Unloads(scanned, y.id) == 0 && Queue(s, cargo, y.id) != [] && Queue(s, cargo, y.id)[0] == y
  {
    if y in OnBoard(s) {
      CarriedIsIt(s, y);
    } else {
      CarriedNowhere(s, y.id);
      assert Queue(s, cargo, y.id) == WithId(cargo, y.id);
    }
  }

  /** One container of the planner's ship: the checker carries it too, unless another one of
      its id got in front of it. */
  lemma CarriedByBoth(s: Stowage, cargo: seq<Container>, scanned: seq<Instruction>, p: Stowage, o: Outcome,
                      y: Container)
    requires Shaped(s) && UniqueIds(OnBoard(s)) && SameIds(p, o.ship) && UniqueIds(OnBoard(p)) && y in OnBoard(p)
    requires Queue(o.ship, o.port, y.id) ==
             if Unloads(scanned, y.id) == 0 then Queue(s, cargo, y.id) else TurnOnce(Queue(s, cargo, y.id))
    requires y in OnBoard(s) || Fresh(s, cargo, scanned, y)
    ensures Carried(o.ship, y.id) == [y] <==> (y in OnBoard(s) ==> StaysInFront(y, cargo, scanned))
  {
    FrontAtStart(s, cargo, scanned, y);
    var z := FrontOfQueue(p, o, y);
    assert y in OnBoard(s) ==> TurnOnce([y] + WithId(cargo, y.id)) == WithId(cargo, y.id) + [y];
  }

  /** After one port the checker's ship equals the planner's exactly when every container that
      stays on board keeps its place: the unload scan does not unload it, or no other container
      of its id waits in front. Neither the load phase nor the order of the cargo matters. */
  lemma ShipsAgreeExactly(s: Stowage, stop: Stop, cargo: seq<Container>, ordered: seq<Container>)
    requires Sound(s) && UniqueIds(OnBoard(s)) && multiset(ordered) == multiset(cargo)
    ensures var p := PlanPort(s, stop, cargo, ordered);
            var scanned := UnloadFrom(s, [], stop.code, 0, 0).list;
            Run(s, cargo, p.list).ship == p.ship <==>
            forall x :: x in OnBoard(s) && x.dest != stop.code ==> StaysInFront(x, cargo, scanned)
  {
    var p := PlanPort(s, stop, cargo, ordered);
    var o := Run(s, cargo, p.list);
    var scanned := UnloadFrom(s, [], stop.code, 0, 0).list;
    assert SameIds(s, s);
    PlanReplayedByIds(s, stop, cargo, ordered, s);
    PlanPortKeepsIdsUnique(s, stop, cargo, ordered);
    UniqueAlike(p.ship, o.ship);
    EqualByContents(p.ship, o.ship);
    forall y
      ensures y in OnBoard(s) && y.dest != stop.code ==> y in OnBoard(p.ship)
      ensures y in OnBoard(p.ship) ==>
              (Carried(o.ship, y.id) == [y] <==>
               (y in OnBoard(s) && y.dest != stop.code ==> StaysInFront(y, cargo, scanned)))
    {
      OneContainer(s, stop, cargo, ordered, scanned, y);
    }
  }

  lemma OneContainer(s: Stowage, stop: Stop, cargo: seq<Container>, ordered: seq<Container>, scanned: seq<Instruction>,
                     y: Container)
    requires Sound(s) && UniqueIds(OnBoard(s)) && multiset(ordered) == multiset(cargo)
    requires scanned == UnloadFrom(s, [], stop.code, 0, 0).list
    ensures var p := PlanPort(s, stop, cargo, ordered);
            var o := Run(s, cargo, p.list);
            && (y in OnBoard(s) && y.dest != stop.code ==> y in OnBoard(p.ship))
            && (y in OnBoard(p.ship) ==>
                  (Carried(o.ship, y.id) == [y] <==>
                   (y in OnBoard(s) && y.dest != stop.code ==> StaysInFront(y, cargo, scanned))))
  {
    var p := PlanPort(s, stop, cargo, ordered);
    StayedOrFresh(s, stop, cargo, ordered, y);
    if y in OnBoard(p.ship) {
      assert SameIds(s, s);
      PlanReplayedByIds(s, stop, cargo, ordered, s);
      PlanPortKeepsIdsUnique(s, stop, cargo, ordered);
      CheckerQueue(s, stop, cargo, ordered, y.id);
      assert y in OnBoard(s) ==> Aboard(s, y.id);
      CarriedByBoth(s, cargo, scanned, p.ship, Run(s, cargo, p.list), y);
    }
  }

  /** A container on board that is unloaded and put back, while another one of its id waits,
      makes the ships differ. */
  lemma OneClashDiffers(s: Stowage, stop: Stop, cargo: seq<Container>, ordered: seq<Container>, x: Container)
    requires Sound(s) && UniqueIds(OnBoard(s)) && multiset(ordered) == multiset(cargo)
    requires x in OnBoard(s) && x.dest != stop.code && WithId(cargo, x.id) != [] && WithId(cargo, x.id)[0] != x
    requires Unloads(UnloadFrom(s, [], stop.code, 0, 0).list, x.id) != 0
    ensures var p := PlanPort(s, stop, cargo, ordered); Run(s, cargo, p.list).ship != p.ship
  {
    ShipsAgreeExactly(s, stop, cargo, ordered);
  }

  lemma CarriedIsOnBoard(s: Stowage, z: Container)
    requires Shaped(s) && Carried(s, z.id) == [z]
    ensures z in OnBoard(s)
  {
    var cs := CarriedCountFrom(s, z, 0, 0);
    assert multiset([z])[z] == 1;
  }

  /** After such a clash the checker has the first waiting container of the id on board, and the
      planner has the one that stayed. */
  lemma OneClashSwaps(s: Stowage, stop: Stop, cargo: seq<Container>, ordered: seq<Container>, x: Container)
    requires Sound(s) && UniqueIds(OnBoard(s)) && multiset(ordered) == multiset(cargo)
    requires x in OnBoard(s) && x.dest != stop.code && WithId(cargo, x.id) != []
    requires Unloads(UnloadFrom(s, [], stop.code, 0, 0).list, x.id) != 0
    ensures WithId(cargo, x.id)[0] in OnBoard(Run(s, cargo, PlanPort(s, stop, cargo, ordered).list).ship)
    ensures x in OnBoard(PlanPort(s, stop, cargo, ordered).ship)
  {
    var p := PlanPort(s, stop, cargo, ordered);
    var o := Run(s, cargo, p.list);
    assert SameIds(s, s);
    PlanReplayedByIds(s, stop, cargo, ordered, s);
    PlanPortKeepsIdsUnique(s, stop, cargo, ordered);
    StayedOrFresh(s, stop, cargo, ordered, x);
    FrontTurnedAway(s, stop, cargo, ordered, x, p.ship, o);
  }

  lemma FrontTurnedAway(s: Stowage, stop: Stop, cargo: seq<Container>, ordered: seq<Container>, x: Container,
                        p: Stowage, o: Outcome)
    requires Sound(s) && UniqueIds(OnBoard(s)) && multiset(ordered) == multiset(cargo)
    requires x in OnBoard(s) && WithId(cargo, x.id) != []
    requires Unloads(UnloadFrom(s, [], stop.code, 0, 0).list, x.id) != 0
    requires o == Run(s, cargo, PlanPort(s, stop, cargo, ordered).list)
    requires SameIds(p, o.ship) && UniqueIds(OnBoard(p)) && x in OnBoard(p)
    ensures WithId(cargo, x.id)[0] in OnBoard(o.ship)
  {
    CheckerQueue(s, stop, cargo, ordered, x.id);
    FrontAtStart(s, cargo, [], x);
    TurnFirst(x, WithId(cargo, x.id));
    var z := FrontOfQueue(p, o, x);
    assert z == WithId(cargo, x.id)[0];
    CarriedIsOnBoard(o.ship, z);
  }
}
