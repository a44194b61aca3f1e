/** Whole voyages: the planner port after port along its route, and the checker beside it. */
module Voyage {
  import opened Cargo
  import opened ShipSpec
  import opened Replay
  import opened PlannerSpec
  import opened PlannerFacts
  import opened LoadFacts
  import opened LoadCut
  import opened Lockstep
  import opened IdsOnBoard
  import opened Rotation
  import opened Agreement
  import opened AuditSpec
  import opened Counts
  import opened Audit
  import opened Planner

  /** A travel and a run of the planner over its first stops, or over all of them: the port code
      that the checker takes from the file of each stop, the waiting cargo, the order in which
      the algorithm puts it, and what the planner makes of the stop. */
  datatype Trip = Trip(plan: ShipPlan, route: seq<string>, codes: seq<string>, verifyId: string -> bool,
                       cargos: seq<seq<Container>>, orders: seq<seq<Container>>, plans: seq<PortPlan>)

  ghost predicate ValidTrip(t: Trip) {
    && ValidPlan(t.plan) && |t.codes| == |t.route|
    && |t.cargos| == |t.orders| == |t.plans| <= |t.route|
    && forall k :: 0 <= k < |t.plans| ==> Planned(t, k)
  }

  /** Stop k was planned from the ship as it stood, with its cargo put in some order. */
  ghost predicate Planned(t: Trip, k: nat)
    requires |t.cargos| == |t.orders| == |t.plans| <= |t.route| && k < |t.plans|
  {
    && multiset(t.orders[k]) == multiset(t.cargos[k])
    && ValidPlan(t.plan) && Shaped(ShipAfter(t, k))
    && t.plans[k] == PlanPort(ShipAfter(t, k), StopAt(t, k), t.cargos[k], t.orders[k])
  }

  function StopAt(t: Trip, k: nat): Stop
    requires k < |t.route|
  {
    Stop(t.route, k, t.route[k], t.verifyId)
  }

  /** The planner's ship when it reaches stop k, which is as it left the stop before. */
  ghost function ShipAfter(t: Trip, k: nat): Stowage
    requires ValidPlan(t.plan) && k <= |t.plans|
  {
    if k == 0 then Empty(t.plan) else t.plans[k - 1].ship
  }

  lemma EmptyShip(p: ShipPlan)
    requires ValidPlan(p)
    ensures OnBoard(Empty(p)) == multiset{} && UniqueIds(OnBoard(Empty(p)))
  {
    EmptyHasNothing(p, 0, 0);
  }

  ghost predicate GoodShip(s: Stowage, p: ShipPlan) {
    Sound(s) && UniqueIds(OnBoard(s)) && s.plan == p
  }

  lemma PortKeepsGood(t: Trip, k: nat)
    requires ValidTrip(t) && k < |t.plans| && GoodShip(ShipAfter(t, k), t.plan)
    ensures GoodShip(ShipAfter(t, k + 1), t.plan)
  {
    assert Planned(t, k);
    PlanPortKeepsIdsUnique(ShipAfter(t, k), StopAt(t, k), t.cargos[k], t.orders[k]);
  }

  /** In every state between two stops of every voyage the ship is sound and no two containers
      on board share an id, whatever the cargo. */
  lemma {:induction false} VoyageKeepsIdsUnique(t: Trip, k: nat)
    requires ValidTrip(t) && k <= |t.plans|
    ensures GoodShip(ShipAfter(t, k), t.plan)
  {
    if k == 0 {
      EmptyShip(t.plan);
    } else {
      VoyageKeepsIdsUnique(t, k - 1);
      PortKeepsGood(t, k - 1);
    }
  }

  // ----- delivery -----

  /** What is chosen at stop k brings only containers for later stops on board. */
  ghost predicate StopSends(t: Trip, k: nat)
    requires ValidTrip(t) && k < |t.plans|
  {
    Shaped(ShipAfter(t, k)) && SendsOnward(ShipAfter(t, k), StopAt(t, k), t.cargos[k], t.orders[k])
  }

  lemma StopDelivers(t: Trip, k: nat)
    requires ValidTrip(t) && k < |t.plans| && GoodShip(ShipAfter(t, k), t.plan)
    ensures Shaped(ShipAfter(t, k + 1))
    ensures Bound(ShipAfter(t, k + 1), t.route, k + 1) <==> Bound(ShipAfter(t, k), t.route, k) && StopSends(t, k)
  {
    assert Planned(t, k);
    PortSendsOnward(ShipAfter(t, k), StopAt(t, k), t.cargos[k], t.orders[k]);
  }

  /** Stop by stop, whether it sends only such containers onward. */
  ghost function Sends(t: Trip): (sends: seq<bool>)
    requires ValidTrip(t)
    ensures |sends| == |t.plans|
  {
    seq(|t.plans|, k requires 0 <= k < |t.plans| => StopSends(t, k))
  }

  lemma StopDeliversBy(t: Trip, k: nat, sends: seq<bool>)
    requires ValidTrip(t) && sends == Sends(t) && k < |t.plans| && GoodShip(ShipAfter(t, k), t.plan)
    ensures Shaped(ShipAfter(t, k + 1))
    ensures Bound(ShipAfter(t, k + 1), t.route, k + 1) <==> Bound(ShipAfter(t, k), t.route, k) && sends[k]
  {
    StopDelivers(t, k);
  }

  predicate AllTrue(bs: seq<bool>) {
    forall k :: 0 <= k < |bs| ==> bs[k]
  }

  lemma AllTrueMore(bs: seq<bool>, k: nat)
    requires k < |bs|
    ensures AllTrue(bs[..k + 1]) <==> AllTrue(bs[..k]) && bs[k]
  {
    assert bs[..k + 1] == bs[..k] + [bs[k]];
  }

  /** A chain of answers, each of which asks for the one before and for one thing more. */
  lemma {:induction false} ChainOfAnds(bound: seq<bool>, sends: seq<bool>, k: nat)
    requires |bound| == |sends| + 1 && bound[0] && k <= |sends|
    requires forall j :: 0 <= j < |sends| ==> bound[j + 1] == (bound[j] && sends[j])
    ensures bound[k] <==> AllTrue(sends[..k])
  {
    if k > 0 {
      ChainOfAnds(bound, sends, k - 1);
      AllTrueMore(sends, k - 1);
      assert bound[k - 1 + 1] == (bound[k - 1] && sends[k - 1]);
    }
  }

  /** Every container on board at stop k is destined for it or a later one. */
  ghost predicate BoundAt(t: Trip, k: nat)
    requires ValidTrip(t) && k <= |t.plans|
  {
    Shaped(ShipAfter(t, k)) && Bound(ShipAfter(t, k), t.route, k)
  }

  lemma ShipIsShaped(t: Trip, k: nat)
    requires ValidTrip(t) && k <= |t.plans|
    ensures Shaped(ShipAfter(t, k))
  {
    VoyageKeepsIdsUnique(t, k);
  }

  lemma StopIsBound(t: Trip, k: nat, sends: seq<bool>)
    requires ValidTrip(t) && sends == Sends(t) && k < |t.plans|
    requires Shaped(ShipAfter(t, k)) && Shaped(ShipAfter(t, k + 1))
    ensures Bound(ShipAfter(t, k + 1), t.route, k + 1) <==> Bound(ShipAfter(t, k), t.route, k) && sends[k]
  {
    VoyageKeepsIdsUnique(t, k);
    StopDeliversBy(t, k, sends);
  }

  lemma BoundAtNext(t: Trip, k: nat, sends: seq<bool>)
    requires ValidTrip(t) && sends == Sends(t) && k < |t.plans|
    ensures BoundAt(t, k + 1) == (BoundAt(t, k) && sends[k])
  {
    ShipIsShaped(t, k);
    ShipIsShaped(t, k + 1);
    StopIsBound(t, k, sends);
  }

  lemma BoundAtStart(t: Trip)
    requires ValidTrip(t)
    ensures BoundAt(t, 0)
  {
    VoyageKeepsIdsUnique(t, 0);
    EmptyShip(t.plan);
  }

  /** When the ship leaves stop k - 1, every container on board is destined for stop k or a later
      one exactly when each stop so far sent only such containers onward. */
  lemma VoyageDelivers(t: Trip, k: nat)
    requires ValidTrip(t) && k <= |t.plans|
    ensures BoundAt(t, k) <==> AllTrue(Sends(t)[..k])
  {
    var sends := Sends(t);
    var bound := seq(|t.plans| + 1, j requires 0 <= j <= |t.plans| => BoundAt(t, j));
    BoundAtStart(t);
    forall j | 0 <= j < |sends|
      ensures bound[j + 1] == (bound[j] && sends[j])
    {
      BoundAtNext(t, j, sends);
    }
    ChainOfAnds(bound, sends, k);
  }

  /** The ship is empty after the last stop exactly when each stop sent only containers for later
      stops onward. */
  lemma VoyageEndsEmpty(t: Trip)
    requires ValidTrip(t) && |t.plans| == |t.route|
    ensures Shaped(ShipAfter(t, |t.route|))
    ensures OnBoard(ShipAfter(t, |t.route|)) == multiset{} <==> AllTrue(Sends(t))
  {
    var sends := Sends(t);
    VoyageDelivers(t, |t.route|);
    VoyageKeepsIdsUnique(t, |t.route|);
    NothingBound(ShipAfter(t, |t.route|), t.route);
    assert sends[..|t.route|] == sends;
  }

  lemma NothingBound(s: Stowage, route: seq<string>)
    requires Shaped(s)
    ensures Bound(s, route, |route|) <==> OnBoard(s) == multiset{}
  {
    assert forall x :: NextVisit(route, |route|, x) == |route|;
    if Bound(s, route, |route|) {
      assert forall x :: x !in OnBoard(s);
    }
  }

  /** In the cargo of stop k each eligible id is led by a container for a later stop. */
  ghost predicate StopLed(t: Trip, k: nat)
    requires ValidTrip(t) && k < |t.plans|
  {
    Shaped(ShipAfter(t, k)) && LedOnward(t.cargos[k], ShipAfter(t, k), StopAt(t, k))
  }

  /** That is enough for the stop, and it holds when no id waits twice there. */
  lemma LedStopSends(t: Trip, k: nat)
    requires ValidTrip(t) && k < |t.plans|
    ensures DistinctIds(t.cargos[k]) ==> StopLed(t, k)
    ensures StopLed(t, k) ==> StopSends(t, k)
  {
    assert Planned(t, k);
    if DistinctIds(t.cargos[k]) {
      DistinctAreLed(t.cargos[k], ShipAfter(t, k), StopAt(t, k));
    }
    if StopLed(t, k) && !(LastPort(StopAt(t, k)) && t.cargos[k] != []) {
      LedExactly(ShipAfter(t, k), StopAt(t, k), t.cargos[k], t.orders[k]);
    }
  }

  ghost predicate DistinctPerPort(t: Trip) {
    forall k :: 0 <= k < |t.cargos| ==> DistinctIds(t.cargos[k])
  }

  lemma DistinctStopSends(t: Trip, k: nat, sends: seq<bool>)
    requires ValidTrip(t) && DistinctPerPort(t) && k < |t.plans| && sends == Sends(t)
    ensures sends[k]
  {
    LedStopSends(t, k);
  }

  /** When no id waits twice at one stop, everything is delivered and the ship ends up empty. */
  lemma DistinctIsDelivered(t: Trip)
    requires ValidTrip(t) && DistinctPerPort(t)
    ensures AllTrue(Sends(t))
    ensures |t.plans| == |t.route| ==> Shaped(ShipAfter(t, |t.route|)) && OnBoard(ShipAfter(t, |t.route|)) == multiset{}
  {
    var sends := Sends(t);
    forall k | 0 <= k < |sends|
      ensures sends[k]
    {
      DistinctStopSends(t, k, sends);
    }
    if |t.plans| == |t.route| {
      VoyageEndsEmpty(t);
    }
  }

  // ----- the checker beside the planner -----

  /** The checker's ship when it reaches stop k: it replays the planner's lists with the cargo it read itself. */
  ghost function CheckerShip(t: Trip, k: nat): (s: Stowage)
    requires ValidPlan(t.plan) && k <= |t.plans| && |t.cargos| == |t.plans|
    ensures Shaped(s) && s.plan == t.plan
  {
    if k == 0 then Empty(t.plan) else Run(CheckerShip(t, k - 1), t.cargos[k - 1], t.plans[k - 1].list).ship
  }

  ghost function ErrorsAt(t: Trip, k: nat): nat
    requires ValidTrip(t) && k < |t.plans|
  {
    PortErrors(CheckerShip(t, k), t.codes[k], t.cargos[k], t.plans[k].list, k == |t.route| - 1)
  }

  lemma SameIdsItself(s: Stowage)
    requires Shaped(s)
    ensures SameIds(s, s)
  {
  }

  lemma StopIsLegal(t: Trip, k: nat, s2: Stowage)
    requires ValidTrip(t) && k < |t.plans| && GoodShip(ShipAfter(t, k), t.plan) && SameIds(ShipAfter(t, k), s2)
    ensures AllAccepted(s2, t.cargos[k], t.plans[k].list)
    ensures SameIds(ShipAfter(t, k + 1), Run(s2, t.cargos[k], t.plans[k].list).ship)
  {
    assert Planned(t, k);
    PlanReplayedByIds(ShipAfter(t, k), StopAt(t, k), t.cargos[k], t.orders[k], s2);
  }

  lemma {:induction false} VoyageLooksAlike(t: Trip, k: nat)
    requires ValidTrip(t) && k <= |t.plans|
    ensures SameIds(ShipAfter(t, k), CheckerShip(t, k))
  {
    if k == 0 {
      SameIdsItself(Empty(t.plan));
    } else {
      VoyageLooksAlike(t, k - 1);
      VoyageKeepsIdsUnique(t, k - 1);
      StopIsLegal(t, k - 1, CheckerShip(t, k - 1));
    }
  }

  /** On every voyage, whatever the cargo, the checker finds every instruction legal at its turn,
      and its ship looks like the planner's by ids. */
  lemma VoyageIsLegal(t: Trip, k: nat)
    requires ValidTrip(t) && k < |t.plans|
    ensures IllegalIn(CheckerShip(t, k), t.cargos[k], t.plans[k].list) == 0
    ensures SameIds(ShipAfter(t, k), CheckerShip(t, k)) && SameIds(ShipAfter(t, k + 1), CheckerShip(t, k + 1))
  {
    VoyageLooksAlike(t, k);
    VoyageLooksAlike(t, k + 1);
    VoyageKeepsIdsUnique(t, k);
    StopIsLegal(t, k, CheckerShip(t, k));
    NoneIllegal(CheckerShip(t, k), t.cargos[k], t.plans[k].list);
  }

  lemma StopKeepsIdsUnique(t: Trip, k: nat, s2: Stowage)
    requires ValidTrip(t) && k < |t.plans| && GoodShip(ShipAfter(t, k), t.plan) && SameIds(ShipAfter(t, k), s2)
    ensures UniqueThroughout(s2, t.cargos[k], t.plans[k].list)
  {
    assert Planned(t, k);
    PlanKeepsIdsUniqueThroughout(ShipAfter(t, k), StopAt(t, k), t.cargos[k], t.orders[k], s2);
  }

  /** On every voyage, whatever the cargo, no two containers on board share an id: not between
      two stops and not between two instructions, on neither ship. */
  lemma VoyageKeepsIdsUniqueThroughout(t: Trip, k: nat)
    requires ValidTrip(t) && k < |t.plans|
    ensures GoodShip(ShipAfter(t, k), t.plan)
    ensures UniqueThroughout(ShipAfter(t, k), t.cargos[k], t.plans[k].list)
    ensures UniqueThroughout(CheckerShip(t, k), t.cargos[k], t.plans[k].list)
  {
    VoyageKeepsIdsUnique(t, k);
    VoyageLooksAlike(t, k);
    SameIdsItself(ShipAfter(t, k));
    StopKeepsIdsUnique(t, k, ShipAfter(t, k));
    StopKeepsIdsUnique(t, k, CheckerShip(t, k));
  }

  /** No id waits at two different stops. */
  ghost predicate DistinctAcrossPorts(t: Trip) {
    forall j, k, x, y :: 0 <= j < k < |t.cargos| && x in t.cargos[j] && y in t.cargos[k] ==> x.id != y.id
  }

  lemma PortBringsCargo(s: Stowage, stop: Stop, cargo: seq<Container>, ordered: seq<Container>, z: Container)
    requires Sound(s) && UniqueIds(OnBoard(s)) && multiset(ordered) == multiset(cargo)
    requires z in OnBoard(PlanPort(s, stop, cargo, ordered).ship)
    ensures z in OnBoard(s) || z in cargo
  {
    UnloadScanClears(s, [], stop.code);
    var u := UnloadFrom(s, [], stop.code, 0, 0).ship;
    assert OnBoard(u)[z] <= OnBoard(s)[z];
    if !(LastPort(stop) && cargo != []) {
      PlanLoads(s, stop, cargo, ordered);
      TakenForMember(cargo, Chosen(ordered, [], Capacity(u), Wanted(s, stop)), z);
    }
  }

  lemma StopBringsCargo(t: Trip, k: nat, z: Container)
    requires ValidTrip(t) && k < |t.plans| && GoodShip(ShipAfter(t, k), t.plan)
    requires Shaped(ShipAfter(t, k + 1)) && z in OnBoard(ShipAfter(t, k + 1))
    ensures z in OnBoard(ShipAfter(t, k)) || z in t.cargos[k]
  {
    assert Planned(t, k);
    PortBringsCargo(ShipAfter(t, k), StopAt(t, k), t.cargos[k], t.orders[k], z);
  }

  lemma {:induction false} OnBoardCameFrom(t: Trip, k: nat, z: Container)
    requires ValidTrip(t) && k <= |t.plans| && Shaped(ShipAfter(t, k)) && z in OnBoard(ShipAfter(t, k))
    ensures exists j :: 0 <= j < k && z in t.cargos[j]
  {
    if k == 0 {
      EmptyShip(t.plan);
    } else {
      VoyageKeepsIdsUnique(t, k - 1);
      StopBringsCargo(t, k - 1, z);
      if z !in t.cargos[k - 1] {
        OnBoardCameFrom(t, k - 1, z);
      }
    }
  }

  lemma CargoIsApart(t: Trip, k: nat)
    requires ValidTrip(t) && DistinctAcrossPorts(t) && k < |t.plans| && Shaped(ShipAfter(t, k))
    ensures Apart(ShipAfter(t, k), t.cargos[k])
  {
    forall id | Aboard(ShipAfter(t, k), id)
      ensures WithId(t.cargos[k], id) == []
    {
      var z :| z in OnBoard(ShipAfter(t, k)) && z.id == id;
      OnBoardCameFrom(t, k, z);
      WithIdNone(t.cargos[k], id);
    }
  }

  lemma StopAgrees(t: Trip, k: nat)
    requires ValidTrip(t) && k < |t.plans| && GoodShip(ShipAfter(t, k), t.plan) && Apart(ShipAfter(t, k), t.cargos[k])
    ensures Run(ShipAfter(t, k), t.cargos[k], t.plans[k].list).ship == ShipAfter(t, k + 1)
  {
    assert Planned(t, k);
    PlanReplayed(ShipAfter(t, k), StopAt(t, k), t.cargos[k], t.orders[k]);
  }

  lemma NextStopAgrees(t: Trip, k: nat)
    requires ValidTrip(t) && DistinctAcrossPorts(t) && k < |t.plans| && CheckerShip(t, k) == ShipAfter(t, k)
    ensures CheckerShip(t, k + 1) == ShipAfter(t, k + 1)
  {
    VoyageKeepsIdsUnique(t, k);
    CargoIsApart(t, k);
    StopAgrees(t, k);
  }

  /** When no id waits at two stops, the checker's ship equals the planner's at every stop. */
  lemma {:induction false} VoyageShipsAgree(t: Trip, k: nat)
    requires ValidTrip(t) && DistinctAcrossPorts(t) && k <= |t.plans|
    ensures CheckerShip(t, k) == ShipAfter(t, k)
  {
    if k > 0 {
      VoyageShipsAgree(t, k - 1);
      NextStopAgrees(t, k - 1);
    }
  }

  /** The planner's container with the id is on board at stop k and due there. */
  ghost predicate DueAt(t: Trip, k: nat, id: string)
    requires ValidTrip(t) && k < |t.plans|
  {
    Shaped(ShipAfter(t, k)) && DueAboard(ShipAfter(t, k), t.route[k], id)
  }

  /** Every container on the checker's ship that it takes for due stands where the planner has
      one that is due. */
  ghost predicate DueAlike(t: Trip, k: nat)
    requires ValidTrip(t) && k < |t.plans|
  {
    forall y :: y in OnBoard(CheckerShip(t, k)) && y.dest == t.codes[k] ==> DueAt(t, k, y.id)
  }

  lemma StopPassesAudit(t: Trip, k: nat)
    requires ValidTrip(t) && k < |t.plans| && GoodShip(ShipAfter(t, k), t.plan)
    ensures k < |t.route| - 1 ==> LoadedErrors(t.plans[k].list, t.cargos[k]) == 0
    ensures forall id :: UnloadStands(t.plans[k].list, id) <==> DueAt(t, k, id)
  {
    assert Planned(t, k);
    PlanPassesAudit(ShipAfter(t, k), StopAt(t, k), t.cargos[k], t.orders[k]);
    forall id
      ensures UnloadStands(t.plans[k].list, id) <==> DueAt(t, k, id)
    {
      PassesExactly(ShipAfter(t, k), StopAt(t, k), t.cargos[k], t.orders[k], id);
    }
  }

  /** Whatever the cargo, and whether or not the ships came apart: all errors of a stop are errors
      of the unload audit, and there is none exactly when what the checker takes for due is due
      for the planner. */
  lemma StopErrorsExactly(t: Trip, k: nat)
    requires ValidTrip(t) && k < |t.plans|
    ensures ErrorsAt(t, k) == UnloadedErrorsFrom(t.plans[k].list, CheckerShip(t, k), t.codes[k], 0, 0)
    ensures ErrorsAt(t, k) == 0 <==> DueAlike(t, k)
  {
    VoyageKeepsIdsUnique(t, k);
    VoyageIsLegal(t, k);
    StopPassesAudit(t, k);
    NoUnloadedErrors(t.plans[k].list, CheckerShip(t, k), t.codes[k], 0, 0);
  }

  /** How many errors a stop has: one for each container on the checker's ship that it takes for due
      where the planner has none of that id that is. */
  lemma StopErrorsCounted(t: Trip, k: nat) returns (bad: multiset<Container>)
    requires ValidTrip(t) && k < |t.plans|
    ensures forall y :: bad[y] ==
              if y.dest == t.codes[k] && !DueAt(t, k, y.id) then OnBoard(CheckerShip(t, k))[y] else 0
    ensures ErrorsAt(t, k) == |bad|
  {
    StopErrorsExactly(t, k);
    VoyageKeepsIdsUnique(t, k);
    StopPassesAudit(t, k);
    var board;
    bad, board := UnloadedErrorsCounted(t.plans[k].list, CheckerShip(t, k), t.codes[k], 0, 0);
  }

  /** At a stop that both ships reach with the same containers no error is recorded exactly when
      the checker has the code of the stop, or no container on board is destined for its code. */
  lemma AgreedStopErrors(t: Trip, k: nat)
    requires ValidTrip(t) && k < |t.plans| && CheckerShip(t, k) == ShipAfter(t, k)
    ensures ErrorsAt(t, k) == 0 <==>
            t.codes[k] == t.route[k] || forall y :: y in OnBoard(CheckerShip(t, k)) ==> y.dest != t.codes[k]
  {
    VoyageKeepsIdsUnique(t, k);
    StopErrorsExactly(t, k);
    assert Planned(t, k);
    forall y | y in OnBoard(CheckerShip(t, k)) && y.dest == t.codes[k]
      ensures DueAt(t, k, y.id) <==> t.codes[k] == t.route[k]
    {
      if DueAt(t, k, y.id) {
        var x :| x in OnBoard(ShipAfter(t, k)) && x.id == y.id && x.dest == t.route[k];
        assert x == y;
      }
    }
  }

  /** The ships leave such a stop the same exactly when each container that stays on board keeps
      its place in front of the others of its id. */
  lemma NextStopAgreesExactly(t: Trip, k: nat)
    requires ValidTrip(t) && k < |t.plans| && CheckerShip(t, k) == ShipAfter(t, k)
    ensures CheckerShip(t, k + 1) == ShipAfter(t, k + 1) <==>
            var scanned := UnloadFrom(CheckerShip(t, k), [], t.route[k], 0, 0).list;
            forall x :: x in OnBoard(CheckerShip(t, k)) && x.dest != t.route[k] ==>
                StaysInFront(x, t.cargos[k], scanned)
  {
    VoyageKeepsIdsUnique(t, k);
    assert Planned(t, k);
    ShipsAgreeExactly(ShipAfter(t, k), StopAt(t, k), t.cargos[k], t.orders[k]);
  }

  /** x stays on board at stop k, where it is dug out while another container of its id waits in front. */
  ghost predicate ClashesAt(t: Trip, k: nat, x: Container)
    requires ValidTrip(t) && k < |t.plans|
  {
    && Shaped(ShipAfter(t, k)) && x in OnBoard(ShipAfter(t, k)) && x.dest != t.route[k]
    && WithId(t.cargos[k], x.id) != [] && WithId(t.cargos[k], x.id)[0] != x
    && Unloads(UnloadFrom(ShipAfter(t, k), [], t.route[k], 0, 0).list, x.id) != 0
  }

  /** After such a clash the checker has the container that waited, and the planner has x. */
  lemma ClashSwaps(t: Trip, k: nat, x: Container) returns (y: Container)
    requires ValidTrip(t) && k < |t.plans| && CheckerShip(t, k) == ShipAfter(t, k) && ClashesAt(t, k, x)
    ensures y == WithId(t.cargos[k], x.id)[0] && y.id == x.id && y != x
    ensures y in OnBoard(CheckerShip(t, k + 1))
    ensures Shaped(ShipAfter(t, k + 1)) && x in OnBoard(ShipAfter(t, k + 1))
  {
    VoyageKeepsIdsUnique(t, k);
    VoyageKeepsIdsUnique(t, k + 1);
    assert Planned(t, k);
    y := WithId(t.cargos[k], x.id)[0];
    assert y in WithId(t.cargos[k], x.id);
    OneClashSwaps(ShipAfter(t, k), StopAt(t, k), t.cargos[k], t.orders[k], x);
  }

  /** Then the ships differ; and when the checker takes its container for due, while x is not due for
      the planner, it counts an error although all is as it should be. */
  lemma SwapIsCounted(t: Trip, k: nat, x: Container, y: Container)
    requires ValidTrip(t) && k < |t.plans| && y.id == x.id && y != x
    requires y in OnBoard(CheckerShip(t, k)) && Shaped(ShipAfter(t, k)) && x in OnBoard(ShipAfter(t, k))
    ensures CheckerShip(t, k) != ShipAfter(t, k)
    ensures y.dest == t.codes[k] && x.dest != t.route[k] ==> ErrorsAt(t, k) > 0
  {
    VoyageKeepsIdsUnique(t, k);
    BothAboardDiffer(ShipAfter(t, k), CheckerShip(t, k), x, y);
    if y.dest == t.codes[k] && x.dest != t.route[k] {
      NotDueBeside(ShipAfter(t, k), t.route[k], x);
      TakenForDue(t, k, y);
    }
  }

  lemma BothAboardDiffer(s: Stowage, s2: Stowage, x: Container, y: Container)
    requires Shaped(s) && Shaped(s2) && UniqueIds(OnBoard(s)) && x in OnBoard(s) && y in OnBoard(s2) && x != y &&
             x.id == y.id
    ensures s2 != s
  {
  }

  lemma NotDueBeside(s: Stowage, code: string, x: Container)
    requires Shaped(s) && UniqueIds(OnBoard(s)) && x in OnBoard(s) && x.dest != code
    ensures !DueAboard(s, code, x.id)
  {
  }

  lemma TakenForDue(t: Trip, k: nat, y: Container)
    requires ValidTrip(t) && k < |t.plans| && y in OnBoard(CheckerShip(t, k)) && y.dest == t.codes[k] &&
             !DueAt(t, k, y.id)
    ensures ErrorsAt(t, k) > 0
  {
    StopErrorsExactly(t, k);
  }

  /** At stop k each container that stays keeps its place in front of the others of its id, judged
      by the planner's ship and the cargo alone. */
  ghost predicate KeepsPlaces(t: Trip, k: nat)
    requires ValidTrip(t) && k < |t.plans|
  {
    Shaped(ShipAfter(t, k)) &&
    var scanned := UnloadFrom(ShipAfter(t, k), [], t.route[k], 0, 0).list;
    forall x :: x in OnBoard(ShipAfter(t, k)) && x.dest != t.route[k] ==> StaysInFront(x, t.cargos[k], scanned)
  }

  ghost predicate ShipsAgreeAt(t: Trip, k: nat)
    requires ValidTrip(t) && k <= |t.plans|
  {
    CheckerShip(t, k) == ShipAfter(t, k)
  }

  lemma NextStopKeepsPlaces(t: Trip, k: nat)
    requires ValidTrip(t) && k < |t.plans| && ShipsAgreeAt(t, k)
    ensures ShipsAgreeAt(t, k + 1) <==> KeepsPlaces(t, k)
  {
    NextStopAgreesExactly(t, k);
  }

  /** Answers that begin with yes, each of which, after a yes, asks for one thing more. */
  lemma {:induction false} ChainWhileTrue(agrees: seq<bool>, keeps: seq<bool>, k: nat)
    requires |agrees| == |keeps| + 1 && agrees[0] && k <= |keeps|
    requires forall j :: 0 <= j < |keeps| && agrees[j] ==> agrees[j + 1] == keeps[j]
    ensures AllTrue(agrees[..k + 1]) <==> AllTrue(keeps[..k])
  {
    AllTrueMore(agrees, k);
    if k > 0 {
      ChainWhileTrue(agrees, keeps, k - 1);
      AllTrueMore(keeps, k - 1);
      AllTrueMore(agrees, k - 1);
      assert agrees[k - 1] ==> agrees[k - 1 + 1] == keeps[k - 1];
    }
  }

  ghost function Agrees(t: Trip): (agrees: seq<bool>)
    requires ValidTrip(t)
    ensures |agrees| == |t.plans| + 1
    ensures forall j :: 0 <= j <= |t.plans| ==> agrees[j] == ShipsAgreeAt(t, j)
  {
    seq(|t.plans| + 1, j requires 0 <= j <= |t.plans| => ShipsAgreeAt(t, j))
  }

  ghost function Keeps(t: Trip): (keeps: seq<bool>)
    requires ValidTrip(t)
    ensures |keeps| == |t.plans|
    ensures forall j :: 0 <= j < |t.plans| ==> keeps[j] == KeepsPlaces(t, j)
  {
    seq(|t.plans|, j requires 0 <= j < |t.plans| => KeepsPlaces(t, j))
  }

  /** The two ships are equal at every stop up to k exactly when places were kept at every stop
      before k. */
  lemma VoyageAgreesExactly(t: Trip, k: nat)
    requires ValidTrip(t) && k <= |t.plans|
    ensures AllTrue(Agrees(t)[..k + 1]) <==> AllTrue(Keeps(t)[..k])
  {
    var agrees, keeps := Agrees(t), Keeps(t);
    assert agrees[0] == ShipsAgreeAt(t, 0);
    forall j | 0 <= j < |keeps| && agrees[j]
      ensures agrees[j + 1] == keeps[j]
    {
      NextStopKeepsPlaces(t, j);
    }
    ChainWhileTrue(agrees, keeps, k);
  }

  /** Where the checker has another code than the stop, no waiting container is destined for it. */
  ghost predicate CodesApart(t: Trip)
    requires |t.codes| == |t.route|
  {
    forall k :: 0 <= k < |t.codes| && t.codes[k] != t.route[k] ==>
      forall j, x :: 0 <= j < |t.cargos| && x in t.cargos[j] ==> x.dest != t.codes[k]
  }

  /** When no id waits at two stops, and no container is destined for a code that the checker has
      in place of a stop's, the checker records no error at any stop. */
  lemma VoyageHasNoErrors(t: Trip, k: nat)
    requires ValidTrip(t) && DistinctAcrossPorts(t) && CodesApart(t) && k < |t.plans|
    ensures ErrorsAt(t, k) == 0
  {
    VoyageShipsAgree(t, k);
    AgreedStopErrors(t, k);
    if t.codes[k] != t.route[k] {
      VoyageKeepsIdsUnique(t, k);
      forall y | y in OnBoard(CheckerShip(t, k))
        ensures y.dest != t.codes[k]
      {
        OnBoardCameFrom(t, k, y);
      }
    }
  }

  // ----- the score -----

  ghost function TotalScore(t: Trip, k: nat): int
    requires ValidTrip(t) && k <= |t.plans|
  {
    if k == 0 then 0 else TotalScore(t, k - 1) + Score(t.plans[k - 1].list)
  }

  ghost function TotalCount(t: Trip, k: nat, what: Type): nat
    requires ValidTrip(t) && k <= |t.plans|
  {
    if k == 0 then 0 else TotalCount(t, k - 1, what) + Count(t.plans[k - 1].list, what)
  }

  lemma {:induction false} SameIdsSize(s1: Stowage, s2: Stowage, r: int, c: int)
    requires SameIds(s1, s2) && 0 <= r <= s1.plan.length && 0 <= c <= s1.plan.width
    ensures |BoardFrom(s1, r, c)| == |BoardFrom(s2, r, c)|
    decreases s1.plan.length - r, s1.plan.width - c
  {
    if r < s1.plan.length {
      if c == s1.plan.width {
        SameIdsSize(s1, s2, r + 1, 0);
      } else {
        SameIdsSize(s1, s2, r, c + 1);
        assert TowerIds(Tower(s1, r, c), Tower(s2, r, c));
      }
    }
  }

  lemma StopBalance(t: Trip, k: nat)
    requires ValidTrip(t) && k < |t.plans| && GoodShip(ShipAfter(t, k), t.plan)
    ensures Shaped(ShipAfter(t, k + 1))
    ensures |OnBoard(ShipAfter(t, k + 1))| + Count(t.plans[k].list, UNLOAD) ==
            |OnBoard(ShipAfter(t, k))| + Count(t.plans[k].list, LOAD)
  {
    var s := ShipAfter(t, k);
    SameIdsItself(s);
    StopIsLegal(t, k, s);
    RunBalance(s, t.cargos[k], t.plans[k].list);
    SameIdsSize(ShipAfter(t, k + 1), Run(s, t.cargos[k], t.plans[k].list).ship, 0, 0);
  }

  lemma {:induction false} VoyageBalance(t: Trip, k: nat)
    requires ValidTrip(t) && k <= |t.plans|
    ensures Shaped(ShipAfter(t, k))
    ensures |OnBoard(ShipAfter(t, k))| + TotalCount(t, k, UNLOAD) == TotalCount(t, k, LOAD)
  {
    if k == 0 {
      EmptyShip(t.plan);
    } else {
      VoyageBalance(t, k - 1);
      VoyageKeepsIdsUnique(t, k - 1);
      StopBalance(t, k - 1);
    }
  }

  lemma {:induction false} VoyagePrice(t: Trip, k: nat)
    requires ValidTrip(t) && k <= |t.plans|
    ensures TotalScore(t, k) ==
            LOAD_UNLOAD_SCORE * (TotalCount(t, k, LOAD) + TotalCount(t, k, UNLOAD)) +
                MOVE_SCORE * TotalCount(t, k, MOVE)
  {
    if k > 0 {
      VoyagePrice(t, k - 1);
      ScoreCounts(t.plans[k - 1].list);
    }
  }

  /** After any number of stops the score is ten a load and three a move, less five for each
      container that is still on board; so it is ten a load and three a move exactly when the
      ship is empty, and then loads equal unloads. */
  lemma VoyageScore(t: Trip, k: nat)
    requires ValidTrip(t) && k <= |t.plans|
    ensures Shaped(ShipAfter(t, k))
    ensures TotalScore(t, k) ==
            10 * TotalCount(t, k, LOAD) + 3 * TotalCount(t, k, MOVE) - 5 * |OnBoard(ShipAfter(t, k))|
    ensures OnBoard(ShipAfter(t, k)) == multiset{} <==> TotalCount(t, k, LOAD) == TotalCount(t, k, UNLOAD)
  {
    VoyageBalance(t, k);
    VoyagePrice(t, k);
    assert |OnBoard(ShipAfter(t, k))| == 0 <==> OnBoard(ShipAfter(t, k)) == multiset{};
  }
}
