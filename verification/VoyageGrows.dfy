/** A run of the planner that grows by one stop, and the errors and ids of the stops so far. */
module VoyageGrows {
  import opened Cargo
  import opened ShipSpec
  import opened Replay
  import opened PlannerSpec
  import opened AuditSpec
  import opened CraneText
  import opened PlanIds
  import opened Voyage

  function Sum(ns: seq<nat>): nat {
    if ns == [] then 0 else Sum(ns[..|ns| - 1]) + ns[|ns| - 1]
  }

  lemma SumPush(ns: seq<nat>, n: nat)
    ensures Sum(ns + [n]) == Sum(ns) + n
  {
    assert (ns + [n])[..|ns|] == ns;
  }

  lemma {:induction false} SumIsZero(ns: seq<nat>)
    ensures Sum(ns) == 0 <==> forall k :: 0 <= k < |ns| ==> ns[k] == 0
  {
    if ns != [] {
      var front := ns[..|ns| - 1];
      SumIsZero(front);
      assert forall k :: 0 <= k < |front| ==> front[k] == ns[k];
    }
  }

  /** The errors the checker records, stop by stop. */
  ghost function ErrorCounts(t: Trip): (ns: seq<nat>)
    requires ValidTrip(t)
    ensures |ns| == |t.plans| && forall k :: 0 <= k < |ns| ==> ns[k] == ErrorsAt(t, k)
  {
    seq(|t.plans|, k requires 0 <= k < |t.plans| => ErrorsAt(t, k))
  }

  /** All errors the checker records on a voyage. */
  ghost function TotalErrors(t: Trip): nat
    requires ValidTrip(t)
  {
    Sum(ErrorCounts(t))
  }

  /** A voyage has no error exactly when at every stop what the checker takes for due is due for
      the planner; so when no id waits at two stops and no container is destined for a code that
      the checker has in place of a stop's. */
  lemma NoErrorsInAll(t: Trip)
    requires ValidTrip(t)
    ensures TotalErrors(t) == 0 <==> forall k :: 0 <= k < |t.plans| ==> DueAlike(t, k)
    ensures DistinctAcrossPorts(t) && CodesApart(t) ==> TotalErrors(t) == 0
  {
    SumIsZero(ErrorCounts(t));
    forall k | 0 <= k < |t.plans|
      ensures ErrorCounts(t)[k] == 0 <==> DueAlike(t, k)
      ensures DistinctAcrossPorts(t) && CodesApart(t) ==> ErrorCounts(t)[k] == 0
    {
      StopErrorsExactly(t, k);
      if DistinctAcrossPorts(t) && CodesApart(t) {
        VoyageHasNoErrors(t, k);
      }
    }
  }

  /** The travel of a run: what does not change while it grows. */
  function Begun(t: Trip): Trip {
    t.(cargos := [], orders := [], plans := [])
  }

  function Longer(t: Trip, cargo: seq<Container>, order: seq<Container>, plan: PortPlan): Trip {
    t.(cargos := t.cargos + [cargo], orders := t.orders + [order], plans := t.plans + [plan])
  }

  lemma LongerShips(t: Trip, t': Trip, k: nat)
    requires ValidTrip(t) && k <= |t.plans|
    requires t'.plan == t.plan && t.plans <= t'.plans
    ensures ShipAfter(t', k) == ShipAfter(t, k)
  {
  }

  lemma LongerIsValid(t: Trip, cargo: seq<Container>, order: seq<Container>, plan: PortPlan)
    requires ValidTrip(t) && |t.plans| < |t.route| && multiset(order) == multiset(cargo)
    requires Shaped(ShipAfter(t, |t.plans|))
    requires plan == PlanPort(ShipAfter(t, |t.plans|), StopAt(t, |t.plans|), cargo, order)
    ensures ValidTrip(Longer(t, cargo, order, plan))
    ensures ShipAfter(Longer(t, cargo, order, plan), |t.plans| + 1) == plan.ship
  {
    var t' := Longer(t, cargo, order, plan);
    forall k | 0 <= k < |t'.plans|
      ensures Planned(t', k)
    {
      LongerShips(t, t', k);
      if k < |t.plans| {
        assert Planned(t, k);
      }
    }
  }

  lemma {:induction false} LongerChecker(t: Trip, t': Trip, k: nat)
    requires ValidTrip(t) && ValidTrip(t') && k <= |t.plans|
    requires t'.plan == t.plan && t.plans <= t'.plans && t.cargos <= t'.cargos
    ensures CheckerShip(t', k) == CheckerShip(t, k)
  {
    if k > 0 {
      LongerChecker(t, t', k - 1);
    }
  }

  lemma LongerErrors(t: Trip, t': Trip, k: nat)
    requires ValidTrip(t) && ValidTrip(t') && k < |t.plans|
    requires t'.plan == t.plan && t'.route == t.route && t'.codes == t.codes && t.plans <= t'.plans &&
             t.cargos <= t'.cargos
    ensures ErrorsAt(t', k) == ErrorsAt(t, k) && t'.plans[k] == t.plans[k]
  {
    LongerChecker(t, t', k);
  }

  lemma LongerCounts(t: Trip, t': Trip)
    requires ValidTrip(t) && ValidTrip(t') && |t'.plans| == |t.plans| + 1
    requires t'.plan == t.plan && t'.route == t.route && t'.codes == t.codes && t.plans <= t'.plans &&
             t.cargos <= t'.cargos
    ensures ErrorCounts(t') == ErrorCounts(t) + [ErrorsAt(t', |t.plans|)]
  {
    forall k | 0 <= k < |t.plans|
      ensures ErrorsAt(t', k) == ErrorsAt(t, k)
    {
      LongerErrors(t, t', k);
    }
  }

  lemma {:induction false} LongerTotalScore(t: Trip, t': Trip, k: nat)
    requires ValidTrip(t) && ValidTrip(t') && k <= |t.plans| && t.plans <= t'.plans
    ensures TotalScore(t', k) == TotalScore(t, k)
  {
    if k > 0 {
      LongerTotalScore(t, t', k - 1);
    }
  }

  /** What one more stop adds to the totals and to the checker's ship. */
  lemma LongerByOne(t: Trip, cargo: seq<Container>, order: seq<Container>, plan: PortPlan)
    requires ValidTrip(t) && ValidTrip(Longer(t, cargo, order, plan)) && |t.plans| < |t.route|
    ensures var t' := Longer(t, cargo, order, plan);
            var k := |t.plans|;
            && CheckerShip(t', k + 1) == Run(CheckerShip(t, k), cargo, plan.list).ship
            && TotalErrors(t') ==
               TotalErrors(t) + PortErrors(CheckerShip(t, k), t.codes[k], cargo, plan.list, k == |t.route| - 1)
            && TotalScore(t', k + 1) == TotalScore(t, k) + Score(plan.list)
  {
    var t' := Longer(t, cargo, order, plan);
    LongerCounts(t, t');
    SumPush(ErrorCounts(t), ErrorsAt(t', |t.plans|));
    LongerTotalScore(t, t', |t.plans|);
    LongerChecker(t, t', |t.plans|);
  }

  /** There is a run for every cargo and every order of loading. */
  lemma {:induction false} RunExists(plan: ShipPlan, route: seq<string>, codes: seq<string>, verifyId: string -> bool,
                                     cargos: seq<seq<Container>>, orders: seq<seq<Container>>) returns (t: Trip)
    requires ValidPlan(plan) && |codes| == |route| && |cargos| == |orders| <= |route|
    requires forall k :: 0 <= k < |cargos| ==> multiset(orders[k]) == multiset(cargos[k])
    ensures ValidTrip(t) && t == Trip(plan, route, codes, verifyId, cargos, orders, t.plans)
    decreases |cargos|
  {
    if cargos == [] {
      t := Trip(plan, route, codes, verifyId, [], [], []);
    } else {
      var n := |cargos| - 1;
      var front := RunExists(plan, route, codes, verifyId, cargos[..n], orders[..n]);
      VoyageKeepsIdsUnique(front, n);
      var last := PlanPort(ShipAfter(front, n), StopAt(front, n), cargos[n], orders[n]);
      LongerIsValid(front, cargos[n], orders[n], last);
      t := Longer(front, cargos[n], orders[n], last);
      assert cargos[..n] + [cargos[n]] == cargos && orders[..n] + [orders[n]] == orders;
    }
  }

  /** The ids of the containers are fields that splitting a line of a file can produce. */
  predicate PrintableCargo(cargo: seq<Container>) {
    forall x :: x in cargo ==> PrintableId(x.id)
  }

  predicate AllPrintable(cargos: seq<seq<Container>>) {
    forall k :: 0 <= k < |cargos| ==> PrintableCargo(cargos[k])
  }

  lemma NextCargo(some: seq<seq<Container>>, all: seq<seq<Container>>)
    requires some <= all && |some| < |all| && AllPrintable(all)
    ensures AllPrintable(some) && PrintableCargo(all[|some|]) && some + [all[|some|]] <= all
  {
    assert some == all[..|some|];
    assert some + [all[|some|]] == all[..|some| + 1];
  }

  /** On every voyage the ids on board are ids of some stop's cargo. */
  lemma BoardIsPrintable(t: Trip, k: nat)
    requires ValidTrip(t) && k <= |t.plans| && Shaped(ShipAfter(t, k))
    requires AllPrintable(t.cargos)
    ensures forall x :: x in OnBoard(ShipAfter(t, k)) ==> PrintableId(x.id)
  {
    forall x | x in OnBoard(ShipAfter(t, k))
      ensures PrintableId(x.id)
    {
      OnBoardCameFrom(t, k, x);
      var j :| 0 <= j < k && x in t.cargos[j];
      assert PrintableCargo(t.cargos[j]);
    }
  }

  /** Then everything the planner writes can be read back. */
  lemma PlanIsPrintable(s: Stowage, stop: Stop, cargo: seq<Container>, ordered: seq<Container>)
    requires Sound(s) && UniqueIds(OnBoard(s)) && multiset(ordered) == multiset(cargo)
    requires (forall x :: x in OnBoard(s) ==> PrintableId(x.id)) && PrintableCargo(cargo)
    ensures forall i :: i in PlanPort(s, stop, cargo, ordered).list ==> Printable(i)
  {
    PlanSpeaks(s, stop, cargo, ordered, id => PrintableId(id));
  }
}
