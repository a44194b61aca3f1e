/** The planner's list always passes the checker's audit. */
module Audit {
  import opened Cargo
  import opened ShipSpec
  import opened PlannerSpec
  import opened PlannerFacts
  import opened LoadFacts
  import opened UnloadChain
  import opened AuditSpec

  // ----- the audit itself -----

  /** What the planner's whole list says, a for the unload phase and b for the load phase. */
  ghost predicate PortTold(s: Stowage, code: string, a: seq<Instruction>, b: seq<Instruction>, cargo: seq<Container>)
    requires Shaped(s)
  {
    && LoadsSpare(a, OnBoard(s), code)
    && UnloadsSettled(a, OnBoard(s), code)
    && (forall x :: x in OnBoard(s) && x.dest == code ==> Listed(a, UNLOAD, x.id))
    && Answers(b, cargo, s)
  }

  /** A container that is due is unloaded and never loaded after that. */
  lemma DueIsUnloaded(s: Stowage, code: string, a: seq<Instruction>, b: seq<Instruction>, cargo: seq<Container>,
                      x: Container)
    requires Shaped(s) && UniqueIds(OnBoard(s)) && PortTold(s, code, a, b, cargo)
    requires x in OnBoard(s) && x.dest == code
    ensures UnloadStands(a + b, x.id)
  {
    var l := a + b;
    var k :| 0 <= k < |a| && Names(a[k], UNLOAD, x.id);
    assert l[k] == a[k];
    forall j | 0 <= j < |l|
      ensures !(l[j].Load? && l[j].id == x.id)
    {
      DueIsNotLoaded(s, code, a, b, cargo, x, l[j]);
    }
  }

  lemma DueIsNotLoaded(s: Stowage, code: string, a: seq<Instruction>, b: seq<Instruction>, cargo: seq<Container>,
                       x: Container, i: Instruction)
    requires Shaped(s) && UniqueIds(OnBoard(s)) && PortTold(s, code, a, b, cargo)
    requires x in OnBoard(s) && x.dest == code && (i in a || i in b)
    ensures !(i.Load? && i.id == x.id)
  {
    assert Aboard(s, x.id);
    if i in a && i.Load? {
      var y :| y in OnBoard(s) && y.id == i.id && y.dest != code;
      assert y.id == x.id ==> y == x;
    }
  }

  /** A container of the id is on board and leaves at the port. */
  ghost predicate DueAboard(s: Stowage, code: string, id: string)
    requires Shaped(s)
  {
    exists x :: x in OnBoard(s) && x.id == id && x.dest == code
  }

  /** An id whose container stays on board does not pass as unloaded: it is not unloaded, or
      loaded again after that. */
  lemma StayingFailsAudit(s: Stowage, code: string, a: seq<Instruction>, b: seq<Instruction>, cargo: seq<Container>,
                          id: string)
    requires Shaped(s) && PortTold(s, code, a, b, cargo) && !DueAboard(s, code, id)
    ensures !UnloadStands(a + b, id)
  {
    var l := a + b;
    AuditExactly(l, id);
    var last := LastIdx(l, UNLOAD, id);
    if last != NOT_FOUND {
      assert forall j :: |a| <= j < |l| ==> l[j] == b[j - |a|] && b[j - |a|] in b;
      assert l[last] == a[last] && a[last].Unload?;
      var m :| last < m < |a| && Names(a[m], LOAD, id);
      assert Names(l[m], LOAD, id);
    }
  }

  /** A waiting container is loaded and not unloaded after that, or rejected. */
  lemma WaitingIsAnswered(s: Stowage, code: string, a: seq<Instruction>, b: seq<Instruction>, cargo: seq<Container>,
                          x: Container)
    requires Shaped(s) && UniqueIds(OnBoard(s)) && PortTold(s, code, a, b, cargo)
    requires x in cargo
    ensures Answered(a + b, x.id)
  {
    var l := a + b;
    AuditExactly(l, x.id);
    var i :| i in b && i.id == x.id;
    assert i in l && (Names(i, LOAD, x.id) || Names(i, REJECT, x.id));
    var last := LastIdx(l, LOAD, x.id);
    if last != NOT_FOUND {
      forall j | last < j < |l|
        ensures !Names(l[j], UNLOAD, x.id)
      {
        if j >= |a| {
          assert l[j] == b[j - |a|] && b[j - |a|] in b;
        } else {
          NotUnloadedLater(s, code, a, b, x.id, last, j);
        }
      }
    }
  }

  lemma NotUnloadedLater(s: Stowage, code: string, a: seq<Instruction>, b: seq<Instruction>, id: string, last: nat,
                         j: nat)
    requires Shaped(s) && UniqueIds(OnBoard(s))
    requires LoadsSpare(a, OnBoard(s), code) && UnloadsSettled(a, OnBoard(s), code)
    requires last < j < |a| && Names(a[last], LOAD, id)
    requires forall m :: last < m < |a + b| ==> !Names((a + b)[m], LOAD, id)
    ensures !Names(a[j], UNLOAD, id)
  {
    assert a[last] in a;
    var y :| y in OnBoard(s) && y.id == id && y.dest != code;
    assert forall m :: last < m < |a| ==> (a + b)[m] == a[m];
  }

  /** Every port passes the audit, whatever its cargo: each waiting container has a load that is
      not undone or a reject, and each due container has an unload that is not undone. */
  lemma PlanPassesAudit(s: Stowage, stop: Stop, cargo: seq<Container>, ordered: seq<Container>)
    requires Sound(s) && UniqueIds(OnBoard(s)) && multiset(ordered) == multiset(cargo)
    ensures var p := PlanPort(s, stop, cargo, ordered);
            && (stop.idx != |stop.route| - 1 ==> forall x :: x in cargo ==> Answered(p.list, x.id))
            && (forall x :: x in OnBoard(s) && x.dest == stop.code ==> UnloadStands(p.list, x.id))
            && (stop.idx != |stop.route| - 1 ==> LoadedErrors(p.list, cargo) == 0)
            && UnloadedErrorsFrom(p.list, s, stop.code, 0, 0) == 0
  {
    var u := UnloadFrom(s, [], stop.code, 0, 0);
    var p := PlanPort(s, stop, cargo, ordered);
    PlanTold(s, stop, cargo, ordered);
    var skip := LastPort(stop) && cargo != [];
    var b := if skip then [] else p.list[|u.list|..];
    var answered := if skip then [] else cargo;
    forall x | x in OnBoard(s) && x.dest == stop.code
      ensures UnloadStands(p.list, x.id)
    {
      DueIsUnloaded(s, stop.code, u.list, b, answered, x);
    }
    NoUnloadedErrors(p.list, s, stop.code, 0, 0);
    forall x | x in answered
      ensures Answered(p.list, x.id)
    {
      WaitingIsAnswered(s, stop.code, u.list, b, answered, x);
    }
    NoLoadedErrors(p.list, cargo);
  }

  /** At every port an id that is on board passes as unloaded exactly when its container is due
      there. */
  lemma PassesExactly(s: Stowage, stop: Stop, cargo: seq<Container>, ordered: seq<Container>, id: string)
    requires Sound(s) && UniqueIds(OnBoard(s)) && multiset(ordered) == multiset(cargo)
    ensures UnloadStands(PlanPort(s, stop, cargo, ordered).list, id) <==> DueAboard(s, stop.code, id)
  {
    var u := UnloadFrom(s, [], stop.code, 0, 0);
    var list := PlanPort(s, stop, cargo, ordered).list;
    PlanTold(s, stop, cargo, ordered);
    var skip := LastPort(stop) && cargo != [];
    var b := if skip then [] else list[|u.list|..];
    var answered := if skip then [] else cargo;
    if DueAboard(s, stop.code, id) {
      var x :| x in OnBoard(s) && x.id == id && x.dest == stop.code;
      DueIsUnloaded(s, stop.code, u.list, b, answered, x);
    } else {
      StayingFailsAudit(s, stop.code, u.list, b, answered, id);
    }
  }

  /** The load phase answers the whole cargo. */
  lemma CargoAnswered(s: Stowage, stop: Stop, cargo: seq<Container>, ordered: seq<Container>)
    requires Sound(s) && UniqueIds(OnBoard(s)) && multiset(ordered) == multiset(cargo)
    requires !(LastPort(stop) && cargo != [])
    ensures var u := UnloadFrom(s, [], stop.code, 0, 0);
            var p := PlanPort(s, stop, cargo, ordered);
            u.list <= p.list && Answers(p.list[|u.list|..], cargo, s)
  {
    var u := UnloadFrom(s, [], stop.code, 0, 0);
    UnloadScanClears(s, [], stop.code);
    LoadStarts(u.ship, s, u.list, cargo, ordered);
    LoadAllFacts(Loading(Work(u.ship, cargo, u.list), [], {}), s, stop, ordered);
    forall x | x in cargo
      ensures x in ordered
    {
      assert x in multiset(cargo);
    }
  }

  /** The unload phase unloads what is due and settles every other unload. */
  lemma ScanTold(s: Stowage, code: string)
    requires Sound(s) && UniqueIds(OnBoard(s))
    ensures var u := UnloadFrom(s, [], code, 0, 0); PortTold(s, code, u.list, [], [])
  {
    UnloadScanClears(s, [], code);
    var u := UnloadIsChain(s, [], code, 0, 0);
    var ws :| Chain(s, [], code, ws, u);
    ChainTold(s, [], code, ws, u);
    assert u.list[0..] == u.list;
  }

  lemma PlanTold(s: Stowage, stop: Stop, cargo: seq<Container>, ordered: seq<Container>)
    requires Sound(s) && UniqueIds(OnBoard(s)) && multiset(ordered) == multiset(cargo)
    ensures var u := UnloadFrom(s, [], stop.code, 0, 0);
            var p := PlanPort(s, stop, cargo, ordered);
            var skip := LastPort(stop) && cargo != [];
            && u.list <= p.list
            && var b := if skip then [] else p.list[|u.list|..];
               p.list == u.list + b && PortTold(s, stop.code, u.list, b, if skip then [] else cargo)
  {
    ScanTold(s, stop.code);
    if !(LastPort(stop) && cargo != []) {
      CargoAnswered(s, stop, cargo, ordered);
    }
  }
}
