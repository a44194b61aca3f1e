/** What the planner's load phase guarantees, for any cargo: duplicate ids and ids that are
    already on board included. */
module LoadFacts {
  import opened Cargo
  import opened ShipSpec
  import opened PlannerSpec
  import opened PlannerFacts

  /** The load loop's invariant: whatever is on board was there before or was loaded here, and
      every container still to come has its id at the port unless its id was loaded already. */
  ghost predicate LoadReady(l: Loading, before: Stowage, rest: seq<Container>) {
    && Sound(l.work.ship) && Shaped(before)
    && UniqueIds(OnBoard(l.work.ship))
    && (forall x :: x in OnBoard(l.work.ship) ==> Aboard(before, x.id) || IndexOf(l.loaded, x.id) != NOT_FOUND)
    && (forall x :: x in rest ==> IndexOf(l.loaded, x.id) != NOT_FOUND || IndexOf(l.work.port, x.id) != NOT_FOUND)
  }

  /** The next instruction is a reject, or a load onto a tower that has room. */
  lemma DecideAccepted(l: Loading, x: Container, rest: seq<Container>, before: Stowage, stop: Stop)
    requires LoadReady(l, before, rest) && x in rest
    ensures var d := Decide(l.work.ship, x, l.loaded, before, stop);
            && Accepted(l.work.ship, l.work.port, d.instruction)
            && (d.instruction.Load? || d.instruction.Reject?)
            && d.instruction.id == x.id
            && (d.instruction.Load? ==>
                  && !Aboard(before, x.id) && IndexOf(l.loaded, x.id) == NOT_FOUND
                  && x.dest != stop.code && OnRoute(stop, x.dest))
  {
    if x.dest != stop.code && IndexOf(l.loaded, x.id) == NOT_FOUND {
      NextLoadAccepted(l.work.ship, l.work.port, x, before, stop);
    }
  }

  lemma NextLoadAccepted(s: Stowage, port: seq<Container>, x: Container, before: Stowage, stop: Stop)
    requires Sound(s) && Shaped(before) && IndexOf(port, x.id) != NOT_FOUND
    ensures var i := NextLoad(s, x, before, stop).instruction;
            && Accepted(s, port, i) && (i.Load? || i.Reject?) && i.id == x.id
            && (i.Load? ==> !Aboard(before, x.id) && OnRoute(stop, x.dest))
  {
    BestTowerIsBest(s, -1, -1, x.dest);
  }

  lemma IndexOfAppend(p: seq<Container>, x: Container, id: string)
    ensures IndexOf(p + [x], id) != NOT_FOUND <==> IndexOf(p, id) != NOT_FOUND || x.id == id
  {
    if IndexOf(p, id) != NOT_FOUND {
      assert p[IndexOf(p, id)] in p + [x];
    } else if x.id == id {
      assert x in p + [x];
    }
  }

  lemma IndexOfOther(p: seq<Container>, gone: string, id: string)
    requires IndexOf(p, gone) != NOT_FOUND && IndexOf(p, id) != NOT_FOUND && id != gone
    ensures IndexOf(RemoveAt(p, IndexOf(p, gone)), id) != NOT_FOUND
  {
    WithIdRemove(p, gone, id);
    WithIdFirst(p, id);
    WithIdFirst(RemoveAt(p, IndexOf(p, gone)), id);
  }

  lemma LoadKeepsUnique(l: Loading, x: Container, rest: seq<Container>, before: Stowage, stop: Stop)
    requires LoadReady(l, before, rest) && x in rest
    requires Decide(l.work.ship, x, l.loaded, before, stop).instruction.Load?
    ensures var l' := LoadOne(l, x, before, stop);
            && Sound(l'.work.ship) && UniqueIds(OnBoard(l'.work.ship))
            && IndexOf(l.work.port, x.id) != NOT_FOUND
            && OnBoard(l'.work.ship) == OnBoard(l.work.ship) + multiset{l.work.port[IndexOf(l.work.port, x.id)]}
  {
    DecideAccepted(l, x, rest, before, stop);
    var i := Decide(l.work.ship, x, l.loaded, before, stop).instruction;
    AcceptedKeeps(l.work.ship, l.work.port, i);
    OnBoardPush(l.work.ship, i.row, i.col, l.work.port[IndexOf(l.work.port, x.id)]);
  }

  lemma LoadStep(l: Loading, rest: seq<Container>, before: Stowage, stop: Stop)
    requires LoadReady(l, before, rest) && rest != []
    ensures LoadReady(LoadOne(l, rest[0], before, stop), before, rest[1..])
  {
    var x := rest[0];
    var l' := LoadOne(l, x, before, stop);
    DecideAccepted(l, x, rest, before, stop);
    if Decide(l.work.ship, x, l.loaded, before, stop).instruction.Load? {
      LoadKeepsUnique(l, x, rest, before, stop);
      forall y | y in OnBoard(l'.work.ship)
        ensures Aboard(before, y.id) || IndexOf(l'.loaded, y.id) != NOT_FOUND
      {
        IndexOfAppend(l.loaded, x, y.id);
      }
      forall y | y in rest[1..]
        ensures IndexOf(l'.loaded, y.id) != NOT_FOUND || IndexOf(l'.work.port, y.id) != NOT_FOUND
      {
        assert y in rest;
        IndexOfAppend(l.loaded, x, y.id);
        if y.id != x.id && IndexOf(l.loaded, y.id) == NOT_FOUND {
          IndexOfOther(l.work.port, x.id, y.id);
        }
      }
    } else {
      assert forall y :: y in rest[1..] ==> y in rest;
    }
  }

  /** What the load phase adds to the list: loads and rejects only, one for each container of
      the cargo, and loads only of ids that were not on board. */
  ghost predicate Answers(list: seq<Instruction>, rest: seq<Container>, before: Stowage)
    requires Shaped(before)
  {
    && (forall i :: i in list ==> i.Load? || i.Reject?)
    && (forall i :: i in list && i.Load? ==> !Aboard(before, i.id))
    && (forall x :: x in rest ==> exists i :: i in list && i.id == x.id)
  }

  lemma AnswersMore(a: seq<Instruction>, b: seq<Instruction>, rest: seq<Container>, before: Stowage)
    requires Shaped(before) && rest != [] && Answers(a, [rest[0]], before) && Answers(b, rest[1..], before)
    ensures Answers(a + b, rest, before)
  {
    forall x | x in rest
      ensures exists i :: i in a + b && i.id == x.id
    {
      if x == rest[0] {
        assert x in [rest[0]];
        var i :| i in a && i.id == x.id;
        assert i in a + b;
      } else {
        assert x in rest[1..];
        var i :| i in b && i.id == x.id;
        assert i in a + b;
      }
    }
  }

  lemma LoadOneAnswers(l: Loading, rest: seq<Container>, before: Stowage, stop: Stop)
    requires LoadReady(l, before, rest) && rest != []
    ensures var l' := LoadOne(l, rest[0], before, stop);
            Extends(l.work, l'.work) && Answers(New(l.work, l'.work), [rest[0]], before)
  {
    var x := rest[0];
    DecideAccepted(l, x, rest, before, stop);
    var i := Decide(l.work.ship, x, l.loaded, before, stop).instruction;
    EmitExtends(l.work, i);
    assert i in [i];
  }

  lemma {:induction false} LoadAllFacts(l: Loading, before: Stowage, stop: Stop, rest: seq<Container>)
    requires LoadReady(l, before, rest)
    ensures var l' := LoadAll(l, before, stop, rest);
            && Extends(l.work, l'.work)
            && LoadReady(l', before, [])
            && Answers(New(l.work, l'.work), rest, before)
    decreases |rest|
  {
    if rest == [] {
      assert New(l.work, l.work) == [];
    } else {
      var l1 := LoadOne(l, rest[0], before, stop);
      var l' := LoadAll(l1, before, stop, rest[1..]);
      LoadOneAnswers(l, rest, before, stop);
      LoadStep(l, rest, before, stop);
      LoadAllFacts(l1, before, stop, rest[1..]);
      ExtendsTransitive(l.work, l1.work, l'.work);
      AnswersMore(New(l.work, l1.work), New(l1.work, l'.work), rest, before);
    }
  }

  /** The load phase starts with its invariant, for any cargo in any order. */
  lemma LoadStarts(u: Stowage, s: Stowage, list: seq<Instruction>, cargo: seq<Container>, ordered: seq<Container>)
    requires Shaped(s) && Sound(u) && UniqueIds(OnBoard(u)) && OnBoard(u) <= OnBoard(s)
    requires multiset(ordered) == multiset(cargo)
    ensures LoadReady(Loading(Work(u, cargo, list), [], {}), s, ordered)
  {
    forall x | x in ordered
      ensures IndexOf(cargo, x.id) != NOT_FOUND
    {
      assert x in multiset(ordered);
      assert x in cargo;
    }
    forall x | x in OnBoard(u)
      ensures Aboard(s, x.id)
    {
      assert OnBoard(u)[x] <= OnBoard(s)[x];
    }
  }

  /** No two containers on board ever share an id: one port keeps that, whatever its cargo. */
  lemma PlanPortKeepsIdsUnique(s: Stowage, stop: Stop, cargo: seq<Container>, ordered: seq<Container>)
    requires Sound(s) && UniqueIds(OnBoard(s)) && multiset(ordered) == multiset(cargo)
    ensures var p := PlanPort(s, stop, cargo, ordered); Sound(p.ship) && UniqueIds(OnBoard(p.ship))
  {
    var u := UnloadFrom(s, [], stop.code, 0, 0);
    UnloadScanClears(s, [], stop.code);
    LoadStarts(u.ship, s, u.list, cargo, ordered);
    LoadAllFacts(Loading(Work(u.ship, cargo, u.list), [], {}), s, stop, ordered);
  }
}
