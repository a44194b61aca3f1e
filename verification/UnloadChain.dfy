/** The unload scan as a chain of finished towers. The inductions over the scan go along this
    chain and see of each tower only what `TowerDone` says. */
module UnloadChain {
  import opened Cargo
  import opened ShipSpec
  import opened PlannerSpec
  import opened PlannerFacts
  import opened AuditSpec

  ghost predicate Listed(list: seq<Instruction>, t: Type, id: string) {
    exists i :: i in list && Names(i, t, id)
  }

  // ----- what the list says about one tower -----

  /** Digging out names each container it takes to the port in an unload, and no other. */
  ghost predicate DigTold(w: Work, w': Work) {
    && w.list <= w'.list && w.port <= w'.port
    && (forall i :: i in New(w, w') && i.Unload? ==> exists x :: x in w'.port && x.id == i.id)
    && (forall x :: x in w'.port[|w.port|..] ==> Listed(New(w, w'), UNLOAD, x.id))
  }

  lemma DigToldTransitive(a: Work, b: Work, c: Work)
    requires DigTold(a, b) && DigTold(b, c)
    ensures DigTold(a, c)
  {
    PrefixThen(a.list, b.list, c.list);
    PrefixThen(a.port, b.port, c.port);
    forall i | i in New(a, c) && i.Unload?
      ensures exists x :: x in c.port && x.id == i.id
    {
      if i in New(a, b) {
        var x :| x in b.port && x.id == i.id;
        assert x in c.port;
      } else {
        assert i in New(b, c);
      }
    }
    forall x | x in c.port[|a.port|..]
      ensures Listed(New(a, c), UNLOAD, x.id)
    {
      if x in b.port[|a.port|..] {
        var i :| i in New(a, b) && Names(i, UNLOAD, x.id);
        assert i in New(a, c);
      } else {
        assert x in c.port[|b.port|..];
        var i :| i in New(b, c) && Names(i, UNLOAD, x.id);
        assert i in New(a, c);
      }
    }
  }

  lemma DigStepTold(w: Work, row: int, col: int, floor: int, code: string, cap: int, top: int, h: int)
    requires DigReady(w, row, col, floor, cap, top, h) && floor <= h
    ensures Tower(w.ship, row, col) != []
    ensures DigTold(w, Emit(w, DigInstruction(w.ship, row, col, Last(Tower(w.ship, row, col)), code, cap, top, h)))
  {
    DigStep(w, row, col, floor, code, cap, top, h);
    var x := Last(Tower(w.ship, row, col));
    var i := DigInstruction(w.ship, row, col, x, code, cap, top, h);
    var w' := Emit(w, i);
    assert New(w, w') == [i];
    assert Accepted(w.ship, w.port, i) && (i.Unload? || i.Move?);
    if i.Unload? {
      assert w'.port == w.port + [x];
      assert w'.port[|w.port|..] == [x];
      assert i in New(w, w') && Names(i, UNLOAD, x.id);
      assert x in w'.port;
    } else {
      assert w'.port == w.port;
    }
  }

  lemma {:induction false} DigOutTold(w: Work, row: int, col: int, floor: int, code: string, cap: int, top: int, h: int)
    requires DigReady(w, row, col, floor, cap, top, h)
    ensures DigTold(w, DigOut(w, row, col, floor, code, cap, top, h))
    decreases h - floor + 1
  {
    if floor <= h {
      DigStep(w, row, col, floor, code, cap, top, h);
      DigStepTold(w, row, col, floor, code, cap, top, h);
      DigOutNext(w, row, col, floor, code, cap, top, h);
      var w1 := Emit(w, DigInstruction(w.ship, row, col, Last(Tower(w.ship, row, col)), code, cap, top, h));
      DigOutTold(w1, row, col, floor, code, cap, top, h - 1);
      DigToldTransitive(w, w1, DigOut(w1, row, col, floor, code, cap, top, h - 1));
    } else {
      assert New(w, w) == [];
      assert w.port[|w.port|..] == [];
    }
  }

  /** Putting back names each container that is not due in a load. */
  ghost predicate ReturnTold(w: Work, w': Work, code: string, rest: seq<Container>) {
    && w.list <= w'.list
    && (forall i :: i in New(w, w') ==> i.Load?)
    && (forall x :: x in rest && x.dest != code ==> Listed(New(w, w'), LOAD, x.id))
  }

  lemma {:induction false} ReturnAllTold(w: Work, row: int, col: int, code: string, rest: seq<Container>)
    requires Shaped(w.ship) && InGrid(w.ship.plan, row, col)
    ensures ReturnTold(w, ReturnAll(w, row, col, code, rest), code, rest)
    decreases |rest|
  {
    var w' := ReturnAll(w, row, col, code, rest);
    if rest == [] {
      assert New(w, w') == [];
    } else {
      var x := rest[0];
      assert forall y :: y in rest <==> y == x || y in rest[1..];
      if x.dest == code {
        ReturnAllTold(w, row, col, code, rest[1..]);
      } else {
        var i := Load(row, col, Height(w.ship, row, col), x.id);
        var w1 := Emit(w, i);
        ReturnAllTold(w1, row, col, code, rest[1..]);
        PrefixThen(w.list, w1.list, w'.list);
        assert New(w, w') == [i] + New(w1, w');
        assert Names(i, LOAD, x.id);
        forall y | y in rest && y.dest != code
          ensures Listed(New(w, w'), LOAD, y.id)
        {
          if y == x {
            assert i in New(w, w');
          } else {
            var j :| j in New(w1, w') && Names(j, LOAD, y.id);
            assert j in New(w, w');
          }
        }
      }
    }
  }

  // ----- what the list says about the unload phase -----

  /** Every unload in the list names a due container, or is followed by a load of the same id. */
  ghost predicate UnloadsSettled(list: seq<Instruction>, home: multiset<Container>, code: string) {
    forall k :: 0 <= k < |list| && list[k].Unload? ==>
      || (exists x :: x in home && x.id == list[k].id && x.dest == code)
      || (exists m :: k < m < |list| && Names(list[m], LOAD, list[k].id))
  }

  /** Every container that left the ship is named in an unload. */
  ghost predicate GoneListed(s: Stowage, s': Stowage, list: seq<Instruction>)
    requires Shaped(s) && Shaped(s')
  {
    forall x :: x in OnBoard(s) && x !in OnBoard(s') ==> Listed(list, UNLOAD, x.id)
  }

  lemma SettledByReturn(a: seq<Instruction>, b: seq<Instruction>, removed: seq<Container>, home: multiset<Container>,
                        code: string)
    requires forall i :: i in a && i.Unload? ==> exists x :: x in removed && x.id == i.id
    requires forall i :: i in b ==> i.Load?
    requires forall x :: x in removed && x.dest != code ==> Listed(b, LOAD, x.id)
    requires multiset(removed) <= home
    ensures UnloadsSettled(a + b, home, code)
  {
    assert forall j :: |a| <= j < |a + b| ==> (a + b)[j] == b[j - |a|] && b[j - |a|] in b;
    forall k | 0 <= k < |a + b| && (a + b)[k].Unload?
      ensures || (exists x :: x in home && x.id == (a + b)[k].id && x.dest == code)
              || (exists m :: k < m < |a + b| && Names((a + b)[m], LOAD, (a + b)[k].id))
    {
      assert (a + b)[k] == a[k] && a[k] in a;
      var x :| x in removed && x.id == a[k].id;
      assert x in multiset(removed) && x in home;
      if x.dest != code {
        assert Listed(b, LOAD, x.id);
        var j :| 0 <= j < |b| && Names(b[j], LOAD, x.id);
        assert (a + b)[|a| + j] == b[j];
      }
    }
  }

  lemma SettledMore(a: seq<Instruction>, b: seq<Instruction>, small: multiset<Container>, home: multiset<Container>,
                    code: string)
    requires UnloadsSettled(a, home, code) && UnloadsSettled(b, small, code) && small <= home
    ensures UnloadsSettled(a + b, home, code)
  {
    var l := a + b;
    forall k | 0 <= k < |l| && l[k].Unload?
      ensures || (exists x :: x in home && x.id == l[k].id && x.dest == code)
              || (exists m :: k < m < |l| && Names(l[m], LOAD, l[k].id))
    {
      if k < |a| {
        assert l[k] == a[k];
        if m :| k < m < |a| && Names(a[m], LOAD, a[k].id) {
          assert l[m] == a[m];
        }
      } else {
        var k' := k - |a|;
        assert l[k] == b[k'];
        if x :| x in small && x.id == b[k'].id && x.dest == code {
          assert small[x] <= home[x];
        } else {
          var m :| k' < m < |b| && Names(b[m], LOAD, b[k'].id);
          assert l[|a| + m] == b[m];
        }
      }
    }
  }

  ghost predicate Told(s: Stowage, u: Scan, list: seq<Instruction>, code: string)
    requires Shaped(s)
  {
    && Shaped(u.ship) && list <= u.list
    && UnloadsSettled(u.list[|list|..], OnBoard(s), code)
    && GoneListed(s, u.ship, u.list[|list|..])
  }

  lemma GoneIsListed(s: Stowage, w: Work, dug: Work, list: seq<Instruction>)
    requires Shaped(s) && Shaped(w.ship) && OnBoard(w.ship) + multiset(w.port) == OnBoard(s)
    requires forall x :: x in w.port ==> x in dug.port
    requires forall x :: x in dug.port ==> Listed(list, UNLOAD, x.id)
    ensures GoneListed(s, w.ship, list)
  {
    forall x | x in OnBoard(s) && x !in OnBoard(w.ship)
      ensures Listed(list, UNLOAD, x.id)
    {
      assert x in multiset(w.port);
    }
  }

  lemma DigTowerTold(w0: Work, dug: Work, row: int, col: int, floor: int, code: string)
    requires Sound(w0.ship) && w0.port == [] && InGrid(w0.ship.plan, row, col)
    requires w0.ship.plan.floorStart[row][col] <= floor < Height(w0.ship, row, col)
    requires dug == RemoveAllAbove(w0, row, col, floor, code)
    ensures DigTold(w0, dug) && forall x :: x in dug.port ==> Listed(New(w0, dug), UNLOAD, x.id)
  {
    var top := Height(w0.ship, row, col) - 1;
    DigOutTold(w0, row, col, floor, code, CapacityExcluding(w0.ship, row, col), top, top);
    assert dug.port[|w0.port|..] == dug.port;
  }

  /** A tower that was dug out and put back: dug and w are the states after either half. */
  lemma DugAndReturnedTold(w0: Work, dug: Work, w: Work, code: string)
    requires Shaped(w0.ship) && Shaped(w.ship)
    requires DigTold(w0, dug) && ReturnTold(dug, w, code, dug.port)
    requires forall x :: x in dug.port ==> Listed(New(w0, dug), UNLOAD, x.id)
    requires multiset(dug.port) <= OnBoard(w0.ship)
    requires OnBoard(w.ship) + multiset(w.port) == OnBoard(w0.ship)
    requires forall x :: x in w.port ==> x in dug.port
    ensures Told(w0.ship, Scan(w.ship, w.list), w0.list, code)
  {
    PrefixThen(w0.list, dug.list, w.list);
    SettledByReturn(New(w0, dug), New(dug, w), dug.port, OnBoard(w0.ship), code);
    forall x | x in dug.port
      ensures Listed(New(w0, w), UNLOAD, x.id)
    {
      var i :| i in New(w0, dug) && Names(i, UNLOAD, x.id);
      assert i in New(w0, w);
    }
    GoneIsListed(w0.ship, w, dug, New(w0, w));
  }

  lemma LeftWasRemoved(dug: Work, w: Work, row: int, col: int, code: string)
    requires Shaped(dug.ship) && Returned(dug, w, row, col, code, dug.port)
    ensures forall x :: x in w.port ==> x in dug.port
  {
    forall x | x in w.port
      ensures x in dug.port
    {
      assert multiset(w.port)[x] > 0;
      assert multiset(dug.port)[x] > 0;
    }
  }

  lemma SomethingDueTold(w0: Work, dug: Work, w: Work, row: int, col: int, floor: int, code: string)
    requires Sound(w0.ship) && UniqueIds(OnBoard(w0.ship)) && w0.port == [] && InGrid(w0.ship.plan, row, col)
    requires w0.ship.plan.floorStart[row][col] <= floor < Height(w0.ship, row, col)
    requires dug == RemoveAllAbove(w0, row, col, floor, code)
    requires w == ReturnAll(dug, row, col, code, dug.port)
    requires OnBoard(w.ship) + multiset(w.port) == OnBoard(w0.ship)
    ensures Told(w0.ship, Scan(w.ship, w.list), w0.list, code)
  {
    DigOutTower(w0, dug, row, col, floor, code);
    DigTowerTold(w0, dug, row, col, floor, code);
    ReturnAllTold(dug, row, col, code, dug.port);
    ReturnAllFacts(dug, row, col, code, dug.port);
    LeftWasRemoved(dug, w, row, col, code);
    DugAndReturnedTold(w0, dug, w, code);
  }

  lemma TowerTold(s: Stowage, list: seq<Instruction>, w: Work, row: int, col: int, code: string)
    requires Sound(s) && UniqueIds(OnBoard(s)) && InGrid(s.plan, row, col)
    requires w == UnloadTower(s, list, row, col, code) && OnBoard(w.ship) + multiset(w.port) == OnBoard(s)
    ensures Told(s, Scan(w.ship, w.list), list, code)
  {
    if FirstDue(Tower(s, row, col), code) == |Tower(s, row, col)| {
      NothingDueTold(s, list, row, col, code);
    } else {
      DueTowerTold(s, list, w, row, col, code, FirstDue(Tower(s, row, col), code));
    }
  }

  lemma NothingDueTold(s: Stowage, list: seq<Instruction>, row: int, col: int, code: string)
    requires Shaped(s) && InGrid(s.plan, row, col) && FirstDue(Tower(s, row, col), code) == |Tower(s, row, col)|
    ensures UnloadTower(s, list, row, col, code) == Work(s, [], list)
    ensures Told(s, Scan(s, list), list, code)
  {
    assert list[|list|..] == [];
  }

  lemma DueTowerTold(s: Stowage, list: seq<Instruction>, w: Work, row: int, col: int, code: string, k: nat)
    requires Sound(s) && UniqueIds(OnBoard(s)) && InGrid(s.plan, row, col)
    requires k == FirstDue(Tower(s, row, col), code) < |Tower(s, row, col)|
    requires w == UnloadTower(s, list, row, col, code) && OnBoard(w.ship) + multiset(w.port) == OnBoard(s)
    ensures Told(s, Scan(w.ship, w.list), list, code)
  {
    var w0 := Work(s, [], list);
    var floor := s.plan.floorStart[row][col] + k;
    var dug := RemoveAllAbove(w0, row, col, floor, code);
    assert w == ReturnAll(dug, row, col, code, dug.port);
    SomethingDueTold(w0, dug, w, row, col, floor, code);
  }

  // ----- the chain -----

  /** w is a finished tower of the scan, begun with ship s and the given list. */
  ghost predicate TowerDone(s: Stowage, list: seq<Instruction>, code: string, w: Work) {
    && Sound(s) && UniqueIds(OnBoard(s))
    && Sound(w.ship) && UniqueIds(OnBoard(w.ship)) && w.ship.plan == s.plan
    && Extends(Work(s, [], list), w)
    && OnBoard(w.ship) + multiset(w.port) == OnBoard(s)
    && Told(s, Scan(w.ship, w.list), list, code)
  }

  lemma TowerIsDone(s: Stowage, list: seq<Instruction>, row: int, col: int, code: string)
    requires Sound(s) && UniqueIds(OnBoard(s)) && InGrid(s.plan, row, col)
    ensures TowerDone(s, list, code, UnloadTower(s, list, row, col, code))
  {
    var w := UnloadTower(s, list, row, col, code);
    UnloadTowerFacts(s, list, row, col, code);
    ClearedKeeps(s, w, list, row, col, code);
    TowerTold(s, list, w, row, col, code);
  }

  lemma ClearedKeeps(s: Stowage, w: Work, list: seq<Instruction>, row: int, col: int, code: string)
    requires Sound(s) && UniqueIds(OnBoard(s)) && Cleared(s, w, list, row, col, code)
    ensures Extends(Work(s, [], list), w)
    ensures Sound(w.ship) && UniqueIds(OnBoard(w.ship)) && w.ship.plan == s.plan
    ensures OnBoard(w.ship) + multiset(w.port) == OnBoard(s)
  {
    ClearedIsScanned(s, w, list, row, col, code);
    ExtendsKeeps(Work(s, [], list), w);
    var none: seq<Container> := [];
    assert multiset(none) == multiset{};
  }

  ghost predicate Chain(s: Stowage, list: seq<Instruction>, code: string, ws: seq<Work>, u: Scan)
    decreases |ws|
  {
    if ws == [] then u == Scan(s, list)
    else TowerDone(s, list, code, ws[0]) && Chain(ws[0].ship, ws[0].list, code, ws[1..], u)
  }

  lemma FinishedTower(s: Stowage, list: seq<Instruction>, row: int, col: int, code: string) returns (w: Work)
    requires Sound(s) && UniqueIds(OnBoard(s)) && InGrid(s.plan, row, col)
    ensures w == UnloadTower(s, list, row, col, code) && TowerDone(s, list, code, w)
  {
    TowerIsDone(s, list, row, col, code);
    w := UnloadTower(s, list, row, col, code);
  }

  lemma {:induction false} UnloadIsChain(s: Stowage, list: seq<Instruction>, code: string, r: int, c: int)
      returns (u: Scan)
    requires Sound(s) && UniqueIds(OnBoard(s)) && 0 <= r <= s.plan.length && 0 <= c <= s.plan.width
    ensures u == UnloadFrom(s, list, code, r, c)
    ensures exists ws :: Chain(s, list, code, ws, u)
    decreases s.plan.length - r, s.plan.width - c, 1
  {
    if r == s.plan.length {
      u := Scan(s, list);
      NoChain(s, list, code);
    } else if c == s.plan.width {
      u := RowIsChain(s, list, code, r, c);
    } else {
      u := FromTowerIsChain(s, list, code, r, c);
    }
  }

  lemma {:induction false} RowIsChain(s: Stowage, list: seq<Instruction>, code: string, r: int, c: int)
      returns (u: Scan)
    requires Sound(s) && UniqueIds(OnBoard(s)) && 0 <= r < s.plan.length && c == s.plan.width
    ensures u == UnloadFrom(s, list, code, r, c)
    ensures exists ws :: Chain(s, list, code, ws, u)
    decreases s.plan.length - r, s.plan.width - c, 0
  {
    u := UnloadFrom(s, list, code, r, c);
    UnloadFromNextRow(s, list, code, r, c, u);
    var same := UnloadIsChain(s, list, code, r + 1, 0);
    assert u == same;
  }

  lemma {:induction false} FromTowerIsChain(s: Stowage, list: seq<Instruction>, code: string, r: int, c: int)
      returns (u: Scan)
    requires Sound(s) && UniqueIds(OnBoard(s)) && InGrid(s.plan, r, c)
    ensures u == UnloadFrom(s, list, code, r, c)
    ensures exists ws :: Chain(s, list, code, ws, u)
    decreases s.plan.length - r, s.plan.width - c, 0
  {
    var w := FinishedTower(s, list, r, c, code);
    UnloadFromNext(s, list, code, r, c);
    u := UnloadIsChain(w.ship, w.list, code, r, c + 1);
    var rest :| Chain(w.ship, w.list, code, rest, u);
    var ws := ChainLonger(s, list, code, w, rest, u);
  }

  lemma NoChain(s: Stowage, list: seq<Instruction>, code: string)
    ensures exists ws :: Chain(s, list, code, ws, Scan(s, list))
  {
    assert Chain(s, list, code, [], Scan(s, list));
  }

  lemma ChainLonger(s: Stowage, list: seq<Instruction>, code: string, w: Work, rest: seq<Work>, u: Scan)
      returns (ws: seq<Work>)
    requires TowerDone(s, list, code, w) && Chain(w.ship, w.list, code, rest, u)
    ensures Chain(s, list, code, ws, u)
  {
    ws := [w] + rest;
    assert ws[0] == w && ws[1..] == rest;
  }

  lemma ToldTransitive(s: Stowage, s1: Stowage, l: seq<Instruction>, l1: seq<Instruction>, u: Scan, code: string)
    requires Shaped(s) && Shaped(s1) && OnBoard(s1) <= OnBoard(s)
    requires Told(s, Scan(s1, l1), l, code) && Told(s1, u, l1, code)
    ensures Told(s, u, l, code)
  {
    PrefixThen(l, l1, u.list);
    SettledMore(l1[|l|..], u.list[|l1|..], OnBoard(s1), OnBoard(s), code);
    forall x | x in OnBoard(s) && x !in OnBoard(u.ship)
      ensures Listed(u.list[|l|..], UNLOAD, x.id)
    {
      if x in OnBoard(s1) {
        var i :| i in u.list[|l1|..] && Names(i, UNLOAD, x.id);
        assert i in u.list[|l|..];
      } else {
        var i :| i in l1[|l|..] && Names(i, UNLOAD, x.id);
        assert i in u.list[|l|..];
      }
    }
  }

  lemma {:induction false} ChainTold(s: Stowage, list: seq<Instruction>, code: string, ws: seq<Work>, u: Scan)
    requires Sound(s) && Chain(s, list, code, ws, u)
    ensures Told(s, u, list, code)
    decreases |ws|
  {
    if ws == [] {
      assert list[|list|..] == [];
    } else {
      var w := ws[0];
      ChainTold(w.ship, w.list, code, ws[1..], u);
      ToldTransitive(s, w.ship, list, w.list, u, code);
    }
  }
}
