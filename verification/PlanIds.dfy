/** The ids that the planner's instructions name: always those of containers on board or of
    the waiting cargo. */
module PlanIds {
  import opened Cargo
  import opened ShipSpec
  import opened PlannerSpec
  import opened PlannerFacts
  import opened LoadFacts
  import opened UnloadChain

  ghost predicate Speaks(list: seq<Instruction>, good: string -> bool) {
    forall i :: i in list ==> !i.Blank? && good(i.id)
  }

  ghost predicate GoodIds(b: multiset<Container>, good: string -> bool) {
    forall x :: x in b ==> good(x.id)
  }

  lemma DigStepSpeaks(w: Work, row: int, col: int, floor: int, code: string, cap: int, top: int, h: int,
                      good: string -> bool)
    requires DigReady(w, row, col, floor, cap, top, h) && floor <= h
    requires Speaks(w.list, good) && GoodIds(OnBoard(w.ship) + multiset(w.port), good)
    ensures Tower(w.ship, row, col) != []
    ensures var w1 := Emit(w, DigInstruction(w.ship, row, col, Last(Tower(w.ship, row, col)), code, cap, top, h));
            Speaks(w1.list, good) && GoodIds(OnBoard(w1.ship) + multiset(w1.port), good)
  {
    DigStep(w, row, col, floor, code, cap, top, h);
    var x := Last(Tower(w.ship, row, col));
    var i := DigInstruction(w.ship, row, col, x, code, cap, top, h);
    OnBoardMember(w.ship, x);
    assert x in OnBoard(w.ship) + multiset(w.port);
    assert i.id == x.id;
    EmitExtends(w, i);
    assert i in New(w, Emit(w, i));
    ExtendsKeeps(w, Emit(w, i));
  }

  lemma {:induction false} DigOutSpeaks(w: Work, row: int, col: int, floor: int, code: string, cap: int, top: int,
                                        h: int, good: string -> bool)
    requires DigReady(w, row, col, floor, cap, top, h)
    requires Speaks(w.list, good) && GoodIds(OnBoard(w.ship) + multiset(w.port), good)
    ensures Speaks(DigOut(w, row, col, floor, code, cap, top, h).list, good)
    decreases h - floor + 1
  {
    if floor <= h {
      DigStep(w, row, col, floor, code, cap, top, h);
      DigStepSpeaks(w, row, col, floor, code, cap, top, h, good);
      DigOutNext(w, row, col, floor, code, cap, top, h);
      var w1 := Emit(w, DigInstruction(w.ship, row, col, Last(Tower(w.ship, row, col)), code, cap, top, h));
      DigOutSpeaks(w1, row, col, floor, code, cap, top, h - 1, good);
    }
  }

  lemma {:induction false} ReturnAllSpeaks(w: Work, row: int, col: int, code: string, rest: seq<Container>,
                                           good: string -> bool)
    requires Shaped(w.ship) && InGrid(w.ship.plan, row, col)
    requires Speaks(w.list, good) && GoodIds(multiset(rest), good)
    ensures Speaks(ReturnAll(w, row, col, code, rest).list, good)
    decreases |rest|
  {
    if rest != [] {
      assert rest[0] in multiset(rest);
      assert forall x :: x in multiset(rest[1..]) ==> x in rest;
      if rest[0].dest == code {
        ReturnAllSpeaks(w, row, col, code, rest[1..], good);
      } else {
        ReturnAllSpeaks(Emit(w, Load(row, col, Height(w.ship, row, col), rest[0].id)), row, col, code, rest[1..], good);
      }
    }
  }

  lemma DugSpeaks(w0: Work, dug: Work, row: int, col: int, floor: int, code: string, good: string -> bool)
    requires Sound(w0.ship) && w0.port == [] && InGrid(w0.ship.plan, row, col)
    requires w0.ship.plan.floorStart[row][col] <= floor < Height(w0.ship, row, col)
    requires dug == RemoveAllAbove(w0, row, col, floor, code)
    requires Speaks(w0.list, good) && GoodIds(OnBoard(w0.ship), good)
    ensures Speaks(dug.list, good)
  {
    var top := Height(w0.ship, row, col) - 1;
    assert OnBoard(w0.ship) + multiset(w0.port) == OnBoard(w0.ship);
    DigOutSpeaks(w0, row, col, floor, code, CapacityExcluding(w0.ship, row, col), top, top, good);
  }

  lemma PartIsGood(part: multiset<Container>, whole: multiset<Container>, good: string -> bool)
    requires part <= whole && GoodIds(whole, good)
    ensures GoodIds(part, good)
  {
    assert forall x :: part[x] <= whole[x];
  }

  lemma SomethingDueSpeaks(w0: Work, dug: Work, row: int, col: int, floor: int, code: string, good: string -> bool)
    requires Sound(w0.ship) && UniqueIds(OnBoard(w0.ship)) && w0.port == [] && InGrid(w0.ship.plan, row, col)
    requires w0.ship.plan.floorStart[row][col] <= floor < Height(w0.ship, row, col)
    requires dug == RemoveAllAbove(w0, row, col, floor, code)
    requires Speaks(w0.list, good) && GoodIds(OnBoard(w0.ship), good)
    ensures Speaks(ReturnAll(dug, row, col, code, dug.port).list, good)
  {
    DugSpeaks(w0, dug, row, col, floor, code, good);
    DigOutTower(w0, dug, row, col, floor, code);
    PartIsGood(multiset(dug.port), OnBoard(w0.ship), good);
    ReturnAllSpeaks(dug, row, col, code, dug.port, good);
  }

  lemma TowerSpeaks(s: Stowage, list: seq<Instruction>, row: int, col: int, code: string, good: string -> bool)
    requires Sound(s) && UniqueIds(OnBoard(s)) && InGrid(s.plan, row, col)
    requires Speaks(list, good) && GoodIds(OnBoard(s), good)
    ensures Speaks(UnloadTower(s, list, row, col, code).list, good)
  {
    var k := FirstDue(Tower(s, row, col), code);
    if k < |Tower(s, row, col)| {
      var w0 := Work(s, [], list);
      var floor := s.plan.floorStart[row][col] + k;
      SomethingDueSpeaks(w0, RemoveAllAbove(w0, row, col, floor, code), row, col, floor, code, good);
    }
  }

  lemma {:induction false} UnloadSpeaks(s: Stowage, list: seq<Instruction>, code: string, r: int, c: int,
                                        good: string -> bool)
    requires Sound(s) && UniqueIds(OnBoard(s)) && 0 <= r <= s.plan.length && 0 <= c <= s.plan.width
    requires Speaks(list, good) && GoodIds(OnBoard(s), good)
    ensures Speaks(UnloadFrom(s, list, code, r, c).list, good)
    decreases s.plan.length - r, s.plan.width - c, 1
  {
    if r < s.plan.length {
      if c == s.plan.width {
        UnloadSpeaks(s, list, code, r + 1, 0, good);
      } else {
        FromTowerSpeaks(s, list, code, r, c, good);
      }
    }
  }

  lemma SpeakingTower(s: Stowage, list: seq<Instruction>, row: int, col: int, code: string, good: string -> bool)
      returns (w: Work)
    requires Sound(s) && UniqueIds(OnBoard(s)) && InGrid(s.plan, row, col)
    requires Speaks(list, good) && GoodIds(OnBoard(s), good)
    ensures w == UnloadTower(s, list, row, col, code) && Speaks(w.list, good)
    ensures Sound(w.ship) && w.ship.plan == s.plan && UniqueIds(OnBoard(w.ship)) && GoodIds(OnBoard(w.ship), good)
  {
    w := FinishedTower(s, list, row, col, code);
    TowerSpeaks(s, list, row, col, code, good);
    PartIsGood(OnBoard(w.ship), OnBoard(s), good);
  }

  lemma {:induction false} FromTowerSpeaks(s: Stowage, list: seq<Instruction>, code: string, r: int, c: int,
                                           good: string -> bool)
    requires Sound(s) && UniqueIds(OnBoard(s)) && InGrid(s.plan, r, c)
    requires Speaks(list, good) && GoodIds(OnBoard(s), good)
    ensures Speaks(UnloadFrom(s, list, code, r, c).list, good)
    decreases s.plan.length - r, s.plan.width - c, 0
  {
    var w := SpeakingTower(s, list, r, c, code, good);
    UnloadFromNext(s, list, code, r, c);
    UnloadSpeaks(w.ship, w.list, code, r, c + 1, good);
  }

  lemma LoadOneSpeaks(l: Loading, before: Stowage, stop: Stop, rest: seq<Container>, good: string -> bool)
    requires LoadReady(l, before, rest) && rest != []
    requires Speaks(l.work.list, good) && good(rest[0].id)
    ensures Speaks(LoadOne(l, rest[0], before, stop).work.list, good)
  {
    DecideAccepted(l, rest[0], rest, before, stop);
  }

  lemma {:induction false} LoadAllSpeaks(l: Loading, before: Stowage, stop: Stop, rest: seq<Container>,
                                         good: string -> bool)
    requires LoadReady(l, before, rest)
    requires Speaks(l.work.list, good) && forall x :: x in rest ==> good(x.id)
    ensures Speaks(LoadAll(l, before, stop, rest).work.list, good)
    decreases |rest|
  {
    if rest != [] {
      LoadOneSpeaks(l, before, stop, rest, good);
      LoadStep(l, rest, before, stop);
      LoadAllSpeaks(LoadOne(l, rest[0], before, stop), before, stop, rest[1..], good);
    }
  }

  /** Every instruction of a port's list has one of the four kinds, and names a container
      that is on board or waits. */
  lemma PlanSpeaks(s: Stowage, stop: Stop, cargo: seq<Container>, ordered: seq<Container>, good: string -> bool)
    requires Sound(s) && UniqueIds(OnBoard(s)) && multiset(ordered) == multiset(cargo)
    requires GoodIds(OnBoard(s), good) && GoodIds(multiset(cargo), good)
    ensures Speaks(PlanPort(s, stop, cargo, ordered).list, good)
  {
    var u := UnloadFrom(s, [], stop.code, 0, 0);
    UnloadSpeaks(s, [], stop.code, 0, 0, good);
    UnloadScanClears(s, [], stop.code);
    if !(LastPort(stop) && cargo != []) {
      LoadStarts(u.ship, s, u.list, cargo, ordered);
      assert forall x :: x in ordered ==> x in multiset(ordered);
      LoadAllSpeaks(Loading(Work(u.ship, cargo, u.list), [], {}), s, stop, ordered, good);
    }
  }
}
