/** The load phase container by container: what is loaded, where, what is rejected, and which flags
    are raised, without the functions by which the planner decides. */
module LoadPlan {
  import opened Cargo
  import opened ShipSpec
  import opened Replay
  import opened PlannerSpec
  import opened PlannerFacts

  /** Five characters of the codes of the letters, capital or small. */
  predicate FiveLetters(code: string) {
    |code| == 5 && forall k :: 0 <= k < 5 ==> 65 <= code[k] as int <= 90 || 97 <= code[k] as int <= 122
  }

  lemma SeaportCodeExactly(code: string)
    ensures SeaportCode(code) <==> FiveLetters(code)
  {
  }

  // ----- one container -----

  /** Nothing is wrong with the container by itself. */
  ghost predicate IsFine(x: Container, before: Stowage, stop: Stop)
    requires Shaped(before)
  {
    !Aboard(before, x.id) && stop.verifyId(x.id) && x.weight != -1 && FiveLetters(x.dest)
  }

  /** A later stop is the container's destination. */
  predicate IsOnward(x: Container, stop: Stop) {
    exists k :: stop.idx < k < |stop.route| && stop.route[k] == x.dest
  }

  ghost predicate HasRoom(s: Stowage)
    requires Shaped(s)
  {
    exists r, c :: HasPlace(s, -1, -1, r, c)
  }

  /** What is decided of x on ship s, where `repeated` says whether its id was loaded here already. */
  ghost predicate DecidedSo(s: Stowage, x: Container, repeated: bool, before: Stowage, stop: Stop, i: Instruction)
    requires Shaped(s) && Shaped(before)
  {
    && i.id == x.id
    && (i.Load? <==>
        x.dest != stop.code && !repeated && IsFine(x, before, stop) && IsOnward(x, stop) && HasRoom(s))
    && (i.Load? ==>
        && IsBest(s, -1, -1, x.dest, i.row, i.col)
        && i.floor == s.plan.floorStart[i.row][i.col] + |s.towers[i.row][i.col]|)
    && (!i.Load? ==> i.Reject? && i.row == i.col == 0)
  }

  /** When the container raises a flag. */
  ghost predicate Raises(e: AlgError, s: Stowage, x: Container, repeated: bool, before: Stowage, stop: Stop)
    requires Shaped(s) && Shaped(before)
  {
    var checked := x.dest != stop.code && !repeated;
    match e
    case CONTAINER_ID => x.dest == stop.code
    case CONTAINER_DUPLICATE_ID_ON_PORT => x.dest != stop.code && repeated
    case CONTAINER_ID_ALREADY_ON_SHIP => checked && Aboard(before, x.id)
    case CONTAINER_ID_ISO => checked && !stop.verifyId(x.id)
    case CONTAINER_WEIGHT => checked && x.weight == -1
    case CONTAINER_PORT_DEST => checked && !FiveLetters(x.dest)
    case CONTAINERS_EXCEEDS_CAPACITY => checked && IsFine(x, before, stop) && IsOnward(x, stop) && !HasRoom(s)
    case CONTAINERS_LAST_PORT_HAS_CONTAINERS => false
  }

  lemma ChecksExactly(x: Container, before: Stowage, stop: Stop)
    requires Shaped(before)
    ensures var errors := CheckBeforeLoad(x, before, stop);
            && (errors == {} <==> IsFine(x, before, stop))
            && (CONTAINER_ID_ALREADY_ON_SHIP in errors <==> Aboard(before, x.id))
            && (CONTAINER_ID_ISO in errors <==> !stop.verifyId(x.id))
            && (CONTAINER_WEIGHT in errors <==> x.weight == -1)
            && (CONTAINER_PORT_DEST in errors <==> !FiveLetters(x.dest))
            && errors <= {CONTAINER_ID_ALREADY_ON_SHIP, CONTAINER_ID_ISO, CONTAINER_WEIGHT, CONTAINER_PORT_DEST}
  {
    SeaportCodeExactly(x.dest);
  }

  lemma OnwardExactly(x: Container, stop: Stop)
    ensures OnRoute(stop, x.dest) <==> IsOnward(x, stop)
  {
  }

  lemma NextLoadExactly(s: Stowage, x: Container, before: Stowage, stop: Stop) returns (d: Choice)
    requires Shaped(s) && Shaped(before) && x.dest != stop.code
    ensures d == NextLoad(s, x, before, stop)
    ensures DecidedSo(s, x, false, before, stop, d.instruction)
    ensures forall e :: e in d.errors <==> Raises(e, s, x, false, before, stop)
  {
    ChecksExactly(x, before, stop);
    OnwardExactly(x, stop);
    d := NextLoad(s, x, before, stop);
    if CheckBeforeLoad(x, before, stop) == {} && OnRoute(stop, x.dest) {
      BestTowerExactly(s, -1, -1, x.dest);
      PlaceFound(s, x, before, stop, d);
      assert forall e :: e in d.errors <==> e == CONTAINERS_EXCEEDS_CAPACITY && !HasRoom(s);
    } else {
      assert d.errors == CheckBeforeLoad(x, before, stop);
    }
  }

  /** A container that may be loaded is loaded on the best tower if there is one. */
  lemma PlaceFound(s: Stowage, x: Container, before: Stowage, stop: Stop, d: Choice)
    requires Shaped(s) && Shaped(before) && d == NextLoad(s, x, before, stop)
    requires CheckBeforeLoad(x, before, stop) == {} && OnRoute(stop, x.dest)
    ensures d.instruction.id == x.id && (d.instruction.Load? <==> HasRoom(s))
    ensures d.instruction.Load? ==> IsBest(s, -1, -1, x.dest, d.instruction.row, d.instruction.col)
    ensures d.instruction.Load? ==>
              d.instruction.floor == s.plan.floorStart[d.instruction.row][d.instruction.col] +
                                     |s.towers[d.instruction.row][d.instruction.col]|
    ensures !d.instruction.Load? ==> d.instruction.Reject? && d.instruction.row == d.instruction.col == 0
    ensures d.errors == if HasRoom(s) then {} else {CONTAINERS_EXCEEDS_CAPACITY}
  {
    BestTowerExactly(s, -1, -1, x.dest);
  }

  /** Every decision of the load loop, and every flag that it raises. */
  lemma DecideExactly(s: Stowage, x: Container, loaded: seq<Container>, before: Stowage, stop: Stop)
    requires Shaped(s) && Shaped(before)
    ensures var d := Decide(s, x, loaded, before, stop);
            var repeated := exists y :: y in loaded && y.id == x.id;
            DecidedSo(s, x, repeated, before, stop, d.instruction)
            && forall e :: e in d.errors <==> Raises(e, s, x, repeated, before, stop)
  {
    var k := IndexOf(loaded, x.id);
    assert k != NOT_FOUND ==> loaded[k] in loaded;
    if x.dest != stop.code && k == NOT_FOUND {
      var d := NextLoadExactly(s, x, before, stop);
    }
  }

  // ----- the whole phase -----

  /** A container of the id was loaded by one of the instructions. */
  ghost predicate LoadedIn(list: seq<Instruction>, id: string) {
    exists m :: 0 <= m < |list| && list[m].Load? && list[m].id == id
  }

  /** Instruction n is what is decided of container n on the ship as the ones before leave it. */
  ghost predicate PlannedSo(u: Stowage, cargo: seq<Container>, before: Stowage, stop: Stop, ordered: seq<Container>,
                            list: seq<Instruction>, n: nat)
    requires Shaped(u) && Shaped(before) && n < |ordered| && n < |list|
  {
    var s := Run(u, cargo, list[..n]).ship;
    DecidedSo(s, ordered[n], LoadedIn(list[..n], ordered[n].id), before, stop, list[n])
  }

  ghost predicate FlaggedAt(e: AlgError, u: Stowage, cargo: seq<Container>, before: Stowage, stop: Stop,
                            ordered: seq<Container>, list: seq<Instruction>, n: nat)
    requires Shaped(u) && Shaped(before) && n < |ordered| && n < |list|
  {
    var s := Run(u, cargo, list[..n]).ship;
    Raises(e, s, ordered[n], LoadedIn(list[..n], ordered[n].id), before, stop)
  }

  /** After some containers: the instructions so far, the ids loaded, and the flags. */
  ghost predicate Phase(l: Loading, u: Stowage, cargo: seq<Container>, before: Stowage, stop: Stop,
                        ordered: seq<Container>, list: seq<Instruction>)
    requires Shaped(u) && Shaped(before) && |list| <= |ordered|
  {
    && Run(u, cargo, list) == Outcome(l.work.ship, l.work.port)
    && (forall n :: 0 <= n < |list| ==> PlannedSo(u, cargo, before, stop, ordered, list, n))
    && (forall y :: y in l.loaded ==> LoadedIn(list, y.id))
    && (forall m :: 0 <= m < |list| && list[m].Load? ==> exists y :: y in l.loaded && y.id == list[m].id)
    && (forall e :: e in l.errors <==>
                    exists n :: 0 <= n < |list| && FlaggedAt(e, u, cargo, before, stop, ordered, list, n))
  }

  /** One instruction more leaves what was planned before as it was. */
  lemma PlannedBefore(u: Stowage, cargo: seq<Container>, before: Stowage, stop: Stop, ordered: seq<Container>,
                      list: seq<Instruction>, i: Instruction, n: nat, e: AlgError)
    requires Shaped(u) && Shaped(before) && n < |list| < |ordered|
    ensures PlannedSo(u, cargo, before, stop, ordered, list + [i], n) <==>
            PlannedSo(u, cargo, before, stop, ordered, list, n)
    ensures FlaggedAt(e, u, cargo, before, stop, ordered, list + [i], n) <==>
            FlaggedAt(e, u, cargo, before, stop, ordered, list, n)
  {
    assert (list + [i])[..n] == list[..n];
  }

  lemma LoadedMore(loaded: seq<Container>, list: seq<Instruction>, x: Container, i: Instruction)
    requires forall y :: y in loaded ==> LoadedIn(list, y.id)
    requires forall m :: 0 <= m < |list| && list[m].Load? ==> exists y :: y in loaded && y.id == list[m].id
    requires i.id == x.id && (i.Load? || i.Reject?)
    ensures var loaded' := if i.Reject? then loaded else loaded + [x];
            && (forall y :: y in loaded' ==> LoadedIn(list + [i], y.id))
            && (forall m :: 0 <= m <= |list| && (list + [i])[m].Load? ==>
                  exists y :: y in loaded' && y.id == (list + [i])[m].id)
  {
    var list', loaded' := list + [i], if i.Reject? then loaded else loaded + [x];
    forall y | y in loaded'
      ensures LoadedIn(list', y.id)
    {
      if y in loaded {
        var m :| 0 <= m < |list| && list[m].Load? && list[m].id == y.id;
        assert list'[m] == list[m];
      } else {
        assert list'[|list|] == i;
      }
    }
    forall m | 0 <= m <= |list| && list'[m].Load?
      ensures exists y :: y in loaded' && y.id == list'[m].id
    {
      if m < |list| {
        var y :| y in loaded && y.id == list[m].id;
        assert y in loaded';
      } else {
        assert x in loaded';
      }
    }
  }

  lemma FlagsMore(l: Loading, more: set<AlgError>, u: Stowage, cargo: seq<Container>, before: Stowage, stop: Stop,
                  ordered: seq<Container>, list: seq<Instruction>, i: Instruction, e: AlgError)
    requires Shaped(u) && Shaped(before) && |list| < |ordered|
    requires e in l.errors <==>
             exists n :: 0 <= n < |list| && FlaggedAt(e, u, cargo, before, stop, ordered, list, n)
    requires e in more <==> FlaggedAt(e, u, cargo, before, stop, ordered, list + [i], |list|)
    ensures e in l.errors + more <==>
            exists n :: 0 <= n <= |list| && FlaggedAt(e, u, cargo, before, stop, ordered, list + [i], n)
  {
    forall n | 0 <= n < |list|
      ensures FlaggedAt(e, u, cargo, before, stop, ordered, list + [i], n) <==>
              FlaggedAt(e, u, cargo, before, stop, ordered, list, n)
    {
      PlannedBefore(u, cargo, before, stop, ordered, list, i, n, e);
    }
  }

  lemma DecidedNext(l: Loading, u: Stowage, cargo: seq<Container>, before: Stowage, stop: Stop,
                    ordered: seq<Container>, list: seq<Instruction>)
      returns (d: Choice)
    requires Shaped(u) && Shaped(before) && |list| < |ordered| && Shaped(l.work.ship)
    requires Phase(l, u, cargo, before, stop, ordered, list)
    ensures d == Decide(l.work.ship, ordered[|list|], l.loaded, before, stop)
    ensures d.instruction.id == ordered[|list|].id && (d.instruction.Load? || d.instruction.Reject?)
    ensures PlannedSo(u, cargo, before, stop, ordered, list + [d.instruction], |list|)
    ensures forall e :: e in d.errors <==>
                        FlaggedAt(e, u, cargo, before, stop, ordered, list + [d.instruction], |list|)
  {
    var x := ordered[|list|];
    DecideExactly(l.work.ship, x, l.loaded, before, stop);
    d := Decide(l.work.ship, x, l.loaded, before, stop);
    assert (list + [d.instruction])[..|list|] == list;
    assert LoadedIn(list, x.id) <==> exists y :: y in l.loaded && y.id == x.id;
  }

  lemma PhaseNext(l: Loading, u: Stowage, cargo: seq<Container>, before: Stowage, stop: Stop,
                  ordered: seq<Container>, list: seq<Instruction>)
      returns (i: Instruction)
    requires Shaped(u) && Shaped(before) && |list| < |ordered| && Shaped(l.work.ship)
    requires Phase(l, u, cargo, before, stop, ordered, list)
    ensures var l' := LoadOne(l, ordered[|list|], before, stop);
            l'.work.list == l.work.list + [i] && Phase(l', u, cargo, before, stop, ordered, list + [i])
  {
    var d := DecidedNext(l, u, cargo, before, stop, ordered, list);
    i := d.instruction;
    RunOneFurther(u, cargo, list, i);
    LoadedMore(l.loaded, list, ordered[|list|], i);
    forall n | 0 <= n < |list|
      ensures PlannedSo(u, cargo, before, stop, ordered, list + [i], n)
    {
      PlannedBefore(u, cargo, before, stop, ordered, list, i, n, CONTAINER_ID);
    }
    forall e: AlgError {
      FlagsMore(l, d.errors, u, cargo, before, stop, ordered, list, i, e);
    }
  }

  /** The rest of the phase. */
  lemma {:induction false} PhaseEnds(l: Loading, u: Stowage, cargo: seq<Container>, before: Stowage, stop: Stop,
                                     ordered: seq<Container>, list: seq<Instruction>)
      returns (l': Loading, all: seq<Instruction>)
    requires Shaped(u) && Shaped(before) && |list| <= |ordered| && Shaped(l.work.ship)
    requires Phase(l, u, cargo, before, stop, ordered, list)
    ensures l' == LoadAll(l, before, stop, ordered[|list|..])
    ensures list <= all && |all| == |ordered| && l'.work.list == l.work.list + all[|list|..]
    ensures Phase(l', u, cargo, before, stop, ordered, all)
    decreases |ordered| - |list|
  {
    if |list| == |ordered| {
      l', all := l, list;
      assert all[|list|..] == [];
    } else {
      var i := PhaseNext(l, u, cargo, before, stop, ordered, list);
      var l1 := LoadOne(l, ordered[|list|], before, stop);
      l', all := PhaseEnds(l1, u, cargo, before, stop, ordered, list + [i]);
      assert ordered[|list|..][1..] == ordered[|list + [i]|..];
      AddedSince(list, i, all, l.work.list, l'.work.list);
    }
  }

  /** What a port writes after its unload scan, instruction by instruction, and which flags it
      raises. Nothing is said of an order of the cargo here. */
  lemma LoadPhaseExactly(s: Stowage, stop: Stop, cargo: seq<Container>, ordered: seq<Container>)
      returns (list: seq<Instruction>)
    requires Shaped(s) && !(stop.idx == |stop.route| - 1 && cargo != [])
    ensures var u := UnloadFrom(s, [], stop.code, 0, 0);
            var p := PlanPort(s, stop, cargo, ordered);
            && p.list == u.list + list && |list| == |ordered|
            && p.ship == Run(u.ship, cargo, list).ship
            && (forall n :: 0 <= n < |list| ==> PlannedSo(u.ship, cargo, s, stop, ordered, list, n))
            && (forall e :: e in p.errors <==>
                  exists n :: 0 <= n < |list| && FlaggedAt(e, u.ship, cargo, s, stop, ordered, list, n))
  {
    var u := UnloadFrom(s, [], stop.code, 0, 0);
    var l0 := Loading(Work(u.ship, cargo, u.list), [], {});
    var l;
    l, list := PhaseEnds(l0, u.ship, cargo, s, stop, ordered, []);
    assert ordered[0..] == ordered && list[0..] == list;
  }

  /** At the last stop with waiting cargo nothing is loaded and nothing rejected; that is flagged. */
  lemma LastStopExactly(s: Stowage, stop: Stop, cargo: seq<Container>, ordered: seq<Container>)
    requires Shaped(s) && stop.idx == |stop.route| - 1 && cargo != []
    ensures var u := UnloadFrom(s, [], stop.code, 0, 0);
            PlanPort(s, stop, cargo, ordered) == PortPlan(u.ship, u.list, {CONTAINERS_LAST_PORT_HAS_CONTAINERS})
  {
  }
}
