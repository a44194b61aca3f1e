/** No two containers on board share an id, in any state of any port. */
module IdsOnBoard {
  import opened Cargo
  import opened ShipSpec
  import opened Replay
  import opened PlannerSpec
  import opened PlannerFacts
  import opened LoadFacts
  import opened UnloadChain
  import opened Lockstep

  // ----- the containers of one id on board -----

  /** The containers with the id at (r, c) and after it, in row-major order. */
  ghost function CarriedFrom(s: Stowage, id: string, r: int, c: int): seq<Container>
    requires Shaped(s) && 0 <= r <= s.plan.length && 0 <= c <= s.plan.width
    decreases s.plan.length - r, s.plan.width - c
  {
    if r == s.plan.length then []
    else if c == s.plan.width then CarriedFrom(s, id, r + 1, 0)
    else WithId(Tower(s, r, c), id) + CarriedFrom(s, id, r, c + 1)
  }

  ghost function Carried(s: Stowage, id: string): seq<Container>
    requires Shaped(s)
  {
    CarriedFrom(s, id, 0, 0)
  }

  lemma {:induction false} WithIdCount(p: seq<Container>, x: Container)
    ensures multiset(WithId(p, x.id))[x] == multiset(p)[x]
  {
    if p != [] {
      assert p == [p[0]] + p[1..];
      WithIdCount(p[1..], x);
    }
  }

  lemma CountBoth(t: seq<Container>, rest: seq<Container>, x: Container)
    ensures multiset(WithId(t, x.id) + rest)[x] == multiset(t)[x] + multiset(rest)[x]
  {
    WithIdCount(t, x);
  }

  lemma CarriedCountHere(s: Stowage, x: Container, r: int, c: int, rest: seq<Container>)
    requires Shaped(s) && InGrid(s.plan, r, c) && rest == CarriedFrom(s, x.id, r, c + 1)
    requires multiset(rest)[x] == BoardFrom(s, r, c + 1)[x]
    ensures multiset(CarriedFrom(s, x.id, r, c))[x] == BoardFrom(s, r, c)[x]
  {
    assert CarriedFrom(s, x.id, r, c) == WithId(Tower(s, r, c), x.id) + rest;
    CountBoth(Tower(s, r, c), rest, x);
    BoardFromHere(s, r, c, x);
  }

  lemma CarriedFromNextRow(s: Stowage, id: string, r: int, c: int)
    requires Shaped(s) && 0 <= r < s.plan.length && c == s.plan.width
    ensures CarriedFrom(s, id, r, c) == CarriedFrom(s, id, r + 1, 0)
  {
  }

  lemma {:induction false} CarriedCountFrom(s: Stowage, x: Container, r: int, c: int) returns (cs: seq<Container>)
    requires Shaped(s) && 0 <= r <= s.plan.length && 0 <= c <= s.plan.width
    ensures cs == CarriedFrom(s, x.id, r, c) && multiset(cs)[x] == BoardFrom(s, r, c)[x]
    decreases s.plan.length - r, s.plan.width - c, 1
  {
    if r == s.plan.length {
      cs := [];
    } else if c == s.plan.width {
      cs := CarriedCountRow(s, x, r, c);
    } else {
      cs := CarriedCountAt(s, x, r, c);
    }
  }

  lemma {:induction false} CarriedCountRow(s: Stowage, x: Container, r: int, c: int) returns (cs: seq<Container>)
    requires Shaped(s) && 0 <= r < s.plan.length && c == s.plan.width
    ensures cs == CarriedFrom(s, x.id, r, c) && multiset(cs)[x] == BoardFrom(s, r, c)[x]
    decreases s.plan.length - r, s.plan.width - c, 0
  {
    BoardFromNextRow(s, r, c);
    CarriedFromNextRow(s, x.id, r, c);
    cs := CarriedCountFrom(s, x, r + 1, 0);
  }

  lemma {:induction false} CarriedCountAt(s: Stowage, x: Container, r: int, c: int) returns (cs: seq<Container>)
    requires Shaped(s) && InGrid(s.plan, r, c)
    ensures cs == CarriedFrom(s, x.id, r, c) && multiset(cs)[x] == BoardFrom(s, r, c)[x]
    decreases s.plan.length - r, s.plan.width - c, 0
  {
    var rest := CarriedCountFrom(s, x, r, c + 1);
    CarriedCountHere(s, x, r, c, rest);
    cs := CarriedFrom(s, x.id, r, c);
  }

  lemma {:induction false} CarriedIds(s: Stowage, id: string, r: int, c: int)
    requires Shaped(s) && 0 <= r <= s.plan.length && 0 <= c <= s.plan.width
    ensures forall x :: x in CarriedFrom(s, id, r, c) ==> x.id == id
    decreases s.plan.length - r, s.plan.width - c
  {
    if r < s.plan.length {
      if c == s.plan.width {
        CarriedIds(s, id, r + 1, 0);
      } else {
        CarriedIds(s, id, r, c + 1);
      }
    }
  }

  lemma FirstTwoEqual(cs: seq<Container>, m: multiset<Container>)
    requires |cs| >= 2 && forall x :: x in cs ==> x in m
    requires forall x, y :: x in m && y in m && x.id == y.id ==> x == y
    requires forall x, y :: x in cs && y in cs ==> x.id == y.id
    ensures multiset(cs)[cs[0]] >= 2
  {
    assert cs[0] == cs[1];
    assert cs == [cs[0]] + [cs[1]] + cs[2..];
  }

  lemma AtMostOne(cs: seq<Container>, m: multiset<Container>)
    requires UniqueIds(m) && forall x :: x in cs ==> multiset(cs)[x] == m[x]
    requires forall x, y :: x in cs && y in cs ==> x.id == y.id
    ensures |cs| <= 1
  {
    assert forall x :: x in cs ==> x in multiset(cs);
    if |cs| >= 2 {
      FirstTwoEqual(cs, m);
    }
  }

  /** Ids are unique exactly when no id is carried twice. */
  lemma UniqueIsCarriedOnce(s: Stowage)
    requires Shaped(s)
    ensures UniqueIds(OnBoard(s)) <==> forall id :: |Carried(s, id)| <= 1
  {
    if UniqueIds(OnBoard(s)) {
      forall id
        ensures |Carried(s, id)| <= 1
      {
        CarriedIds(s, id, 0, 0);
        forall x | x in Carried(s, id)
          ensures multiset(Carried(s, id))[x] == OnBoard(s)[x]
        {
          var cs := CarriedCountFrom(s, x, 0, 0);
        }
        AtMostOne(Carried(s, id), OnBoard(s));
      }
    }
    if forall id :: |Carried(s, id)| <= 1 {
      forall x
        ensures OnBoard(s)[x] <= 1 && (x in OnBoard(s) ==> Carried(s, x.id) == [x])
      {
        var cs := CarriedCountFrom(s, x, 0, 0);
        assert |Carried(s, x.id)| <= 1;
        OneOfFew(cs, x);
      }
    }
  }

  lemma OneOfFew(cs: seq<Container>, x: Container)
    requires |cs| <= 1
    ensures multiset(cs)[x] <= 1 && (x in multiset(cs) ==> cs == [x])
  {
    if |cs| == 1 {
      assert cs == [cs[0]];
    }
  }

  lemma {:induction false} WithIdAlike(t1: seq<Container>, t2: seq<Container>, id: string)
    requires TowerIds(t1, t2)
    ensures |WithId(t1, id)| == |WithId(t2, id)|
  {
    if t1 != [] {
      assert t1[0].id == t2[0].id;
      WithIdAlike(t1[1..], t2[1..], id);
    }
  }

  lemma {:induction false} CarriedAlike(s1: Stowage, s2: Stowage, id: string, r: int, c: int)
    requires SameIds(s1, s2) && 0 <= r <= s1.plan.length && 0 <= c <= s1.plan.width
    ensures |CarriedFrom(s1, id, r, c)| == |CarriedFrom(s2, id, r, c)|
    decreases s1.plan.length - r, s1.plan.width - c
  {
    if r < s1.plan.length {
      if c == s1.plan.width {
        CarriedAlike(s1, s2, id, r + 1, 0);
      } else {
        WithIdAlike(Tower(s1, r, c), Tower(s2, r, c), id);
        CarriedAlike(s1, s2, id, r, c + 1);
      }
    }
  }

  /** Ships that look the same by ids have unique ids together. */
  lemma UniqueAlike(s1: Stowage, s2: Stowage)
    requires SameIds(s1, s2) && UniqueIds(OnBoard(s1))
    ensures UniqueIds(OnBoard(s2))
  {
    UniqueIsCarriedOnce(s1);
    UniqueIsCarriedOnce(s2);
    forall id
      ensures |Carried(s2, id)| <= 1
    {
      CarriedAlike(s1, s2, id, 0, 0);
      assert |Carried(s1, id)| <= 1;
    }
  }

  // ----- every state of a run -----

  /** Ids on board are unique after the first k instructions. */
  ghost predicate UniqueAfter(s: Stowage, port: seq<Container>, list: seq<Instruction>, k: nat)
    requires Shaped(s) && k <= |list|
  {
    UniqueIds(OnBoard(Run(s, port, list[..k]).ship))
  }

  /** Ids on board are unique at the start, and after every instruction. */
  ghost predicate UniqueThroughout(s: Stowage, port: seq<Container>, list: seq<Instruction>)
    requires Shaped(s)
  {
    forall k: nat :: k <= |list| ==> UniqueAfter(s, port, list, k)
  }

  lemma PrefixAccepted(s: Stowage, port: seq<Container>, list: seq<Instruction>, k: nat)
    requires Shaped(s) && AllAccepted(s, port, list) && k <= |list|
    ensures AllAccepted(s, port, list[..k])
  {
    assert list == list[..k] + list[k..];
    RunAppend(s, port, list[..k], list[k..]);
  }

  lemma UniqueAppend(s: Stowage, port: seq<Container>, a: seq<Instruction>, b: seq<Instruction>, e: Outcome)
    requires Shaped(s) && UniqueThroughout(s, port, a) && e == Run(s, port, a)
    requires UniqueThroughout(e.ship, e.port, b)
    ensures UniqueThroughout(s, port, a + b)
  {
    forall k: nat | k <= |a + b|
      ensures UniqueAfter(s, port, a + b, k)
    {
      if k <= |a| {
        assert (a + b)[..k] == a[..k];
        assert UniqueAfter(s, port, a, k);
      } else {
        assert (a + b)[..k] == a + b[..k - |a|];
        RunAppend(s, port, a, b[..k - |a|]);
        assert UniqueAfter(e.ship, e.port, b, k - |a|);
      }
    }
  }

  lemma UniqueNothing(s: Stowage, port: seq<Container>)
    requires Shaped(s) && UniqueIds(OnBoard(s))
    ensures UniqueThroughout(s, port, [])
  {
    var none: seq<Instruction> := [];
    assert none[..0] == none;
  }

  lemma UniqueOne(s: Stowage, port: seq<Container>, i: Instruction)
    requires Shaped(s) && UniqueIds(OnBoard(s)) && UniqueIds(OnBoard(Step(s, port, i).ship))
    ensures UniqueThroughout(s, port, [i])
  {
    var o := Step(s, port, i);
    assert [i][..0] == [] && [i][..1] == [i] && [i][1..] == [];
    assert Run(s, port, [i]) == Run(o.ship, o.port, []);
  }

  /** When ids are unique on board and at the port together, they stay so. */
  lemma UniqueTogether(s: Stowage, port: seq<Container>, list: seq<Instruction>)
    requires Sound(s) && AllAccepted(s, port, list) && UniqueIds(OnBoard(s) + multiset(port))
    ensures UniqueThroughout(s, port, list)
  {
    forall k: nat | k <= |list|
      ensures UniqueAfter(s, port, list, k)
    {
      PrefixAccepted(s, port, list, k);
      RunKeeps(s, port, list[..k]);
      UniqueIdsPart(OnBoard(Run(s, port, list[..k]).ship), OnBoard(s) + multiset(port));
    }
  }

  /** A run on a ship that looks the same by ids has unique ids throughout as well. */
  lemma UniqueOnBoth(s1: Stowage, p1: seq<Container>, s2: Stowage, p2: seq<Container>, list: seq<Instruction>)
    requires SameIds(s1, s2) && Covers(p1, p2) && AllAccepted(s1, p1, list) && UniqueThroughout(s1, p1, list)
    ensures UniqueThroughout(s2, p2, list)
  {
    forall k: nat | k <= |list|
      ensures UniqueAfter(s2, p2, list, k)
    {
      PrefixAccepted(s1, p1, list, k);
      LockstepIds(s1, p1, s2, p2, list[..k]);
      assert UniqueAfter(s1, p1, list, k);
      UniqueAlike(Run(s1, p1, list[..k]).ship, Run(s2, p2, list[..k]).ship);
    }
  }

  // ----- the unload phase -----

  lemma TowerUnique(s: Stowage, list: seq<Instruction>, code: string, w: Work, s2: Stowage, p2: seq<Container>)
    requires TowerDone(s, list, code, w) && SameIds(s, s2)
    ensures list <= w.list && UniqueThroughout(s2, p2, w.list[|list|..])
  {
    var none: seq<Container> := [];
    assert OnBoard(s) + multiset(none) == OnBoard(s);
    UniqueTogether(s, none, w.list[|list|..]);
    UniqueOnBoth(s, none, s2, p2, w.list[|list|..]);
  }

  lemma UniqueThen(s2: Stowage, p2: seq<Container>, l: seq<Instruction>, l1: seq<Instruction>, l2: seq<Instruction>)
    requires l <= l1 <= l2 && Shaped(s2) && UniqueThroughout(s2, p2, l1[|l|..])
    requires var o := Run(s2, p2, l1[|l|..]); UniqueThroughout(o.ship, o.port, l2[|l1|..])
    ensures l <= l2 && UniqueThroughout(s2, p2, l2[|l|..])
  {
    PrefixThen(l, l1, l2);
    UniqueAppend(s2, p2, l1[|l|..], l2[|l1|..], Run(s2, p2, l1[|l|..]));
  }

  lemma {:induction false} ChainUnique(s: Stowage, list: seq<Instruction>, code: string, ws: seq<Work>, u: Scan,
                                       s2: Stowage, p2: seq<Container>)
    requires Sound(s) && UniqueIds(OnBoard(s)) && Chain(s, list, code, ws, u) && SameIds(s, s2)
    ensures list <= u.list && UniqueThroughout(s2, p2, u.list[|list|..])
    decreases |ws|
  {
    if ws == [] {
      assert list[|list|..] == [];
      UniqueAlike(s, s2);
      UniqueNothing(s2, p2);
    } else {
      var w := ws[0];
      TowerUnique(s, list, code, w, s2, p2);
      TowerReplaysByIds(s, list, code, w, s2, p2);
      var o := Run(s2, p2, w.list[|list|..]);
      ChainUnique(w.ship, w.list, code, ws[1..], u, o.ship, o.port);
      UniqueThen(s2, p2, list, w.list, u.list);
    }
  }

  // ----- the load phase -----

  lemma LoadOneUnique(l: Loading, before: Stowage, stop: Stop, rest: seq<Container>)
    requires LoadReady(l, before, rest) && rest != []
    ensures var l1 := LoadOne(l, rest[0], before, stop);
            && l.work.list <= l1.work.list && LoadReady(l1, before, rest[1..])
            && Run(l.work.ship, l.work.port, New(l.work, l1.work)) == Outcome(l1.work.ship, l1.work.port)
            && UniqueThroughout(l.work.ship, l.work.port, New(l.work, l1.work))
  {
    DecideAccepted(l, rest[0], rest, before, stop);
    LoadStep(l, rest, before, stop);
    var i := Decide(l.work.ship, rest[0], l.loaded, before, stop).instruction;
    EmitExtends(l.work, i);
    UniqueOne(l.work.ship, l.work.port, i);
  }

  lemma {:induction false} LoadAllUnique(l: Loading, before: Stowage, stop: Stop, rest: seq<Container>)
      returns (l': Loading)
    requires LoadReady(l, before, rest)
    ensures l' == LoadAll(l, before, stop, rest) && l.work.list <= l'.work.list
    ensures UniqueThroughout(l.work.ship, l.work.port, New(l.work, l'.work))
    decreases |rest|
  {
    if rest == [] {
      l' := l;
      assert New(l.work, l.work) == [];
      UniqueNothing(l.work.ship, l.work.port);
    } else {
      var l1 := LoadOne(l, rest[0], before, stop);
      LoadOneUnique(l, before, stop, rest);
      l' := LoadAllUnique(l1, before, stop, rest[1..]);
      UniqueThen(l.work.ship, l.work.port, l.work.list, l1.work.list, l'.work.list);
    }
  }

  // ----- the whole port -----

  /** Whatever the cargo, duplicate ids and ids already on board included: in every state that
      the planner's list leads to, on the planner's ship or on a checker's ship that looks the
      same, no two containers on board share an id. */
  lemma PlanKeepsIdsUniqueThroughout(s: Stowage, stop: Stop, cargo: seq<Container>, ordered: seq<Container>,
                                     s2: Stowage)
    requires Sound(s) && UniqueIds(OnBoard(s)) && SameIds(s, s2) && multiset(ordered) == multiset(cargo)
    ensures UniqueThroughout(s2, cargo, PlanPort(s, stop, cargo, ordered).list)
  {
    var u := UnloadIsChain(s, [], stop.code, 0, 0);
    var ws :| Chain(s, [], stop.code, ws, u);
    ChainUnique(s, [], stop.code, ws, u, s2, cargo);
    ChainReplaysByIds(s, [], stop.code, ws, u, s2, cargo);
    assert u.list[0..] == u.list;
    if !(LastPort(stop) && cargo != []) {
      UnloadScanClears(s, [], stop.code);
      LoadStarts(u.ship, s, u.list, cargo, ordered);
      var l' := LoadAllUnique(Loading(Work(u.ship, cargo, u.list), [], {}), s, stop, ordered);
      LoadPhase(s, stop, cargo, ordered);
      LoadUniqueOnBoth(u, cargo, l'.work.list, s2);
    }
  }

  lemma LoadUniqueOnBoth(u: Scan, cargo: seq<Container>, list: seq<Instruction>, s2: Stowage)
    requires Shaped(u.ship) && Shaped(s2) && ReplaysByIds(u.ship, s2, cargo, u.list)
    requires UniqueThroughout(s2, cargo, u.list)
    requires u.list <= list && AllAccepted(u.ship, cargo, list[|u.list|..]) &&
             UniqueThroughout(u.ship, cargo, list[|u.list|..])
    ensures UniqueThroughout(s2, cargo, list)
  {
    var o := Run(s2, cargo, u.list);
    UniqueOnBoth(u.ship, cargo, o.ship, o.port, list[|u.list|..]);
    assert list == u.list + list[|u.list|..];
    UniqueAppend(s2, cargo, u.list, list[|u.list|..], o);
  }
}
