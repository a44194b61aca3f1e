/** What the checker's ship carries when ids of the cargo clash with ids on board. The checker
    has one vector for everything at the port and takes the first container with an id from it;
    the planner puts back the very container it took off. So each unload turns the queue of the
    containers of one id, and the ships agree exactly when every queue was turned back. */
module Rotation {
  import opened Cargo
  import opened ShipSpec
  import opened Replay
  import opened PlannerSpec
  import opened PlannerFacts
  import opened LoadFacts
  import opened UnloadChain
  import opened Lockstep
  import opened IdsOnBoard

  // ----- queues that turn -----

  function TurnOnce(q: seq<Container>): (t: seq<Container>)
    ensures |t| == |q|
  {
    if q == [] then [] else q[1..] + [q[0]]
  }

  function Turned(q: seq<Container>, n: nat): (t: seq<Container>)
    ensures |t| == |q|
  {
    if n == 0 then q else TurnOnce(Turned(q, n - 1))
  }

  /** The containers with the id: the one on board in front, then those at the port. */
  ghost function Queue(s: Stowage, port: seq<Container>, id: string): seq<Container>
    requires Shaped(s)
  {
    Carried(s, id) + WithId(port, id)
  }

  // ----- one tower changes -----

  lemma {:induction false} CarriedFromAfter(s: Stowage, r: int, c: int, t: seq<Container>, id: string, i: int, j: int)
    requires Shaped(s) && InGrid(s.plan, r, c) && 0 <= i <= s.plan.length && 0 <= j <= s.plan.width &&
             !AtOrAfter(r, c, i, j)
    ensures CarriedFrom(SetTower(s, r, c, t), id, i, j) == CarriedFrom(s, id, i, j)
    decreases s.plan.length - i, s.plan.width - j
  {
    if i < s.plan.length {
      if j == s.plan.width {
        CarriedFromAfter(s, r, c, t, id, i + 1, 0);
      } else {
        CarriedFromAfter(s, r, c, t, id, i, j + 1);
        CarriedHere(s, id, i, j);
        CarriedHere(SetTower(s, r, c, t), id, i, j);
      }
    }
  }

  lemma CarriedHere(s: Stowage, id: string, i: int, j: int)
    requires Shaped(s) && InGrid(s.plan, i, j)
    ensures CarriedFrom(s, id, i, j) == WithId(Tower(s, i, j), id) + CarriedFrom(s, id, i, j + 1)
  {
  }

  /** What is carried of an id, split at one tower. */
  ghost predicate Around(whole: seq<Container>, a: seq<Container>, middle: seq<Container>, b: seq<Container>) {
    whole == a + middle + b
  }

  lemma AroundMore(first: seq<Container>, rest: seq<Container>, whole: seq<Container>, a: seq<Container>,
                   middle: seq<Container>, b: seq<Container>)
    requires Around(rest, a, middle, b) && whole == first + rest
    ensures Around(whole, first + a, middle, b)
  {
    assert first + (a + middle + b) == (first + a) + middle + b;
  }

  lemma CarriedAroundHere(s: Stowage, r: int, c: int, t: seq<Container>, id: string)
      returns (a: seq<Container>, b: seq<Container>)
    requires Shaped(s) && InGrid(s.plan, r, c)
    ensures Around(CarriedFrom(s, id, r, c), a, WithId(Tower(s, r, c), id), b)
    ensures Around(CarriedFrom(SetTower(s, r, c, t), id, r, c), a, WithId(t, id), b)
  {
    var s' := SetTower(s, r, c, t);
    CarriedFromAfter(s, r, c, t, id, r, c + 1);
    CarriedHere(s, id, r, c);
    CarriedHere(s', id, r, c);
    a, b := [], CarriedFrom(s, id, r, c + 1);
    NothingBefore(WithId(Tower(s, r, c), id), b);
    NothingBefore(WithId(t, id), b);
  }

  lemma NothingBefore(middle: seq<Container>, b: seq<Container>)
    ensures Around(middle + b, [], middle, b)
  {
    assert [] + middle == middle;
  }

  lemma {:induction false} CarriedAround(s: Stowage, r: int, c: int, t: seq<Container>, id: string, i: int, j: int)
      returns (a: seq<Container>, b: seq<Container>)
    requires Shaped(s) && InGrid(s.plan, r, c) && 0 <= i <= s.plan.length && 0 <= j <= s.plan.width &&
             AtOrAfter(r, c, i, j)
    ensures Around(CarriedFrom(s, id, i, j), a, WithId(Tower(s, r, c), id), b)
    ensures Around(CarriedFrom(SetTower(s, r, c, t), id, i, j), a, WithId(t, id), b)
    decreases s.plan.length - i, s.plan.width - j, 1
  {
    if j == s.plan.width {
      a, b := CarriedAround(s, r, c, t, id, i + 1, 0);
    } else if i == r && j == c {
      a, b := CarriedAroundHere(s, r, c, t, id);
    } else {
      a, b := CarriedAroundLater(s, r, c, t, id, i, j);
    }
  }

  lemma {:induction false} CarriedAroundLater(s: Stowage, r: int, c: int, t: seq<Container>, id: string, i: int, j: int)
      returns (a: seq<Container>, b: seq<Container>)
    requires Shaped(s) && InGrid(s.plan, r, c) && InGrid(s.plan, i, j) && AtOrAfter(r, c, i, j) && !(i == r && j == c)
    ensures Around(CarriedFrom(s, id, i, j), a, WithId(Tower(s, r, c), id), b)
    ensures Around(CarriedFrom(SetTower(s, r, c, t), id, i, j), a, WithId(t, id), b)
    decreases s.plan.length - i, s.plan.width - j, 0
  {
    var s' := SetTower(s, r, c, t);
    var first := WithId(Tower(s, i, j), id);
    a, b := CarriedAround(s, r, c, t, id, i, j + 1);
    AroundMore(first, CarriedFrom(s, id, i, j + 1), CarriedFrom(s, id, i, j), a, WithId(Tower(s, r, c), id), b);
    AroundMore(first, CarriedFrom(s', id, i, j + 1), CarriedFrom(s', id, i, j), a, WithId(t, id), b);
    a := first + a;
  }

  /** `more` is `less` with x put in somewhere, if x belongs there at all. */
  ghost predicate WithOne(less: seq<Container>, more: seq<Container>, x: Container, belongs: bool) {
    && (!belongs ==> more == less)
    && (belongs ==> |more| == |less| + 1 && x in more)
    && (forall y :: y in less ==> y in more)
    && (belongs ==> forall y :: y in more ==> y == x || y in less)
  }

  lemma PutIn(a: seq<Container>, w: seq<Container>, b: seq<Container>, x: Container, belongs: bool,
              less: seq<Container>, more: seq<Container>)
    requires Around(less, a, w, b) && Around(more, a, w + (if belongs then [x] else []), b)
    ensures WithOne(less, more, x, belongs)
  {
    assert w + [] == w;
    if belongs {
      assert (w + [x])[|w|] == x;
      assert more[|a| + |w|] == x;
    }
  }

  lemma OnlyOne(less: seq<Container>, more: seq<Container>, x: Container)
    requires WithOne(less, more, x, true)
    ensures |more| == 1 ==> more == [x]
    ensures less == [] ==> more == [x]
  {
  }

  /** Putting a container on a tower. */
  lemma CarriedPush(s: Stowage, r: int, c: int, x: Container, id: string)
    requires Shaped(s) && InGrid(s.plan, r, c)
    ensures WithOne(Carried(s, id), Carried(SetTower(s, r, c, Tower(s, r, c) + [x]), id), x, x.id == id)
  {
    var t := Tower(s, r, c);
    var a, b := CarriedAround(s, r, c, t + [x], id, 0, 0);
    WithIdPush(t, x, id);
    PutIn(a, WithId(t, id), b, x, x.id == id, Carried(s, id), Carried(SetTower(s, r, c, t + [x]), id));
  }

  /** Taking the top container off a tower. */
  lemma CarriedPop(s: Stowage, r: int, c: int, id: string)
    requires Shaped(s) && InGrid(s.plan, r, c) && Tower(s, r, c) != []
    ensures var x := Last(Tower(s, r, c));
            WithOne(Carried(SetTower(s, r, c, DropLast(Tower(s, r, c))), id), Carried(s, id), x, x.id == id)
  {
    var t := Tower(s, r, c);
    var front, x := DropLast(t), Last(t);
    var a, b := CarriedAround(s, r, c, front, id, 0, 0);
    assert t == front + [x];
    WithIdPush(front, x, id);
    PutIn(a, WithId(front, id), b, x, x.id == id, Carried(SetTower(s, r, c, front), id), Carried(s, id));
  }

  // ----- one instruction -----

  /** An unload names the container it takes. The checker does not look at this. */
  ghost predicate Tells(s: Stowage, i: Instruction)
    requires Shaped(s)
  {
    i.Unload? ==>
        InGrid(s.plan, i.row, i.col) && Tower(s, i.row, i.col) != [] && Last(Tower(s, i.row, i.col)).id == i.id
  }

  lemma TurnFirst(x: Container, q: seq<Container>)
    ensures TurnOnce([x] + q) == [] + (q + [x])
  {
    assert ([x] + q)[1..] == q;
  }

  lemma FirstAndRest(q: seq<Container>)
    requires q != []
    ensures [q[0]] + q[1..] == [] + q
  {
  }

  lemma UnloadTurns(s: Stowage, port: seq<Container>, i: Instruction)
    requires Shaped(s) && Accepted(s, port, i) && i.Unload? && Tells(s, i) && |Carried(s, i.id)| <= 1
    ensures var o := Step(s, port, i); Queue(o.ship, o.port, i.id) == TurnOnce(Queue(s, port, i.id))
  {
    var x := Last(Tower(s, i.row, i.col));
    var o := UnloadStep(s, port, i, x);
    CarriedPop(s, i.row, i.col, i.id);
    WithIdPush(port, x, i.id);
    FrontTurns(Carried(o.ship, i.id), Carried(s, i.id), x, WithId(port, i.id));
  }

  lemma UnloadStep(s: Stowage, port: seq<Container>, i: Instruction, x: Container) returns (o: Outcome)
    requires Shaped(s) && Accepted(s, port, i) && i.Unload? && Tells(s, i) && x == Last(Tower(s, i.row, i.col))
    ensures o == Step(s, port, i)
    ensures o.ship == SetTower(s, i.row, i.col, DropLast(Tower(s, i.row, i.col))) && o.port == port + [x]
  {
    o := Step(s, port, i);
  }

  /** The only container in front goes to the end. */
  lemma FrontTurns(less: seq<Container>, more: seq<Container>, x: Container, q: seq<Container>)
    requires WithOne(less, more, x, true) && |more| <= 1
    ensures less + (q + [x]) == TurnOnce(more + q)
  {
    OnlyOne(less, more, x);
    TurnFirst(x, q);
  }

  lemma UnloadKeepsOthers(s: Stowage, port: seq<Container>, i: Instruction, id: string)
    requires Shaped(s) && Accepted(s, port, i) && i.Unload? && Tells(s, i) && i.id != id
    ensures var o := Step(s, port, i); Queue(o.ship, o.port, id) == Queue(s, port, id)
  {
    var x := Last(Tower(s, i.row, i.col));
    CarriedPop(s, i.row, i.col, id);
    WithIdPush(port, x, id);
    assert WithId(port, id) + [] == WithId(port, id);
  }

  lemma LoadKeepsQueue(s: Stowage, port: seq<Container>, i: Instruction)
    requires Shaped(s) && Accepted(s, port, i) && i.Load? && |Carried(Step(s, port, i).ship, i.id)| <= 1
    ensures var o := Step(s, port, i); Queue(o.ship, o.port, i.id) == Queue(s, port, i.id)
  {
    var x := port[IndexOf(port, i.id)];
    CarriedPush(s, i.row, i.col, x, i.id);
    WithIdRemove(port, i.id, i.id);
    WithIdFirst(port, i.id);
    var o := Step(s, port, i);
    OnlyOne(Carried(s, i.id), Carried(o.ship, i.id), x);
    assert Carried(s, i.id) == [] && Carried(o.ship, i.id) == [x];
    FirstAndRest(WithId(port, i.id));
  }

  lemma LoadKeepsOthers(s: Stowage, port: seq<Container>, i: Instruction, id: string)
    requires Shaped(s) && Accepted(s, port, i) && i.Load? && i.id != id
    ensures var o := Step(s, port, i); Queue(o.ship, o.port, id) == Queue(s, port, id)
  {
    CarriedPush(s, i.row, i.col, port[IndexOf(port, i.id)], id);
    WithIdRemove(port, i.id, id);
  }

  lemma MoveKeepsQueue(s: Stowage, port: seq<Container>, i: Instruction, id: string)
    requires Shaped(s) && Accepted(s, port, i) && i.Move? && |Carried(s, id)| <= 1
    ensures var o := Step(s, port, i); Queue(o.ship, o.port, id) == Queue(s, port, id)
  {
    var x, s1, o := MoveStep(s, port, i);
    CarriedPop(s, i.row, i.col, id);
    CarriedPush(s, i.destRow, i.destCol, x, id);
    CarriedPop(s1, i.row, i.col, id);
    var s0 := SetTower(s, i.row, i.col, DropLast(Tower(s, i.row, i.col)));
    ThereAndBack(Carried(s0, id), Carried(s, id), Carried(s1, id), Carried(o.ship, id), x, x.id == id);
  }

  /** A move as a container put on one tower and then taken off another. */
  lemma MoveStep(s: Stowage, port: seq<Container>, i: Instruction)
    returns (x: Container, s1: Stowage, o: Outcome)
    requires Shaped(s) && Accepted(s, port, i) && i.Move?
    ensures InGrid(s.plan, i.row, i.col) && InGrid(s.plan, i.destRow, i.destCol)
    ensures Tower(s, i.row, i.col) != [] && x == Last(Tower(s, i.row, i.col))
    ensures s1 == SetTower(s, i.destRow, i.destCol, Tower(s, i.destRow, i.destCol) + [x]) && Shaped(s1)
    ensures s1.plan == s.plan && Tower(s1, i.row, i.col) != [] && Last(Tower(s1, i.row, i.col)) == x
    ensures o == Step(s, port, i) && o.port == port
    ensures o.ship == SetTower(s1, i.row, i.col, DropLast(Tower(s1, i.row, i.col)))
  {
    x := Last(Tower(s, i.row, i.col));
    s1 := SetTower(s, i.destRow, i.destCol, Tower(s, i.destRow, i.destCol) + [x]);
    o := Step(s, port, i);
  }

  /** Where at most one stands, putting the same container in and taking it out again changes nothing. */
  lemma ThereAndBack(less: seq<Container>, more: seq<Container>, both: seq<Container>, after: seq<Container>,
                     x: Container, here: bool)
    requires WithOne(less, more, x, here) && WithOne(more, both, x, here) && WithOne(after, both, x, here)
    requires |more| <= 1
    ensures after == more
  {
    if here {
      assert |after| == |more| && more == [x];
      assert after[0] in both;
    }
  }

  lemma OneInstruction(s: Stowage, port: seq<Container>, i: Instruction, id: string)
    requires Shaped(s) && Accepted(s, port, i) && Tells(s, i)
    requires |Carried(s, id)| <= 1 && |Carried(Step(s, port, i).ship, id)| <= 1
    ensures var o := Step(s, port, i);
            Queue(o.ship, o.port, id) ==
            if i.Unload? && i.id == id then TurnOnce(Queue(s, port, id)) else Queue(s, port, id)
  {
    match i
    case Unload(_, _, _, _) =>
      if i.id == id {
        UnloadTurns(s, port, i);
      } else {
        UnloadKeepsOthers(s, port, i, id);
      }
    case Load(_, _, _, _) =>
      if i.id == id {
        LoadKeepsQueue(s, port, i);
      } else {
        LoadKeepsOthers(s, port, i, id);
      }
    case Move(_, _, _, _, _, _, _) => MoveKeepsQueue(s, port, i, id);
    case Reject(_, _, _, _) =>
    case Blank(_, _, _, _) =>
  }

  // ----- runs -----

  ghost predicate TellsAt(s: Stowage, port: seq<Container>, list: seq<Instruction>, k: nat)
    requires Shaped(s) && k < |list|
  {
    Tells(Run(s, port, list[..k]).ship, list[k])
  }

  /** Every unload names the container it takes when its turn comes. */
  ghost predicate TellsThroughout(s: Stowage, port: seq<Container>, list: seq<Instruction>)
    requires Shaped(s)
  {
    forall k: nat :: k < |list| ==> TellsAt(s, port, list, k)
  }

  /** How often the list unloads the id. */
  function Unloads(list: seq<Instruction>, id: string): nat {
    if list == [] then 0
    else Unloads(list[..|list| - 1], id) + (if list[|list| - 1].Unload? && list[|list| - 1].id == id then 1 else 0)
  }

  lemma RunOneMore(s: Stowage, port: seq<Container>, list: seq<Instruction>, k: nat)
    requires Shaped(s) && AllAccepted(s, port, list) && k < |list|
    ensures var o := Run(s, port, list[..k]);
            Accepted(o.ship, o.port, list[k]) && Run(s, port, list[..k + 1]) == Step(o.ship, o.port, list[k])
  {
    var o := Run(s, port, list[..k]);
    assert list[..k + 1] == list[..k] + [list[k]];
    PrefixAccepted(s, port, list, k + 1);
    RunAppend(s, port, list[..k], [list[k]]);
    assert [list[k]][1..] == [];
  }

  lemma OneMoreTurn(s: Stowage, port: seq<Container>, list: seq<Instruction>, id: string, k: nat, o: Outcome,
                    o': Outcome)
    requires Shaped(s) && AllAccepted(s, port, list) && k < |list|
    requires TellsThroughout(s, port, list) && UniqueThroughout(s, port, list)
    requires o == Run(s, port, list[..k]) && o' == Run(s, port, list[..k + 1])
    ensures Shaped(o.ship) && Shaped(o'.ship)
    ensures Queue(o'.ship, o'.port, id) ==
            if list[k].Unload? && list[k].id == id
            then TurnOnce(Queue(o.ship, o.port, id))
            else Queue(o.ship, o.port, id)
  {
    RunOneMore(s, port, list, k);
    assert TellsAt(s, port, list, k) && UniqueAfter(s, port, list, k) && UniqueAfter(s, port, list, k + 1);
    UniqueIsCarriedOnce(o.ship);
    UniqueIsCarriedOnce(o'.ship);
    OneInstruction(o.ship, o.port, list[k], id);
  }

  lemma UnloadsOneMore(list: seq<Instruction>, id: string, k: nat)
    requires k < |list|
    ensures Unloads(list[..k + 1], id) ==
            Unloads(list[..k], id) + (if list[k].Unload? && list[k].id == id then 1 else 0)
  {
    assert list[..k + 1][..k] == list[..k];
  }

  lemma TurnMore(q0: seq<Container>, n: nat, q: seq<Container>, hit: bool)
    requires q == Turned(q0, n)
    ensures (if hit then TurnOnce(q) else q) == Turned(q0, n + (if hit then 1 else 0))
  {
  }

  /** The queue q of the id after k instructions, q0 turned n times, after one more. */
  lemma TurnedNext(s: Stowage, port: seq<Container>, list: seq<Instruction>, id: string, k: nat, q0: seq<Container>,
                   n: nat, o: Outcome, o': Outcome)
    requires Shaped(s) && AllAccepted(s, port, list) && k < |list|
    requires TellsThroughout(s, port, list) && UniqueThroughout(s, port, list)
    requires o == Run(s, port, list[..k]) && o' == Run(s, port, list[..k + 1])
    requires Shaped(o.ship) && Queue(o.ship, o.port, id) == Turned(q0, n)
    ensures Shaped(o'.ship)
    ensures Queue(o'.ship, o'.port, id) == Turned(q0, n + (if list[k].Unload? && list[k].id == id then 1 else 0))
  {
    OneMoreTurn(s, port, list, id, k, o, o');
    TurnMore(q0, n, Queue(o.ship, o.port, id), list[k].Unload? && list[k].id == id);
  }

  lemma {:induction false} RunTurnsTo(s: Stowage, port: seq<Container>, list: seq<Instruction>, id: string, k: nat,
                                      q0: seq<Container>)
      returns (o: Outcome, n: nat)
    requires Shaped(s) && AllAccepted(s, port, list) && k <= |list| && q0 == Queue(s, port, id)
    requires TellsThroughout(s, port, list) && UniqueThroughout(s, port, list)
    ensures o == Run(s, port, list[..k]) && n == Unloads(list[..k], id)
    ensures Shaped(o.ship) && Queue(o.ship, o.port, id) == Turned(q0, n)
    decreases k
  {
    if k == 0 {
      assert list[..0] == [];
      o, n := Outcome(s, port), 0;
    } else {
      o, n := RunTurnsTo(s, port, list, id, k - 1, q0);
      var o' := Run(s, port, list[..k]);
      TurnedNext(s, port, list, id, k - 1, q0, n, o, o');
      UnloadsOneMore(list, id, k - 1);
      o, n := o', Unloads(list[..k], id);
    }
  }

  /** A run turns the queue of each id as often as it unloads that id, and does nothing else to it. */
  lemma RunTurns(s: Stowage, port: seq<Container>, list: seq<Instruction>, id: string)
    requires Shaped(s) && AllAccepted(s, port, list)
    requires TellsThroughout(s, port, list) && UniqueThroughout(s, port, list)
    ensures var o := Run(s, port, list); Queue(o.ship, o.port, id) == Turned(Queue(s, port, id), Unloads(list, id))
  {
    var o, n := RunTurnsTo(s, port, list, id, |list|, Queue(s, port, id));
    assert list[..|list|] == list;
  }

  // ----- the planner's unloads name what they take -----

  lemma TellsInFirst(s: Stowage, port: seq<Container>, a: seq<Instruction>, b: seq<Instruction>, k: nat)
    requires Shaped(s) && k < |a| && TellsThroughout(s, port, a)
    ensures TellsAt(s, port, a + b, k)
  {
    assert TellsAt(s, port, a, k);
    assert (a + b)[..k] == a[..k];
  }

  lemma TellsInSecond(s: Stowage, port: seq<Container>, a: seq<Instruction>, b: seq<Instruction>, e: Outcome, k: nat)
    requires Shaped(s) && e == Run(s, port, a) && |a| <= k < |a + b| && TellsThroughout(e.ship, e.port, b)
    ensures TellsAt(s, port, a + b, k)
  {
    var j := k - |a|;
    assert TellsAt(e.ship, e.port, b, j);
    assert (a + b)[..k] == a + b[..j];
    RunAppend(s, port, a, b[..j]);
  }

  lemma TellsAppend(s: Stowage, port: seq<Container>, a: seq<Instruction>, b: seq<Instruction>, e: Outcome)
    requires Shaped(s) && TellsThroughout(s, port, a) && e == Run(s, port, a) && TellsThroughout(e.ship, e.port, b)
    ensures TellsThroughout(s, port, a + b)
  {
    forall k: nat | k < |a + b|
      ensures TellsAt(s, port, a + b, k)
    {
      if k < |a| {
        TellsInFirst(s, port, a, b, k);
      } else {
        TellsInSecond(s, port, a, b, e, k);
      }
    }
  }

  lemma TellsThen(s: Stowage, port: seq<Container>, l: seq<Instruction>, l1: seq<Instruction>, l2: seq<Instruction>,
                  e: Outcome)
    requires l <= l1 <= l2 && Shaped(s) && e == Run(s, port, l1[|l|..])
    requires TellsThroughout(s, port, l1[|l|..]) && TellsThroughout(e.ship, e.port, l2[|l1|..])
    ensures l <= l2 && TellsThroughout(s, port, l2[|l|..])
  {
    PrefixThen(l, l1, l2);
    TellsAppend(s, port, l1[|l|..], l2[|l1|..], e);
  }

  lemma NoUnloadsTell(s: Stowage, port: seq<Container>, list: seq<Instruction>)
    requires Shaped(s) && forall i :: i in list ==> !i.Unload?
    ensures TellsThroughout(s, port, list)
  {
    forall k: nat | k < |list|
      ensures TellsAt(s, port, list, k)
    {
      assert list[k] in list;
    }
  }

  lemma DigStepTells(w: Work, row: int, col: int, floor: int, code: string, cap: int, top: int, h: int)
    requires DigReady(w, row, col, floor, cap, top, h) && floor <= h
    ensures Tower(w.ship, row, col) != []
    ensures var w1 := Emit(w, DigInstruction(w.ship, row, col, Last(Tower(w.ship, row, col)), code, cap, top, h));
            Extends(w, w1) && TellsThroughout(w.ship, w.port, New(w, w1))
  {
    DigStep(w, row, col, floor, code, cap, top, h);
    var i := DigInstruction(w.ship, row, col, Last(Tower(w.ship, row, col)), code, cap, top, h);
    EmitExtends(w, i);
    assert [i][..0] == [];
    assert Tells(w.ship, i);
  }

  lemma {:induction false} DigOutTells(w: Work, row: int, col: int, floor: int, code: string, cap: int, top: int,
                                       h: int)
      returns (w': Work)
    requires DigReady(w, row, col, floor, cap, top, h)
    ensures w' == DigOut(w, row, col, floor, code, cap, top, h)
    ensures w.list <= w'.list && TellsThroughout(w.ship, w.port, New(w, w'))
    decreases h - floor + 1
  {
    if floor <= h {
      DigStep(w, row, col, floor, code, cap, top, h);
      DigStepTells(w, row, col, floor, code, cap, top, h);
      DigOutNext(w, row, col, floor, code, cap, top, h);
      var w1 := Emit(w, DigInstruction(w.ship, row, col, Last(Tower(w.ship, row, col)), code, cap, top, h));
      w' := DigOutTells(w1, row, col, floor, code, cap, top, h - 1);
      TellsThen(w.ship, w.port, w.list, w1.list, w'.list, Outcome(w1.ship, w1.port));
    } else {
      w' := w;
      assert New(w, w) == [];
    }
  }

  lemma DugTells(w0: Work, row: int, col: int, floor: int, code: string) returns (dug: Work)
    requires Sound(w0.ship) && InGrid(w0.ship.plan, row, col)
    requires w0.ship.plan.floorStart[row][col] <= floor < Height(w0.ship, row, col)
    ensures dug == RemoveAllAbove(w0, row, col, floor, code)
    ensures w0.list <= dug.list && TellsThroughout(w0.ship, w0.port, New(w0, dug))
  {
    var top := Height(w0.ship, row, col) - 1;
    dug := DigOutTells(w0, row, col, floor, code, CapacityExcluding(w0.ship, row, col), top, top);
  }

  lemma ReturnedTells(w0: Work, dug: Work, w: Work, row: int, col: int, code: string)
    requires Extends(w0, dug) && TellsThroughout(w0.ship, w0.port, New(w0, dug))
    requires Shaped(dug.ship) && InGrid(dug.ship.plan, row, col) && w == ReturnAll(dug, row, col, code, dug.port)
    ensures w0.list <= w.list && TellsThroughout(w0.ship, w0.port, New(w0, w))
  {
    ReturnAllTold(dug, row, col, code, dug.port);
    NoUnloadsTell(dug.ship, dug.port, New(dug, w));
    TellsThen(w0.ship, w0.port, w0.list, dug.list, w.list, Outcome(dug.ship, dug.port));
  }

  lemma SomethingDueTells(w0: Work, row: int, col: int, floor: int, code: string) returns (w: Work)
    requires Sound(w0.ship) && UniqueIds(OnBoard(w0.ship)) && w0.port == [] && InGrid(w0.ship.plan, row, col)
    requires w0.ship.plan.floorStart[row][col] <= floor < Height(w0.ship, row, col)
    ensures var dug := RemoveAllAbove(w0, row, col, floor, code); w == ReturnAll(dug, row, col, code, dug.port)
    ensures w0.list <= w.list && TellsThroughout(w0.ship, w0.port, New(w0, w))
  {
    var dug := DugTells(w0, row, col, floor, code);
    DigOutTower(w0, dug, row, col, floor, code);
    w := ReturnAll(dug, row, col, code, dug.port);
    ReturnedTells(w0, dug, w, row, col, code);
  }

  /** What a tower of the scan adds to the list tells. */
  ghost predicate TowerTells(s: Stowage, list: seq<Instruction>, w: Work)
    requires Shaped(s)
  {
    list <= w.list && TellsThroughout(s, [], w.list[|list|..])
  }

  lemma TowerDoneAndTells(s: Stowage, list: seq<Instruction>, row: int, col: int, code: string) returns (w: Work)
    requires Sound(s) && UniqueIds(OnBoard(s)) && InGrid(s.plan, row, col)
    ensures w == UnloadTower(s, list, row, col, code) && TowerDone(s, list, code, w) && TowerTells(s, list, w)
  {
    TowerIsDone(s, list, row, col, code);
    w := TellingTower(s, list, row, col, code);
  }

  lemma TellingTower(s: Stowage, list: seq<Instruction>, row: int, col: int, code: string) returns (w: Work)
    requires Sound(s) && UniqueIds(OnBoard(s)) && InGrid(s.plan, row, col)
    ensures w == UnloadTower(s, list, row, col, code) && TowerTells(s, list, w)
  {
    var k := FirstDue(Tower(s, row, col), code);
    if k == |Tower(s, row, col)| {
      w := Work(s, [], list);
      assert w.list[|list|..] == [];
    } else {
      w := SomethingDueTells(Work(s, [], list), row, col, s.plan.floorStart[row][col] + k, code);
    }
  }

  /** On a ship that looks the same by ids the unloads name what they take as well. */
  lemma TellsOnBoth(s1: Stowage, p1: seq<Container>, s2: Stowage, p2: seq<Container>, list: seq<Instruction>)
    requires SameIds(s1, s2) && Covers(p1, p2) && AllAccepted(s1, p1, list) && TellsThroughout(s1, p1, list)
    ensures TellsThroughout(s2, p2, list)
  {
    forall k: nat | k < |list|
      ensures TellsAt(s2, p2, list, k)
    {
      PrefixAccepted(s1, p1, list, k);
      LockstepIds(s1, p1, s2, p2, list[..k]);
      assert TellsAt(s1, p1, list, k);
      TellsAlike(Run(s1, p1, list[..k]).ship, Run(s2, p2, list[..k]).ship, list[k]);
    }
  }

  lemma TellsAlike(s1: Stowage, s2: Stowage, i: Instruction)
    requires SameIds(s1, s2) && Tells(s1, i)
    ensures Tells(s2, i)
  {
    if i.Unload? {
      assert TowerIds(Tower(s1, i.row, i.col), Tower(s2, i.row, i.col));
    }
  }

  /** A chain of finished towers of the scan, each of which tells. */
  ghost predicate TellingChain(s: Stowage, list: seq<Instruction>, code: string, ws: seq<Work>, u: Scan)
    decreases |ws|
  {
    if ws == [] then u == Scan(s, list)
    else
      && TowerDone(s, list, code, ws[0]) && TowerTells(s, list, ws[0])
      && TellingChain(ws[0].ship, ws[0].list, code, ws[1..], u)
  }

  lemma {:induction false} UnloadIsTellingChain(s: Stowage, list: seq<Instruction>, code: string, r: int, c: int)
      returns (u: Scan)
    requires Sound(s) && UniqueIds(OnBoard(s)) && 0 <= r <= s.plan.length && 0 <= c <= s.plan.width
    ensures u == UnloadFrom(s, list, code, r, c)
    ensures exists ws :: TellingChain(s, list, code, ws, u)
    decreases s.plan.length - r, s.plan.width - c, 1
  {
    if r == s.plan.length {
      u := Scan(s, list);
      NoTellingChain(s, list, code);
    } else if c == s.plan.width {
      u := RowIsTellingChain(s, list, code, r, c);
    } else {
      u := FromTowerIsTellingChain(s, list, code, r, c);
    }
  }

  lemma {:induction false} RowIsTellingChain(s: Stowage, list: seq<Instruction>, code: string, r: int, c: int)
      returns (u: Scan)
    requires Sound(s) && UniqueIds(OnBoard(s)) && 0 <= r < s.plan.length && c == s.plan.width
    ensures u == UnloadFrom(s, list, code, r, c)
    ensures exists ws :: TellingChain(s, list, code, ws, u)
    decreases s.plan.length - r, s.plan.width - c, 0
  {
    u := UnloadFrom(s, list, code, r, c);
    UnloadFromNextRow(s, list, code, r, c, u);
    var same := UnloadIsTellingChain(s, list, code, r + 1, 0);
    assert u == same;
  }

  lemma {:induction false} FromTowerIsTellingChain(s: Stowage, list: seq<Instruction>, code: string, r: int, c: int)
      returns (u: Scan)
    requires Sound(s) && UniqueIds(OnBoard(s)) && InGrid(s.plan, r, c)
    ensures u == UnloadFrom(s, list, code, r, c)
    ensures exists ws :: TellingChain(s, list, code, ws, u)
    decreases s.plan.length - r, s.plan.width - c, 0
  {
    var w := TowerDoneAndTells(s, list, r, c, code);
    UnloadFromNext(s, list, code, r, c);
    u := UnloadIsTellingChain(w.ship, w.list, code, r, c + 1);
    var rest :| TellingChain(w.ship, w.list, code, rest, u);
    var ws := TellingChainLonger(s, list, code, w, rest, u);
  }

  lemma NoTellingChain(s: Stowage, list: seq<Instruction>, code: string)
    ensures exists ws :: TellingChain(s, list, code, ws, Scan(s, list))
  {
    assert TellingChain(s, list, code, [], Scan(s, list));
  }

  lemma TellingChainLonger(s: Stowage, list: seq<Instruction>, code: string, w: Work, rest: seq<Work>, u: Scan)
      returns (ws: seq<Work>)
    requires TowerDone(s, list, code, w) && TowerTells(s, list, w)
    requires TellingChain(w.ship, w.list, code, rest, u)
    ensures TellingChain(s, list, code, ws, u)
  {
    ws := [w] + rest;
    assert ws[1..] == rest;
  }

  lemma {:induction false} ChainTells(s: Stowage, list: seq<Instruction>, code: string, ws: seq<Work>, u: Scan,
                                      s2: Stowage, p2: seq<Container>)
    requires TellingChain(s, list, code, ws, u) && SameIds(s, s2)
    ensures list <= u.list && TellsThroughout(s2, p2, u.list[|list|..])
    decreases |ws|
  {
    if ws == [] {
      assert list[|list|..] == [];
    } else {
      var w := ws[0];
      TellsOnBoth(s, [], s2, p2, w.list[|list|..]);
      TowerReplaysByIds(s, list, code, w, s2, p2);
      var o := Run(s2, p2, w.list[|list|..]);
      ChainTells(w.ship, w.list, code, ws[1..], u, o.ship, o.port);
      TellsThen(s2, p2, list, w.list, u.list, o);
    }
  }

  /** The planner's whole list names in each unload the container that is taken. */
  lemma PlanTells(s: Stowage, stop: Stop, cargo: seq<Container>, ordered: seq<Container>, s2: Stowage)
    requires Sound(s) && UniqueIds(OnBoard(s)) && SameIds(s, s2) && multiset(ordered) == multiset(cargo)
    ensures TellsThroughout(s2, cargo, PlanPort(s, stop, cargo, ordered).list)
  {
    var u := UnloadIsTellingChain(s, [], stop.code, 0, 0);
    var ws :| TellingChain(s, [], stop.code, ws, u);
    ChainTells(s, [], stop.code, ws, u, s2, cargo);
    assert u.list[0..] == u.list;
    if !(LastPort(stop) && cargo != []) {
      UnloadScanClears(s, [], stop.code);
      LoadStarts(u.ship, s, u.list, cargo, ordered);
      LoadAllFacts(Loading(Work(u.ship, cargo, u.list), [], {}), s, stop, ordered);
      LoadTells(u, s, cargo, ordered, PlanPort(s, stop, cargo, ordered).list, s2);
    }
  }

  lemma LoadTells(u: Scan, s: Stowage, cargo: seq<Container>, ordered: seq<Container>, list: seq<Instruction>,
                  s2: Stowage)
    requires Shaped(s) && Shaped(s2) && TellsThroughout(s2, cargo, u.list)
    requires u.list <= list && Answers(list[|u.list|..], ordered, s)
    ensures TellsThroughout(s2, cargo, list)
  {
    var o := Run(s2, cargo, u.list);
    NoUnloadsTell(o.ship, o.port, list[|u.list|..]);
    assert list == u.list + list[|u.list|..];
    TellsAppend(s2, cargo, u.list, list[|u.list|..], o);
  }
}
