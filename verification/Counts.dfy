/** What the checker counts at a port, for any list: instructions that are not legal at their turn,
    waiting containers that are not answered, and containers due that stay loaded. */
module Counts {
  import opened Cargo
  import opened ShipSpec
  import opened Replay
  import opened AuditSpec
  import opened Legal

  /** Instruction k of the list is let through when its turn comes. */
  ghost predicate LegalAtTurn(s: Stowage, port: seq<Container>, list: seq<Instruction>, k: nat)
    requires Shaped(s) && k < |list|
  {
    var o, i := Run(s, port, list[..k]), list[k];
    i.Reject? || (PlacesInside(s.plan, i) && HeightsFit(o.ship, i) && (i.Load? ==> Waits(o.port, i.id)))
  }

  lemma {:induction false} IllegalAppend(s: Stowage, port: seq<Container>, a: seq<Instruction>, b: seq<Instruction>)
    requires Shaped(s)
    ensures var o := Run(s, port, a);
            IllegalIn(s, port, a + b) == IllegalIn(s, port, a) + IllegalIn(o.ship, o.port, b)
    decreases |a|
  {
    if a == [] {
      assert a + b == b;
    } else {
      assert (a + b)[1..] == a[1..] + b;
      var o := Step(s, port, a[0]);
      IllegalAppend(o.ship, o.port, a[1..], b);
    }
  }

  lemma IllegalOne(s: Stowage, port: seq<Container>, i: Instruction)
    requires Shaped(s)
    ensures IllegalIn(s, port, [i]) == if Verify(i, s, port) == LEGAL then 0 else 1
  {
    var o := Step(s, port, i);
    assert IllegalIn(o.ship, o.port, []) == 0;
  }

  lemma LegalAtLast(s: Stowage, port: seq<Container>, front: seq<Instruction>, i: Instruction)
    requires Shaped(s)
    ensures IllegalIn(s, port, front + [i]) ==
            IllegalIn(s, port, front) + (if LegalAtTurn(s, port, front + [i], |front|) then 0 else 1)
  {
    var o := Run(s, port, front);
    assert (front + [i])[..|front|] == front;
    IllegalAppend(s, port, front, [i]);
    IllegalOne(o.ship, o.port, i);
    StatusExactly(i, o.ship, o.port);
  }

  /** One error for each instruction that is not legal at its turn. */
  lemma {:induction false} IllegalCounted(s: Stowage, port: seq<Container>, list: seq<Instruction>)
      returns (places: set<nat>)
    requires Shaped(s)
    ensures forall k: nat :: k in places <==> k < |list| && !LegalAtTurn(s, port, list, k)
    ensures IllegalIn(s, port, list) == |places|
    decreases |list|
  {
    if list == [] {
      places := {};
    } else {
      var front, i := DropLast(list), Last(list);
      assert list == front + [i];
      places := IllegalCounted(s, port, front);
      LegalAtLast(s, port, front, i);
      forall k: nat | k < |front|
        ensures LegalAtTurn(s, port, list, k) <==> LegalAtTurn(s, port, front, k)
      {
        assert list[..k] == front[..k];
      }
      if !LegalAtTurn(s, port, list, |front|) {
        places := places + {|front|};
      }
    }
  }

  /** One error for each waiting container that is not answered. */
  lemma {:induction false} LoadedErrorsCounted(list: seq<Instruction>, cargo: seq<Container>)
      returns (bad: multiset<Container>)
    ensures forall x :: bad[x] == if Answered(list, x.id) then 0 else multiset(cargo)[x]
    ensures LoadedErrors(list, cargo) == |bad|
  {
    if cargo == [] {
      bad := multiset{};
    } else {
      var x := cargo[0];
      assert cargo == [x] + cargo[1..];
      bad := LoadedErrorsCounted(list, cargo[1..]);
      AuditExactly(list, x.id);
      if !Answered(list, x.id) {
        bad := bad + multiset{x};
      }
    }
  }

  lemma {:induction false} TowerErrorsCounted(list: seq<Instruction>, t: seq<Container>, code: string)
      returns (bad: multiset<Container>)
    ensures forall x :: bad[x] == if x.dest == code && !UnloadStands(list, x.id) then multiset(t)[x] else 0
    ensures TowerErrors(list, t, code) == |bad|
  {
    if t == [] {
      bad := multiset{};
    } else {
      var x := t[0];
      assert t == [x] + t[1..];
      bad := TowerErrorsCounted(list, t[1..], code);
      AuditExactly(list, x.id);
      if x.dest == code && !UnloadStands(list, x.id) {
        bad := bad + multiset{x};
      }
    }
  }

  ghost predicate NotUnloaded(bad: multiset<Container>, list: seq<Instruction>, board: multiset<Container>,
                              code: string) {
    forall x :: bad[x] == if x.dest == code && !UnloadStands(list, x.id) then board[x] else 0
  }

  lemma NotUnloadedBoth(a: multiset<Container>, b: multiset<Container>, list: seq<Instruction>,
                        m: multiset<Container>, n: multiset<Container>, code: string)
    requires NotUnloaded(a, list, m, code) && NotUnloaded(b, list, n, code)
    ensures NotUnloaded(a + b, list, m + n, code)
  {
  }

  /** One error for each container due at (r, c) or after it that has no unload that stands. */
  lemma {:induction false} UnloadedErrorsCounted(list: seq<Instruction>, s: Stowage, code: string, r: int, c: int)
      returns (bad: multiset<Container>, board: multiset<Container>)
    requires Shaped(s) && 0 <= r <= s.plan.length && 0 <= c <= s.plan.width
    ensures board == BoardFrom(s, r, c) && NotUnloaded(bad, list, board, code)
    ensures UnloadedErrorsFrom(list, s, code, r, c) == |bad|
    decreases s.plan.length - r, s.plan.width - c
  {
    if r == s.plan.length {
      bad, board := multiset{}, multiset{};
    } else if c == s.plan.width {
      bad, board := UnloadedErrorsCounted(list, s, code, r + 1, 0);
    } else {
      var here := TowerErrorsCounted(list, Tower(s, r, c), code);
      bad, board := UnloadedErrorsCounted(list, s, code, r, c + 1);
      NotUnloadedBoth(here, bad, list, multiset(Tower(s, r, c)), board, code);
      bad, board := here + bad, multiset(Tower(s, r, c)) + board;
    }
  }

  /** All errors of a port, counted one by one. */
  lemma PortErrorsCounted(s: Stowage, code: string, cargo: seq<Container>, list: seq<Instruction>, lastPort: bool)
      returns (places: set<nat>, unanswered: multiset<Container>, kept: multiset<Container>)
    requires Shaped(s)
    ensures PortErrors(s, code, cargo, list, lastPort) == |places| + |unanswered| + |kept|
    ensures forall k: nat :: k in places <==> k < |list| && !LegalAtTurn(s, cargo, list, k)
    ensures forall x :: unanswered[x] == if lastPort || Answered(list, x.id) then 0 else multiset(cargo)[x]
    ensures forall x :: kept[x] == if x.dest == code && !UnloadStands(list, x.id) then OnBoard(s)[x] else 0
  {
    places := IllegalCounted(s, cargo, list);
    unanswered := multiset{};
    if !lastPort {
      unanswered := LoadedErrorsCounted(list, cargo);
    }
    var board;
    kept, board := UnloadedErrorsCounted(list, s, code, 0, 0);
  }

  // ----- the score -----

  /** The places of the list that the score counts. */
  ghost function Handled(list: seq<Instruction>): (places: set<nat>) {
    set k: nat | k < |list| && (list[k].Load? || list[k].Unload?)
  }

  ghost function Moved(list: seq<Instruction>): (places: set<nat>) {
    set k: nat | k < |list| && list[k].Move?
  }

  lemma {:induction false} ScoreAppend(a: seq<Instruction>, b: seq<Instruction>)
    ensures Score(a + b) == Score(a) + Score(b)
  {
    if a == [] {
      assert a + b == b;
    } else {
      assert (a + b)[1..] == a[1..] + b;
      ScoreAppend(a[1..], b);
    }
  }

  lemma PlacesAppend(front: seq<Instruction>, i: Instruction)
    ensures Handled(front + [i]) == Handled(front) + (if i.Load? || i.Unload? then {|front|} else {})
    ensures Moved(front + [i]) == Moved(front) + (if i.Move? then {|front|} else {})
  {
  }

  lemma ScoreOne(i: Instruction)
    ensures Score([i]) == if i.Load? || i.Unload? then 5 else if i.Move? then 3 else 0
  {
    assert Score([i]) == Price(i) + Score([]);
  }

  /** The score is five for each load and each unload in the list and three for each move. */
  lemma {:induction false} ScoreExactly(list: seq<Instruction>)
    ensures Score(list) == 5 * |Handled(list)| + 3 * |Moved(list)|
    decreases |list|
  {
    if list == [] {
      assert Handled(list) == {} && Moved(list) == {};
    } else {
      var front, i := DropLast(list), Last(list);
      assert list == front + [i];
      ScoreExactly(front);
      ScoreAppend(front, [i]);
      ScoreOne(i);
      PlacesAppend(front, i);
    }
  }
}
