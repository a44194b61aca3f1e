/** The checker's audit of a port's instruction list, and its score. */
module AuditSpec {
  import opened Cargo
  import opened ShipSpec
  import opened Replay

  datatype Type = LOAD | UNLOAD | MOVE | REJECT | UNSET

  function TypeOf(i: Instruction): Type {
    match i
    case Load(_, _, _, _) => LOAD
    case Unload(_, _, _, _) => UNLOAD
    case Move(_, _, _, _, _, _, _) => MOVE
    case Reject(_, _, _, _) => REJECT
    case Blank(_, _, _, _) => UNSET
  }

  predicate Names(i: Instruction, t: Type, id: string) {
    i.id == id && TypeOf(i) == t
  }

  /** Index of the last instruction of a type for a container, or NOT_FOUND. */
  function LastIdx(list: seq<Instruction>, t: Type, id: string): (k: int)
    ensures k == NOT_FOUND || 0 <= k < |list|
    ensures k == NOT_FOUND ==> forall i :: i in list ==> !Names(i, t, id)
    ensures k != NOT_FOUND ==> Names(list[k], t, id) && forall j :: k < j < |list| ==> !Names(list[j], t, id)
  {
    if list == [] then NOT_FOUND
    else if Names(Last(list), t, id) then |list| - 1
    else LastIdx(DropLast(list), t, id)
  }

  /** Index of the first instruction of a type for a container from `start` on, or NOT_FOUND. */
  function NextIdx(list: seq<Instruction>, start: nat, t: Type, id: string): (k: int)
    ensures k == NOT_FOUND || start <= k < |list|
    ensures k == NOT_FOUND ==> forall j :: start <= j < |list| ==> !Names(list[j], t, id)
    ensures k != NOT_FOUND ==> Names(list[k], t, id) && forall j :: start <= j < k ==> !Names(list[j], t, id)
    decreases |list| - start
  {
    if start >= |list| then NOT_FOUND
    else if Names(list[start], t, id) then start
    else NextIdx(list, start + 1, t, id)
  }

  function OtherType(t: Type): Type {
    if t == LOAD then UNLOAD else LOAD
  }

  /** The audit of one container: its last load (or unload) is not undone later; a container to
      load may have been rejected instead. */
  predicate AuditOk(list: seq<Instruction>, id: string, t: Type) {
    var last := LastIdx(list, t, id);
    if last == NOT_FOUND then t == LOAD && LastIdx(list, REJECT, id) != NOT_FOUND
    else NextIdx(list, last + 1, OtherType(t), id) == NOT_FOUND
  }

  /** Some load of the id is not followed by an unload of it. */
  ghost predicate LoadStands(list: seq<Instruction>, id: string) {
    exists k :: 0 <= k < |list| && list[k].Load? && list[k].id == id &&
                forall j :: k < j < |list| ==> !(list[j].Unload? && list[j].id == id)
  }

  /** Some unload of the id is not followed by a load of it. */
  ghost predicate UnloadStands(list: seq<Instruction>, id: string) {
    exists k :: 0 <= k < |list| && list[k].Unload? && list[k].id == id &&
                forall j :: k < j < |list| ==> !(list[j].Load? && list[j].id == id)
  }

  /** The id was loaded and stays loaded, or it was not loaded at all but rejected. */
  ghost predicate Answered(list: seq<Instruction>, id: string) {
    || LoadStands(list, id)
    || ((forall i :: i in list ==> !(i.Load? && i.id == id)) && exists i :: i in list && i.Reject? && i.id == id)
  }

  /** What the audit of one container says about any list. */
  lemma AuditExactly(list: seq<Instruction>, id: string)
    ensures AuditOk(list, id, LOAD) <==> Answered(list, id)
    ensures AuditOk(list, id, UNLOAD) <==> UnloadStands(list, id)
  {
    LoadAuditExactly(list, id);
    StandsByLast(list, id, UNLOAD);
  }

  lemma LoadAuditExactly(list: seq<Instruction>, id: string)
    ensures AuditOk(list, id, LOAD) <==> Answered(list, id)
  {
    StandsByLast(list, id, LOAD);
    FoundOrNot(list, id);
  }

  lemma FoundOrNot(list: seq<Instruction>, id: string)
    ensures LastIdx(list, LOAD, id) == NOT_FOUND <==> forall i :: i in list ==> !(i.Load? && i.id == id)
    ensures LastIdx(list, REJECT, id) == NOT_FOUND <==> forall i :: i in list ==> !(i.Reject? && i.id == id)
  {
    assert forall i: Instruction :: Names(i, LOAD, id) <==> i.Load? && i.id == id;
    assert forall i: Instruction :: Names(i, REJECT, id) <==> i.Reject? && i.id == id;
  }

  /** If any instruction of the type stands, the last one does. */
  lemma StandsByLast(list: seq<Instruction>, id: string, t: Type)
    requires t == LOAD || t == UNLOAD
    ensures var last := LastIdx(list, t, id);
            (if t == LOAD then LoadStands(list, id) else UnloadStands(list, id)) <==>
            last != NOT_FOUND && NextIdx(list, last + 1, OtherType(t), id) == NOT_FOUND
  {
    var last := LastIdx(list, t, id);
    if last != NOT_FOUND {
      var undone := NextIdx(list, last + 1, OtherType(t), id);
      assert last < undone < |list| ==> Names(list[undone], OtherType(t), id);
    }
    if k: nat :| k < |list| && Names(list[k], t, id) {
      assert list[k] in list;
    }
  }

  /** Number of audit errors for the cargo that waited at the port. */
  function LoadedErrors(list: seq<Instruction>, cargo: seq<Container>): nat {
    if cargo == [] then 0
    else (if AuditOk(list, cargo[0].id, LOAD) then 0 else 1) + LoadedErrors(list, cargo[1..])
  }

  /** Number of audit errors for the containers of one tower that are due at the port. */
  function TowerErrors(list: seq<Instruction>, t: seq<Container>, code: string): nat {
    if t == [] then 0
    else (if t[0].dest == code && !AuditOk(list, t[0].id, UNLOAD) then 1 else 0) + TowerErrors(list, t[1..], code)
  }

  ghost function UnloadedErrorsFrom(list: seq<Instruction>, s: Stowage, code: string, r: int, c: int): nat
    requires Shaped(s) && 0 <= r <= s.plan.length && 0 <= c <= s.plan.width
    decreases s.plan.length - r, s.plan.width - c
  {
    if r == s.plan.length then 0
    else if c == s.plan.width then UnloadedErrorsFrom(list, s, code, r + 1, 0)
    else TowerErrors(list, Tower(s, r, c), code) + UnloadedErrorsFrom(list, s, code, r, c + 1)
  }

  /** Number of instructions that are not legal at their turn. */
  ghost function IllegalIn(s: Stowage, port: seq<Container>, list: seq<Instruction>): nat
    requires Shaped(s)
    decreases |list|
  {
    if list == [] then 0
    else
      var o := Step(s, port, list[0]);
      (if Verify(list[0], s, port) == LEGAL then 0 else 1) + IllegalIn(o.ship, o.port, list[1..])
  }

  /** All errors the checker records for one port. */
  ghost function PortErrors(s: Stowage, code: string, cargo: seq<Container>, list: seq<Instruction>,
                            lastPort: bool): nat
    requires Shaped(s)
  {
    IllegalIn(s, cargo, list)
    + (if lastPort then 0 else LoadedErrors(list, cargo))
    + UnloadedErrorsFrom(list, s, code, 0, 0)
  }

  // ----- the score -----

  const LOAD_UNLOAD_SCORE := 5
  const MOVE_SCORE := 3

  function Count(list: seq<Instruction>, t: Type): nat {
    if list == [] then 0 else (if TypeOf(list[0]) == t then 1 else 0) + Count(list[1..], t)
  }

  function Price(i: Instruction): int {
    match TypeOf(i)
    case LOAD => LOAD_UNLOAD_SCORE
    case UNLOAD => LOAD_UNLOAD_SCORE
    case MOVE => MOVE_SCORE
    case REJECT => 0
    case UNSET => 0
  }

  function Score(list: seq<Instruction>): int {
    if list == [] then 0 else Price(list[0]) + Score(list[1..])
  }

  lemma {:induction false} ScoreCounts(list: seq<Instruction>)
    ensures Score(list) ==
            LOAD_UNLOAD_SCORE * (Count(list, LOAD) + Count(list, UNLOAD)) + MOVE_SCORE * Count(list, MOVE)
  {
    if list != [] {
      ScoreCounts(list[1..]);
    }
  }

  /** An accepted run has one more container on board for every load, one less for every unload. */
  lemma {:induction false} RunBalance(s: Stowage, port: seq<Container>, list: seq<Instruction>)
    requires Sound(s) && AllAccepted(s, port, list)
    ensures |OnBoard(Run(s, port, list).ship)| + Count(list, UNLOAD) == |OnBoard(s)| + Count(list, LOAD)
    decreases |list|
  {
    if list != [] {
      var o := Step(s, port, list[0]);
      AcceptedKeeps(s, port, list[0]);
      assert |OnBoard(o.ship)| + |o.port| == |OnBoard(s)| + |port| by {
        assert |OnBoard(o.ship) + multiset(o.port)| == |OnBoard(o.ship)| + |o.port|;
        assert |OnBoard(s) + multiset(port)| == |OnBoard(s)| + |port|;
      }
      RunBalance(o.ship, o.port, list[1..]);
    }
  }

  // ----- when there are no errors -----

  lemma {:induction false} NoLoadedErrors(list: seq<Instruction>, cargo: seq<Container>)
    ensures LoadedErrors(list, cargo) == 0 <==> forall x :: x in cargo ==> Answered(list, x.id)
  {
    if cargo != [] {
      AuditExactly(list, cargo[0].id);
      NoLoadedErrors(list, cargo[1..]);
      assert forall x :: x in cargo <==> x == cargo[0] || x in cargo[1..];
    }
  }

  lemma {:induction false} NoTowerErrors(list: seq<Instruction>, t: seq<Container>, code: string)
    ensures TowerErrors(list, t, code) == 0 <==> forall x :: x in t && x.dest == code ==> UnloadStands(list, x.id)
  {
    if t != [] {
      AuditExactly(list, t[0].id);
      NoTowerErrors(list, t[1..], code);
      assert forall x :: x in t <==> x == t[0] || x in t[1..];
    }
  }

  /** No due container at (r, c) or after it fails the audit. */
  ghost predicate NoneFails(list: seq<Instruction>, s: Stowage, code: string, r: int, c: int)
    requires Shaped(s) && 0 <= r <= s.plan.length && 0 <= c <= s.plan.width
  {
    forall x :: x in BoardFrom(s, r, c) && x.dest == code ==> UnloadStands(list, x.id)
  }

  lemma {:induction false} NoUnloadedErrors(list: seq<Instruction>, s: Stowage, code: string, r: int, c: int)
    requires Shaped(s) && 0 <= r <= s.plan.length && 0 <= c <= s.plan.width
    ensures UnloadedErrorsFrom(list, s, code, r, c) == 0 <==> NoneFails(list, s, code, r, c)
    decreases s.plan.length - r, s.plan.width - c
  {
    if r < s.plan.length {
      if c == s.plan.width {
        BoardFromNextRow(s, r, c);
        NoUnloadedErrors(list, s, code, r + 1, 0);
      } else {
        NoUnloadedErrors(list, s, code, r, c + 1);
        NoErrorsHere(list, s, code, r, c);
      }
    }
  }

  lemma NoErrorsHere(list: seq<Instruction>, s: Stowage, code: string, r: int, c: int)
    requires Shaped(s) && InGrid(s.plan, r, c)
    ensures NoneFails(list, s, code, r, c) <==>
            TowerErrors(list, Tower(s, r, c), code) == 0 && NoneFails(list, s, code, r, c + 1)
  {
    var t, rest := Tower(s, r, c), BoardFrom(s, r, c + 1);
    NoTowerErrors(list, t, code);
    assert BoardFrom(s, r, c) == multiset(t) + rest;
    assert forall x :: x in multiset(t) + rest <==> x in t || x in rest;
  }

  lemma {:induction false} NoneIllegal(s: Stowage, port: seq<Container>, list: seq<Instruction>)
    requires Shaped(s) && AllAccepted(s, port, list)
    ensures IllegalIn(s, port, list) == 0
    decreases |list|
  {
    if list != [] {
      var o := Step(s, port, list[0]);
      NoneIllegal(o.ship, o.port, list[1..]);
    }
  }
}
