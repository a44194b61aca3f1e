/** What the checker reads is the planner's list as it was written: rejects lose their
    position, and nothing the checker looks at depends on that. */
module Handover {
  import opened Cargo
  import opened ShipSpec
  import opened Replay
  import opened AuditSpec
  import opened CraneText

  lemma {:induction false} WrittenRun(s: Stowage, port: seq<Container>, list: seq<Instruction>)
    requires Shaped(s)
    ensures Run(s, port, WrittenAll(list)) == Run(s, port, list)
    ensures AllAccepted(s, port, WrittenAll(list)) <==> AllAccepted(s, port, list)
    ensures IllegalIn(s, port, WrittenAll(list)) == IllegalIn(s, port, list)
    decreases |list|
  {
    if list != [] {
      var o := Step(s, port, list[0]);
      assert Step(s, port, Written(list[0])) == o;
      WrittenRun(o.ship, o.port, list[1..]);
      assert WrittenAll(list)[1..] == WrittenAll(list[1..]);
    }
  }

  /** Two lists that agree on every instruction's type and id. */
  ghost predicate SameNames(a: seq<Instruction>, b: seq<Instruction>) {
    |a| == |b| && forall k :: 0 <= k < |a| ==> a[k].id == b[k].id && TypeOf(a[k]) == TypeOf(b[k])
  }

  lemma SameLast(a: seq<Instruction>, b: seq<Instruction>, t: Type, id: string)
    requires SameNames(a, b)
    ensures LastIdx(a, t, id) == LastIdx(b, t, id)
  {
    var i, j := LastIdx(a, t, id), LastIdx(b, t, id);
    assert i != NOT_FOUND ==> Names(b[i], t, id) && b[i] in b;
    assert j != NOT_FOUND ==> Names(a[j], t, id) && a[j] in a;
  }

  lemma SameNext(a: seq<Instruction>, b: seq<Instruction>, start: nat, t: Type, id: string)
    requires SameNames(a, b)
    ensures NextIdx(a, start, t, id) == NextIdx(b, start, t, id)
  {
    var i, j := NextIdx(a, start, t, id), NextIdx(b, start, t, id);
    assert i != NOT_FOUND ==> Names(b[i], t, id);
    assert j != NOT_FOUND ==> Names(a[j], t, id);
  }

  lemma SameAudit(a: seq<Instruction>, b: seq<Instruction>, id: string, t: Type)
    requires SameNames(a, b)
    ensures AuditOk(a, id, t) <==> AuditOk(b, id, t)
  {
    SameLast(a, b, t, id);
    SameLast(a, b, REJECT, id);
    SameNext(a, b, LastIdx(a, t, id) + 1, OtherType(t), id);
  }

  lemma {:induction false} SameLoadedErrors(a: seq<Instruction>, b: seq<Instruction>, cargo: seq<Container>)
    requires SameNames(a, b)
    ensures LoadedErrors(a, cargo) == LoadedErrors(b, cargo)
  {
    if cargo != [] {
      SameAudit(a, b, cargo[0].id, LOAD);
      SameLoadedErrors(a, b, cargo[1..]);
    }
  }

  lemma {:induction false} SameTowerErrors(a: seq<Instruction>, b: seq<Instruction>, t: seq<Container>, code: string)
    requires SameNames(a, b)
    ensures TowerErrors(a, t, code) == TowerErrors(b, t, code)
  {
    if t != [] {
      SameAudit(a, b, t[0].id, UNLOAD);
      SameTowerErrors(a, b, t[1..], code);
    }
  }

  lemma {:induction false} SameUnloadedErrors(a: seq<Instruction>, b: seq<Instruction>, s: Stowage, code: string,
                                              r: int, c: int)
    requires SameNames(a, b) && Shaped(s) && 0 <= r <= s.plan.length && 0 <= c <= s.plan.width
    ensures UnloadedErrorsFrom(a, s, code, r, c) == UnloadedErrorsFrom(b, s, code, r, c)
    decreases s.plan.length - r, s.plan.width - c
  {
    if r < s.plan.length {
      if c == s.plan.width {
        SameUnloadedErrors(a, b, s, code, r + 1, 0);
      } else {
        SameTowerErrors(a, b, Tower(s, r, c), code);
        SameUnloadedErrors(a, b, s, code, r, c + 1);
      }
    }
  }

  lemma {:induction false} SameScore(a: seq<Instruction>, b: seq<Instruction>)
    requires SameNames(a, b)
    ensures Score(a) == Score(b)
  {
    if a != [] {
      SameScore(a[1..], b[1..]);
    }
  }

  /** The checker's verdict on a port is the same for a list and for what is left of it in the file. */
  lemma VerdictSurvivesFile(s: Stowage, code: string, cargo: seq<Container>, list: seq<Instruction>, lastPort: bool)
    requires Shaped(s)
    ensures PortErrors(s, code, cargo, WrittenAll(list), lastPort) == PortErrors(s, code, cargo, list, lastPort)
    ensures Run(s, cargo, WrittenAll(list)) == Run(s, cargo, list)
    ensures AllAccepted(s, cargo, WrittenAll(list)) <==> AllAccepted(s, cargo, list)
    ensures Score(WrittenAll(list)) == Score(list)
  {
    var w := WrittenAll(list);
    assert SameNames(w, list);
    WrittenRun(s, cargo, list);
    SameLoadedErrors(w, list, cargo);
    SameUnloadedErrors(w, list, s, code, 0, 0);
    SameScore(w, list);
  }
}
