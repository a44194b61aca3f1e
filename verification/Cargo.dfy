/** Containers, crane instructions, and the vectors of containers that stand at a port. */
module Cargo {

  datatype Option<+T> = None | Some(value: T)

  datatype Container = Container(id: string, dest: string, weight: int)

  /** A crane instruction. `Blank` is an instruction whose type was never set; only the
      reader of instruction files can make one. */
  datatype Instruction =
    | Load(row: int, col: int, floor: int, id: string)
    | Unload(row: int, col: int, floor: int, id: string)
    | Move(row: int, col: int, floor: int, destRow: int, destCol: int, destFloor: int, id: string)
    | Reject(row: int, col: int, floor: int, id: string)
    | Blank(row: int, col: int, floor: int, id: string)

  const NOT_FOUND := -1

  /** Index of the first container with the given id, or NOT_FOUND. */
  function IndexOf(p: seq<Container>, id: string): (k: int)
    ensures k == NOT_FOUND || 0 <= k < |p|
    ensures k == NOT_FOUND ==> forall x :: x in p ==> x.id != id
    ensures k != NOT_FOUND ==> p[k].id == id && forall j :: 0 <= j < k ==> p[j].id != id
  {
    if p == [] then NOT_FOUND
    else if p[0].id == id then 0
    else
      var k := IndexOf(p[1..], id);
      if k == NOT_FOUND then NOT_FOUND else k + 1
  }

  function RemoveAt<T>(p: seq<T>, k: int): seq<T>
    requires 0 <= k < |p|
  {
    p[..k] + p[k + 1..]
  }

  /** What was added to a list in two steps. */
  lemma PrefixThen<T>(a: seq<T>, b: seq<T>, c: seq<T>)
    requires a <= b <= c
    ensures a <= c && c[|a|..] == b[|a|..] + c[|b|..]
  {
  }

  lemma AddedSince<T>(front: seq<T>, x: T, all: seq<T>, list: seq<T>, list': seq<T>)
    requires front + [x] <= all && list' == (list + [x]) + all[|front + [x]|..]
    ensures front <= all && list' == list + all[|front|..]
  {
    assert all[|front|..] == [x] + all[|front + [x]|..];
  }

  lemma RemoveAtKeeps<T>(p: seq<T>, k: int)
    requires 0 <= k < |p|
    ensures multiset(RemoveAt(p, k)) + multiset{p[k]} == multiset(p)
  {
    assert p == p[..k] + [p[k]] + p[k + 1..];
  }

  lemma Cancel<T>(a: multiset<T>, b: multiset<T>, c: multiset<T>)
    requires a + c == b + c
    ensures a == b
  {
    forall x
      ensures a[x] == b[x]
    {
      assert (a + c)[x] == a[x] + c[x] && (b + c)[x] == b[x] + c[x];
    }
  }

  /** The search loop of the port, with its early return. */
  method GetContainerIdxById(containers: seq<Container>, id: string) returns (k: int)
    ensures k == IndexOf(containers, id)
  {
    for i := 0 to |containers|
      invariant forall j :: 0 <= j < i ==> containers[j].id != id
    {
      if containers[i].id == id {
        return i;
      }
    }
    return NOT_FOUND;
  }

  // ----- the containers of one id, in their order -----

  /** The containers of p that carry the id, in the order in which they stand. */
  function WithId(p: seq<Container>, id: string): (q: seq<Container>)
    ensures forall x :: x in q <==> x in p && x.id == id
  {
    if p == [] then []
    else (if p[0].id == id then [p[0]] else []) + WithId(p[1..], id)
  }

  lemma {:induction false} WithIdNone(p: seq<Container>, id: string)
    requires forall y :: y in p ==> y.id != id
    ensures WithId(p, id) == []
  {
    if p != [] {
      WithIdNone(p[1..], id);
    }
  }

  lemma {:induction false} WithIdAppend(p: seq<Container>, q: seq<Container>, id: string)
    ensures WithId(p + q, id) == WithId(p, id) + WithId(q, id)
  {
    if p == [] {
      assert p + q == q;
    } else {
      assert (p + q)[1..] == p[1..] + q;
      WithIdAppend(p[1..], q, id);
    }
  }

  lemma WithIdPush(p: seq<Container>, x: Container, id: string)
    ensures WithId(p + [x], id) == WithId(p, id) + (if x.id == id then [x] else [])
  {
    WithIdAppend(p, [x], id);
  }

  lemma {:induction false} WithIdFirst(p: seq<Container>, id: string)
    ensures (IndexOf(p, id) == NOT_FOUND) == (WithId(p, id) == [])
    ensures IndexOf(p, id) != NOT_FOUND ==> p[IndexOf(p, id)] == WithId(p, id)[0]
  {
    if p != [] && p[0].id != id {
      WithIdFirst(p[1..], id);
    }
  }

  /** Taking out the first container of one id drops the head of that id's containers
      and leaves every other id alone. */
  lemma {:induction false} WithIdRemove(p: seq<Container>, gone: string, id: string)
    requires IndexOf(p, gone) != NOT_FOUND
    ensures WithId(p, gone) != []
    ensures WithId(RemoveAt(p, IndexOf(p, gone)), id) ==
            if id == gone then WithId(p, id)[1..] else WithId(p, id)
  {
    WithIdFirst(p, gone);
    if p[0].id == gone {
      assert RemoveAt(p, 0) == p[1..];
    } else {
      var k := IndexOf(p, gone);
      assert RemoveAt(p, k) == [p[0]] + RemoveAt(p[1..], k - 1);
      WithIdRemove(p[1..], gone, id);
    }
  }

  // ----- uniqueness of ids -----

  ghost predicate UniqueIds(m: multiset<Container>)
  {
    && (forall x :: m[x] <= 1)
    && (forall x, y :: x in m && y in m && x.id == y.id ==> x == y)
  }

  ghost predicate DistinctIds(p: seq<Container>)
  {
    forall i, j :: 0 <= i < j < |p| ==> p[i].id != p[j].id
  }

  lemma {:induction false} DistinctIdsUnique(p: seq<Container>)
    requires DistinctIds(p)
    ensures UniqueIds(multiset(p))
  {
    if p != [] {
      var rest := p[1..];
      assert p == [p[0]] + rest;
      DistinctIdsUnique(rest);
      forall x | x in rest
        ensures x.id != p[0].id
      {
        var k :| 0 <= k < |rest| && rest[k] == x;
        assert p[k + 1] == x;
      }
      assert multiset(p) == multiset{p[0]} + multiset(rest);
    }
  }

  /** A part of a unique collection is unique. */
  lemma UniqueIdsPart(m: multiset<Container>, n: multiset<Container>)
    requires UniqueIds(n) && m <= n
    ensures UniqueIds(m)
  {
    assert forall x :: m[x] <= n[x];
  }
}
