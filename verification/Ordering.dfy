/** The order in which the two algorithms load the waiting cargo. */
module Ordering {
  import opened Cargo
  import opened PlannerSpec

  datatype Algorithm = A | B

  /** How early a container is put: by its next visit, or by the reverse of that. Containers
      off the rest of the route count as visited last. */
  function Rank(route: seq<string>, idx: nat, farFirst: bool, x: Container): int {
    var k: int := NextVisit(route, idx + 1, x.dest);
    if farFirst then -k else k
  }

  /** The route scan of the comparison object: it is exactly the comparison of ranks. */
  method CompareByRoute(route: seq<string>, idx: nat, farFirst: bool, a: Container, b: Container) returns (less: bool)
    ensures less <==> Rank(route, idx, farFirst, a) < Rank(route, idx, farFirst, b)
    ensures less <==> if farFirst then NextVisit(route, idx + 1, b.dest) < NextVisit(route, idx + 1, a.dest)
                      else NextVisit(route, idx + 1, a.dest) < NextVisit(route, idx + 1, b.dest)
  {
    if a.dest == b.dest {
      return false;
    }
    var i := idx + 1;
    while i < |route|
      invariant idx + 1 <= i
      invariant NextVisit(route, i, a.dest) == NextVisit(route, idx + 1, a.dest)
      invariant NextVisit(route, i, b.dest) == NextVisit(route, idx + 1, b.dest)
    {
      if route[i] == b.dest {
        return farFirst;
      }
      if route[i] == a.dest {
        return !farFirst;
      }
      i := i + 1;
    }
    return false;
  }

  ghost predicate Sorted(route: seq<string>, idx: nat, farFirst: bool, xs: seq<Container>) {
    forall p, q :: 0 <= p < q < |xs| ==> Rank(route, idx, farFirst, xs[p]) <= Rank(route, idx, farFirst, xs[q])
  }

  /** The first i elements are sorted and none of the others ranks before any of them. */
  ghost predicate SortedUpTo(route: seq<string>, idx: nat, farFirst: bool, xs: seq<Container>, i: nat) {
    && i <= |xs|
    && forall p, q :: 0 <= p < i && p < q < |xs| ==>
       Rank(route, idx, farFirst, xs[p]) <= Rank(route, idx, farFirst, xs[q])
  }

  /** Element m, the first-ranked of the elements from i on, joins the sorted ones. */
  lemma SelectOne(route: seq<string>, idx: nat, farFirst: bool, xs: seq<Container>, i: nat, m: nat)
    requires SortedUpTo(route, idx, farFirst, xs, i) && i <= m < |xs|
    requires forall q :: i <= q < |xs| ==> Rank(route, idx, farFirst, xs[m]) <= Rank(route, idx, farFirst, xs[q])
    ensures SortedUpTo(route, idx, farFirst, xs[i := xs[m]][m := xs[i]], i + 1)
  {
    var ys := xs[i := xs[m]][m := xs[i]];
    forall p, q | 0 <= p < i + 1 && p < q < |ys|
      ensures Rank(route, idx, farFirst, ys[p]) <= Rank(route, idx, farFirst, ys[q])
    {
      var q' := if q == m then i else if q == i then m else q;
      assert ys[q] == xs[q'];
      assert p < i ==> ys[p] == xs[p];
    }
  }

  /** Sorts the first n elements in place and leaves the others alone. Callers learn only that
      the result is a sorted permutation, as of a sort that is not stable. */
  method Sort(a: array<Container>, n: nat, route: seq<string>, idx: nat, farFirst: bool)
    requires n <= a.Length
    modifies a
    ensures Sorted(route, idx, farFirst, a[..n])
    ensures multiset(a[..n]) == multiset(old(a[..n]))
    ensures a[n..] == old(a[n..])
  {
    for i := 0 to n
      invariant SortedUpTo(route, idx, farFirst, a[..n], i)
      invariant multiset(a[..n]) == multiset(old(a[..n]))
      invariant a[n..] == old(a[n..])
    {
      var m := FirstRanked(a, i, n, route, idx, farFirst);
      SelectOne(route, idx, farFirst, a[..n], i, m);
      Swap(a, i, m, n);
    }
  }

  method FirstRanked(a: array<Container>, i: nat, n: nat, route: seq<string>, idx: nat, farFirst: bool) returns (m: nat)
    requires i < n <= a.Length
    ensures i <= m < n
    ensures forall q :: i <= q < n ==> Rank(route, idx, farFirst, a[m]) <= Rank(route, idx, farFirst, a[..n][q])
  {
    m := i;
    for j := i + 1 to n
      invariant i <= m < j
      invariant forall q :: i <= q < j ==> Rank(route, idx, farFirst, a[m]) <= Rank(route, idx, farFirst, a[..n][q])
    {
      var less := CompareByRoute(route, idx, farFirst, a[j], a[m]);
      if less {
        m := j;
      }
    }
  }

  method Swap(a: array<Container>, i: nat, m: nat, n: nat)
    requires i <= m < n <= a.Length
    modifies a
    ensures a[..n] == old(a[..n])[i := old(a[m])][m := old(a[i])]
    ensures multiset(a[..n]) == multiset(old(a[..n]))
    ensures a[n..] == old(a[n..])
  {
    a[i], a[m] := a[m], a[i];
    assert a[..n] == old(a[..n])[i := old(a[m])][m := old(a[i])];
  }

  /** What an algorithm's order promises. Algorithm A, when the cargo exceeds the free room:
      the first `capacity` containers are the nearest ones, far ones first; the rest near
      first. */
  ghost predicate LoadOrder(alg: Algorithm, capacity: int, route: seq<string>, idx: nat, cargo: seq<Container>,
                            ordered: seq<Container>) {
    && multiset(ordered) == multiset(cargo)
    && match alg
       case B => Sorted(route, idx, false, ordered)
       case A =>
         if 0 <= capacity < |ordered| then
           && Sorted(route, idx, true, ordered[..capacity])
           && Sorted(route, idx, false, ordered[capacity..])
           && forall p, q :: 0 <= p < capacity <= q < |ordered| ==>
                Rank(route, idx, false, ordered[p]) <= Rank(route, idx, false, ordered[q])
         else Sorted(route, idx, true, ordered)
  }

  /** The next visits never come closer from one to the next of the containers from place a to b. */
  ghost predicate NearFirst(route: seq<string>, idx: nat, xs: seq<Container>, a: nat, b: nat) {
    forall p, q :: a <= p < q < b && q < |xs| ==>
      NextVisit(route, idx + 1, xs[p].dest) <= NextVisit(route, idx + 1, xs[q].dest)
  }

  ghost predicate FarFirst(route: seq<string>, idx: nat, xs: seq<Container>, a: nat, b: nat) {
    forall p, q :: a <= p < q < b && q < |xs| ==>
      NextVisit(route, idx + 1, xs[p].dest) >= NextVisit(route, idx + 1, xs[q].dest)
  }

  /** Both orders, by next visits alone. */
  lemma OrderExactly(alg: Algorithm, capacity: nat, route: seq<string>, idx: nat, cargo: seq<Container>,
                     ordered: seq<Container>)
    ensures var n := if capacity < |ordered| then capacity else |ordered|;
            LoadOrder(alg, capacity, route, idx, cargo, ordered) <==>
              && multiset(ordered) == multiset(cargo)
              && (alg == B ==> NearFirst(route, idx, ordered, 0, |ordered|))
              && (alg == A ==>
                  && FarFirst(route, idx, ordered, 0, n)
                  && NearFirst(route, idx, ordered, n, |ordered|)
                  && forall p, q :: 0 <= p < n <= q < |ordered| ==>
                       NextVisit(route, idx + 1, ordered[p].dest) <= NextVisit(route, idx + 1, ordered[q].dest))
  {
    if capacity < |ordered| {
      SortedParts(route, idx, ordered, capacity);
    }
    assert Sorted(route, idx, false, ordered) <==> NearFirst(route, idx, ordered, 0, |ordered|);
    assert Sorted(route, idx, true, ordered) <==> FarFirst(route, idx, ordered, 0, |ordered|);
  }

  lemma SortedParts(route: seq<string>, idx: nat, xs: seq<Container>, n: nat)
    requires n <= |xs|
    ensures Sorted(route, idx, true, xs[..n]) <==> FarFirst(route, idx, xs, 0, n)
    ensures Sorted(route, idx, false, xs[n..]) <==> NearFirst(route, idx, xs, n, |xs|)
  {
    var rest := xs[n..];
    assert forall p :: n <= p < |xs| ==> xs[p] == rest[p - n];
    if Sorted(route, idx, false, rest) {
      forall p, q | n <= p < q < |xs|
        ensures Rank(route, idx, false, xs[p]) <= Rank(route, idx, false, xs[q])
      {
        assert Rank(route, idx, false, rest[p - n]) <= Rank(route, idx, false, rest[q - n]);
      }
    }
  }

  /** Sorting the first block again keeps it before everything that follows. */
  lemma BlockStaysBefore(route: seq<string>, idx: nat, was: seq<Container>, now: seq<Container>, n: nat)
    requires Sorted(route, idx, false, was) && |now| == |was| && n <= |was|
    requires multiset(now[..n]) == multiset(was[..n]) && now[n..] == was[n..]
    ensures multiset(now) == multiset(was)
    ensures Sorted(route, idx, false, now[n..])
    ensures forall p, q :: 0 <= p < n <= q < |now| ==>
            Rank(route, idx, false, now[p]) <= Rank(route, idx, false, now[q])
  {
    assert now == now[..n] + now[n..] && was == was[..n] + was[n..];
    TailSorted(route, idx, was, n);
    forall p, q | 0 <= p < n <= q < |now|
      ensures Rank(route, idx, false, now[p]) <= Rank(route, idx, false, now[q])
    {
      var k := FoundIn(now[..n], was[..n], p);
      assert now[q] == now[n..][q - n] == was[n..][q - n] == was[q];
    }
  }

  lemma TailSorted(route: seq<string>, idx: nat, xs: seq<Container>, n: nat)
    requires Sorted(route, idx, false, xs) && n <= |xs|
    ensures Sorted(route, idx, false, xs[n..])
  {
  }

  lemma FoundIn(a: seq<Container>, b: seq<Container>, p: nat) returns (k: nat)
    requires multiset(a) == multiset(b) && p < |a|
    ensures k < |b| && b[k] == a[p]
  {
    assert a[p] in multiset(a);
    assert a[p] in b;
    k :| 0 <= k < |b| && b[k] == a[p];
  }

  /** The two algorithms' orders, sorting the vector in place. */
  method OrderContainersForLoad(alg: Algorithm, capacity: int, route: seq<string>, idx: nat,
                                containers: array<Container>)
    requires capacity >= 0
    modifies containers
    ensures LoadOrder(alg, capacity, route, idx, old(containers[..]), containers[..])
  {
    ghost var cargo := containers[..];
    assert containers[..containers.Length] == containers[..];
    match alg {
      case A =>
        if capacity < containers.Length {
          Sort(containers, containers.Length, route, idx, false);
          assert containers[..containers.Length] == containers[..];
          ghost var was := containers[..];
          var difference := containers.Length - capacity;
          Sort(containers, containers.Length - difference, route, idx, true);
          BlockStaysBefore(route, idx, was, containers[..], capacity);
        } else {
          Sort(containers, containers.Length, route, idx, true);
          assert containers[..containers.Length] == containers[..];
        }
      case B =>
        Sort(containers, containers.Length, route, idx, false);
        assert containers[..containers.Length] == containers[..];
    }
  }
}
