/** Handing out indices: one counter under any interleaving of calls, and pairs of an algorithm
    and a travel when calls come one after the other. */
module Tickets {
  import opened Cargo

  // ----- one counter, any interleaving -----

  /** A call of the counter. Ready: not started. Trying: holds the value it read or was told
      last. Returned: over, with an index or without. `start` is the value read first and
      `failed` counts failed exchanges. */
  datatype Call =
    | Ready
    | Trying(start: nat, curr: nat, failed: nat)
    | Returned(start: nat, index: Option<nat>, failed: nat)

  /** The counter, and the calls of all threads in any number. */
  datatype Counter = Counter(value: nat, calls: seq<Call>)

  /** One atomic step of call i: the first load, or one exchange. */
  function StepOf(s: Counter, i: nat, size: nat): Counter
    requires i < |s.calls|
  {
    match s.calls[i]
    case Ready => s.(calls := s.calls[i := Trying(s.value, s.value, 0)])
    case Trying(start, curr, failed) =>
      if curr >= size then s.(calls := s.calls[i := Returned(start, None, failed)])
      else if s.value == curr then Counter(curr + 1, s.calls[i := Returned(start, Some(curr), failed)])
      else s.(calls := s.calls[i := Trying(start, s.value, failed + 1)])
    case Returned(_, _, _) => s
  }

  ghost predicate Schedule(steps: seq<nat>, n: nat) {
    forall k :: 0 <= k < |steps| ==> steps[k] < n
  }

  /** The counter after the calls took their steps in the given order. */
  function After(n: nat, steps: seq<nat>, size: nat): (s: Counter)
    requires forall k :: 0 <= k < |steps| ==> steps[k] < n
    ensures |s.calls| == n
  {
    if steps == [] then Counter(0, seq(n, i => Ready))
    else StepOf(After(n, steps[..|steps| - 1], size), steps[|steps| - 1], size)
  }

  ghost predicate Holds(c: Call, k: nat) {
    c.Returned? && c.index == Some(k)
  }

  ghost predicate Issued(s: Counter, k: nat) {
    exists i :: 0 <= i < |s.calls| && Holds(s.calls[i], k)
  }

  ghost predicate GoodCall(c: Call, value: nat, size: nat) {
    match c
    case Ready => true
    case Trying(start, curr, failed) => start + failed <= curr <= value
    case Returned(start, index, failed) =>
      start + failed <= size && (match index case Some(k) => start <= k < value case None => value == size)
  }

  ghost predicate GoodCounter(s: Counter, size: nat) {
    && s.value <= size
    && (forall i :: 0 <= i < |s.calls| ==> GoodCall(s.calls[i], s.value, size))
    && (forall i, j, k :: 0 <= i < j < |s.calls| ==> !(Holds(s.calls[i], k) && Holds(s.calls[j], k)))
    && (forall k :: 0 <= k < s.value ==> Issued(s, k))
  }

  lemma StepKeepsIssued(s: Counter, i: nat, size: nat, k: nat)
    requires i < |s.calls| && Issued(s, k)
    ensures Issued(StepOf(s, i, size), k)
  {
    var j :| 0 <= j < |s.calls| && Holds(s.calls[j], k);
    assert Holds(StepOf(s, i, size).calls[j], k);
  }

  lemma StepKeepsGood(s: Counter, i: nat, size: nat)
    requires i < |s.calls| && GoodCounter(s, size)
    ensures GoodCounter(StepOf(s, i, size), size)
  {
    var s' := StepOf(s, i, size);
    assert GoodCall(s.calls[i], s.value, size);
    forall k | 0 <= k < s'.value
      ensures Issued(s', k)
    {
      if k < s.value {
        StepKeepsIssued(s, i, size, k);
      } else {
        assert Holds(s'.calls[i], k);
      }
    }
  }

  lemma {:induction false} AlwaysGood(n: nat, steps: seq<nat>, size: nat)
    requires Schedule(steps, n)
    ensures GoodCounter(After(n, steps, size), size)
    decreases |steps|
  {
    if steps != [] {
      AlwaysGood(n, steps[..|steps| - 1], size);
      StepKeepsGood(After(n, steps[..|steps| - 1], size), steps[|steps| - 1], size);
    }
  }

  /** Under every interleaving the indices handed out are exactly those below the counter,
      each to one call, and the counter never passes the size. A call that goes away without
      an index does so when all indices are handed out. */
  lemma IndicesOnce(n: nat, steps: seq<nat>, size: nat)
    requires Schedule(steps, n)
    ensures var s := After(n, steps, size);
            && s.value <= size
            && (forall k: nat :: Issued(s, k) <==> k < s.value)
            && (forall i, j, k ::
                  0 <= i < |s.calls| && 0 <= j < |s.calls| && Holds(s.calls[i], k) && Holds(s.calls[j], k) ==> i == j)
            && (forall i :: 0 <= i < |s.calls| && s.calls[i].Returned? && s.calls[i].index == None ==> s.value == size)
  {
    AlwaysGood(n, steps, size);
    var s := After(n, steps, size);
    assert forall i :: 0 <= i < |s.calls| ==> GoodCall(s.calls[i], s.value, size);
    assert forall k: nat :: Issued(s, k) ==> k < s.value;
  }

  /** Steps that one call took. */
  function Turns(steps: seq<nat>, i: nat): nat {
    if steps == [] then 0 else Turns(steps[..|steps| - 1], i) + (if steps[|steps| - 1] == i then 1 else 0)
  }

  ghost predicate TurnsTold(c: Call, turns: nat) {
    match c
    case Ready => turns == 0
    case Trying(_, _, failed) => turns == failed + 1
    case Returned(_, _, failed) => turns >= failed + 2
  }

  lemma {:induction false} EveryTurnCounts(n: nat, steps: seq<nat>, size: nat, i: nat)
    requires Schedule(steps, n) && i < n
    ensures TurnsTold(After(n, steps, size).calls[i], Turns(steps, i))
    decreases |steps|
  {
    if steps != [] {
      EveryTurnCounts(n, steps[..|steps| - 1], size, i);
    }
  }

  /** No call fails more often than there were indices left when it began, so after two steps
      more than that it is over. */
  lemma CallEnds(n: nat, steps: seq<nat>, size: nat, i: nat)
    requires Schedule(steps, n) && i < n
    ensures var c := After(n, steps, size).calls[i];
            && (!c.Ready? ==> c.start + c.failed <= size)
            && (c.Trying? ==> Turns(steps, i) <= size - c.start + 1)
            && (Turns(steps, i) >= size + 2 ==> c.Returned?)
  {
    AlwaysGood(n, steps, size);
    EveryTurnCounts(n, steps, size, i);
    assert GoodCall(After(n, steps, size).calls[i], After(n, steps, size).value, size);
  }

  // ----- pairs of an algorithm and a travel, one call after the other -----

  /** A call that is not interrupted takes the next index at once. */
  function NextIdx(value: nat, size: nat): (Option<nat>, nat) {
    if value < size then (Some(value), value + 1) else (None, value)
  }

  /** Two steps without interruption are such a call. */
  lemma AloneTakesNext(s: Counter, i: nat, size: nat)
    requires i < |s.calls| && s.calls[i].Ready?
    ensures var s' := StepOf(StepOf(s, i, size), i, size);
            && s'.calls[i].Returned? && s'.calls[i].failed == 0
            && (s'.calls[i].index, s'.value) == NextIdx(s.value, size)
  {
  }

  datatype Task = Task(algorithm: nat, travel: nat)

  /** One whole call for a task, from the two counters' values. */
  function TakeTask(a: nat, t: nat, algorithms: nat, travels: nat): (Option<Task>, nat, nat) {
    if a < algorithms then
      if t == travels then (None, a + 1, t) else (Some(Task(a, t)), a + 1, t)
    else
      var (travel, t') := NextIdx(t, travels);
      if travel.None? || t' == travels then (None, 1, t') else (Some(Task(0, t')), 1, t')
  }

  class TaskSource {
    const algorithms: nat
    const travels: nat
    var currAlgorithmIdx: nat
    var currTravelIdx: nat

    constructor (algorithms: nat, travels: nat)
      ensures this.algorithms == algorithms && this.travels == travels
      ensures currAlgorithmIdx == 0 && currTravelIdx == 0
    {
      this.algorithms, this.travels := algorithms, travels;
      currAlgorithmIdx, currTravelIdx := 0, 0;
    }

    method GetNextAlgorithmIdx() returns (index: Option<nat>)
      modifies this`currAlgorithmIdx
      ensures (index, currAlgorithmIdx) == NextIdx(old(currAlgorithmIdx), algorithms)
    {
      index := None;
      if currAlgorithmIdx < algorithms {
        index := Some(currAlgorithmIdx);
        currAlgorithmIdx := currAlgorithmIdx + 1;
      }
    }

    method GetNextTravelIdx() returns (index: Option<nat>)
      modifies this`currTravelIdx
      ensures (index, currTravelIdx) == NextIdx(old(currTravelIdx), travels)
    {
      index := None;
      if currTravelIdx < travels {
        index := Some(currTravelIdx);
        currTravelIdx := currTravelIdx + 1;
      }
    }

    /** The loop that finds the next pair. Its second turn has an algorithm index, so it ends. */
    method GetTask() returns (task: Option<Task>)
      requires algorithms >= 1 && currTravelIdx <= travels
      modifies this
      ensures (task, currAlgorithmIdx, currTravelIdx) ==
              TakeTask(old(currAlgorithmIdx), old(currTravelIdx), algorithms, travels)
      ensures currTravelIdx <= travels
    {
      var travelIdx: Option<nat> := None;
      var algorithmIdx := GetNextAlgorithmIdx();
      var flag := true;
      while flag
        invariant currTravelIdx <= travels
        invariant flag && algorithmIdx.Some? ==>
          if old(currAlgorithmIdx) < algorithms
          then (algorithmIdx, currAlgorithmIdx, currTravelIdx) ==
              (Some(old(currAlgorithmIdx)), old(currAlgorithmIdx) + 1, old(currTravelIdx))
          else (algorithmIdx, currAlgorithmIdx, currTravelIdx) == (Some(0), 1, old(currTravelIdx) + 1)
        invariant flag && algorithmIdx.None? ==>
                  currTravelIdx == old(currTravelIdx) && old(currAlgorithmIdx) >= algorithms
        invariant !flag ==>
          (if algorithmIdx.Some? && travelIdx.Some? then Some(Task(algorithmIdx.value, travelIdx.value)) else None,
           currAlgorithmIdx, currTravelIdx)
          == TakeTask(old(currAlgorithmIdx), old(currTravelIdx), algorithms, travels)
        decreases flag, algorithmIdx.None?
      {
        if algorithmIdx.Some? {
          travelIdx := Some(currTravelIdx);
          flag := false;
          if travelIdx == Some(travels) {
            travelIdx := GetNextTravelIdx();
            break;
          }
        } else {
          currAlgorithmIdx := 0;
          algorithmIdx := GetNextAlgorithmIdx();
          travelIdx := GetNextTravelIdx();
          if travelIdx.None? {
            flag := false;
          }
        }
      }
      if algorithmIdx.Some? && travelIdx.Some? {
        return Some(Task(algorithmIdx.value, travelIdx.value));
      }
      return None;
    }
  }

  /** The counters after k calls from the start. */
  function Served(k: nat, algorithms: nat, travels: nat): (nat, nat) {
    if k == 0 then (0, 0)
    else
      var (a, t) := Served(k - 1, algorithms, travels);
      var (_, a', t') := TakeTask(a, t, algorithms, travels);
      (a', t')
  }

  /** What call k hands out. */
  function TaskOf(k: nat, algorithms: nat, travels: nat): Option<Task> {
    var (a, t) := Served(k, algorithms, travels);
    TakeTask(a, t, algorithms, travels).0
  }

  lemma {:induction false} MulKeepsOrder(a: nat, b: nat, d: nat)
    ensures a <= b ==> a * d <= b * d
  {
    if a < b {
      MulKeepsOrder(a, b - 1, d);
      assert b * d == (b - 1) * d + d;
    }
  }

  lemma DivModIs(k: nat, q: nat, r: nat, d: nat)
    requires r < d && k == q * d + r
    ensures k / d == q && k % d == r
  {
    var q' := k / d;
    assert k == q' * d + k % d;
    MulKeepsOrder(q' + 1, q, d);
    MulKeepsOrder(q + 1, q', d);
    assert (q' + 1) * d == q' * d + d && (q + 1) * d == q * d + d;
  }

  lemma DivModNext(k: nat, d: nat)
    requires d >= 1
    ensures k % d + 1 < d ==> (k + 1) % d == k % d + 1 && (k + 1) / d == k / d
    ensures k % d + 1 == d ==> (k + 1) % d == 0 && (k + 1) / d == k / d + 1
  {
    var q, r := k / d, k % d;
    assert k == q * d + r;
    if r + 1 < d {
      DivModIs(k + 1, q, r + 1, d);
    } else {
      assert (q + 1) * d == q * d + d;
      DivModIs(k + 1, q + 1, 0, d);
    }
  }

  lemma BelowProduct(k: nat, d: nat, m: nat)
    requires d >= 1 && k < d * m
    ensures k / d < m
  {
    assert k == (k / d) * d + k % d;
    MulKeepsOrder(m, k / d, d);
  }

  /** While tasks are left, the counters after k + 1 calls stand just behind task k. */
  lemma {:induction false} CountersFollow(k: nat, algorithms: nat, travels: nat)
    requires algorithms >= 1 && k < algorithms * travels
    ensures Served(k + 1, algorithms, travels) == (k % algorithms + 1, k / algorithms)
    ensures TaskOf(k, algorithms, travels) == Some(Task(k % algorithms, k / algorithms))
  {
    BelowProduct(k, algorithms, travels);
    if k == 0 {
      DivModIs(0, 0, 0, algorithms);
    } else {
      CountersFollow(k - 1, algorithms, travels);
      DivModNext(k - 1, algorithms);
    }
  }

  lemma {:induction false} CountersDone(k: nat, algorithms: nat, travels: nat)
    requires algorithms >= 1 && k >= algorithms * travels
    ensures TaskOf(k, algorithms, travels) == None
    ensures Served(k + 1, algorithms, travels).1 == travels
  {
    if k > algorithms * travels {
      CountersDone(k - 1, algorithms, travels);
    } else if travels == 0 {
      assert k == 0;
    } else {
      LastTask(algorithms, travels);
    }
  }

  lemma LastTask(algorithms: nat, travels: nat)
    requires algorithms >= 1 && travels >= 1
    ensures algorithms * travels >= 1
    ensures Served(algorithms * travels, algorithms, travels) == (algorithms, travels - 1)
  {
    var k := algorithms * travels - 1;
    assert algorithms * travels == (travels - 1) * algorithms + algorithms;
    assert k == (travels - 1) * algorithms + (algorithms - 1);
    DivModIs(k, travels - 1, algorithms - 1, algorithms);
    CountersFollow(k, algorithms, travels);
  }

  /** Calls that come one after the other hand out task k mod A, k div A at call k, and
      nothing any more after A times T calls. */
  lemma SerialTasks(k: nat, algorithms: nat, travels: nat)
    requires algorithms >= 1
    ensures TaskOf(k, algorithms, travels) ==
            if k < algorithms * travels then Some(Task(k % algorithms, k / algorithms)) else None
  {
    if k < algorithms * travels {
      CountersFollow(k, algorithms, travels);
    } else {
      CountersDone(k, algorithms, travels);
    }
  }

  // ----- all tasks -----

  /** What the serial calls hand out, in order. */
  ghost function SerialOrder(algorithms: nat, travels: nat): (tasks: seq<Task>)
    requires algorithms >= 1
    ensures |tasks| == algorithms * travels
    ensures forall k: nat :: k < algorithms * travels ==> tasks[k] == Task(k % algorithms, k / algorithms)
  {
    seq(algorithms * travels, k requires k >= 0 => Task(k % algorithms, k / algorithms))
  }

  ghost predicate NoneTwice(tasks: seq<Task>) {
    forall j, k :: 0 <= j < k < |tasks| ==> tasks[j] != tasks[k]
  }

  lemma {:induction false} CountedOnce(tasks: seq<Task>, x: Task)
    requires NoneTwice(tasks)
    ensures multiset(tasks)[x] == if x in tasks then 1 else 0
  {
    if tasks != [] {
      var front := tasks[..|tasks| - 1];
      assert tasks == front + [tasks[|tasks| - 1]];
      CountedOnce(front, x);
    }
  }

  lemma SameTasks(a: seq<Task>, b: seq<Task>)
    requires NoneTwice(a) && NoneTwice(b) && forall x :: x in a <==> x in b
    ensures multiset(a) == multiset(b)
  {
    forall x
      ensures multiset(a)[x] == multiset(b)[x]
    {
      CountedOnce(a, x);
      CountedOnce(b, x);
    }
  }

  /** The place of a pair in the serial order. */
  lemma PlaceOf(x: Task, algorithms: nat, travels: nat) returns (k: nat)
    requires x.algorithm < algorithms && x.travel < travels
    ensures k < algorithms * travels && k % algorithms == x.algorithm && k / algorithms == x.travel
  {
    k := x.travel * algorithms + x.algorithm;
    MulKeepsOrder(x.travel + 1, travels, algorithms);
    assert (x.travel + 1) * algorithms == x.travel * algorithms + algorithms;
    DivModIs(k, x.travel, x.algorithm, algorithms);
  }

  lemma SerialOrderIsComplete(algorithms: nat, travels: nat)
    requires algorithms >= 1
    ensures var tasks := SerialOrder(algorithms, travels);
            NoneTwice(tasks) && forall x :: x in tasks <==> x.algorithm < algorithms && x.travel < travels
  {
    var tasks := SerialOrder(algorithms, travels);
    forall j, k | 0 <= j < k < |tasks|
      ensures tasks[j] != tasks[k]
    {
      assert j == (j / algorithms) * algorithms + j % algorithms;
      assert k == (k / algorithms) * algorithms + k % algorithms;
    }
    forall x
      ensures x in tasks <==> x.algorithm < algorithms && x.travel < travels
    {
      if x.algorithm < algorithms && x.travel < travels {
        var k := PlaceOf(x, algorithms, travels);
        assert tasks[k] == x;
      }
      if x in tasks {
        var k :| 0 <= k < |tasks| && tasks[k] == x;
        BelowProduct(k, algorithms, travels);
      }
    }
  }

  /** One worker that takes tasks until there is none. */
  method ServeAll(source: TaskSource) returns (tasks: seq<Task>)
    requires source.algorithms >= 1 && source.currAlgorithmIdx == 0 && source.currTravelIdx == 0
    modifies source
    ensures tasks == SerialOrder(source.algorithms, source.travels)
  {
    tasks := [];
    ghost var all := SerialOrder(source.algorithms, source.travels);
    while true
      invariant source.currTravelIdx <= source.travels && |tasks| <= |all| && tasks == all[..|tasks|]
      invariant (source.currAlgorithmIdx, source.currTravelIdx) == Served(|tasks|, source.algorithms, source.travels)
      decreases |all| - |tasks|
    {
      SerialTasks(|tasks|, source.algorithms, source.travels);
      var task := source.GetTask();
      if task.None? {
        break;
      }
      tasks := tasks + [task.value];
    }
  }

  /** The two loops that run without threads. */
  method RunAllPairs(algorithms: nat, travels: nat) returns (tasks: seq<Task>)
    ensures NoneTwice(tasks) && forall x :: x in tasks <==> x.algorithm < algorithms && x.travel < travels
  {
    tasks := [];
    for i := 0 to algorithms
      invariant NoneTwice(tasks) && forall x :: x in tasks <==> x.algorithm < i && x.travel < travels
    {
      for t := 0 to travels
        invariant NoneTwice(tasks)
        invariant forall x :: x in tasks <==>
                  (x.algorithm < i && x.travel < travels) || (x.algorithm == i && x.travel < t)
      {
        tasks := tasks + [Task(i, t)];
      }
    }
  }

  /** One worker runs the same tasks as the two loops, each as often. */
  method ServedAreAllPairs(algorithms: nat, travels: nat) returns (served: seq<Task>, looped: seq<Task>)
    requires algorithms >= 1
    ensures multiset(served) == multiset(looped)
    ensures forall a, t :: 0 <= a < algorithms && 0 <= t < travels ==> multiset(served)[Task(a, t)] == 1
    ensures |served| == algorithms * travels
  {
    var source := new TaskSource(algorithms, travels);
    served := ServeAll(source);
    looped := RunAllPairs(algorithms, travels);
    SerialOrderIsComplete(algorithms, travels);
    SameTasks(served, looped);
    forall a, t | 0 <= a < algorithms && 0 <= t < travels
      ensures multiset(served)[Task(a, t)] == 1
    {
      CountedOnce(served, Task(a, t));
    }
  }
}
