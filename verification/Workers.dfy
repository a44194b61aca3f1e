/** Workers that call for a task, run it, and call again until a call finds no task: their calls
    interleave access by access, and how many calls there are is up to the counters. */
module Workers {
  import opened Cargo
  import opened Tickets
  import opened Interleaving

  /** The call of each worker, and the tasks given out so far. A worker whose call found no task
      is over. */
  datatype Crew = Crew(pool: Pool, given: seq<Task>)

  function GivenBy(w: Worker): seq<Task> {
    if w.Answered? && w.task.Some? then [w.task.value] else []
  }

  predicate Over(w: Worker) {
    w == Answered(None)
  }

  /** One turn of worker i: an access of its call, or the next call once its task is run. */
  function Turn(c: Crew, i: nat, algorithms: nat, travels: nat): (c': Crew)
    requires i < |c.pool.workers|
    ensures |c'.pool.workers| == |c.pool.workers|
    ensures forall j :: 0 <= j < |c.pool.workers| && j != i ==> c'.pool.workers[j] == c.pool.workers[j]
  {
    var w := c.pool.workers[i];
    if Over(w) then c
    else if w.Answered? then c.(pool := c.pool.(workers := c.pool.workers[i := Asking]))
    else
      var p := Access(c.pool, i, algorithms, travels);
      Crew(p, c.given + GivenBy(p.workers[i]))
  }

  function Work(c: Crew, steps: seq<nat>, algorithms: nat, travels: nat): (c': Crew)
    requires Schedule(steps, |c.pool.workers|)
    ensures |c'.pool.workers| == |c.pool.workers|
    decreases |steps|
  {
    if steps == [] then c else Work(Turn(c, steps[0], algorithms, travels), steps[1..], algorithms, travels)
  }

  /** The workers before their first calls. */
  function Hired(n: nat): Crew {
    Crew(Start(n), [])
  }

  ghost predicate AllOver(c: Crew) {
    forall i :: 0 <= i < |c.pool.workers| ==> Over(c.pool.workers[i])
  }

  // ----- every run ends -----

  /** How far a worker is from its next round of the algorithms, which takes `unit` turns at most,
      and whether it can still reset their counter in this one. */
  function WorkerCost(w: Worker, unit: nat): nat {
    match w
    case Restarted => 6
    case Travelling(_) => 5
    case Holding(_) => unit + 4
    case Answered(task) => if task.Some? then unit + 3 else 0
    case Asking => unit + 2
    case Exhausted => unit + 1
  }

  function Costs(ws: seq<Worker>, unit: nat): nat {
    if ws == [] then 0 else Costs(ws[..|ws| - 1], unit) + WorkerCost(ws[|ws| - 1], unit)
  }

  lemma {:induction false} CostsUpdate(ws: seq<Worker>, i: nat, w: Worker, unit: nat)
    requires i < |ws|
    ensures Costs(ws[i := w], unit) + WorkerCost(ws[i], unit) == Costs(ws, unit) + WorkerCost(w, unit)
    decreases |ws|
  {
    var last := |ws| - 1;
    if i == last {
      assert ws[i := w][..last] == ws[..last];
    } else {
      CostsUpdate(ws[..last], i, w, unit);
      assert ws[i := w][..last] == ws[..last][i := w];
    }
  }

  /** Each worker and each travel index that is left allow one more round of the algorithms. */
  function Unit(algorithms: nat): nat {
    6 * algorithms + 6
  }

  ghost predicate InBounds(c: Crew, algorithms: nat, travels: nat) {
    c.pool.algorithm <= algorithms && c.pool.travel <= travels
  }

  /** How many turns are left at most. */
  function Cost(c: Crew, algorithms: nat, travels: nat): nat
    requires InBounds(c, algorithms, travels)
  {
    (travels - c.pool.travel) * Unit(algorithms) + 6 * (algorithms - c.pool.algorithm) +
        Costs(c.pool.workers, Unit(algorithms))
  }

  lemma OneLess(n: nat, unit: nat)
    requires n > 0
    ensures (n - 1) * unit == n * unit - unit
  {
  }

  /** Each turn of a worker that is not over uses up one of them. */
  lemma TurnCosts(c: Crew, i: nat, algorithms: nat, travels: nat)
    requires InBounds(c, algorithms, travels) && i < |c.pool.workers|
    ensures var c' := Turn(c, i, algorithms, travels);
            && InBounds(c', algorithms, travels)
            && Cost(c', algorithms, travels) +
               (if Over(c.pool.workers[i]) then 0 else 1) <= Cost(c, algorithms, travels)
  {
    var w := c.pool.workers[i];
    if !Over(w) {
      var c' := Turn(c, i, algorithms, travels);
      var w' := c'.pool.workers[i];
      var unit := Unit(algorithms);
      assert c'.pool.workers == c.pool.workers[i := w'];
      CostsUpdate(c.pool.workers, i, w', unit);
      if c'.pool.travel != c.pool.travel {
        OneLess(travels - c.pool.travel, unit);
      }
    }
  }

  /** The turns of a run in which the worker was not over yet. */
  function Active(c: Crew, steps: seq<nat>, algorithms: nat, travels: nat): nat
    requires Schedule(steps, |c.pool.workers|)
    decreases |steps|
  {
    if steps == [] then 0
    else
      (if Over(c.pool.workers[steps[0]]) then 0 else 1)
      + Active(Turn(c, steps[0], algorithms, travels), steps[1..], algorithms, travels)
  }

  lemma {:induction false} WorkCosts(c: Crew, steps: seq<nat>, algorithms: nat, travels: nat)
    requires InBounds(c, algorithms, travels) && Schedule(steps, |c.pool.workers|)
    ensures var c' := Work(c, steps, algorithms, travels);
            && InBounds(c', algorithms, travels)
            && Cost(c', algorithms, travels) + Active(c, steps, algorithms, travels) <= Cost(c, algorithms, travels)
    decreases |steps|
  {
    if steps != [] {
      TurnCosts(c, steps[0], algorithms, travels);
      WorkCosts(Turn(c, steps[0], algorithms, travels), steps[1..], algorithms, travels);
    }
  }

  lemma {:induction false} CostsOfAsking(n: nat, ws: seq<Worker>, unit: nat)
    requires |ws| == n && forall i :: 0 <= i < n ==> ws[i].Asking?
    ensures Costs(ws, unit) == n * unit + 2 * n
  {
    if n > 0 {
      CostsOfAsking(n - 1, ws[..n - 1], unit);
      OneLess(n, unit);
    }
  }

  /** However the workers interleave, together they are over after so many turns. */
  lemma WorkersEnd(n: nat, steps: seq<nat>, algorithms: nat, travels: nat)
    requires Schedule(steps, n)
    ensures Active(Hired(n), steps, algorithms, travels) <= (travels + n) * (6 * algorithms + 6) +
            6 * algorithms + 2 * n
  {
    WorkCosts(Hired(n), steps, algorithms, travels);
    CostAtStart(n, Unit(algorithms), algorithms, travels);
  }

  lemma CostAtStart(n: nat, unit: nat, algorithms: nat, travels: nat)
    requires unit == Unit(algorithms)
    ensures Cost(Hired(n), algorithms, travels) == (travels + n) * unit + 6 * algorithms + 2 * n
  {
    CostsOfAsking(n, Hired(n).pool.workers, unit);
    assert (travels + n) * unit == travels * unit + n * unit;
  }

  // ----- some run -----

  /** Some run leads from c to d. */
  ghost predicate Leads(c: Crew, d: Crew, algorithms: nat, travels: nat) {
    exists steps :: Schedule(steps, |c.pool.workers|) && Work(c, steps, algorithms, travels) == d
  }

  lemma {:induction false} WorkAppend(c: Crew, a: seq<nat>, b: seq<nat>, algorithms: nat, travels: nat)
    requires Schedule(a, |c.pool.workers|) && Schedule(b, |c.pool.workers|)
    ensures Schedule(a + b, |c.pool.workers|)
    ensures Work(c, a + b, algorithms, travels) == Work(Work(c, a, algorithms, travels), b, algorithms, travels)
    decreases |a|
  {
    if a == [] {
      assert a + b == b;
    } else {
      assert (a + b)[1..] == a[1..] + b;
      WorkAppend(Turn(c, a[0], algorithms, travels), a[1..], b, algorithms, travels);
    }
  }

  lemma LeadsToItself(c: Crew, algorithms: nat, travels: nat)
    ensures Leads(c, c, algorithms, travels)
  {
    assert Work(c, [], algorithms, travels) == c;
  }

  lemma LeadsThen(c: Crew, d: Crew, e: Crew, algorithms: nat, travels: nat)
    requires Leads(c, d, algorithms, travels) && Leads(d, e, algorithms, travels)
    ensures Leads(c, e, algorithms, travels)
  {
    var a :| Schedule(a, |c.pool.workers|) && Work(c, a, algorithms, travels) == d;
    var b :| Schedule(b, |d.pool.workers|) && Work(d, b, algorithms, travels) == e;
    WorkAppend(c, a, b, algorithms, travels);
  }

  lemma OneTurn(c: Crew, d: Crew, i: nat, algorithms: nat, travels: nat) returns (e: Crew)
    requires Leads(c, d, algorithms, travels) && i < |d.pool.workers|
    ensures e == Turn(d, i, algorithms, travels) && Leads(c, e, algorithms, travels)
  {
    e := Turn(d, i, algorithms, travels);
    assert [i][1..] == [];
    assert Work(d, [i], algorithms, travels) == Work(e, [], algorithms, travels);
    LeadsThen(c, d, e, algorithms, travels);
  }

  /** From every state some run ends with all workers over. */
  lemma {:induction false} CanEnd(c: Crew, algorithms: nat, travels: nat) returns (e: Crew)
    requires InBounds(c, algorithms, travels)
    ensures Leads(c, e, algorithms, travels) && AllOver(e)
    decreases Cost(c, algorithms, travels)
  {
    if AllOver(c) {
      e := c;
      LeadsToItself(c, algorithms, travels);
    } else {
      var i :| 0 <= i < |c.pool.workers| && !Over(c.pool.workers[i]);
      TurnCosts(c, i, algorithms, travels);
      LeadsToItself(c, algorithms, travels);
      var d := OneTurn(c, c, i, algorithms, travels);
      e := CanEnd(d, algorithms, travels);
      LeadsThen(c, d, e, algorithms, travels);
    }
  }

  // ----- a single worker -----

  /** The worker gave out the first tasks of the serial order, and the counters stand behind them. */
  ghost predicate InOrder(c: Crew, algorithms: nat, travels: nat)
    requires algorithms >= 1
  {
    var m, t, all := |c.given|, c.pool.travel, SerialOrder(algorithms, travels);
    && |c.pool.workers| == 1 && t <= travels && m <= |all| && c.given == all[..m]
    && InPlace(c.pool.workers[0], m, c.pool.algorithm, t, algorithms, travels)
  }

  ghost predicate InPlace(w: Worker, m: nat, a: nat, t: nat, algorithms: nat, travels: nat) {
    match w
    case Asking => (t < travels && a <= algorithms && m == t * algorithms + a) || (travels == t == a == m == 0)
    case Holding(h) => h < algorithms && m == t * algorithms + h && a == h + 1 && (t == travels ==> h == 0)
    case Exhausted => t < travels && m == t * algorithms + algorithms && a == algorithms
    case Restarted => t < travels && m == t * algorithms + algorithms && a == 0
    case Travelling(index) => t < travels && m == t * algorithms + algorithms && a == 1 && index == Some(0)
    case Answered(task) =>
      if task.Some? then t < travels && a <= algorithms && m == t * algorithms + a else m == algorithms * travels
  }

  /** The place of a pair in the serial order. */
  lemma SerialPlace(h: nat, t: nat, algorithms: nat, travels: nat)
    requires h < algorithms && t < travels
    ensures t * algorithms + h < algorithms * travels
    ensures SerialOrder(algorithms, travels)[t * algorithms + h] == Task(h, t)
  {
    var k := PlaceOf(Task(h, t), algorithms, travels);
    assert k == t * algorithms + h;
  }

  lemma GivesInOrder(c: Crew, algorithms: nat, travels: nat)
    requires algorithms >= 1 && InOrder(c, algorithms, travels) && c.pool.workers[0].Holding?
    ensures InOrder(Turn(c, 0, algorithms, travels), algorithms, travels)
  {
    var h, t := c.pool.workers[0].algorithm, c.pool.travel;
    if t < travels {
      SerialPlace(h, t, algorithms, travels);
      var all := SerialOrder(algorithms, travels);
      assert all[..|c.given| + 1] == all[..|c.given|] + [Task(h, t)];
    }
  }

  lemma TurnInOrder(c: Crew, algorithms: nat, travels: nat)
    requires algorithms >= 1 && InOrder(c, algorithms, travels)
    ensures InOrder(Turn(c, 0, algorithms, travels), algorithms, travels)
  {
    if c.pool.workers[0].Holding? {
      GivesInOrder(c, algorithms, travels);
    } else {
      assert (c.pool.travel + 1) * algorithms == c.pool.travel * algorithms + algorithms;
      assert c.given + [] == c.given;
    }
  }

  lemma {:induction false} WorksInOrder(c: Crew, steps: seq<nat>, algorithms: nat, travels: nat)
    requires algorithms >= 1 && InOrder(c, algorithms, travels) && Schedule(steps, 1)
    ensures InOrder(Work(c, steps, algorithms, travels), algorithms, travels)
    decreases |steps|
  {
    if steps != [] {
      TurnInOrder(c, algorithms, travels);
      WorksInOrder(Turn(c, 0, algorithms, travels), steps[1..], algorithms, travels);
    }
  }

  /** One worker gives out the serial order, from its beginning, and all of it when it is over. */
  lemma OneWorkerIsSerial(steps: seq<nat>, algorithms: nat, travels: nat)
    requires algorithms >= 1 && Schedule(steps, 1)
    ensures var c := Work(Hired(1), steps, algorithms, travels);
            && c.given <= SerialOrder(algorithms, travels)
            && (AllOver(c) ==> c.given == SerialOrder(algorithms, travels))
  {
    var all := SerialOrder(algorithms, travels);
    assert all[..0] == [];
    WorksInOrder(Hired(1), steps, algorithms, travels);
    assert all[..|all|] == all;
  }

  // ----- several workers -----

  /** Without travels nothing is given out. */
  lemma {:induction false} NoTravelNothingGiven(c: Crew, steps: seq<nat>, algorithms: nat)
    requires c.pool.travel == 0 && c.given == [] && Schedule(steps, |c.pool.workers|)
    ensures Work(c, steps, algorithms, 0).given == []
    decreases |steps|
  {
    if steps != [] {
      NoTravelNothingGiven(Turn(c, steps[0], algorithms, 0), steps[1..], algorithms);
    }
  }

  lemma NobodyGivesNothing(c: Crew, steps: seq<nat>, algorithms: nat, travels: nat)
    requires |c.pool.workers| == 0 && Schedule(steps, 0)
    ensures Work(c, steps, algorithms, travels) == c
  {
  }

  /** All tasks that were given out since c are of the first travel and of algorithms from k on. */
  ghost predicate GaveFrom(c: Crew, d: Crew, k: nat) {
    c.given <= d.given && forall x :: x in d.given[|c.given|..] ==> x.algorithm >= k && x.travel == 0
  }

  /** Worker i takes algorithm k for the first travel and is ready for its next call. */
  lemma TakesOne(c0: Crew, c: Crew, i: nat, k: nat, algorithms: nat, travels: nat) returns (d: Crew)
    requires Leads(c0, c, algorithms, travels) && i < |c.pool.workers| && c.pool.workers[i].Asking?
    requires c.pool.algorithm == k < algorithms && c.pool.travel == 0 && travels >= 1
    ensures Leads(c0, d, algorithms, travels)
    ensures d.given == c.given + [Task(k, 0)] && d.pool == c.pool.(algorithm := k + 1)
  {
    d := OneTurn(c0, c, i, algorithms, travels);
    d := OneTurn(c0, d, i, algorithms, travels);
    d := OneTurn(c0, d, i, algorithms, travels);
    assert d.pool.workers == c.pool.workers;
  }

  lemma GaveOneMore(c: Crew, c1: Crew, d: Crew, k: nat)
    requires c1.given == c.given + [Task(k, 0)] && GaveFrom(c1, d, k + 1)
    ensures GaveFrom(c, d, k) && Task(k, 0) in d.given
  {
    assert d.given[|c.given|..] == [Task(k, 0)] + d.given[|c1.given|..];
    assert d.given[|c.given|] == Task(k, 0);
  }

  /** It takes algorithms k and on, one after the other. */
  lemma {:induction false} TakesOn(c0: Crew, c: Crew, i: nat, k: nat, algorithms: nat, travels: nat) returns (d: Crew)
    requires Leads(c0, c, algorithms, travels) && i < |c.pool.workers| && c.pool.workers[i].Asking?
    requires c.pool.algorithm == k <= algorithms && c.pool.travel == 0 && travels >= 1
    ensures Leads(c0, d, algorithms, travels) && GaveFrom(c, d, k)
    ensures k < algorithms ==> Task(k, 0) in d.given
    ensures d.pool == c.pool.(algorithm := algorithms)
    decreases algorithms - k
  {
    if k == algorithms {
      d := c;
    } else {
      var c1 := TakesOne(c0, c, i, k, algorithms, travels);
      d := TakesOn(c0, c1, i, k + 1, algorithms, travels);
      GaveOneMore(c, c1, d, k);
    }
  }

  /** A worker that finds the algorithms exhausted sets their counter back. */
  lemma SetsBack(c0: Crew, c: Crew, i: nat, algorithms: nat, travels: nat) returns (d: Crew)
    requires Leads(c0, c, algorithms, travels) && i < |c.pool.workers| && c.pool.workers[i].Asking?
    requires c.pool.algorithm == algorithms
    ensures Leads(c0, d, algorithms, travels) && d.given == c.given
    ensures d.pool == c.pool.(algorithm := 0, workers := c.pool.workers[i := Restarted])
  {
    d := OneTurn(c0, c, i, algorithms, travels);
    assert d.pool.workers == c.pool.workers[i := Exhausted];
    d := OneTurn(c0, d, i, algorithms, travels);
  }

  /** Worker 0 runs all algorithms and resets their counter; before it moves on to the next travel
      worker 1 is given the first pair again. */
  lemma TwoWorkersRepeat(n: nat, algorithms: nat, travels: nat) returns (d: Crew)
    requires n >= 2 && algorithms >= 1 && travels >= 1
    ensures Leads(Hired(n), d, algorithms, travels) && !NoneTwice(d.given)
  {
    var c := Hired(n);
    LeadsToItself(c, algorithms, travels);
    var c1 := TakesOn(c, c, 0, 0, algorithms, travels);
    var c2 := SetsBack(c, c1, 0, algorithms, travels);
    d := TakesOne(c, c2, 1, 0, algorithms, travels);
    TwiceInIt(c2.given, Task(0, 0));
  }

  lemma TwiceInIt(tasks: seq<Task>, x: Task)
    requires x in tasks
    ensures !NoneTwice(tasks + [x])
  {
    var k :| 0 <= k < |tasks| && tasks[k] == x;
    assert (tasks + [x])[k] == (tasks + [x])[|tasks|];
  }

  /** The first pair was not given out and can not be any more. */
  ghost predicate Missed(c: Crew) {
    c.pool.travel >= 1 && Task(0, 0) !in c.given
  }

  lemma {:induction false} StaysMissed(c: Crew, steps: seq<nat>, algorithms: nat, travels: nat)
    requires Missed(c) && Schedule(steps, |c.pool.workers|)
    ensures Missed(Work(c, steps, algorithms, travels))
    decreases |steps|
  {
    if steps != [] {
      StaysMissed(Turn(c, steps[0], algorithms, travels), steps[1..], algorithms, travels);
    }
  }

  /** A worker that set the counter back takes the first algorithm and moves on to the next travel. */
  lemma MovesOn(c0: Crew, c: Crew, i: nat, algorithms: nat, travels: nat) returns (d: Crew)
    requires Leads(c0, c, algorithms, travels) && i < |c.pool.workers| && c.pool.workers[i].Restarted?
    requires c.pool.algorithm == 0 < algorithms && c.pool.travel < travels
    ensures Leads(c0, d, algorithms, travels) && d.given == c.given
    ensures d.pool.travel == c.pool.travel + 1 && d.pool.algorithm == 1
  {
    d := OneTurn(c0, c, i, algorithms, travels);
    d := OneTurn(c0, d, i, algorithms, travels);
  }

  /** While worker 0 holds the first algorithm, worker 1 runs the others, resets their counter and
      moves on to the next travel. */
  lemma TwoWorkersMiss(n: nat, algorithms: nat, travels: nat) returns (d: Crew)
    requires n >= 2 && algorithms >= 1 && travels >= 1
    ensures Leads(Hired(n), d, algorithms, travels) && Missed(d) && InBounds(d, algorithms, travels)
  {
    var c := Hired(n);
    LeadsToItself(c, algorithms, travels);
    var c1 := OneTurn(c, c, 0, algorithms, travels);
    var c2 := TakesOn(c, c1, 1, 1, algorithms, travels);
    assert c1.given == [] && c2.given[0..] == c2.given;
    var c3 := SetsBack(c, c2, 1, algorithms, travels);
    d := MovesOn(c, c3, 1, algorithms, travels);
  }

  lemma TwoWorkersLeaveOut(n: nat, algorithms: nat, travels: nat) returns (e: Crew)
    requires n >= 2 && algorithms >= 1 && travels >= 1
    ensures Leads(Hired(n), e, algorithms, travels) && AllOver(e) && Task(0, 0) !in e.given
  {
    var d := TwoWorkersMiss(n, algorithms, travels);
    e := CanEnd(d, algorithms, travels);
    var steps :| Schedule(steps, |d.pool.workers|) && Work(d, steps, algorithms, travels) == e;
    StaysMissed(d, steps, algorithms, travels);
    LeadsThen(Hired(n), d, e, algorithms, travels);
  }

  // ----- when workers share the tasks as they should -----

  /** No pair is run twice, however the workers interleave, exactly when there is at most one
      worker or no travel. */
  lemma WorkersRunOnceExactly(n: nat, algorithms: nat, travels: nat)
    requires algorithms >= 1
    ensures (forall steps :: Schedule(steps, n) ==> NoneTwice(Work(Hired(n), steps, algorithms, travels).given)) <==>
            n <= 1 || travels == 0
  {
    if n >= 2 && travels >= 1 {
      var d := TwoWorkersRepeat(n, algorithms, travels);
      var steps :| Schedule(steps, n) && Work(Hired(n), steps, algorithms, travels) == d;
    } else {
      forall steps | Schedule(steps, n)
        ensures NoneTwice(Work(Hired(n), steps, algorithms, travels).given)
      {
        FewRunOnce(n, steps, algorithms, travels);
      }
    }
  }

  lemma FewRunOnce(n: nat, steps: seq<nat>, algorithms: nat, travels: nat)
    requires algorithms >= 1 && Schedule(steps, n) && (n <= 1 || travels == 0)
    ensures NoneTwice(Work(Hired(n), steps, algorithms, travels).given)
  {
    if travels == 0 {
      NoTravelNothingGiven(Hired(n), steps, algorithms);
    } else if n == 0 {
      NobodyGivesNothing(Hired(n), steps, algorithms, travels);
    } else {
      OneWorkerIsSerial(steps, algorithms, travels);
      SerialOrderIsComplete(algorithms, travels);
    }
  }

  ghost predicate AllGiven(c: Crew, algorithms: nat, travels: nat) {
    forall a, t | 0 <= a < algorithms && 0 <= t < travels :: Task(a, t) in c.given
  }

  /** When all workers are over every pair was run, however they interleaved, exactly when there
      is one worker or no travel. Some run of theirs does end. */
  lemma WorkersRunAllExactly(n: nat, algorithms: nat, travels: nat)
    requires algorithms >= 1
    ensures (forall steps :: Schedule(steps, n) && AllOver(Work(Hired(n), steps, algorithms, travels)) ==>
               AllGiven(Work(Hired(n), steps, algorithms, travels), algorithms, travels)) <==>
            n == 1 || travels == 0
    ensures exists steps :: Schedule(steps, n) && AllOver(Work(Hired(n), steps, algorithms, travels))
  {
    var some := CanEnd(Hired(n), algorithms, travels);
    if n == 1 || travels == 0 {
      forall steps | Schedule(steps, n) && AllOver(Work(Hired(n), steps, algorithms, travels))
        ensures AllGiven(Work(Hired(n), steps, algorithms, travels), algorithms, travels)
      {
        if travels > 0 {
          OneWorkerIsSerial(steps, algorithms, travels);
          SerialOrderIsComplete(algorithms, travels);
        }
      }
    } else if n == 0 {
      NobodyGivesNothing(Hired(n), [], algorithms, travels);
      assert !AllGiven(Hired(n), algorithms, travels) by {
        assert Task(0, 0) !in Hired(n).given;
      }
    } else {
      var e := TwoWorkersLeaveOut(n, algorithms, travels);
      var steps :| Schedule(steps, n) && Work(Hired(n), steps, algorithms, travels) == e;
    }
  }
}
