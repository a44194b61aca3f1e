/** Calls for a pair of an algorithm and a travel that interleave, access by access of the two
    shared counters. The reset of one counter and the increment of the other are two accesses. */
module Interleaving {
  import opened Cargo
  import opened Tickets

  /** Where a call stands between two accesses of the shared counters. */
  datatype Worker =
    | Asking
    | Holding(algorithm: nat)
    | Exhausted
    | Restarted
    | Travelling(index: Option<nat>)
    | Answered(task: Option<Task>)

  datatype Pool = Pool(algorithm: nat, travel: nat, workers: seq<Worker>)

  /** One access of a shared counter by call i. */
  function Access(p: Pool, i: nat, algorithms: nat, travels: nat): (p': Pool)
    requires i < |p.workers|
    ensures |p'.workers| == |p.workers| && forall j :: 0 <= j < |p.workers| && j != i ==> p'.workers[j] == p.workers[j]
  {
    match p.workers[i]
    case Asking =>
      var (index, a) := NextIdx(p.algorithm, algorithms);
      p.(algorithm := a, workers := p.workers[i := if index.Some? then Holding(index.value) else Exhausted])
    case Exhausted => p.(algorithm := 0, workers := p.workers[i := Restarted])
    case Restarted =>
      var (index, a) := NextIdx(p.algorithm, algorithms);
      p.(algorithm := a, workers := p.workers[i := Travelling(index)])
    case Travelling(index) =>
      var (travel, t) := NextIdx(p.travel, travels);
      p.(travel := t, workers := p.workers[i := if travel.None? then Answered(None)
                                                else if index.Some? then Holding(index.value) else Exhausted])
    case Holding(a) =>
      p.(workers := p.workers[i := Answered(if p.travel == travels then None else Some(Task(a, p.travel)))])
    case Answered(_) => p
  }

  function Accesses(p: Pool, steps: seq<nat>, algorithms: nat, travels: nat): (p': Pool)
    requires Schedule(steps, |p.workers|)
    ensures |p'.workers| == |p.workers|
    decreases |steps|
  {
    if steps == [] then p else Accesses(Access(p, steps[0], algorithms, travels), steps[1..], algorithms, travels)
  }

  /** Before any call. */
  function Start(n: nat): Pool {
    Pool(0, 0, seq(n, i => Asking))
  }

  // ----- every schedule -----

  ghost predicate GoodWorker(w: Worker, algorithms: nat, travels: nat) {
    match w
    case Holding(a) => a < algorithms
    case Travelling(index) => index.Some? ==> index.value < algorithms
    case Answered(task) => task.Some? ==> task.value.algorithm < algorithms && task.value.travel < travels
    case _ => true
  }

  ghost predicate GoodPool(p: Pool, algorithms: nat, travels: nat) {
    && p.travel <= travels
    && forall i :: 0 <= i < |p.workers| ==> GoodWorker(p.workers[i], algorithms, travels)
  }

  /** However calls interleave, every task handed out is a pair of an algorithm and a travel
      that exist. */
  lemma {:induction false} InterleavedTasksExist(p: Pool, steps: seq<nat>, algorithms: nat, travels: nat)
    requires Schedule(steps, |p.workers|) && GoodPool(p, algorithms, travels)
    ensures GoodPool(Accesses(p, steps, algorithms, travels), algorithms, travels)
    decreases |steps|
  {
    if steps != [] {
      var p1 := Access(p, steps[0], algorithms, travels);
      assert GoodWorker(p.workers[steps[0]], algorithms, travels);
      assert forall i :: 0 <= i < |p.workers| && i != steps[0] ==> p1.workers[i] == p.workers[i];
      InterleavedTasksExist(p1, steps[1..], algorithms, travels);
    }
  }

  // ----- some schedule -----

  /** Some schedule leads from p to q. */
  ghost predicate Reaches(p: Pool, q: Pool, algorithms: nat, travels: nat) {
    exists steps :: Schedule(steps, |p.workers|) && Accesses(p, steps, algorithms, travels) == q
  }

  lemma {:induction false} AccessesAppend(p: Pool, a: seq<nat>, b: seq<nat>, algorithms: nat, travels: nat)
    requires Schedule(a, |p.workers|) && Schedule(b, |p.workers|)
    ensures Schedule(a + b, |p.workers|)
    ensures Accesses(p, a + b, algorithms, travels) ==
            Accesses(Accesses(p, a, algorithms, travels), b, algorithms, travels)
    decreases |a|
  {
    if a == [] {
      assert a + b == b;
    } else {
      assert (a + b)[1..] == a[1..] + b;
      AccessesAppend(Access(p, a[0], algorithms, travels), a[1..], b, algorithms, travels);
    }
  }

  lemma ReachesItself(p: Pool, algorithms: nat, travels: nat)
    ensures Reaches(p, p, algorithms, travels)
  {
    assert Accesses(p, [], algorithms, travels) == p;
  }

  lemma ReachesThen(p: Pool, q: Pool, r: Pool, algorithms: nat, travels: nat)
    requires Reaches(p, q, algorithms, travels) && Reaches(q, r, algorithms, travels)
    ensures Reaches(p, r, algorithms, travels)
  {
    var a :| Schedule(a, |p.workers|) && Accesses(p, a, algorithms, travels) == q;
    var b :| Schedule(b, |q.workers|) && Accesses(q, b, algorithms, travels) == r;
    AccessesAppend(p, a, b, algorithms, travels);
  }

  /** The pool after one more access of call i. */
  lemma OneAccess(p: Pool, q: Pool, i: nat, algorithms: nat, travels: nat) returns (r: Pool)
    requires Reaches(p, q, algorithms, travels) && |q.workers| == |p.workers| && i < |q.workers|
    ensures r == Access(q, i, algorithms, travels) && Reaches(p, r, algorithms, travels)
  {
    r := Access(q, i, algorithms, travels);
    assert [i][1..] == [];
    assert Accesses(q, [i], algorithms, travels) == Accesses(r, [], algorithms, travels);
    ReachesThen(p, q, r, algorithms, travels);
  }

  /** A call that no other interrupts is a serial call. */
  lemma AloneIsSerial(p: Pool, i: nat, algorithms: nat, travels: nat)
    requires i < |p.workers| && p.workers[i].Asking? && algorithms >= 1
    ensures var p' := Accesses(p, [i, i, i, i, i], algorithms, travels);
            p'.workers[i].Answered? &&
                (p'.workers[i].task, p'.algorithm, p'.travel) == TakeTask(p.algorithm, p.travel, algorithms, travels)
  {
    var p1 := Access(p, i, algorithms, travels);
    var p2 := Access(p1, i, algorithms, travels);
    var p3 := Access(p2, i, algorithms, travels);
    var p4 := Access(p3, i, algorithms, travels);
    var p5 := Access(p4, i, algorithms, travels);
    assert Accesses(p4, [i], algorithms, travels) == Accesses(p5, [], algorithms, travels) by { assert [i][1..] == []; }
    assert Accesses(p3, [i, i], algorithms, travels) == p5 by { assert [i, i][1..] == [i]; }
    assert Accesses(p2, [i, i, i], algorithms, travels) == p5 by { assert [i, i, i][1..] == [i, i]; }
    assert Accesses(p1, [i, i, i, i], algorithms, travels) == p5 by { assert [i, i, i, i][1..] == [i, i, i]; }
    assert [i, i, i, i, i][1..] == [i, i, i, i];
  }

  // ----- every call ends -----

  /** How many accesses a call still makes at most, when `left` travel indices are left. */
  function AtMost(w: Worker, left: nat): nat {
    match w
    case Asking => 3 * left + 4
    case Exhausted => 3 * left + 3
    case Restarted => 3 * left + 2
    case Travelling(_) => 3 * left + 1
    case Holding(_) => 1
    case Answered(_) => 0
  }

  /** An access by a call that has no answer yet brings it nearer to one; an access by another
      call does not take it farther away. */
  lemma AccessBringsNearer(p: Pool, j: nat, i: nat, algorithms: nat, travels: nat)
    requires i < |p.workers| && j < |p.workers| && p.travel <= travels
    ensures var p' := Access(p, j, algorithms, travels);
            && p.travel <= p'.travel <= travels
            && AtMost(p'.workers[i], travels - p'.travel) + (if j == i && !p.workers[i].Answered? then 1 else 0)
               <= AtMost(p.workers[i], travels - p.travel)
  {
  }

  /** How often a call has its turn. */
  function TurnsOf(steps: seq<nat>, i: nat): nat {
    if steps == [] then 0 else (if steps[0] == i then 1 else 0) + TurnsOf(steps[1..], i)
  }

  lemma {:induction false} TurnsLeft(p: Pool, steps: seq<nat>, i: nat, algorithms: nat, travels: nat)
    requires Schedule(steps, |p.workers|) && i < |p.workers| && p.travel <= travels
    ensures var w := Accesses(p, steps, algorithms, travels).workers[i];
            w.Answered? || TurnsOf(steps, i) < AtMost(p.workers[i], travels - p.travel)
    decreases |steps|
  {
    if steps != [] {
      AccessBringsNearer(p, steps[0], i, algorithms, travels);
      TurnsLeft(Access(p, steps[0], algorithms, travels), steps[1..], i, algorithms, travels);
      if p.workers[i].Answered? {
        AnsweredStays(p, steps, i, algorithms, travels);
      }
    }
  }

  lemma {:induction false} AnsweredStays(p: Pool, steps: seq<nat>, i: nat, algorithms: nat, travels: nat)
    requires Schedule(steps, |p.workers|) && i < |p.workers| && p.workers[i].Answered?
    ensures Accesses(p, steps, algorithms, travels).workers[i] == p.workers[i]
    decreases |steps|
  {
    if steps != [] {
      AnsweredStays(Access(p, steps[0], algorithms, travels), steps[1..], i, algorithms, travels);
    }
  }

  /** Whatever the other calls do, a call has its answer after four accesses of its own and three
      more for each travel index that was left when it began. */
  lemma CallIsAnswered(p: Pool, steps: seq<nat>, i: nat, algorithms: nat, travels: nat)
    requires Schedule(steps, |p.workers|) && i < |p.workers| && p.travel <= travels
    requires TurnsOf(steps, i) >= 3 * (travels - p.travel) + 4
    ensures Accesses(p, steps, algorithms, travels).workers[i].Answered?
  {
    TurnsLeft(p, steps, i, algorithms, travels);
  }

  // ----- before any reset -----

  function IndexTaken(w: Worker): Option<nat> {
    match w
    case Holding(a) => Some(a)
    case Answered(task) => if task.Some? then Some(task.value.algorithm) else None
    case _ => None
  }

  /** A call that took index a and will run, or runs, the first travel. */
  ghost predicate TookFirstTravel(w: Worker) {
    w.Holding? || (w.Answered? && w.task.Some? && w.task.value.travel == 0)
  }

  function AskingCount(ws: seq<Worker>): nat {
    if ws == [] then 0 else AskingCount(ws[..|ws| - 1]) + (if ws[|ws| - 1].Asking? then 1 else 0)
  }

  lemma {:induction false} AskingCountUpdate(ws: seq<Worker>, i: nat, w: Worker)
    requires i < |ws|
    ensures AskingCount(ws[i := w]) + (if ws[i].Asking? then 1 else 0) == AskingCount(ws) + (if w.Asking? then 1 else 0)
    decreases |ws|
  {
    var last := |ws| - 1;
    if i == last {
      assert ws[i := w][..last] == ws[..last];
    } else {
      AskingCountUpdate(ws[..last], i, w);
      assert ws[i := w][..last] == ws[..last][i := w];
    }
  }

  lemma {:induction false} AskingCountZero(ws: seq<Worker>)
    ensures AskingCount(ws) == 0 <==> forall i :: 0 <= i < |ws| ==> !ws[i].Asking?
    decreases |ws|
  {
    if ws != [] {
      var front := ws[..|ws| - 1];
      AskingCountZero(front);
      assert ws == front + [ws[|ws| - 1]];
      assert forall i :: 0 <= i < |front| ==> front[i] == ws[i];
    }
  }

  lemma {:induction false} AllAsking(n: nat, ws: seq<Worker>)
    requires |ws| == n && forall i :: 0 <= i < n ==> ws[i].Asking?
    ensures AskingCount(ws) == n
  {
    if n > 0 {
      AllAsking(n - 1, ws[..n - 1]);
    }
  }

  /** Each index below the counter was taken by exactly one call, for the first travel. */
  ghost predicate Orderly(p: Pool) {
    && p.travel == 0 && p.algorithm + AskingCount(p.workers) == |p.workers|
    && (forall i :: 0 <= i < |p.workers| && !p.workers[i].Asking? ==>
          TookFirstTravel(p.workers[i]) && IndexTaken(p.workers[i]).value < p.algorithm)
    && (forall i, j :: 0 <= i < j < |p.workers| && !p.workers[i].Asking? && !p.workers[j].Asking? ==>
          IndexTaken(p.workers[i]) != IndexTaken(p.workers[j]))
    && (forall a: nat :: a < p.algorithm ==> Taken(p, a))
  }

  ghost predicate Taken(p: Pool, a: nat) {
    exists i :: 0 <= i < |p.workers| && IndexTaken(p.workers[i]) == Some(a)
  }

  lemma StartIsOrderly(n: nat)
    ensures Orderly(Start(n))
  {
    AllAsking(n, Start(n).workers);
  }

  lemma TakenStays(p: Pool, p': Pool, i: nat, a: nat)
    requires |p'.workers| == |p.workers| && i < |p.workers| && Taken(p, a)
    requires forall j :: 0 <= j < |p.workers| && j != i ==> p'.workers[j] == p.workers[j]
    requires IndexTaken(p.workers[i]).Some? ==> IndexTaken(p'.workers[i]) == IndexTaken(p.workers[i])
    ensures Taken(p', a)
  {
    var j :| 0 <= j < |p.workers| && IndexTaken(p.workers[j]) == Some(a);
    assert IndexTaken(p'.workers[j]) == Some(a);
  }

  lemma OrderlyAsks(p: Pool, i: nat, algorithms: nat, travels: nat)
    requires Orderly(p) && i < |p.workers| && p.workers[i].Asking? && p.algorithm < algorithms
    ensures Orderly(Access(p, i, algorithms, travels))
  {
    var p' := Access(p, i, algorithms, travels);
    assert p'.workers == p.workers[i := Holding(p.algorithm)] && p'.algorithm == p.algorithm + 1;
    AskingCountUpdate(p.workers, i, Holding(p.algorithm));
    forall a: nat | a < p'.algorithm
      ensures Taken(p', a)
    {
      if a == p.algorithm {
        assert IndexTaken(p'.workers[i]) == Some(a);
      } else {
        TakenStays(p, p', i, a);
      }
    }
  }

  lemma OrderlyElse(p: Pool, i: nat, algorithms: nat, travels: nat)
    requires Orderly(p) && i < |p.workers| && !p.workers[i].Asking? && travels >= 1
    ensures Orderly(Access(p, i, algorithms, travels))
  {
    var p' := Access(p, i, algorithms, travels);
    assert TookFirstTravel(p.workers[i]);
    assert p'.workers == p.workers[i := p'.workers[i]];
    AskingCountUpdate(p.workers, i, p'.workers[i]);
    forall a: nat | a < p'.algorithm
      ensures Taken(p', a)
    {
      TakenStays(p, p', i, a);
    }
  }

  lemma OrderlyHasRoom(p: Pool, i: nat)
    requires Orderly(p) && i < |p.workers| && p.workers[i].Asking?
    ensures p.algorithm < |p.workers|
  {
    AskingCountZero(p.workers);
  }

  /** While there are no more calls than algorithms, no call finds the algorithms exhausted. */
  lemma {:induction false} StaysOrderly(p: Pool, steps: seq<nat>, algorithms: nat, travels: nat)
    requires Orderly(p) && Schedule(steps, |p.workers|) && |p.workers| <= algorithms && travels >= 1
    ensures Orderly(Accesses(p, steps, algorithms, travels))
    decreases |steps|
  {
    if steps != [] {
      if p.workers[steps[0]].Asking? {
        OrderlyHasRoom(p, steps[0]);
        OrderlyAsks(p, steps[0], algorithms, travels);
      } else {
        OrderlyElse(p, steps[0], algorithms, travels);
      }
      StaysOrderly(Access(p, steps[0], algorithms, travels), steps[1..], algorithms, travels);
    }
  }

  // ----- one call too many, and one travel -----

  /** Call e found the algorithms exhausted; no call asks any more. The others took distinct
      indices for the only travel, or came too late for it. */
  ghost predicate LateBy(p: Pool, e: nat) {
    && e < |p.workers|
    && LateOne(p, p.workers[e])
    && (forall i :: 0 <= i < |p.workers| && i != e ==> TookFirstTravel(p.workers[i]) || p.workers[i] == Answered(None))
    && (forall i, j :: 0 <= i < j < |p.workers| && i != e && j != e && IndexTaken(p.workers[i]).Some? ==>
          IndexTaken(p.workers[i]) != IndexTaken(p.workers[j]))
  }

  ghost predicate LateOne(p: Pool, w: Worker) {
    match w
    case Exhausted => p.travel == 0
    case Restarted => p.travel == 0 && p.algorithm == 0
    case Travelling(index) => p.travel == 0 && index.Some?
    case Holding(_) => p.travel == 1
    case Answered(task) => p.travel == 1 && task.None?
    case Asking => false
  }

  lemma OrderlyTurnsLate(p: Pool, i: nat, algorithms: nat, travels: nat)
    requires Orderly(p) && i < |p.workers| && p.workers[i].Asking?
    requires p.algorithm == algorithms && |p.workers| == algorithms + 1
    ensures LateBy(Access(p, i, algorithms, travels), i)
  {
    var p' := Access(p, i, algorithms, travels);
    assert p'.workers == p.workers[i := Exhausted];
    AskingCountUpdate(p.workers, i, Exhausted);
    AskingCountZero(p'.workers);
    forall j | 0 <= j < |p.workers| && j != i
      ensures TookFirstTravel(p'.workers[j])
    {
      assert p'.workers[j] == p.workers[j] && !p'.workers[j].Asking?;
    }
  }

  lemma LateStays(p: Pool, e: nat, i: nat, algorithms: nat)
    requires LateBy(p, e) && i < |p.workers| && algorithms >= 1
    ensures LateBy(Access(p, i, algorithms, 1), e)
  {
    var p' := Access(p, i, algorithms, 1);
    if i != e {
      assert TookFirstTravel(p.workers[i]) || p.workers[i] == Answered(None);
      assert p'.workers[e] == p.workers[e];
    }
  }

  lemma {:induction false} StaysLate(p: Pool, e: nat, steps: seq<nat>, algorithms: nat)
    requires LateBy(p, e) && Schedule(steps, |p.workers|) && algorithms >= 1
    ensures LateBy(Accesses(p, steps, algorithms, 1), e)
    decreases |steps|
  {
    if steps != [] {
      LateStays(p, e, steps[0], algorithms);
      StaysLate(Access(p, steps[0], algorithms, 1), e, steps[1..], algorithms);
    }
  }

  /** No two calls hold the same pair. */
  ghost predicate NoPairTwice(p: Pool) {
    forall i, j ::
      0 <= i < j < |p.workers| && p.workers[i].Answered? && p.workers[j].Answered? && p.workers[i].task.Some? ==>
      p.workers[i].task != p.workers[j].task
  }

  lemma LateIsUnique(p: Pool, e: nat)
    requires LateBy(p, e)
    ensures NoPairTwice(p)
  {
    forall i, j |
        0 <= i < j < |p.workers| && p.workers[i].Answered? && p.workers[j].Answered? && p.workers[i].task.Some?
      ensures p.workers[i].task != p.workers[j].task
    {
      assert i != e;
      if j != e {
        assert IndexTaken(p.workers[i]) != IndexTaken(p.workers[j]);
      }
    }
  }

  lemma OrderlyIsUnique(p: Pool)
    requires Orderly(p)
    ensures NoPairTwice(p)
  {
    forall i, j |
        0 <= i < j < |p.workers| && p.workers[i].Answered? && p.workers[j].Answered? && p.workers[i].task.Some?
      ensures p.workers[i].task != p.workers[j].task
    {
      assert IndexTaken(p.workers[i]) != IndexTaken(p.workers[j]);
    }
  }

  /** With one travel, one call more than there are algorithms does no harm. */
  lemma {:induction false} OneTooMany(p: Pool, steps: seq<nat>, algorithms: nat)
    requires Orderly(p) && Schedule(steps, |p.workers|) && |p.workers| == algorithms + 1 && p.algorithm <= algorithms &&
             algorithms >= 1
    ensures NoPairTwice(Accesses(p, steps, algorithms, 1))
    decreases |steps|
  {
    if steps == [] {
      OrderlyIsUnique(p);
    } else {
      var i := steps[0];
      var p1 := Access(p, i, algorithms, 1);
      if p.workers[i].Asking? && p.algorithm == algorithms {
        OrderlyTurnsLate(p, i, algorithms, 1);
        StaysLate(p1, i, steps[1..], algorithms);
        LateIsUnique(Accesses(p1, steps[1..], algorithms, 1), i);
      } else {
        if p.workers[i].Asking? {
          OrderlyAsks(p, i, algorithms, 1);
        } else {
          OrderlyElse(p, i, algorithms, 1);
          assert TookFirstTravel(p.workers[i]);
        }
        OneTooMany(p1, steps[1..], algorithms);
      }
    }
  }

  lemma NoTravelNoPair(n: nat, steps: seq<nat>, algorithms: nat)
    requires Schedule(steps, n)
    ensures NoPairTwice(Accesses(Start(n), steps, algorithms, 0))
  {
    InterleavedTasksExist(Start(n), steps, algorithms, 0);
    var p := Accesses(Start(n), steps, algorithms, 0);
    assert forall i :: 0 <= i < |p.workers| ==> GoodWorker(p.workers[i], algorithms, 0);
  }

  // ----- two calls with the same pair -----

  /** Call 0 stands where w0 says, calls 1 to k - 1 hold their pairs, the others did not begin. */
  ghost predicate Begun(p: Pool, k: nat, w0: Worker) {
    && 1 <= k <= |p.workers| && p.algorithm == k && p.travel == 0
    && p.workers[0] == w0
    && (forall i :: 1 <= i < k ==> p.workers[i] == Answered(Some(Task(i, 0))))
    && forall i :: k <= i < |p.workers| ==> p.workers[i].Asking?
  }

  /** Calls 1 and on take the remaining algorithms, one after the other. */
  lemma {:induction false} TakeOthers(p: Pool, q: Pool, k: nat, w0: Worker, algorithms: nat, travels: nat)
      returns (r: Pool)
    requires Reaches(p, q, algorithms, travels) && |q.workers| == |p.workers|
    requires Begun(q, k, w0) && k <= algorithms <= |q.workers| && travels >= 1
    ensures Reaches(p, r, algorithms, travels) && |r.workers| == |p.workers| && Begun(r, algorithms, w0)
    decreases algorithms - k
  {
    if k == algorithms {
      r := q;
    } else {
      var q1 := OneAccess(p, q, k, algorithms, travels);
      var q2 := OneAccess(p, q1, k, algorithms, travels);
      r := TakeOthers(p, q2, k + 1, w0, algorithms, travels);
    }
  }

  /** All algorithms are taken, call 0 having begun with one access or with two. */
  lemma AllTaken(n: nat, twice: bool, algorithms: nat, travels: nat) returns (q: Pool)
    requires n >= algorithms >= 1 && travels >= 1
    ensures Reaches(Start(n), q, algorithms, travels) && |q.workers| == n
    ensures Begun(q, algorithms, if twice then Answered(Some(Task(0, 0))) else Holding(0))
  {
    ReachesItself(Start(n), algorithms, travels);
    q := OneAccess(Start(n), Start(n), 0, algorithms, travels);
    if twice {
      q := OneAccess(Start(n), q, 0, algorithms, travels);
    }
    q := TakeOthers(Start(n), q, 1, q.workers[0], algorithms, travels);
  }

  /** One call resets the algorithm counter; the next one takes the first pair again. */
  lemma FirstPairAgain(n: nat, algorithms: nat, travels: nat) returns (q: Pool)
    requires algorithms >= 1 && travels >= 1 && n >= algorithms + 2
    ensures Reaches(Start(n), q, algorithms, travels) && |q.workers| == n && !NoPairTwice(q)
  {
    var a, b := algorithms, algorithms + 1;
    q := AllTaken(n, true, algorithms, travels);
    q := SetBack(Start(n), q, a, algorithms, travels);
    q := OneAccess(Start(n), q, b, algorithms, travels);
    q := OneAccess(Start(n), q, b, algorithms, travels);
    assert q.workers[0] == q.workers[b] == Answered(Some(Task(0, 0)));
  }

  /** While call 0 holds the first index another one resets the counter, takes that index too
      and moves on to the next travel. */
  lemma MoveOn(n: nat, algorithms: nat, travels: nat) returns (q: Pool)
    requires algorithms >= 1 && travels >= 1 && n >= algorithms + 1
    ensures Reaches(Start(n), q, algorithms, travels) && |q.workers| == n
    ensures q.travel == 1 && q.workers[0] == Holding(0) && q.workers[algorithms] == Holding(0)
    ensures forall i :: 0 <= i < n ==> q.workers[i] != Answered(Some(Task(0, 0)))
  {
    var a := algorithms;
    q := AllTaken(n, false, algorithms, travels);
    q := SetBack(Start(n), q, a, algorithms, travels);
    q := OneAccess(Start(n), q, a, algorithms, travels);
    q := OneAccess(Start(n), q, a, algorithms, travels);
  }

  /** A call that finds the algorithms exhausted sets their counter back. */
  lemma SetBack(p: Pool, q: Pool, i: nat, algorithms: nat, travels: nat) returns (r: Pool)
    requires Reaches(p, q, algorithms, travels) && |q.workers| == |p.workers| && i < |q.workers|
    requires q.workers[i].Asking? && q.algorithm == algorithms
    ensures Reaches(p, r, algorithms, travels) && r == Pool(0, q.travel, q.workers[i := Restarted])
  {
    r := OneAccess(p, q, i, algorithms, travels);
    assert r.workers == q.workers[i := Exhausted];
    r := OneAccess(p, r, i, algorithms, travels);
  }

  lemma SecondTravelTwice(n: nat, algorithms: nat, travels: nat) returns (q: Pool)
    requires algorithms >= 1 && travels >= 2 && n >= algorithms + 1
    ensures Reaches(Start(n), q, algorithms, travels) && |q.workers| == n && !NoPairTwice(q)
  {
    q := MoveOn(n, algorithms, travels);
    q := OneAccess(Start(n), q, 0, algorithms, travels);
    q := OneAccess(Start(n), q, algorithms, algorithms, travels);
    assert q.workers[0] == q.workers[algorithms] == Answered(Some(Task(0, 1)));
  }

  /** Calls get distinct pairs under every interleaving exactly when there is no travel, or there
      are no more calls than algorithms, or one call more and a single travel. */
  lemma PairsAreUniqueExactly(n: nat, algorithms: nat, travels: nat)
    requires algorithms >= 1
    ensures (forall steps :: Schedule(steps, n) ==> NoPairTwice(Accesses(Start(n), steps, algorithms, travels))) <==>
            travels == 0 || n <= algorithms || (n == algorithms + 1 && travels == 1)
  {
    if travels == 0 || n <= algorithms || (n == algorithms + 1 && travels == 1) {
      forall steps | Schedule(steps, n)
        ensures NoPairTwice(Accesses(Start(n), steps, algorithms, travels))
      {
        SafeSchedule(n, steps, algorithms, travels);
      }
    } else {
      var q;
      if n >= algorithms + 2 {
        q := FirstPairAgain(n, algorithms, travels);
      } else {
        q := SecondTravelTwice(n, algorithms, travels);
      }
      var steps :| Schedule(steps, n) && Accesses(Start(n), steps, algorithms, travels) == q;
    }
  }

  lemma SafeSchedule(n: nat, steps: seq<nat>, algorithms: nat, travels: nat)
    requires algorithms >= 1 && Schedule(steps, n)
    requires travels == 0 || n <= algorithms || (n == algorithms + 1 && travels == 1)
    ensures NoPairTwice(Accesses(Start(n), steps, algorithms, travels))
  {
    StartIsOrderly(n);
    if travels == 0 {
      NoTravelNoPair(n, steps, algorithms);
    } else if n <= algorithms {
      StaysOrderly(Start(n), steps, algorithms, travels);
      OrderlyIsUnique(Accesses(Start(n), steps, algorithms, travels));
    } else {
      OneTooMany(Start(n), steps, algorithms);
    }
  }

  // ----- pairs that are never run -----

  ghost predicate AllAnswered(p: Pool) {
    forall i :: 0 <= i < |p.workers| ==> p.workers[i].Answered?
  }

  ghost predicate Runs(p: Pool, x: Task) {
    exists i :: 0 <= i < |p.workers| && p.workers[i] == Answered(Some(x))
  }

  ghost predicate AllPairsRun(p: Pool, algorithms: nat, travels: nat) {
    forall a, t | 0 <= a < algorithms && 0 <= t < travels :: Runs(p, Task(a, t))
  }

  /** Call i goes on alone until it has its answer. */
  lemma FinishOne(p: Pool, q: Pool, i: nat, algorithms: nat, travels: nat) returns (r: Pool)
    requires Reaches(p, q, algorithms, travels) && |q.workers| == |p.workers| && i < |q.workers| && algorithms >= 1
    ensures Reaches(p, r, algorithms, travels) && |r.workers| == |q.workers| && r.workers[i].Answered?
    ensures forall j :: 0 <= j < |q.workers| && j != i ==> r.workers[j] == q.workers[j]
  {
    r := q;
    if r.workers[i].Asking? {
      r := OneAccess(p, r, i, algorithms, travels);
    }
    if r.workers[i].Restarted? {
      r := OneAccess(p, r, i, algorithms, travels);
    }
    if r.workers[i].Travelling? {
      r := OneAccess(p, r, i, algorithms, travels);
    }
    if r.workers[i].Exhausted? {
      r := FinishExhausted(p, r, i, algorithms, travels);
    }
    r := OneAccess(p, r, i, algorithms, travels);
  }

  lemma FinishExhausted(p: Pool, q: Pool, i: nat, algorithms: nat, travels: nat) returns (r: Pool)
    requires Reaches(p, q, algorithms, travels) && |q.workers| == |p.workers| && i < |q.workers| && algorithms >= 1
    requires q.workers[i].Exhausted?
    ensures Reaches(p, r, algorithms, travels) && |r.workers| == |q.workers| &&
            (r.workers[i].Holding? || r.workers[i].Answered?)
    ensures forall j :: 0 <= j < |q.workers| && j != i ==> r.workers[j] == q.workers[j]
  {
    r := OneAccess(p, q, i, algorithms, travels);
    r := OneAccess(p, r, i, algorithms, travels);
    r := OneAccess(p, r, i, algorithms, travels);
  }

  lemma {:induction false} FinishAll(p: Pool, q: Pool, k: nat, algorithms: nat, travels: nat) returns (r: Pool)
    requires Reaches(p, q, algorithms, travels) && |q.workers| == |p.workers| && k <= |q.workers| && algorithms >= 1
    requires forall i :: 0 <= i < k ==> q.workers[i].Answered?
    ensures Reaches(p, r, algorithms, travels) && |r.workers| == |p.workers| && AllAnswered(r)
    decreases |q.workers| - k
  {
    if k == |q.workers| {
      r := q;
    } else {
      r := FinishOne(p, q, k, algorithms, travels);
      r := FinishAll(p, r, k + 1, algorithms, travels);
    }
  }

  /** The first pair is not held by a call and can not be any more. */
  ghost predicate Lost(p: Pool) {
    p.travel >= 1 && forall i :: 0 <= i < |p.workers| ==> p.workers[i] != Answered(Some(Task(0, 0)))
  }

  lemma {:induction false} StaysLost(p: Pool, steps: seq<nat>, algorithms: nat, travels: nat)
    requires Schedule(steps, |p.workers|) && Lost(p)
    ensures Lost(Accesses(p, steps, algorithms, travels))
    decreases |steps|
  {
    if steps != [] {
      StaysLost(Access(p, steps[0], algorithms, travels), steps[1..], algorithms, travels);
    }
  }

  /** All calls can end with the first pair left out. */
  lemma FirstPairLost(n: nat, algorithms: nat, travels: nat) returns (r: Pool)
    requires algorithms >= 1 && travels >= 1 && n >= algorithms + 1
    ensures Reaches(Start(n), r, algorithms, travels) && AllAnswered(r) && !AllPairsRun(r, algorithms, travels)
  {
    var q := MoveOn(n, algorithms, travels);
    ReachesItself(q, algorithms, travels);
    r := FinishAll(q, q, 0, algorithms, travels);
    var steps :| Schedule(steps, |q.workers|) && Accesses(q, steps, algorithms, travels) == r;
    StaysLost(q, steps, algorithms, travels);
    assert !Runs(r, Task(0, 0));
    ReachesThen(Start(n), q, r, algorithms, travels);
  }

  lemma OrderlyRunsFirstTravel(p: Pool, x: Task)
    requires Orderly(p) && AllAnswered(p) && Runs(p, x)
    ensures x.travel == 0 && x.algorithm < |p.workers|
  {
    var i :| 0 <= i < |p.workers| && p.workers[i] == Answered(Some(x));
    assert !p.workers[i].Asking? && TookFirstTravel(p.workers[i]);
  }

  lemma OrderlyLeavesOut(p: Pool, algorithms: nat, travels: nat)
    requires Orderly(p) && AllAnswered(p) && travels >= 1 && (travels > 1 || |p.workers| < algorithms) &&
             algorithms >= 1
    ensures !AllPairsRun(p, algorithms, travels)
  {
    var x := if travels > 1 then Task(0, 1) else Task(|p.workers|, 0);
    if Runs(p, x) {
      OrderlyRunsFirstTravel(p, x);
    }
    assert !Runs(p, Task(x.algorithm, x.travel));
  }

  /** With no more calls than algorithms a pair is left out unless they are as many and there is
      one travel. */
  lemma FewCallsLeaveOut(n: nat, algorithms: nat, travels: nat) returns (r: Pool)
    requires algorithms >= 1 && travels >= 1 && n <= algorithms && !(travels == 1 && n == algorithms)
    ensures Reaches(Start(n), r, algorithms, travels) && AllAnswered(r) && !AllPairsRun(r, algorithms, travels)
  {
    ReachesItself(Start(n), algorithms, travels);
    r := FinishAll(Start(n), Start(n), 0, algorithms, travels);
    var steps :| Schedule(steps, n) && Accesses(Start(n), steps, algorithms, travels) == r;
    StartIsOrderly(n);
    StaysOrderly(Start(n), steps, algorithms, travels);
    OrderlyLeavesOut(r, algorithms, travels);
  }

  lemma JustEnoughCalls(steps: seq<nat>, algorithms: nat)
    requires Schedule(steps, algorithms) && AllAnswered(Accesses(Start(algorithms), steps, algorithms, 1))
    ensures AllPairsRun(Accesses(Start(algorithms), steps, algorithms, 1), algorithms, 1)
  {
    var p := Accesses(Start(algorithms), steps, algorithms, 1);
    StartIsOrderly(algorithms);
    StaysOrderly(Start(algorithms), steps, algorithms, 1);
    AskingCountZero(p.workers);
    forall a, t | 0 <= a < algorithms && 0 <= t < 1
      ensures Runs(p, Task(a, t))
    {
      assert Taken(p, a);
      var i :| 0 <= i < |p.workers| && IndexTaken(p.workers[i]) == Some(a);
      assert TookFirstTravel(p.workers[i]);
      assert p.workers[i] == Answered(Some(Task(a, t)));
    }
  }

  /** When calls that interleave have all ended, every pair is run, whatever their order was,
      exactly when there is no travel, or one travel and as many calls as algorithms. */
  lemma PairsAreCompleteExactly(n: nat, algorithms: nat, travels: nat)
    requires algorithms >= 1
    ensures (forall steps :: Schedule(steps, n) && AllAnswered(Accesses(Start(n), steps, algorithms, travels)) ==>
               AllPairsRun(Accesses(Start(n), steps, algorithms, travels), algorithms, travels)) <==>
            travels == 0 || (travels == 1 && n == algorithms)
  {
    if travels == 0 {
    } else if travels == 1 && n == algorithms {
      forall steps | Schedule(steps, n) && AllAnswered(Accesses(Start(n), steps, algorithms, travels))
        ensures AllPairsRun(Accesses(Start(n), steps, algorithms, travels), algorithms, travels)
      {
        JustEnoughCalls(steps, algorithms);
      }
    } else {
      var r;
      if n <= algorithms {
        r := FewCallsLeaveOut(n, algorithms, travels);
      } else {
        r := FirstPairLost(n, algorithms, travels);
      }
      var steps :| Schedule(steps, n) && Accesses(Start(n), steps, algorithms, travels) == r;
    }
  }
}
