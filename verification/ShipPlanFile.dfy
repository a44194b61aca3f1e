/** The ship plan file: its first line, and the lines that say how many floors a position has. */
module ShipPlanFile {
  import opened Cargo
  import opened ShipSpec
  import opened CraneText

  datatype PlanError =
    | SHIP_PLAN_ILLEGAL_NUM_FLOORS
    | SHIP_PLAN_XY_IDX
    | SHIP_PLAN_BAD_POS_FORMAT
    | SHIP_PLAN_BAD_FIRST_LINE_OR_READ_FAIL
    | SHIP_PLAN_DUPLICATE_XY

  predicate IsNumber(word: string) {
    word != "" && forall k :: 0 <= k < |word| ==> IsDigit(word[k])
  }

  lemma NumberIsNat(word: string)
    requires IsNumber(word)
    ensures Stoi(word) == Some(ValueOf(word)) && Stoi(word).value >= 0
  {
    assert IsDigit(word[0]);
    assert SkipSpaces(word) == word && DigitPrefix(word) == word;
  }

  // ----- one position line -----

  datatype Position = Position(x: int, y: int, floors: int)

  datatype Verdict = Taken(position: Position) | Ignored(error: PlanError)

  /** The checks of one position line, in the order of the branches. */
  function Judge(fields: seq<string>, length: int, width: int, numFloors: int): (v: Verdict)
    ensures v.Taken? ==>
              0 <= v.position.x < length && 0 <= v.position.y < width && 0 <= v.position.floors < numFloors
  {
    if |fields| != 3 then Ignored(SHIP_PLAN_BAD_POS_FORMAT)
    else if !IsNumber(fields[0]) || !IsNumber(fields[1]) then Ignored(SHIP_PLAN_BAD_POS_FORMAT)
    else if !IsNumber(fields[2]) then Ignored(SHIP_PLAN_ILLEGAL_NUM_FLOORS)
    else
      var x, y, floors := Stoi(fields[0]), Stoi(fields[1]), Stoi(fields[2]);
      if x.None? || y.None? || floors.None? then Ignored(SHIP_PLAN_BAD_POS_FORMAT)
      else if floors.value < 0 || x.value < 0 || y.value < 0 then Ignored(SHIP_PLAN_BAD_POS_FORMAT)
      else if floors.value >= numFloors then Ignored(SHIP_PLAN_ILLEGAL_NUM_FLOORS)
      else if x.value >= length || y.value >= width then Ignored(SHIP_PLAN_XY_IDX)
      else Taken(Position(x.value, y.value, floors.value))
  }

  predicate ThreeNumbers(fields: seq<string>) {
    |fields| == 3 && IsNumber(fields[0]) && IsNumber(fields[1]) && IsNumber(fields[2])
  }

  /** Which lines are taken, and which error each of the others raises: the shape first, then the
      number of floors, then the position. */
  lemma JudgeExactly(fields: seq<string>, length: int, width: int, numFloors: int)
    ensures var v := Judge(fields, length, width, numFloors);
            var named := |fields| == 3 && IsNumber(fields[0]) && IsNumber(fields[1]);
            var fits := ThreeNumbers(fields) && ValueOf(fields[2]) < numFloors;
            && (v == Ignored(SHIP_PLAN_BAD_POS_FORMAT) <==> !named)
            && (v == Ignored(SHIP_PLAN_ILLEGAL_NUM_FLOORS) <==> named && !fits)
            && (v == Ignored(SHIP_PLAN_XY_IDX) <==>
                fits && (ValueOf(fields[0]) >= length || ValueOf(fields[1]) >= width))
            && (v.Taken? <==> fits && ValueOf(fields[0]) < length && ValueOf(fields[1]) < width)
            && (v.Taken? ==> v.position == Position(ValueOf(fields[0]), ValueOf(fields[1]), ValueOf(fields[2])))
  {
    if ThreeNumbers(fields) {
      NumberIsNat(fields[0]);
      NumberIsNat(fields[1]);
      NumberIsNat(fields[2]);
    }
  }

  /** The size of the ship, as the first line gives it. */
  datatype Size = Size(length: int, width: int, numFloors: int)

  function VerdictOn(fields: seq<string>, size: Size): Verdict {
    Judge(fields, size.length, size.width, size.numFloors)
  }

  /** The verdicts on the lines, in their order. */
  function Verdicts(lines: seq<seq<string>>, size: Size): (vs: seq<Verdict>)
    ensures |vs| == |lines| && forall k :: 0 <= k < |lines| ==> vs[k] == VerdictOn(lines[k], size)
  {
    seq(|lines|, k requires 0 <= k < |lines| => VerdictOn(lines[k], size))
  }

  /** Two accepted lines for one cell disagree. */
  ghost predicate Disagree(vs: seq<Verdict>) {
    exists p, q :: Taken(p) in vs && Taken(q) in vs && p.x == q.x && p.y == q.y && p.floors != q.floors
  }

  /** What is known of a cell after one more verdict. */
  function KnownAfter(known: Option<int>, v: Verdict, x: int, y: int): Option<int> {
    if known.None? && v.Taken? && v.position.x == x && v.position.y == y then Some(v.position.floors) else known
  }

  /** What the first accepted line for a cell says. */
  function FirstSaid(vs: seq<Verdict>, x: int, y: int): (f: Option<int>)
    ensures f.Some? ==> Taken(Position(x, y, f.value)) in vs
    ensures f.None? ==> forall p :: Taken(p) in vs ==> !(p.x == x && p.y == y)
  {
    if vs == [] then None
    else KnownAfter(FirstSaid(vs[..|vs| - 1], x, y), vs[|vs| - 1], x, y)
  }

  predicate IsForCell(v: Verdict, x: int, y: int) {
    v.Taken? && v.position.x == x && v.position.y == y
  }

  /** The lowest height at which a cell of the ship takes containers. */
  function FloorStart(vs: seq<Verdict>, numFloors: int, x: int, y: int): int {
    match FirstSaid(vs, x, y)
    case None => 0
    case Some(floors) => numFloors - floors
  }

  /** Which accepted line a cell takes its floors from. */
  lemma {:induction false} FirstSaidIsFirst(vs: seq<Verdict>, x: int, y: int) returns (k: nat)
    ensures k <= |vs| && forall j :: 0 <= j < k ==> !IsForCell(vs[j], x, y)
    ensures if k < |vs| then IsForCell(vs[k], x, y) && FirstSaid(vs, x, y) == Some(vs[k].position.floors)
            else FirstSaid(vs, x, y) == None
    ensures forall n :: FloorStart(vs, n, x, y) == if k < |vs| then n - vs[k].position.floors else 0
    decreases |vs|
  {
    if vs == [] {
      k := 0;
    } else {
      k := FirstSaidIsFirst(vs[..|vs| - 1], x, y);
      if k == |vs| - 1 && !IsForCell(vs[k], x, y) {
        k := k + 1;
      }
    }
  }

  lemma FloorStartFits(lines: seq<seq<string>>, size: Size, x: int, y: int)
    requires size.numFloors > 0
    ensures 0 <= FloorStart(Verdicts(lines, size), size.numFloors, x, y) <= size.numFloors
  {
    var vs := Verdicts(lines, size);
    var f := FirstSaid(vs, x, y);
    if f.Some? {
      var k :| 0 <= k < |vs| && vs[k] == Taken(Position(x, y, f.value));
      assert VerdictOn(lines[k], size).Taken?;
    }
  }

  // ----- errors -----

  /** What a verdict raises when `known` is known of its cell. */
  function Raised(v: Verdict, known: Option<int>): set<PlanError> {
    match v
    case Ignored(error) => {error}
    case Taken(p) =>
      match known
      case None => {}
      case Some(floors) => if floors != p.floors then {SHIP_PLAN_DUPLICATE_XY} else {SHIP_PLAN_BAD_POS_FORMAT}
  }

  function ErrorOf(front: seq<Verdict>, v: Verdict): set<PlanError> {
    Raised(v, if v.Taken? then FirstSaid(front, v.position.x, v.position.y) else None)
  }

  function ErrorsOf(vs: seq<Verdict>): set<PlanError> {
    if vs == [] then {} else ErrorsOf(vs[..|vs| - 1]) + ErrorOf(vs[..|vs| - 1], vs[|vs| - 1])
  }

  /** The errors of a line itself. None of them is fatal. */
  predicate OfOneLine(v: Verdict) {
    v.Ignored? ==> v.error in {SHIP_PLAN_ILLEGAL_NUM_FLOORS, SHIP_PLAN_XY_IDX, SHIP_PLAN_BAD_POS_FORMAT}
  }

  /** The line repeats the floors that the first line for its cell gave. */
  ghost predicate Repeats(vs: seq<Verdict>, n: nat)
    requires n < |vs|
  {
    vs[n].Taken? && FirstSaid(vs[..n], vs[n].position.x, vs[n].position.y) == Some(vs[n].position.floors)
  }

  /** When each of the errors that are not fatal is raised. */
  lemma {:induction false} ErrorsExactly(vs: seq<Verdict>, e: PlanError)
    requires e != SHIP_PLAN_DUPLICATE_XY
    ensures e in ErrorsOf(vs) <==>
            exists n :: 0 <= n < |vs| && (vs[n] == Ignored(e) || (e == SHIP_PLAN_BAD_POS_FORMAT && Repeats(vs, n)))
    decreases |vs|
  {
    if vs != [] {
      var front, last := vs[..|vs| - 1], |vs| - 1;
      ErrorsExactly(front, e);
      forall n | 0 <= n < last
        ensures Repeats(vs, n) <==> Repeats(front, n)
      {
        assert vs[..n] == front[..n];
      }
      assert e in ErrorOf(front, vs[last]) <==>
             vs[last] == Ignored(e) || (e == SHIP_PLAN_BAD_POS_FORMAT && Repeats(vs, last));
    }
  }

  lemma DisagreeMore(front: seq<Verdict>, v: Verdict)
    requires OfOneLine(v)
    ensures Disagree(front + [v]) <==> Disagree(front) || SHIP_PLAN_DUPLICATE_XY in ErrorOf(front, v)
  {
    var vs := front + [v];
    assert forall p :: Taken(p) in vs <==> Taken(p) in front || v == Taken(p);
    if Disagree(front) {
      var p, q :| Taken(p) in front && Taken(q) in front && p.x == q.x && p.y == q.y && p.floors != q.floors;
      assert Taken(p) in vs && Taken(q) in vs;
    }
    if v.Taken? {
      var p := v.position;
      var f := FirstSaid(front, p.x, p.y);
      if f.Some? {
        assert v == Taken(p) && Taken(Position(p.x, p.y, f.value)) in vs;
      }
    }
  }

  /** The fatal duplicate error is raised exactly when two accepted lines for one cell disagree,
      and the error about the first line is never raised here. */
  lemma {:induction false} DuplicateIsDisagreement(vs: seq<Verdict>)
    requires forall v :: v in vs ==> OfOneLine(v)
    ensures SHIP_PLAN_DUPLICATE_XY in ErrorsOf(vs) <==> Disagree(vs)
    ensures SHIP_PLAN_BAD_FIRST_LINE_OR_READ_FAIL !in ErrorsOf(vs)
    decreases |vs|
  {
    if vs != [] {
      var front, v := vs[..|vs| - 1], vs[|vs| - 1];
      assert vs == front + [v];
      DuplicateIsDisagreement(front);
      DisagreeMore(front, v);
    }
  }

  lemma VerdictsAreOfOneLine(lines: seq<seq<string>>, size: Size)
    ensures forall v :: v in Verdicts(lines, size) ==> OfOneLine(v)
  {
    forall v | v in Verdicts(lines, size)
      ensures OfOneLine(v)
    {
      var k :| 0 <= k < |lines| && v == VerdictOn(lines[k], size);
    }
  }

  // ----- lines in any order -----

  /** The verdict on duplicates, and the floors when there is none, depend only on what is
      said, not on the order of the lines or on repeats. */
  lemma OrderDoesNotMatter(a: seq<Verdict>, b: seq<Verdict>, numFloors: int, x: int, y: int)
    requires forall p :: Taken(p) in a <==> Taken(p) in b
    ensures Disagree(a) <==> Disagree(b)
    ensures !Disagree(a) ==> FloorStart(a, numFloors, x, y) == FloorStart(b, numFloors, x, y)
  {
    var f, g := FirstSaid(a, x, y), FirstSaid(b, x, y);
    if f.Some? {
      assert Taken(Position(x, y, f.value)) in b;
    }
    if g.Some? {
      assert Taken(Position(x, y, g.value)) in a;
    }
  }

  lemma SaidAlike(a: seq<seq<string>>, b: seq<seq<string>>, size: Size, p: Position)
    requires multiset(a) == multiset(b) && Taken(p) in Verdicts(a, size)
    ensures Taken(p) in Verdicts(b, size)
  {
    var k :| 0 <= k < |a| && VerdictOn(a[k], size) == Taken(p);
    assert a[k] in multiset(a);
    assert a[k] in b;
    var j :| 0 <= j < |b| && b[j] == a[k];
    assert Verdicts(b, size)[j] == Taken(p);
  }

  /** Permuted lines give the same ship plan, or are both fatal. */
  lemma PermutedLines(a: seq<seq<string>>, b: seq<seq<string>>, size: Size, x: int, y: int)
    requires multiset(a) == multiset(b)
    ensures Disagree(Verdicts(a, size)) <==> Disagree(Verdicts(b, size))
    ensures !Disagree(Verdicts(a, size)) ==>
              FloorStart(Verdicts(a, size), size.numFloors, x, y) == FloorStart(Verdicts(b, size), size.numFloors, x, y)
  {
    forall p
      ensures Taken(p) in Verdicts(a, size) <==> Taken(p) in Verdicts(b, size)
    {
      if Taken(p) in Verdicts(a, size) {
        SaidAlike(a, b, size, p);
      }
      if Taken(p) in Verdicts(b, size) {
        SaidAlike(b, a, size, p);
      }
    }
    OrderDoesNotMatter(Verdicts(a, size), Verdicts(b, size), size.numFloors, x, y);
  }

  // ----- the loops -----

  method CheckIsNumber(word: string) returns (b: bool)
    ensures b == IsNumber(word)
  {
    if word == "" {
      return false;
    }
    for index := 0 to |word|
      invariant forall k :: 0 <= k < index ==> IsDigit(word[k])
    {
      if word[index] < '0' || word[index] > '9' {
        return false;
      }
    }
    return true;
  }

  /** What the loop has built after some lines: the map of first floors, and the grid. */
  ghost predicate Built(vs: seq<Verdict>, size: Size, seen: map<(int, int), int>, floorStart: array2<int>)
    reads floorStart
  {
    && floorStart.Length0 == size.length && floorStart.Length1 == size.width
    && (forall x, y :: FirstSaid(vs, x, y) == if (x, y) in seen then Some(seen[(x, y)]) else None)
    && (forall x, y :: 0 <= x < size.length && 0 <= y < size.width ==>
        floorStart[x, y] == FloorStart(vs, size.numFloors, x, y))
  }

  ghost predicate OneMore(front: seq<Verdict>, v: Verdict, vs: seq<Verdict>) {
    forall x, y :: FirstSaid(vs, x, y) == KnownAfter(FirstSaid(front, x, y), v, x, y)
  }

  lemma OneMoreLine(vs: seq<Verdict>, i: nat)
    requires 1 <= i <= |vs|
    ensures OneMore(vs[..i - 1], vs[i - 1], vs[..i])
    ensures ErrorsOf(vs[..i]) == ErrorsOf(vs[..i - 1]) + ErrorOf(vs[..i - 1], vs[i - 1])
  {
    assert vs[..i][..i - 1] == vs[..i - 1];
  }

  /** What one verdict does to the map and the grid. */
  method TakeVerdict(v: Verdict, size: Size, seen: map<(int, int), int>, floorStart: array2<int>,
                     ghost front: seq<Verdict>, ghost vs: seq<Verdict>)
      returns (seen': map<(int, int), int>, errors: set<PlanError>)
    requires Built(front, size, seen, floorStart) && OneMore(front, v, vs)
    requires v.Taken? ==> 0 <= v.position.x < size.length && 0 <= v.position.y < size.width
    modifies floorStart
    ensures Built(vs, size, seen', floorStart)
    ensures errors == ErrorOf(front, v)
  {
    seen', errors := seen, {};
    match v {
      case Ignored(error) =>
        errors := {error};
      case Taken(p) =>
        var pos := (p.x, p.y);
        if pos in seen {
          if seen[pos] != p.floors {
            errors := {SHIP_PLAN_DUPLICATE_XY};
          } else {
            errors := {SHIP_PLAN_BAD_POS_FORMAT};
          }
        } else {
          floorStart[p.x, p.y] := size.numFloors - p.floors;
          seen' := seen[pos := p.floors];
        }
    }
  }

  /** The branches that ignore a line. */
  method JudgeLine(line: seq<string>, size: Size) returns (v: Verdict)
    ensures v == VerdictOn(line, size)
  {
    if |line| != 3 {
      return Ignored(SHIP_PLAN_BAD_POS_FORMAT);
    }
    var isNumber := CheckIsNumber(line[0]);
    if !isNumber {
      return Ignored(SHIP_PLAN_BAD_POS_FORMAT);
    }
    isNumber := CheckIsNumber(line[1]);
    if !isNumber {
      return Ignored(SHIP_PLAN_BAD_POS_FORMAT);
    }
    isNumber := CheckIsNumber(line[2]);
    if !isNumber {
      return Ignored(SHIP_PLAN_ILLEGAL_NUM_FLOORS);
    }
    v := JudgeNumbers(line, size);
  }

  /** The branches for a line of three numbers. */
  method JudgeNumbers(line: seq<string>, size: Size) returns (v: Verdict)
    requires ThreeNumbers(line)
    ensures v == VerdictOn(line, size)
  {
    var x, y, floors := Stoi(line[0]), Stoi(line[1]), Stoi(line[2]);
    if x.None? || y.None? || floors.None? {
      return Ignored(SHIP_PLAN_BAD_POS_FORMAT);
    }
    if floors.value < 0 || x.value < 0 || y.value < 0 {
      return Ignored(SHIP_PLAN_BAD_POS_FORMAT);
    }
    if floors.value >= size.numFloors {
      return Ignored(SHIP_PLAN_ILLEGAL_NUM_FLOORS);
    }
    if x.value >= size.length || y.value >= size.width {
      return Ignored(SHIP_PLAN_XY_IDX);
    }
    return Taken(Position(x.value, y.value, floors.value));
  }

  /** The loop over the lines after the first one; it fills a grid of zeros in place. */
  method CheckPosDescShipPlanFile(dataList: seq<seq<string>>, size: Size, floorStart: array2<int>)
      returns (errors: set<PlanError>)
    requires dataList != [] && floorStart.Length0 == size.length && floorStart.Length1 == size.width
    requires forall x, y :: 0 <= x < size.length && 0 <= y < size.width ==> floorStart[x, y] == 0
    modifies floorStart
    ensures var vs := Verdicts(dataList[1..], size);
            && errors == ErrorsOf(vs)
            && forall x, y :: 0 <= x < size.length && 0 <= y < size.width ==>
               floorStart[x, y] == FloorStart(vs, size.numFloors, x, y)
  {
    var seen: map<(int, int), int> := map[];
    errors := {};
    ghost var vs := Verdicts(dataList[1..], size);
    for i := 1 to |dataList|
      invariant Built(vs[..i - 1], size, seen, floorStart)
      invariant errors == ErrorsOf(vs[..i - 1])
    {
      var v := JudgeLine(dataList[i], size);
      OneMoreLine(vs, i);
      var more;
      seen, more := TakeVerdict(v, size, seen, floorStart, vs[..i - 1], vs[..i]);
      errors := errors + more;
    }
    assert vs[..|vs|] == vs;
  }

  // ----- the whole file -----

  /** The size that a first line gives; none if the line is not good. */
  function SizeOf(dataList: seq<seq<string>>): Option<Size> {
    if dataList == [] || |dataList[0]| != 3 then None
    else if !IsNumber(dataList[0][0]) || !IsNumber(dataList[0][1]) || !IsNumber(dataList[0][2]) then None
    else
      var floors, length, width := Stoi(dataList[0][0]), Stoi(dataList[0][1]), Stoi(dataList[0][2]);
      if floors.None? || length.None? || width.None? then None
      else if floors.value <= 0 || length.value <= 0 || width.value <= 0 then None
      else Some(Size(length.value, width.value, floors.value))
  }

  /** Which first lines are good, and what they say. */
  lemma SizeExactly(dataList: seq<seq<string>>)
    ensures SizeOf(dataList).Some? <==>
            && dataList != [] && ThreeNumbers(dataList[0])
            && ValueOf(dataList[0][0]) > 0 && ValueOf(dataList[0][1]) > 0 && ValueOf(dataList[0][2]) > 0
    ensures SizeOf(dataList).Some? ==>
              SizeOf(dataList).value ==
              Size(ValueOf(dataList[0][1]), ValueOf(dataList[0][2]), ValueOf(dataList[0][0]))
  {
    if dataList != [] && ThreeNumbers(dataList[0]) {
      NumberIsNat(dataList[0][0]);
      NumberIsNat(dataList[0][1]);
      NumberIsNat(dataList[0][2]);
    }
  }

  method ToRows(grid: array2<int>) returns (rows: seq<seq<int>>)
    ensures |rows| == grid.Length0
    ensures forall x :: 0 <= x < grid.Length0 ==> |rows[x]| == grid.Length1
    ensures forall x, y :: 0 <= x < grid.Length0 && 0 <= y < grid.Length1 ==> rows[x][y] == grid[x, y]
  {
    rows := [];
    for x := 0 to grid.Length0
      invariant |rows| == x && forall i :: 0 <= i < x ==> |rows[i]| == grid.Length1
      invariant forall i, j :: 0 <= i < x && 0 <= j < grid.Length1 ==> rows[i][j] == grid[i, j]
    {
      var row: seq<int> := [];
      for y := 0 to grid.Length1
        invariant |row| == y && forall j :: 0 <= j < y ==> row[j] == grid[x, j]
      {
        row := row + [grid[x, y]];
      }
      rows := rows + [row];
    }
  }

  /** The first line, with its error path. */
  method ReadSize(dataList: seq<seq<string>>) returns (size: Option<Size>)
    ensures size == SizeOf(dataList)
  {
    if dataList == [] || |dataList[0]| != 3 {
      return None;
    }
    var a := CheckIsNumber(dataList[0][0]);
    var b := CheckIsNumber(dataList[0][1]);
    var c := CheckIsNumber(dataList[0][2]);
    if !a || !b || !c {
      return None;
    }
    var floors, length, width := Stoi(dataList[0][0]), Stoi(dataList[0][1]), Stoi(dataList[0][2]);
    if floors.None? || length.None? || width.None? {
      return None;
    }
    if floors.value <= 0 || length.value <= 0 || width.value <= 0 {
      return None;
    }
    return Some(Size(length.value, width.value, floors.value));
  }

  /** The ship plan of a file. Whatever the position lines say, the plan meets the ship's
      invariant; it is fatal exactly when the first line is not good or lines disagree. */
  method ReadShipPlan(dataList: seq<seq<string>>) returns (plan: Option<ShipPlan>, errors: set<PlanError>)
    requires SizeOf(dataList).Some? ==> SizeOf(dataList).value.numFloors <= INT_MAX
    ensures plan.None? <==> SizeOf(dataList).None?
    ensures SHIP_PLAN_BAD_FIRST_LINE_OR_READ_FAIL in errors <==> SizeOf(dataList).None?
    ensures SizeOf(dataList).Some? ==>
              var size := SizeOf(dataList).value;
              var vs := Verdicts(dataList[1..], size);
              && ValidPlan(plan.value)
              && plan.value.length == size.length && plan.value.width == size.width &&
                 plan.value.height == size.numFloors
              && (forall x, y :: InGrid(plan.value, x, y) ==>
                  plan.value.floorStart[x][y] == FloorStart(vs, size.numFloors, x, y))
              && errors == ErrorsOf(vs)
              && (SHIP_PLAN_DUPLICATE_XY in errors <==> Disagree(vs))
  {
    var read := ReadSize(dataList);
    if read.None? {
      return None, {SHIP_PLAN_BAD_FIRST_LINE_OR_READ_FAIL};
    }
    var size := read.value;
    var floorStart := new int[size.length, size.width]((x, y) => 0);
    errors := CheckPosDescShipPlanFile(dataList, size, floorStart);
    VerdictsAreOfOneLine(dataList[1..], size);
    DuplicateIsDisagreement(Verdicts(dataList[1..], size));
    var rows := ToRows(floorStart);
    forall x, y | 0 <= x < size.length && 0 <= y < size.width
      ensures 0 <= rows[x][y] <= size.numFloors
    {
      FloorStartFits(dataList[1..], size, x, y);
    }
    plan := Some(ShipPlan(size.width, size.length, size.numFloors, rows));
  }
}
