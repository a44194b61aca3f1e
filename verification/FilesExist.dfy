/** Whatever cargo is asked for, there are files that a travel reads it from: for every route and
    every choice of the stops that have a cargo file there is a folder. So what is said of voyages is
    said of travels. */
module FilesExist {
  import opened Cargo
  import opened ShipSpec
  import opened PlannerSpec
  import opened RouteFile
  import opened Voyage
  import opened CraneText
  import opened ShipPlanFile
  import opened FileNames
  import opened ContainerId
  import opened PortFiles
  import opened Travel

  // ----- rows of fields as a text -----

  /** A row that comes back from its line. */
  predicate WritableRow(row: seq<string>) {
    row != [] && PrintableId(row[0]) && row[0][0] != '#' && forall f :: f in row ==> PrintableId(f)
  }

  function LineFor(row: seq<string>): string {
    if row == [] then "" else Join(row)
  }

  function LinesFor(rows: seq<seq<string>>): seq<string> {
    if rows == [] then [] else [LineFor(rows[0])] + LinesFor(rows[1..])
  }

  lemma {:induction false} JoinHasNo(fields: seq<string>, ch: char)
    requires fields != [] && ch != ',' && ch != ' ' && forall f :: f in fields ==> ch !in f
    ensures ch !in Join(fields)
    decreases |fields|
  {
    if |fields| > 1 {
      JoinHasNo(fields[1..], ch);
    }
  }

  lemma RowReadsBack(row: seq<string>)
    requires WritableRow(row)
    ensures NL !in LineFor(row) && KeptLine(LineFor(row)) == [row]
  {
    JoinHasNo(row, NL);
    JoinHasNo(row, CR);
    SplitJoin(row);
    WithoutCRSame(Join(row));
    assert row[0] in row && Join(row)[0] == row[0][0];
  }

  lemma {:induction false} RowsReadBack(rows: seq<seq<string>>)
    requires forall row :: row in rows ==> WritableRow(row)
    ensures ParseLines(LinesFor(rows)) == rows && forall l :: l in LinesFor(rows) ==> NL !in l
  {
    if rows != [] {
      RowReadsBack(rows[0]);
      RowsReadBack(rows[1..]);
      assert LinesFor(rows)[1..] == LinesFor(rows[1..]);
      assert rows == [rows[0]] + rows[1..];
    }
  }

  function TextFor(rows: seq<seq<string>>): string {
    TextOf(LinesFor(rows))
  }

  /** Whatever rows of fields are written, they are read. */
  lemma TextReadsBack(rows: seq<seq<string>>)
    requires forall row :: row in rows ==> WritableRow(row)
    ensures DataOf(TextFor(rows)) == rows
  {
    RowsReadBack(rows);
    LinesUndoText(LinesFor(rows));
  }

  lemma NumberIsWritable(n: nat)
    ensures PrintableId(ToString(n)) && ToString(n)[0] != '#'
    ensures IsNumber(ToString(n)) && Stoi(ToString(n)) == Some(n)
  {
    NumberIsClean(n);
    NumberIsPlain(n);
    StoiUndoesToString(n);
    assert IsDigit(ToString(n)[0]);
  }

  // ----- cargo -----

  /** A container that a line of a cargo file can describe. */
  predicate Fileable(x: Container) {
    |x.id| == ISO_ID_SIZE && PrintableId(x.id) && x.id[0] != '#' && PrintableId(x.dest) && x.weight >= 0
  }

  function FieldsFor(x: Container): seq<string> {
    [x.id, ToString(x.weight), x.dest]
  }

  function CargoRows(cargo: seq<Container>): (rows: seq<seq<string>>)
    ensures |rows| == |cargo| && forall k :: 0 <= k < |rows| ==> rows[k] == FieldsFor(cargo[k])
  {
    seq(|cargo|, k requires 0 <= k < |cargo| => FieldsFor(cargo[k]))
  }

  lemma ContainerReadsBack(x: Container, verifyId: string -> bool)
    requires Fileable(x)
    ensures WritableRow(FieldsFor(x)) && ReadEntry(FieldsFor(x), verifyId).container == Some(x)
  {
    NumberIsWritable(x.weight);
  }

  lemma {:induction false} CargoRowsReadBack(cargo: seq<Container>, verifyId: string -> bool)
    requires forall x :: x in cargo ==> Fileable(x)
    ensures CargoOf(CargoRows(cargo), verifyId) == cargo
  {
    if cargo != [] {
      var front, x := cargo[..|cargo| - 1], cargo[|cargo| - 1];
      assert cargo == front + [x];
      CargoRowsReadBack(front, verifyId);
      ContainerReadsBack(x, verifyId);
      CargoNext(CargoRows(front), FieldsFor(x), verifyId);
      assert CargoRows(cargo) == CargoRows(front) + [FieldsFor(x)];
    }
  }

  function CargoText(cargo: seq<Container>): string {
    TextFor(CargoRows(cargo))
  }

  /** Reading back the file of any such cargo gives the cargo. */
  lemma CargoReadsBack(cargo: seq<Container>, verifyId: string -> bool)
    requires forall x :: x in cargo ==> Fileable(x)
    ensures CargoOf(DataOf(CargoText(cargo)), verifyId) == cargo
  {
    forall row | row in CargoRows(cargo)
      ensures WritableRow(row)
    {
      var k :| 0 <= k < |cargo| && row == FieldsFor(cargo[k]);
      ContainerReadsBack(cargo[k], verifyId);
    }
    TextReadsBack(CargoRows(cargo));
    CargoRowsReadBack(cargo, verifyId);
  }

  // ----- the names of the cargo files -----

  function ShortName(code: string, visit: nat): string {
    code + ['_'] + ToString(visit)
  }

  function NameAt(route: seq<string>, k: nat): string
    requires k < |route|
  {
    ShortName(route[k], VisitNumber(route, k)) + ['.'] + CARGO_DATA
  }

  predicate IsPlainCode(code: string) {
    '.' !in code && '/' !in code && '_' !in code
  }

  lemma NumberHasNo(n: nat, ch: char)
    requires !IsDigit(ch)
    ensures ch !in ToString(n)
  {
  }

  lemma NameIsNamed(code: string, visit: nat)
    requires IsPlainCode(code)
    ensures var name := ShortName(code, visit) + ['.'] + CARGO_DATA;
            '/' !in name && NamedFor(name, code, visit)
  {
    NumberHasNo(visit, '.');
    NumberHasNo(visit, '/');
    NumberHasNo(visit, '_');
    NumberIsWritable(visit);
    DotInType();
    BeforeAdded(ShortName(code, visit), '.', CARGO_DATA);
    BeforeAdded(code, '_', ToString(visit));
  }

  lemma DotInType()
    ensures '.' !in CARGO_DATA && '/' !in CARGO_DATA
  {
  }

  /** A name belongs to one stop only. */
  lemma NamesDiffer(route: seq<string>, j: nat, k: nat)
    requires j < |route| && k < |route| && route[j] == route[k] && VisitNumber(route, j) == VisitNumber(route, k)
    ensures j == k
  {
    if j < k {
      LaterVisit(route, j, k);
    } else if k < j {
      LaterVisit(route, k, j);
    }
  }

  lemma LaterVisit(route: seq<string>, j: nat, k: nat)
    requires j < k < |route| && route[j] == route[k]
    ensures VisitNumber(route, j) < VisitNumber(route, k)
  {
    VisitNumberNext(route, k);
    OccursPart(route[..k], j + 1, route[j]);
    assert route[..k][..j + 1] == route[..j + 1];
  }

  // ----- the folder -----

  predicate PlainCodes(route: seq<string>) {
    forall k :: 0 <= k < |route| ==> IsPlainCode(route[k])
  }

  /** The name of stop k's file, and that no other stop's file has it. */
  lemma NameOfStop(route: seq<string>, k: nat)
    requires k < |route| && PlainCodes(route)
    ensures '/' !in NameAt(route, k) && NamedFor(NameAt(route, k), route[k], VisitNumber(route, k))
    ensures forall j: nat :: j < |route| && NamedFor(NameAt(route, k), route[j], VisitNumber(route, j)) ==> j == k
  {
    NameIsNamed(route[k], VisitNumber(route, k));
    forall j: nat | j < |route| && NamedFor(NameAt(route, k), route[j], VisitNumber(route, j))
      ensures j == k
    {
      NamesDiffer(route, j, k);
    }
  }

  /** The names of the files of the stops before n that have one. */
  function NamesUpTo(route: seq<string>, present: seq<bool>, n: nat): seq<string>
    requires n <= |route| == |present|
  {
    if n == 0 then [] else NamesUpTo(route, present, n - 1) + (if present[n - 1] then [NameAt(route, n - 1)] else [])
  }

  ghost predicate IsNameBefore(route: seq<string>, present: seq<bool>, n: nat, name: string)
    requires n <= |route| == |present|
  {
    exists k: nat :: k < n && present[k] && name == NameAt(route, k)
  }

  lemma {:induction false} NamesAre(route: seq<string>, present: seq<bool>, n: nat, name: string)
    requires n <= |route| == |present|
    ensures name in NamesUpTo(route, present, n) <==> IsNameBefore(route, present, n, name)
  {
    if n > 0 {
      NamesAre(route, present, n - 1, name);
      assert IsNameBefore(route, present, n, name) <==>
             IsNameBefore(route, present, n - 1, name) || (present[n - 1] && name == NameAt(route, n - 1));
    }
  }

  /** The texts of the first n stops, by the paths of their files. */
  function TextsUpTo(paths: seq<string>, cargos: seq<seq<Container>>, n: nat): map<string, string>
    requires n <= |paths| == |cargos|
  {
    if n == 0 then map[] else TextsUpTo(paths, cargos, n - 1)[paths[n - 1] := CargoText(cargos[n - 1])]
  }

  lemma {:induction false} TextsAre(paths: seq<string>, cargos: seq<seq<Container>>, n: nat, k: nat)
    requires k < n <= |paths| == |cargos| && forall i, j :: 0 <= i < j < |paths| ==> paths[i] != paths[j]
    ensures paths[k] in TextsUpTo(paths, cargos, n) && TextsUpTo(paths, cargos, n)[paths[k]] == CargoText(cargos[k])
  {
    if k < n - 1 {
      TextsAre(paths, cargos, n - 1, k);
    }
  }

  function PathsFor(path: string, route: seq<string>): (paths: seq<string>)
    ensures |paths| == |route| && forall k :: 0 <= k < |paths| ==> paths[k] == PathOf(path, NameAt(route, k))
  {
    seq(|route|, k requires 0 <= k < |route| => PathOf(path, NameAt(route, k)))
  }

  lemma PathsDiffer(path: string, route: seq<string>, j: nat, k: nat)
    requires j < k < |route| && PlainCodes(route)
    ensures PathOf(path, NameAt(route, j)) != PathOf(path, NameAt(route, k))
  {
    if PathOf(path, NameAt(route, j)) == PathOf(path, NameAt(route, k)) {
      SameEnd(path + "/", NameAt(route, j), NameAt(route, k));
      NameOfStop(route, j);
      NameOfStop(route, k);
    }
  }

  lemma TextAt(path: string, route: seq<string>, cargos: seq<seq<Container>>, k: nat)
    requires k < |route| == |cargos| && PlainCodes(route)
    ensures var texts, p := TextsUpTo(PathsFor(path, route), cargos, |route|), PathOf(path, NameAt(route, k));
            p in texts && texts[p] == CargoText(cargos[k])
  {
    var paths := PathsFor(path, route);
    forall i, j | 0 <= i < j < |paths|
      ensures paths[i] != paths[j]
    {
      PathsDiffer(path, route, i, j);
    }
    TextsAre(paths, cargos, |route|, k);
    assert paths[k] == PathOf(path, NameAt(route, k));
  }

  function FolderFor(path: string, route: seq<string>, present: seq<bool>, cargos: seq<seq<Container>>): Folder
    requires |present| == |cargos| == |route|
  {
    Folder(path, NamesUpTo(route, present, |route|), TextsUpTo(PathsFor(path, route), cargos, |route|))
  }

  lemma NameInFolderFor(path: string, route: seq<string>, present: seq<bool>, cargos: seq<seq<Container>>, name: string)
      returns (k: nat)
    requires |present| == |cargos| == |route| && PlainCodes(route) &&
             name in FolderFor(path, route, present, cargos).names
    ensures k < |route| && present[k] && name == NameAt(route, k) && '/' !in name
    ensures PathOf(path, name) in FolderFor(path, route, present, cargos).texts
  {
    NamesAre(route, present, |route|, name);
    k :| k < |route| && present[k] && name == NameAt(route, k);
    NameOfStop(route, k);
    TextAt(path, route, cargos, k);
  }

  lemma FolderIsListed(path: string, route: seq<string>, present: seq<bool>, cargos: seq<seq<Container>>)
    requires |present| == |cargos| == |route| && PlainCodes(route)
    ensures Listed(FolderFor(path, route, present, cargos))
  {
    forall name | name in FolderFor(path, route, present, cargos).names
      ensures '/' !in name && PathOf(path, name) in FolderFor(path, route, present, cargos).texts
    {
      var k := NameInFolderFor(path, route, present, cargos, name);
    }
  }

  lemma HasFileIfPresent(path: string, route: seq<string>, present: seq<bool>, cargos: seq<seq<Container>>, k: nat)
    requires |present| == |cargos| == |route| && PlainCodes(route) && k < |route|
    ensures HasFile(route, FolderFor(path, route, present, cargos).names, k) <==> present[k]
  {
    var names := FolderFor(path, route, present, cargos).names;
    NameOfStop(route, k);
    if present[k] {
      NamesAre(route, present, |route|, NameAt(route, k));
      assert IsNameBefore(route, present, |route|, NameAt(route, k));
    }
    if name :| name in names && NamedFor(name, route[k], VisitNumber(route, k)) {
      var j := NameInFolderFor(path, route, present, cargos, name);
      NameOfStop(route, j);
    }
  }

  /** The file found for a stop is the one that was put there for it. */
  lemma OwnFileIsFound(path: string, route: seq<string>, present: seq<bool>, cargos: seq<seq<Container>>, k: nat)
    requires |present| == |cargos| == |route| && PlainCodes(route) && k < |route| && present[k]
    ensures StopFile(route, FolderFor(path, route, present, cargos), k).path == PathOf(path, NameAt(route, k))
  {
    var folder := FolderFor(path, route, present, cargos);
    FolderIsListed(path, route, present, cargos);
    HasFileIfPresent(path, route, present, cargos, k);
    CodeAtStop(route, path, folder.names, k);
    var name :| name in folder.names && IsWanted(route, name) && StopFile(route, folder, k) == Scanned(path, name);
    var j := NameInFolderFor(path, route, present, cargos, name);
    ScannedIsNamed(path, name);
    NameOfStop(route, j);
  }

  lemma StopIsRead(path: string, route: seq<string>, present: seq<bool>, cargos: seq<seq<Container>>,
                   verifyId: string -> bool, k: nat)
    requires |present| == |cargos| == |route| && PlainCodes(route) && k < |route|
    requires forall x :: x in cargos[k] ==> Fileable(x)
    requires !present[k] ==> cargos[k] == []
    ensures StopRead(route, FolderFor(path, route, present, cargos), verifyId, k,
                     if present[k] then route[k] else "empty", cargos[k])
  {
    HasFileIfPresent(path, route, present, cargos, k);
    if present[k] {
      OwnFileIsFound(path, route, present, cargos, k);
      TextAt(path, route, cargos, k);
      CargoReadsBack(cargos[k], verifyId);
    }
  }

  /** The code that the checker has at each stop. */
  function CodesFor(route: seq<string>, present: seq<bool>): (codes: seq<string>)
    requires |present| == |route|
    ensures |codes| == |route|
    ensures forall k :: 0 <= k < |route| ==> codes[k] == if present[k] then route[k] else "empty"
  {
    seq(|route|, k requires 0 <= k < |route| => if present[k] then route[k] else "empty")
  }

  /** For every route and every cargo of the stops that have a file there is a folder from which a
      travel reads just that. */
  lemma FilesForEveryCargo(path: string, route: seq<string>, present: seq<bool>, cargos: seq<seq<Container>>,
                           verifyId: string -> bool)
      returns (folder: Folder)
    requires |present| == |cargos| == |route| && PlainCodes(route)
    requires forall k, x :: 0 <= k < |cargos| && x in cargos[k] ==> Fileable(x)
    requires forall k :: 0 <= k < |cargos| && !present[k] ==> cargos[k] == []
    ensures folder.path == path && Listed(folder) &&
            StopsRead(route, folder, verifyId, CodesFor(route, present), cargos)
  {
    folder := FolderFor(path, route, present, cargos);
    FolderIsListed(path, route, present, cargos);
    forall k: nat | k < |route|
      ensures StopRead(route, folder, verifyId, k, CodesFor(route, present)[k], cargos[k])
    {
      StopIsRead(path, route, present, cargos, verifyId, k);
    }
  }

  // ----- the route -----

  lemma CodeIsClean(code: string)
    requires SeaportCode(code)
    ensures IsPlainCode(code) && WritableRow([code])
  {
  }

  function RouteRows(route: seq<string>): (rows: seq<seq<string>>)
    ensures |rows| == |route| && forall k :: 0 <= k < |rows| ==> rows[k] == [route[k]]
  {
    seq(|route|, k requires 0 <= k < |route| => [route[k]])
  }

  lemma {:induction false} CodesReadBack(route: seq<string>)
    requires forall code :: code in route ==> SeaportCode(code)
    ensures Codes(RouteRows(route)) == route
  {
    if route != [] {
      var n := |route| - 1;
      CodesReadBack(route[..n]);
      assert RouteRows(route)[..n] == RouteRows(route[..n]);
      assert route == route[..n] + [route[n]];
    }
  }

  lemma {:induction false} NothingCompressed(route: seq<string>)
    requires NoEqualNeighbours(route)
    ensures Compress(route) == route
  {
    if |route| > 1 {
      var front := route[..|route| - 1];
      NothingCompressed(front);
      CompressNext(front, route[|route| - 1]);
      assert route == front + [route[|route| - 1]];
      assert route[|route| - 2] != route[|route| - 2 + 1];
    }
  }

  /** A route file with one code a line. */
  lemma RouteReadsBack(route: seq<string>)
    requires NoEqualNeighbours(route) && forall code :: code in route ==> SeaportCode(code)
    ensures RouteOf(TextFor(RouteRows(route))) == route
  {
    forall row | row in RouteRows(route)
      ensures WritableRow(row)
    {
      var k :| 0 <= k < |route| && row == [route[k]];
      CodeIsClean(route[k]);
    }
    TextReadsBack(RouteRows(route));
    CodesReadBack(route);
    NothingCompressed(route);
  }

  // ----- the ship plan -----

  /** The floors that can be used are written for the positions before (r, c) that have fewer than
      the ship; of the others nothing is said. */
  function CellRows(plan: ShipPlan, r: nat, c: nat): seq<seq<string>>
    requires ValidPlan(plan) && r <= plan.length && c <= plan.width && (r == plan.length ==> c == 0)
    decreases r, c
  {
    if c > 0 then
      CellRows(plan, r, c - 1)
      + (if plan.floorStart[r][c - 1] > 0 then [NumberRow(r, c - 1, plan.height - plan.floorStart[r][c - 1])] else [])
    else if r > 0 then CellRows(plan, r - 1, plan.width)
    else []
  }

  function NumberRow(a: nat, b: nat, n: nat): seq<string> {
    [ToString(a), ToString(b), ToString(n)]
  }

  lemma NumberRowReadsBack(a: nat, b: nat, n: nat)
    ensures WritableRow(NumberRow(a, b, n)) && ThreeNumbers(NumberRow(a, b, n))
    ensures ValueOf(ToString(a)) == a && ValueOf(ToString(b)) == b && ValueOf(ToString(n)) == n
  {
    NumberIsWritable(a);
    NumberIsWritable(b);
    NumberIsWritable(n);
    NumberIsNat(ToString(a));
    NumberIsNat(ToString(b));
    NumberIsNat(ToString(n));
  }

  function SizeFor(plan: ShipPlan): Size {
    Size(plan.length, plan.width, plan.height)
  }

  /** What one of these lines says. */
  lemma CellIsTaken(plan: ShipPlan, x: nat, y: nat)
    requires ValidPlan(plan) && InGrid(plan, x, y) && plan.floorStart[x][y] > 0
    ensures var row := NumberRow(x, y, plan.height - plan.floorStart[x][y]);
            WritableRow(row) &&
                VerdictOn(row, SizeFor(plan)) == Taken(Position(x, y, plan.height - plan.floorStart[x][y]))
  {
    var floors := plan.height - plan.floorStart[x][y];
    NumberRowReadsBack(x, y, floors);
    JudgeExactly(NumberRow(x, y, floors), plan.length, plan.width, plan.height);
  }

  /** The row is that of a position before (r, c). */
  ghost predicate IsCellRow(plan: ShipPlan, r: nat, c: nat, row: seq<string>)
    requires ValidPlan(plan)
  {
    exists x: nat, y: nat :: InGrid(plan, x, y) && !AtOrAfter(x, y, r, c) && plan.floorStart[x][y] > 0 &&
                             row == NumberRow(x, y, plan.height - plan.floorStart[x][y])
  }

  lemma {:induction false} CellRowsAre(plan: ShipPlan, r: nat, c: nat, row: seq<string>)
    requires ValidPlan(plan) && r <= plan.length && c <= plan.width && (r == plan.length ==> c == 0)
    ensures row in CellRows(plan, r, c) <==> IsCellRow(plan, r, c, row)
    decreases r, c
  {
    if c > 0 {
      CellRowsAre(plan, r, c - 1, row);
      CellRowNext(plan, r, c, row);
    } else if r > 0 {
      CellRowsAre(plan, r - 1, plan.width, row);
      assert IsCellRow(plan, r, 0, row) <==> IsCellRow(plan, r - 1, plan.width, row);
    }
  }

  lemma CellRowNext(plan: ShipPlan, r: nat, c: nat, row: seq<string>)
    requires ValidPlan(plan) && InGrid(plan, r, c - 1) && c > 0
    ensures IsCellRow(plan, r, c, row) <==>
            IsCellRow(plan, r, c - 1, row) ||
            (plan.floorStart[r][c - 1] > 0 && row == NumberRow(r, c - 1, plan.height - plan.floorStart[r][c - 1]))
  {
    assert !AtOrAfter(r, c - 1, r, c);
  }

  function PlanRows(plan: ShipPlan): seq<seq<string>>
    requires ValidPlan(plan)
  {
    [NumberRow(plan.height, plan.length, plan.width)] + CellRows(plan, plan.length, 0)
  }

  ghost predicate IsSaid(plan: ShipPlan, p: Position)
    requires ValidPlan(plan)
  {
    InGrid(plan, p.x, p.y) && plan.floorStart[p.x][p.y] > 0 && p.floors == plan.height - plan.floorStart[p.x][p.y]
  }

  lemma OnlySaid(plan: ShipPlan, p: Position, rows: seq<seq<string>>)
    requires ValidPlan(plan) && rows == CellRows(plan, plan.length, 0) && Taken(p) in Verdicts(rows, SizeFor(plan))
    ensures IsSaid(plan, p)
  {
    var k :| 0 <= k < |rows| && VerdictOn(rows[k], SizeFor(plan)) == Taken(p);
    var x, y := CellOfRow(plan, rows[k]);
    CellIsTaken(plan, x, y);
  }

  lemma VerdictIsThere(rows: seq<seq<string>>, size: Size, row: seq<string>, v: Verdict)
    requires row in rows && VerdictOn(row, size) == v
    ensures v in Verdicts(rows, size)
  {
    var k :| 0 <= k < |rows| && rows[k] == row;
    assert Verdicts(rows, size)[k] == v;
  }

  lemma CellIsSaid(plan: ShipPlan, x: nat, y: nat, v: Verdict, rows: seq<seq<string>>)
    requires ValidPlan(plan) && rows == CellRows(plan, plan.length, 0) && InGrid(plan, x, y) &&
             plan.floorStart[x][y] > 0
    requires v == Taken(Position(x, y, plan.height - plan.floorStart[x][y]))
    ensures v in Verdicts(rows, SizeFor(plan))
  {
    RowOfCell(plan, x, y);
    CellIsTaken(plan, x, y);
    VerdictIsThere(rows, SizeFor(plan), NumberRow(x, y, plan.height - plan.floorStart[x][y]), v);
  }

  lemma AllSaid(plan: ShipPlan, p: Position, rows: seq<seq<string>>)
    requires ValidPlan(plan) && rows == CellRows(plan, plan.length, 0) && IsSaid(plan, p)
    ensures Taken(p) in Verdicts(rows, SizeFor(plan))
  {
    CellIsSaid(plan, p.x, p.y, Taken(p), rows);
  }

  /** What the lines say of a position is how many of its floors can be used, if not all can. */
  lemma SaidOfCell(plan: ShipPlan, p: Position)
    requires ValidPlan(plan)
    ensures Taken(p) in Verdicts(CellRows(plan, plan.length, 0), SizeFor(plan)) <==> IsSaid(plan, p)
  {
    var rows := CellRows(plan, plan.length, 0);
    if Taken(p) in Verdicts(rows, SizeFor(plan)) {
      OnlySaid(plan, p, rows);
    }
    if IsSaid(plan, p) {
      AllSaid(plan, p, rows);
    }
  }

  lemma CellOfRow(plan: ShipPlan, row: seq<string>) returns (x: nat, y: nat)
    requires ValidPlan(plan) && row in CellRows(plan, plan.length, 0)
    ensures InGrid(plan, x, y) && plan.floorStart[x][y] > 0 &&
            row == NumberRow(x, y, plan.height - plan.floorStart[x][y])
  {
    CellRowsAre(plan, plan.length, 0, row);
    x, y :| InGrid(plan, x, y) && !AtOrAfter(x, y, plan.length, 0) && plan.floorStart[x][y] > 0 &&
            row == NumberRow(x, y, plan.height - plan.floorStart[x][y]);
  }

  lemma RowOfCell(plan: ShipPlan, x: nat, y: nat)
    requires ValidPlan(plan) && InGrid(plan, x, y) && plan.floorStart[x][y] > 0
    ensures NumberRow(x, y, plan.height - plan.floorStart[x][y]) in CellRows(plan, plan.length, 0)
  {
    CellRowsAre(plan, plan.length, 0, NumberRow(x, y, plan.height - plan.floorStart[x][y]));
    assert !AtOrAfter(x, y, plan.length, 0);
  }

  lemma PlanDataReadsBack(plan: ShipPlan)
    requires ValidPlan(plan)
    ensures forall row :: row in PlanRows(plan) ==> WritableRow(row)
    ensures SizeOf(PlanRows(plan)) == Some(SizeFor(plan)) && PlanRows(plan)[1..] == CellRows(plan, plan.length, 0)
  {
    SizeReadsBack(plan.height, plan.length, plan.width, CellRows(plan, plan.length, 0));
    forall row | row in CellRows(plan, plan.length, 0)
      ensures WritableRow(row)
    {
      var x, y := CellOfRow(plan, row);
      CellIsTaken(plan, x, y);
    }
  }

  lemma SizeReadsBack(height: nat, length: nat, width: nat, rest: seq<seq<string>>)
    requires height > 0 && length > 0 && width > 0
    ensures var rows := [NumberRow(height, length, width)] + rest;
            && WritableRow(rows[0]) && (forall row :: row in rows <==> row == rows[0] || row in rest)
            && SizeOf(rows) == Some(Size(length, width, height)) && rows[1..] == rest
  {
    NumberRowReadsBack(height, length, width);
    NumberIsWritable(height);
    NumberIsWritable(length);
    NumberIsWritable(width);
  }

  lemma FloorsReadBack(plan: ShipPlan, x: nat, y: nat)
    requires ValidPlan(plan) && InGrid(plan, x, y)
    ensures FloorStart(Verdicts(CellRows(plan, plan.length, 0), SizeFor(plan)), plan.height, x, y) ==
            plan.floorStart[x][y]
  {
    var vs := Verdicts(CellRows(plan, plan.length, 0), SizeFor(plan));
    var f := FirstSaid(vs, x, y);
    if f.Some? {
      SaidOfCell(plan, Position(x, y, f.value));
    } else {
      SaidOfCell(plan, Position(x, y, plan.height - plan.floorStart[x][y]));
    }
  }

  /** The file of any ship plan gives the plan, and has no fatal error. */
  lemma PlanReadsBack(plan: ShipPlan)
    requires ValidPlan(plan)
    ensures var data := DataOf(TextFor(PlanRows(plan)));
            SizeOf(data).Some? && !Disagree(Verdicts(data[1..], SizeOf(data).value))
    ensures PlanRead(plan, TextFor(PlanRows(plan)))
  {
    PlanDataReadsBack(plan);
    TextReadsBack(PlanRows(plan));
    forall p
      ensures Taken(p) in Verdicts(CellRows(plan, plan.length, 0), SizeFor(plan)) <==> IsSaid(plan, p)
    {
      SaidOfCell(plan, p);
    }
    forall x, y | InGrid(plan, x, y)
      ensures plan.floorStart[x][y] ==
              FloorStart(Verdicts(CellRows(plan, plan.length, 0), SizeFor(plan)), plan.height, x, y)
    {
      FloorsReadBack(plan, x, y);
    }
  }

  // ----- whole travels -----

  /** A voyage over all its stops whose ports and containers can be written down. */
  ghost predicate Writable(t: Trip, present: seq<bool>) {
    && ValidTrip(t) && |t.plans| == |t.route| >= 2 && |present| == |t.route|
    && NoEqualNeighbours(t.route) && (forall code :: code in t.route ==> SeaportCode(code))
    && (forall k, x :: 0 <= k < |t.cargos| && x in t.cargos[k] ==> Fileable(x))
    && (forall k :: 0 <= k < |t.cargos| && !present[k] ==> t.cargos[k] == [])
    && t.codes == CodesFor(t.route, present)
  }

  lemma CodesArePlain(route: seq<string>)
    requires forall code :: code in route ==> SeaportCode(code)
    ensures PlainCodes(route)
  {
    forall k | 0 <= k < |route|
      ensures IsPlainCode(route[k])
    {
      CodeIsClean(route[k]);
    }
  }

  /** Every such voyage is the run of some travel, from the texts of its files on. */
  lemma EveryVoyageIsATravel(path: string, t: Trip, present: seq<bool>)
      returns (planText: string, routeText: string, folder: Folder)
    requires Writable(t, present)
    ensures CanRun(planText, routeText) && Listed(folder) && RunOf(t, planText, routeText, folder, t.verifyId)
  {
    planText, routeText := TextFor(PlanRows(t.plan)), TextFor(RouteRows(t.route));
    PlanReadsBack(t.plan);
    RouteReadsBack(t.route);
    CodesArePlain(t.route);
    folder := FilesForEveryCargo(path, t.route, present, t.cargos, t.verifyId);
  }
}
