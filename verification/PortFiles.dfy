/** The cargo files of a travel: the scan of their folder, their alignment with the stops of the
    route, and what is read from one of them. */
module PortFiles {
  import opened Cargo
  import opened PlannerSpec
  import opened Planner
  import opened CraneText
  import opened ShipPlanFile
  import opened FileNames
  import opened ContainerId

  // ----- the scan of the folder -----

  datatype PortFile = PortFile(code: string, path: string, name: string, visit: int)

  const EMPTY_CARGO_DATA_FILE := "empty.cargo_data"

  /** What the scan records of a file. */
  function Scanned(folder: string, name: string): PortFile {
    var path := PathOf(folder, name);
    PortFile(CodeIn(path), path, NameIn(path), VisitIn(NameIn(path)))
  }

  /** The name of a file is that of the cargo of a port at one of its visits. */
  predicate NamedFor(name: string, code: string, visit: int) {
    FileType(name) == CARGO_DATA && Before(Before(name, '.'), '_') == code && VisitIn(Before(name, '.')) == visit
  }

  predicate NoPaths(names: seq<string>) {
    forall name :: name in names ==> '/' !in name
  }

  /** A file is recorded under the port and the visit in its name. */
  lemma ScannedIsNamed(folder: string, name: string)
    requires '/' !in name && FileType(name) == CARGO_DATA
    ensures NamedFor(name, Scanned(folder, name).code, Scanned(folder, name).visit)
  {
    NameInFolder(folder, name);
  }

  /** The scan takes a cargo file of a port on the route, for a visit from the first on. */
  predicate IsWanted(routes: seq<string>, name: string) {
    FileType(name) == CARGO_DATA && Before(Before(name, '.'), '_') in routes && VisitIn(Before(name, '.')) >= 1
  }

  /** Which files these are, by their names: a port, an underscore, a number, the type. */
  lemma WantedExactly(routes: seq<string>, port: string, number: string, code: string, visit: int)
    requires '_' !in number && '.' !in number
    ensures var name := port + "_" + number + ".cargo_data";
            && (NamedFor(name, code, visit) <==>
                code == port && visit == if IsNumber(number) then ValueOf(number) else -1)
            && (IsWanted(routes, name) <==> port in routes && IsNumber(number) && ValueOf(number) >= 1)
  {
    var short := port + ['_'] + number;
    NameSays(short, port + "_" + number + ".cargo_data", port, number);
    if IsNumber(number) {
      NumberIsNat(number);
    }
  }

  lemma NameSays(short: string, name: string, port: string, number: string)
    requires '_' !in number && '.' !in number && short == port + ['_'] + number && name == short + ".cargo_data"
    ensures FileType(name) == CARGO_DATA && Before(name, '.') == short
    ensures Before(short, '_') == port && FileNames.After(short, '_') == number
  {
    assert name == short + ['.'] + CARGO_DATA;
    BeforeAdded(short, '.', CARGO_DATA);
    BeforeAdded(port, '_', number);
    TypeIsLast(short, CARGO_DATA);
  }

  lemma TypeIsLast(front: string, kind: string)
    requires '.' !in kind
    ensures FileType(front + ['.'] + kind) == kind
  {
    BeforeAdded(front, '.', kind);
    var all := front + ['.'] + kind;
    assert all[|front|] == '.';
  }

  function ScannedFiles(routes: seq<string>, folder: string, names: seq<string>): seq<PortFile> {
    if names == [] then []
    else
      var front, name := ScannedFiles(routes, folder, names[..|names| - 1]), names[|names| - 1];
      if IsWanted(routes, name) then front + [Scanned(folder, name)] else front
  }

  ghost predicate IsFound(routes: seq<string>, folder: string, names: seq<string>, f: PortFile) {
    exists name :: name in names && IsWanted(routes, name) && f == Scanned(folder, name)
  }

  lemma FoundMore(routes: seq<string>, folder: string, front: seq<string>, name: string, f: PortFile)
    ensures IsFound(routes, folder, front + [name], f) <==>
            IsFound(routes, folder, front, f) || (IsWanted(routes, name) && f == Scanned(folder, name))
  {
    assert forall n :: n in front + [name] <==> n in front || n == name;
  }

  /** The scan takes exactly the wanted files. */
  lemma {:induction false} ScanFinds(routes: seq<string>, folder: string, names: seq<string>, f: PortFile)
    ensures f in ScannedFiles(routes, folder, names) <==> IsFound(routes, folder, names, f)
  {
    if names != [] {
      var front, name := names[..|names| - 1], names[|names| - 1];
      assert names == front + [name];
      ScanFinds(routes, folder, front, f);
      FoundMore(routes, folder, front, name, f);
    }
  }

  /** The loop over the entries of the folder, in the order in which it lists them. */
  method ScanCargoFiles(routes: seq<string>, folder: string, names: seq<string>) returns (files: seq<PortFile>)
    ensures files == ScannedFiles(routes, folder, names)
  {
    files := [];
    for k := 0 to |names|
      invariant files == ScannedFiles(routes, folder, names[..k])
    {
      var short := Before(names[k], '.');
      assert names[..k + 1][..k] == names[..k];
      if FileType(names[k]) == CARGO_DATA {
        if Before(short, '_') in routes {
          if VisitIn(short) >= 1 {
            files := files + [Scanned(folder, names[k])];
          }
        }
      }
    }
    assert names[..|names|] == names;
  }

  // ----- alignment -----

  function Occurs(codes: seq<string>, code: string): nat {
    if codes == [] then 0
    else Occurs(codes[..|codes| - 1], code) + (if codes[|codes| - 1] == code then 1 else 0)
  }

  /** The places at which a code occurs. */
  function PlacesOf(codes: seq<string>, code: string): set<nat> {
    set k: nat | k < |codes| && codes[k] == code
  }

  lemma {:induction false} OccursExactly(codes: seq<string>, code: string)
    ensures Occurs(codes, code) == |PlacesOf(codes, code)|
    decreases |codes|
  {
    if codes == [] {
      assert PlacesOf(codes, code) == {};
    } else {
      var front, last: nat := codes[..|codes| - 1], |codes| - 1;
      OccursExactly(front, code);
      assert PlacesOf(codes, code) == PlacesOf(front, code) + if codes[last] == code then {last} else {};
    }
  }

  /** The how-manieth visit to its port stop i is. */
  function VisitNumber(routes: seq<string>, i: nat): nat
    requires i < |routes|
  {
    Occurs(routes[..i + 1], routes[i])
  }

  predicate IsFor(f: PortFile, code: string, visit: int) {
    f.code == code && f.visit == visit
  }

  /** The first file for a visit, or NOT_FOUND. */
  function FirstFile(files: seq<PortFile>, code: string, visit: int): (k: int)
    ensures k == NOT_FOUND || 0 <= k < |files|
    ensures k == NOT_FOUND ==> forall j :: 0 <= j < |files| ==> !IsFor(files[j], code, visit)
    ensures k != NOT_FOUND ==> IsFor(files[k], code, visit) && forall j :: 0 <= j < k ==> !IsFor(files[j], code, visit)
  {
    if files == [] then NOT_FOUND
    else
      var k := FirstFile(files[..|files| - 1], code, visit);
      if k != NOT_FOUND then k
      else if IsFor(files[|files| - 1], code, visit) then |files| - 1
      else NOT_FOUND
  }

  /** What stands at a stop: the first file for the visit, or an empty file. */
  function FileFor(routes: seq<string>, files: seq<PortFile>, emptyPath: string, i: nat): (f: PortFile)
    requires i < |routes|
    ensures IsFor(f, routes[i], VisitNumber(routes, i))
  {
    var visit := VisitNumber(routes, i);
    var k := FirstFile(files, routes[i], visit);
    if k != NOT_FOUND then files[k] else PortFile(routes[i], emptyPath, EMPTY_CARGO_DATA_FILE, visit)
  }

  lemma VisitNumberNext(routes: seq<string>, i: nat)
    requires i < |routes|
    ensures VisitNumber(routes, i) == Occurs(routes[..i], routes[i]) + 1
    ensures forall code ::
              Occurs(routes[..i + 1], code) == Occurs(routes[..i], code) + (if routes[i] == code then 1 else 0)
  {
    assert routes[..i + 1][..i] == routes[..i];
  }

  /** The search loop over the scanned files for one stop. */
  method FindFile(files: seq<PortFile>, code: string, seen: int) returns (k: int)
    ensures k == FirstFile(files, code, seen + 1)
  {
    for j := 0 to |files|
      invariant forall i :: 0 <= i < j ==> !IsFor(files[i], code, seen + 1)
    {
      if files[j].code == code {
        if seen == files[j].visit - 1 {
          return j;
        }
      }
    }
    return NOT_FOUND;
  }

  /** The counters of the visits so far. */
  ghost predicate Counts(counts: map<string, int>, routes: seq<string>, i: nat)
    requires i <= |routes|
  {
    && (forall code :: code in counts <==> code in routes)
    && forall code :: code in counts ==> counts[code] == Occurs(routes[..i], code)
  }

  method ZeroCounts(routes: seq<string>) returns (counts: map<string, int>)
    ensures Counts(counts, routes, 0)
  {
    counts := map[];
    for i := 0 to |routes|
      invariant forall code :: code in counts <==> code in routes[..i]
      invariant forall code :: code in counts ==> counts[code] == 0
    {
      counts := counts[routes[i] := 0];
      assert routes[..i + 1] == routes[..i] + [routes[i]];
    }
    assert routes[..|routes|] == routes;
  }

  /** One entry for each stop. The files that no visit is left for are returned as extra. */
  method OrganizePortFilesByRoutes(routes: seq<string>, files: seq<PortFile>, emptyPath: string)
      returns (ports: seq<PortFile>, extra: seq<PortFile>)
    requires routes != []
    ensures |ports| == |routes|
    ensures forall i: nat :: i < |routes| ==> ports[i] == FileFor(routes, files, emptyPath, i)
    ensures forall f :: f in extra <==>
            f in files && f.visit > Occurs(routes, f.code) && f.name != EMPTY_CARGO_DATA_FILE
  {
    ports := [];
    var counts := ZeroCounts(routes);
    for i := 0 to |routes|
      invariant |ports| == i && Counts(counts, routes, i)
      invariant forall j: nat :: j < i ==> ports[j] == FileFor(routes, files, emptyPath, j)
    {
      VisitNumberNext(routes, i);
      var k := FindFile(files, routes[i], counts[routes[i]]);
      if k != NOT_FOUND {
        counts := counts[routes[i] := counts[routes[i]] + 1];
        ports := ports + [files[k]];
      } else {
        ports := ports + [PortFile(routes[i], emptyPath, EMPTY_CARGO_DATA_FILE, counts[routes[i]] + 1)];
        counts := counts[routes[i] := counts[routes[i]] + 1];
      }
    }
    assert routes[..|routes|] == routes;
    extra := ExtraFiles(files, counts, routes);
  }

  lemma {:induction false} NotThere(codes: seq<string>, code: string)
    ensures Occurs(codes, code) == 0 <==> code !in codes
  {
    if codes != [] {
      var front := codes[..|codes| - 1];
      assert codes == front + [codes[|codes| - 1]];
      NotThere(front, code);
    }
  }

  method ExtraFiles(files: seq<PortFile>, counts: map<string, int>, ghost routes: seq<string>)
      returns (extra: seq<PortFile>)
    requires Counts(counts, routes, |routes|)
    ensures forall f :: f in extra <==>
            f in files && f.visit > Occurs(routes, f.code) && f.name != EMPTY_CARGO_DATA_FILE
  {
    extra := [];
    assert routes[..|routes|] == routes;
    for index := 0 to |files|
      invariant forall f :: f in extra <==>
                f in files[..index] && f.visit > Occurs(routes, f.code) && f.name != EMPTY_CARGO_DATA_FILE
    {
      var f := files[index];
      NotThere(routes, f.code);
      assert files[..index + 1] == files[..index] + [f];
      var visits := if f.code in counts then counts[f.code] else 0;
      if f.visit > visits && f.name != EMPTY_CARGO_DATA_FILE {
        extra := extra + [f];
      }
    }
    assert files[..|files|] == files;
  }

  /** The stop of the n-th visit to a port. */
  lemma {:induction false} StopOfVisit(routes: seq<string>, code: string, n: nat) returns (i: nat)
    requires 1 <= n <= Occurs(routes, code)
    ensures i < |routes| && routes[i] == code && VisitNumber(routes, i) == n
    decreases |routes|
  {
    var front := routes[..|routes| - 1];
    if n <= Occurs(front, code) {
      i := StopOfVisit(front, code, n);
      assert front[..i + 1] == routes[..i + 1];
    } else {
      i := |routes| - 1;
      assert routes[..i + 1] == routes;
    }
  }

  /** A scanned file is used exactly when its visit takes place and no earlier file is for the
      same visit. */
  lemma FileIsUsed(routes: seq<string>, files: seq<PortFile>, emptyPath: string, k: nat)
    requires k < |files| && files[k].name != EMPTY_CARGO_DATA_FILE
    requires forall j :: 0 <= j < k ==> files[j] != files[k]
    ensures (exists i: nat :: i < |routes| && FileFor(routes, files, emptyPath, i) == files[k]) <==>
            1 <= files[k].visit <= Occurs(routes, files[k].code) && FirstFile(files, files[k].code, files[k].visit) == k
  {
    var f := files[k];
    if i: nat :| i < |routes| && FileFor(routes, files, emptyPath, i) == f {
      VisitNumberNext(routes, i);
      OccursPart(routes, i + 1, f.code);
    }
    if 1 <= f.visit <= Occurs(routes, f.code) && FirstFile(files, f.code, f.visit) == k {
      var i := StopOfVisit(routes, f.code, f.visit);
      assert FileFor(routes, files, emptyPath, i) == f;
    }
  }

  lemma {:induction false} OccursPart(routes: seq<string>, n: nat, code: string)
    requires n <= |routes|
    ensures Occurs(routes[..n], code) <= Occurs(routes, code)
    decreases |routes|
  {
    if n == |routes| {
      assert routes[..n] == routes;
    } else {
      OccursPart(routes[..|routes| - 1], n, code);
      assert routes[..|routes| - 1][..n] == routes[..n];
    }
  }

  /** The cargo of stop i has a file of its own in the folder. */
  ghost predicate HasFile(routes: seq<string>, names: seq<string>, i: nat)
    requires i < |routes|
  {
    exists name :: name in names && NamedFor(name, routes[i], VisitNumber(routes, i))
  }

  lemma NamedIsScanned(routes: seq<string>, folder: string, names: seq<string>, name: string, code: string, visit: int)
    requires NoPaths(names) && name in names && NamedFor(name, code, visit) && code in routes && visit >= 1
    ensures Scanned(folder, name) in ScannedFiles(routes, folder, names) && IsFor(Scanned(folder, name), code, visit)
  {
    ScannedIsNamed(folder, name);
    ScanFinds(routes, folder, names, Scanned(folder, name));
  }

  lemma ScannedIsThere(routes: seq<string>, folder: string, names: seq<string>, f: PortFile) returns (name: string)
    requires NoPaths(names) && f in ScannedFiles(routes, folder, names)
    ensures name in names && IsWanted(routes, name) && f == Scanned(folder, name) && NamedFor(name, f.code, f.visit)
  {
    ScanFinds(routes, folder, names, f);
    name :| name in names && IsWanted(routes, name) && f == Scanned(folder, name);
    ScannedIsNamed(folder, name);
  }

  lemma FileFound(routes: seq<string>, folder: string, names: seq<string>, i: nat)
    requires i < |routes| && NoPaths(names)
    ensures var files := ScannedFiles(routes, folder, names);
            HasFile(routes, names, i) <==> exists f :: f in files && IsFor(f, routes[i], VisitNumber(routes, i))
  {
    var files, visit := ScannedFiles(routes, folder, names), VisitNumber(routes, i);
    VisitNumberNext(routes, i);
    if name :| name in names && NamedFor(name, routes[i], visit) {
      NamedIsScanned(routes, folder, names, name, routes[i], visit);
    }
    if f :| f in files && IsFor(f, routes[i], visit) {
      var name := ScannedIsThere(routes, folder, names, f);
    }
  }

  /** The code that a reader of the file takes from its path is the stop's, but "empty" where the
      file had to be generated. */
  lemma CodeAtStop(routes: seq<string>, folder: string, names: seq<string>, i: nat)
    requires i < |routes| && NoPaths(names)
    ensures var f := FileFor(routes, ScannedFiles(routes, folder, names), PathOf(folder, EMPTY_CARGO_DATA_FILE), i);
            && CodeIn(f.path) == (if HasFile(routes, names, i) then routes[i] else "empty")
            && (!HasFile(routes, names, i) ==> f.path == PathOf(folder, EMPTY_CARGO_DATA_FILE))
            && (HasFile(routes, names, i) ==>
                exists name :: name in names && IsWanted(routes, name) && f == Scanned(folder, name))
  {
    var files := ScannedFiles(routes, folder, names);
    var k := FirstFile(files, routes[i], VisitNumber(routes, i));
    FileFound(routes, folder, names, i);
    EmptyName(folder);
    if k != NOT_FOUND {
      assert files[k] in files;
      ScanFinds(routes, folder, names, files[k]);
    }
  }

  lemma EmptyName(folder: string)
    ensures CodeIn(PathOf(folder, EMPTY_CARGO_DATA_FILE)) == "empty"
  {
    assert EMPTY_CARGO_DATA_FILE == "empty" + ['.'] + CARGO_DATA;
    NameOfGenerated(folder, "empty", EMPTY_CARGO_DATA_FILE);
  }

  lemma NameOfGenerated(folder: string, short: string, name: string)
    requires name == short + ['.'] + CARGO_DATA && '/' !in short && '_' !in short
    ensures CodeIn(PathOf(folder, name)) == short
  {
    BeforeAdded(short, '.', CARGO_DATA);
    BeforeNothing(short, '_');
    NameInFolder(folder, name);
  }

  // ----- one cargo file -----

  /** What one line gives: a container unless the line is ignored, and what it raises. */
  datatype Entry = Entry(container: Option<Container>, errors: set<AlgError>)

  function ReadEntry(fields: seq<string>, verifyId: string -> bool): Entry {
    if |fields| != 3 then Entry(None, {CONTAINER_WEIGHT})
    else if |fields[0]| != ISO_ID_SIZE then Entry(None, {CONTAINER_ID})
    else
      var weight := if IsNumber(fields[1]) then Stoi(fields[1]) else None;
      Entry(Some(Container(fields[0], fields[2], if weight.Some? then weight.value else BAD_WEIGHT)),
            (if verifyId(fields[0]) then {} else {CONTAINER_ID_ISO})
            + (if SeaportCode(fields[2]) then {} else {CONTAINER_PORT_DEST})
            + (if weight.Some? then {} else {CONTAINER_WEIGHT}))
  }

  /** The containers of a file, in the order of its lines. */
  function CargoOf(dataList: seq<seq<string>>, verifyId: string -> bool): (cargo: seq<Container>)
    ensures forall x :: x in cargo ==> exists k :: 0 <= k < |dataList| && |dataList[k]| == 3 && dataList[k][0] == x.id
  {
    if dataList == [] then []
    else
      var front := CargoOf(dataList[..|dataList| - 1], verifyId);
      match ReadEntry(dataList[|dataList| - 1], verifyId).container
      case None => front
      case Some(x) => front + [x]
  }

  /** What a line of a cargo file gives: nothing unless it has three fields and an id of eleven
      characters; else a container, with the weight -1 if its weight is no number. */
  lemma EntryExactly(fields: seq<string>, verifyId: string -> bool)
    ensures var c := ReadEntry(fields, verifyId).container;
            && (c.Some? <==> |fields| == 3 && |fields[0]| == 11)
            && (c.Some? ==> c.value.id == fields[0] && c.value.dest == fields[2])
            && (c.Some? ==> c.value.weight == if IsNumber(fields[1]) then ValueOf(fields[1]) else -1)
  {
    if |fields| == 3 && IsNumber(fields[1]) {
      NumberIsNat(fields[1]);
    }
  }

  /** The containers come from these rows of the file, in their order. */
  ghost predicate FromRows(cargo: seq<Container>, rows: seq<nat>, dataList: seq<seq<string>>,
                           verifyId: string -> bool) {
    && |rows| == |cargo|
    && (forall n :: 0 <= n < |rows| ==>
          rows[n] < |dataList| && ReadEntry(dataList[rows[n]], verifyId).container == Some(cargo[n]))
    && forall m, n :: 0 <= m < n < |rows| ==> rows[m] < rows[n]
  }

  /** Every row that gives a container is among these. */
  ghost predicate AllRows(rows: seq<nat>, dataList: seq<seq<string>>, verifyId: string -> bool) {
    forall k: nat :: k < |dataList| && ReadEntry(dataList[k], verifyId).container.Some? ==> k in rows
  }

  lemma RowsNext(front: seq<seq<string>>, fields: seq<string>, verifyId: string -> bool, rows: seq<nat>)
      returns (more: seq<nat>)
    requires FromRows(CargoOf(front, verifyId), rows, front, verifyId) && AllRows(rows, front, verifyId)
    ensures FromRows(CargoOf(front + [fields], verifyId), more, front + [fields], verifyId)
    ensures AllRows(more, front + [fields], verifyId)
  {
    var cargo, c := CargoOf(front, verifyId), ReadEntry(fields, verifyId).container;
    CargoNext(front, fields, verifyId);
    AllRowsMore(rows, front, fields, verifyId);
    match c
    case None =>
      FromRowsMore(cargo, rows, front, fields, Container("", "", 0), verifyId);
      more := rows;
    case Some(x) =>
      FromRowsMore(cargo, rows, front, fields, x, verifyId);
      more := rows + [|front|];
  }

  lemma AllRowsMore(rows: seq<nat>, front: seq<seq<string>>, fields: seq<string>, verifyId: string -> bool)
    requires AllRows(rows, front, verifyId)
    ensures AllRows(rows + [|front|], front + [fields], verifyId)
    ensures ReadEntry(fields, verifyId).container.None? ==> AllRows(rows, front + [fields], verifyId)
  {
    var lines := front + [fields];
    forall k: nat | k < |lines| && ReadEntry(lines[k], verifyId).container.Some?
      ensures k in rows + [|front|]
      ensures k < |front| ==> k in rows
    {
      if k < |front| {
        assert lines[k] == front[k];
      }
    }
  }

  lemma FromRowsMore(cargo: seq<Container>, rows: seq<nat>, front: seq<seq<string>>, fields: seq<string>,
                     x: Container, verifyId: string -> bool)
    requires FromRows(cargo, rows, front, verifyId)
    ensures FromRows(cargo, rows, front + [fields], verifyId)
    ensures ReadEntry(fields, verifyId).container == Some(x) ==>
              FromRows(cargo + [x], rows + [|front|], front + [fields], verifyId)
  {
  }

  /** The cargo is made of the containers of the rows that give one, all of them and in their order. */
  lemma {:induction false} CargoExactly(dataList: seq<seq<string>>, verifyId: string -> bool) returns (rows: seq<nat>)
    ensures FromRows(CargoOf(dataList, verifyId), rows, dataList, verifyId) && AllRows(rows, dataList, verifyId)
    decreases |dataList|
  {
    if dataList == [] {
      rows := [];
    } else {
      var front, fields := dataList[..|dataList| - 1], dataList[|dataList| - 1];
      assert dataList == front + [fields];
      rows := CargoExactly(front, verifyId);
      rows := RowsNext(front, fields, verifyId, rows);
    }
  }

  lemma DistinctPush(cargo: seq<Container>, x: Container)
    ensures DistinctIds(cargo + [x]) <==> DistinctIds(cargo) && IndexOf(cargo, x.id) == NOT_FOUND
  {
    var more := cargo + [x];
    if DistinctIds(more) {
      forall i, j | 0 <= i < j < |cargo|
        ensures cargo[i].id != cargo[j].id
      {
        assert more[i].id != more[j].id;
      }
      forall k | 0 <= k < |cargo|
        ensures cargo[k].id != x.id
      {
        assert more[k].id != more[|cargo|].id;
      }
    }
    if DistinctIds(cargo) && IndexOf(cargo, x.id) == NOT_FOUND {
      forall i, j | 0 <= i < j < |more|
        ensures more[i].id != more[j].id
      {
        assert cargo[i] in cargo;
      }
    }
  }

  /** What the flags say about the cargo that was read. */
  ghost predicate FlagsTell(errors: set<AlgError>, cargo: seq<Container>, verifyId: string -> bool) {
    && (CONTAINER_DUPLICATE_ID_ON_PORT in errors <==> !DistinctIds(cargo))
    && (CONTAINER_ID_ISO in errors <==> exists x :: x in cargo && !verifyId(x.id))
    && (CONTAINER_PORT_DEST in errors <==> exists x :: x in cargo && !SeaportCode(x.dest))
  }

  lemma FlagsMore(errors: set<AlgError>, cargo: seq<Container>, verifyId: string -> bool, x: Container,
                  more: set<AlgError>)
    requires FlagsTell(errors, cargo, verifyId)
    requires CONTAINER_DUPLICATE_ID_ON_PORT in more <==> IndexOf(cargo, x.id) != NOT_FOUND
    requires CONTAINER_ID_ISO in more <==> !verifyId(x.id)
    requires CONTAINER_PORT_DEST in more <==> !SeaportCode(x.dest)
    ensures FlagsTell(errors + more, cargo + [x], verifyId)
  {
    DistinctPush(cargo, x);
    assert forall y :: y in cargo + [x] <==> y in cargo || y == x;
  }

  /** A line that does not have three fields, or whose id is taken but whose weight is no number. */
  predicate BadWeight(fields: seq<string>) {
    |fields| != 3 || (|fields[0]| == ISO_ID_SIZE && !IsNumber(fields[1]))
  }

  predicate BadIdSize(fields: seq<string>) {
    |fields| == 3 && |fields[0]| != ISO_ID_SIZE
  }

  lemma EntryErrors(fields: seq<string>, verifyId: string -> bool)
    ensures CONTAINER_WEIGHT in ReadEntry(fields, verifyId).errors <==> BadWeight(fields)
    ensures CONTAINER_ID in ReadEntry(fields, verifyId).errors <==> BadIdSize(fields)
    ensures ReadEntry(fields, verifyId).errors <= {CONTAINER_WEIGHT, CONTAINER_ID, CONTAINER_ID_ISO,
                                                   CONTAINER_PORT_DEST}
  {
    if |fields| == 3 && IsNumber(fields[1]) {
      NumberIsNat(fields[1]);
    }
  }

  /** What the flags say about the lines, and that there are no other flags. */
  ghost predicate LinesTell(errors: set<AlgError>, dataList: seq<seq<string>>) {
    && (CONTAINER_WEIGHT in errors <==> exists fields :: fields in dataList && BadWeight(fields))
    && (CONTAINER_ID in errors <==> exists fields :: fields in dataList && BadIdSize(fields))
    && errors <= {CONTAINER_WEIGHT, CONTAINER_ID, CONTAINER_ID_ISO, CONTAINER_PORT_DEST, CONTAINER_DUPLICATE_ID_ON_PORT}
  }

  lemma LinesMore(errors: set<AlgError>, dataList: seq<seq<string>>, fields: seq<string>, errors': set<AlgError>,
                  verifyId: string -> bool)
    requires LinesTell(errors, dataList) && AddsOnly(errors, errors', fields, verifyId)
    ensures LinesTell(errors', dataList + [fields])
  {
    EntryErrors(fields, verifyId);
    assert forall f :: f in dataList + [fields] <==> f in dataList || f == fields;
  }

  /** Besides the flags of the line itself only that of a repeated id is added. */
  predicate AddsOnly(errors: set<AlgError>, errors': set<AlgError>, fields: seq<string>, verifyId: string -> bool) {
    var more := ReadEntry(fields, verifyId).errors;
    errors + more <= errors' <= errors + more + {CONTAINER_DUPLICATE_ID_ON_PORT}
  }

  /** One line: it may add a container, and raise errors. */
  method ReadPortLine(fields: seq<string>, verifyId: string -> bool, cargo: seq<Container>, errors: set<AlgError>)
      returns (cargo': seq<Container>, errors': set<AlgError>)
    requires FlagsTell(errors, cargo, verifyId)
    ensures cargo' == match ReadEntry(fields, verifyId).container case None => cargo case Some(x) => cargo + [x]
    ensures FlagsTell(errors', cargo', verifyId) && AddsOnly(errors, errors', fields, verifyId)
  {
    var entry := ReadEntryByBranches(fields, verifyId);
    var more := entry.errors;
    cargo' := cargo;
    if entry.container.Some? {
      var x := entry.container.value;
      var loaded := GetContainerIdxById(cargo, x.id);
      if loaded != NOT_FOUND {
        more := more + {CONTAINER_DUPLICATE_ID_ON_PORT};
      }
      FlagsMore(errors, cargo, verifyId, x, more);
      cargo' := cargo + [x];
    }
    errors' := errors + more;
  }

  /** What was read of some lines: their cargo, and flags that tell about it and about the lines. */
  ghost predicate ReadSo(cargo: seq<Container>, errors: set<AlgError>, lines: seq<seq<string>>,
                         verifyId: string -> bool) {
    cargo == CargoOf(lines, verifyId) && FlagsTell(errors, cargo, verifyId) && LinesTell(errors, lines)
  }

  /** One more line. */
  method ReadNextLine(ghost front: seq<seq<string>>, fields: seq<string>, verifyId: string -> bool,
                      cargo: seq<Container>, errors: set<AlgError>)
      returns (cargo': seq<Container>, errors': set<AlgError>)
    requires ReadSo(cargo, errors, front, verifyId)
    ensures ReadSo(cargo', errors', front + [fields], verifyId)
  {
    CargoNext(front, fields, verifyId);
    cargo', errors' := ReadPortLine(fields, verifyId, cargo, errors);
    LinesMore(errors, front, fields, errors', verifyId);
  }

  /** The loop over the lines. Repeated ids are kept, and raise an error. */
  method ReadPortFile(dataList: seq<seq<string>>, verifyId: string -> bool)
      returns (cargo: seq<Container>, errors: set<AlgError>)
    ensures cargo == CargoOf(dataList, verifyId)
    ensures FlagsTell(errors, cargo, verifyId) && LinesTell(errors, dataList)
  {
    cargo, errors := [], {};
    for i := 0 to |dataList|
      invariant ReadSo(cargo, errors, dataList[..i], verifyId)
    {
      cargo, errors := ReadNextLine(dataList[..i], dataList[i], verifyId, cargo, errors);
      assert dataList[..i] + [dataList[i]] == dataList[..i + 1];
    }
    assert dataList[..|dataList|] == dataList;
  }

  lemma CargoNext(front: seq<seq<string>>, fields: seq<string>, verifyId: string -> bool)
    ensures CargoOf(front + [fields], verifyId) ==
            match ReadEntry(fields, verifyId).container
            case None => CargoOf(front, verifyId)
            case Some(x) => CargoOf(front, verifyId) + [x]
  {
    assert (front + [fields])[..|front|] == front;
  }

  method ReadEntryByBranches(fields: seq<string>, verifyId: string -> bool) returns (entry: Entry)
    ensures entry == ReadEntry(fields, verifyId)
  {
    if |fields| != 3 {
      return Entry(None, {CONTAINER_WEIGHT});
    }
    if |fields[0]| != ISO_ID_SIZE {
      return Entry(None, {CONTAINER_ID});
    }
    var errors: set<AlgError> := {};
    if !verifyId(fields[0]) {
      errors := errors + {CONTAINER_ID_ISO};
    }
    var good := VerifySeaportCode(fields[2]);
    if !good {
      errors := errors + {CONTAINER_PORT_DEST};
    }
    var weight := BAD_WEIGHT;
    var isNumber := CheckIsNumber(fields[1]);
    if !isNumber {
      errors := errors + {CONTAINER_WEIGHT};
    } else {
      NumberIsNat(fields[1]);
      weight := Stoi(fields[1]).value;
    }
    return Entry(Some(Container(fields[0], fields[2], weight)), errors);
  }

  // ----- ids that were read can be written and read again -----

  lemma {:induction false} SplitKeepsChars(line: string, del: char, ch: char)
    requires ch !in line
    ensures forall f :: f in Split(line, del) ==> ch !in f
    decreases |line|
  {
    var s := SkipSpaces(line);
    SkipKeepsChars(line, ch);
    if s != "" {
      var k := UpTo(s, del);
      var rest := if k < |s| then s[k + 1..] else "";
      SplitKeepsChars(rest, del, ch);
      TrimKeepsChars(s[..k], ch);
    }
  }

  lemma {:induction false} SkipKeepsChars(s: string, ch: char)
    requires ch !in s
    ensures ch !in SkipSpaces(s)
  {
    if s != "" && IsSpace(s[0]) {
      SkipKeepsChars(s[1..], ch);
    }
  }

  lemma TrimKeepsChars(s: string, ch: char)
    requires ch !in s
    ensures ch !in TrimRight(s)
  {
    assert TrimRight(s) <= s;
  }

  lemma {:induction false} WithoutCRHasNone(s: string, ch: char)
    ensures CR !in WithoutCR(s)
    ensures ch !in s ==> ch !in WithoutCR(s)
  {
    if s != "" {
      WithoutCRHasNone(s[1..], ch);
    }
  }

  predicate NoNL(lines: seq<string>) {
    forall l :: l in lines ==> NL !in l
  }

  lemma NoNLMore(line: string, lines: seq<string>)
    requires NL !in line && NoNL(lines)
    ensures NoNL([line] + lines)
  {
  }

  lemma {:induction false} LinesHaveNoNL(text: string)
    ensures NoNL(LinesOf(text))
    decreases |text|
  {
    if text != "" {
      var k := UpTo(text, NL);
      var rest := if k < |text| then text[k + 1..] else "";
      LinesHaveNoNL(rest);
      NoNLMore(text[..k], LinesOf(rest));
    }
  }

  lemma KeptLineIsPrintable(raw: string)
    requires NL !in raw
    ensures forall fields, f :: fields in KeptLine(raw) && f in fields ==> PrintableId(f)
  {
    var line := WithoutCR(raw);
    WithoutCRHasNone(raw, NL);
    SplitIsClean(line, COMMA);
    SplitKeepsChars(line, COMMA, CR);
    SplitKeepsChars(line, COMMA, NL);
  }

  /** Every field of a file can be printed and comes back. */
  lemma {:induction false} FieldsArePrintable(lines: seq<string>)
    requires NoNL(lines)
    ensures forall fields, f :: fields in ParseLines(lines) && f in fields ==> PrintableId(f)
  {
    if lines != [] {
      KeptLineIsPrintable(lines[0]);
      FieldsArePrintable(lines[1..]);
    }
  }

  /** So the planner's instructions about a cargo that was read from a file survive their file. */
  lemma CargoIsPrintable(text: string, verifyId: string -> bool)
    ensures forall x :: x in CargoOf(ParseLines(LinesOf(text)), verifyId) ==> PrintableId(x.id)
  {
    LinesHaveNoNL(text);
    FieldsArePrintable(LinesOf(text));
    var dataList := ParseLines(LinesOf(text));
    forall x | x in CargoOf(dataList, verifyId)
      ensures PrintableId(x.id)
    {
      var k :| 0 <= k < |dataList| && |dataList[k]| == 3 && dataList[k][0] == x.id;
      assert dataList[k] in dataList && dataList[k][0] in dataList[k];
    }
  }
}
