/** A travel from its files to its verdict: ship plan, route and cargo files are found and read,
    then the planner runs and is checked. */
module Travel {
  import opened Cargo
  import opened ShipSpec
  import opened Ordering
  import opened CraneText
  import opened Voyage
  import opened VoyageGrows
  import opened SimulationRun
  import opened RouteFile
  import opened ShipPlanFile
  import opened PortFiles
  import opened FileNames

  function DataOf(text: string): seq<seq<string>> {
    ParseLines(LinesOf(text))
  }

  function RouteOf(text: string): seq<string> {
    Compress(Codes(DataOf(text)))
  }

  /** The ship plan and the route have no fatal error. */
  ghost predicate CanRun(planText: string, routeText: string) {
    && SizeOf(DataOf(planText)).Some?
    && !Disagree(Verdicts(DataOf(planText)[1..], SizeOf(DataOf(planText)).value))
    && |RouteOf(routeText)| >= 2
  }

  /** The ship plan is the one that the text describes. */
  ghost predicate PlanRead(plan: ShipPlan, planText: string) {
    SizeOf(DataOf(planText)).Some? &&
    var size := SizeOf(DataOf(planText)).value;
    var vs := Verdicts(DataOf(planText)[1..], size);
    && plan.length == size.length && plan.width == size.width && plan.height == size.numFloors && ValidPlan(plan)
    && forall x, y :: InGrid(plan, x, y) ==> plan.floorStart[x][y] == FloorStart(vs, size.numFloors, x, y)
  }

  method ReadPlanAndRoute(planText: string, routeText: string) returns (plan: Option<ShipPlan>, route: seq<string>)
    requires SizeOf(DataOf(planText)).Some? ==> SizeOf(DataOf(planText)).value.numFloors <= INT_MAX
    ensures plan.Some? <==> CanRun(planText, routeText)
    ensures plan.Some? ==> PlanRead(plan.value, planText) && route == RouteOf(routeText)
  {
    var planData := ParseFileToVector(LinesOf(planText));
    var planErrors, routeData, routeErrors, ok;
    plan, planErrors := ReadShipPlan(planData);
    routeData := ParseFileToVector(LinesOf(routeText));
    route, routeErrors, ok := InputFileRoutesValidation(routeData);
    if SHIP_PLAN_DUPLICATE_XY in planErrors || !ok {
      plan := None;
    }
  }

  // ----- the cargo files of the stops -----

  /** A folder: the names of its entries in the order in which they are listed, and the texts of
      the files by their paths. */
  datatype Folder = Folder(path: string, names: seq<string>, texts: map<string, string>)

  ghost predicate Listed(folder: Folder) {
    NoPaths(folder.names) && forall name :: name in folder.names ==> PathOf(folder.path, name) in folder.texts
  }

  function EmptyPath(folder: Folder): string {
    PathOf(folder.path, EMPTY_CARGO_DATA_FILE)
  }

  /** The file at stop k. */
  function StopFile(route: seq<string>, folder: Folder, k: nat): PortFile
    requires k < |route|
  {
    FileFor(route, ScannedFiles(route, folder.path, folder.names), EmptyPath(folder), k)
  }

  /** What the checker knows of stop k: code and cargo are those of the stop's file if it has one;
      else the file is generated, the code is "empty" and nothing waits. */
  ghost predicate StopRead(route: seq<string>, folder: Folder, verifyId: string -> bool, k: nat, code: string,
                           cargo: seq<Container>)
    requires k < |route|
  {
    if HasFile(route, folder.names, k) then
      var path := StopFile(route, folder, k).path;
      code == route[k] && path in folder.texts && cargo == CargoOf(DataOf(folder.texts[path]), verifyId)
    else
      code == "empty" && cargo == []
  }

  /** A file that the scan takes is not the generated one, which has no visit in its name. */
  lemma WantedIsNotEmpty(routes: seq<string>, folder: string, name: string)
    requires IsWanted(routes, name)
    ensures PathOf(folder, name) != PathOf(folder, EMPTY_CARGO_DATA_FILE)
  {
    if PathOf(folder, name) == PathOf(folder, EMPTY_CARGO_DATA_FILE) {
      SameEnd(folder + "/", name, EMPTY_CARGO_DATA_FILE);
      EmptyHasNoVisit();
    }
  }

  lemma SameEnd(front: string, a: string, b: string)
    requires front + a == front + b
    ensures a == b
  {
    assert a == (front + a)[|front|..] && b == (front + b)[|front|..];
  }

  lemma EmptyHasNoVisit()
    ensures VisitIn(Before(EMPTY_CARGO_DATA_FILE, '.')) == -1
  {
    assert EMPTY_CARGO_DATA_FILE == "empty" + ['.'] + CARGO_DATA;
    BeforeAdded("empty", '.', CARGO_DATA);
    BeforeNothing("empty", '_');
    assert !IsDigit("empty"[0]);
  }

  /** The text of a stop's file. A file that was generated is empty, whatever stood there. */
  function StopText(folder: Folder, path: string): string
    requires path == EmptyPath(folder) || path in folder.texts
  {
    if path == EmptyPath(folder) then "" else folder.texts[path]
  }

  lemma StopHasText(route: seq<string>, folder: Folder, k: nat)
    requires k < |route| && Listed(folder)
    ensures var path := StopFile(route, folder, k).path;
            && (HasFile(route, folder.names, k) ==>
                path != EmptyPath(folder) && path in folder.texts && CodeIn(path) == route[k])
            && (!HasFile(route, folder.names, k) ==> path == EmptyPath(folder) && CodeIn(path) == "empty")
  {
    CodeAtStop(route, folder.path, folder.names, k);
    if HasFile(route, folder.names, k) {
      var name :| name in folder.names && IsWanted(route, name) &&
          StopFile(route, folder, k) == Scanned(folder.path, name);
      WantedIsNotEmpty(route, folder.path, name);
    }
  }

  lemma NothingInEmptyText(verifyId: string -> bool)
    ensures CargoOf(DataOf(""), verifyId) == []
  {
    assert LinesOf("") == [];
  }

  method ReadStop(route: seq<string>, folder: Folder, verifyId: string -> bool, k: nat, f: PortFile)
      returns (code: string, cargo: seq<Container>)
    requires Listed(folder) && k < |route| && f == StopFile(route, folder, k)
    ensures StopRead(route, folder, verifyId, k, code, cargo) && PrintableCargo(cargo)
  {
    StopHasText(route, folder, k);
    NothingInEmptyText(verifyId);
    var text := StopText(folder, f.path);
    code := CodeIn(f.path);
    var dataList := ParseFileToVector(LinesOf(text));
    var errors;
    cargo, errors := ReadPortFile(dataList, verifyId);
    CargoIsPrintable(text, verifyId);
  }

  method StopFiles(route: seq<string>, folder: Folder) returns (ports: seq<PortFile>)
    requires route != []
    ensures |ports| == |route| && forall k: nat :: k < |route| ==> ports[k] == StopFile(route, folder, k)
  {
    var files := ScanCargoFiles(route, folder.path, folder.names);
    var extra;
    ports, extra := OrganizePortFilesByRoutes(route, files, EmptyPath(folder));
  }

  /** What is known of the stops that were read so far. */
  ghost predicate StopsRead(route: seq<string>, folder: Folder, verifyId: string -> bool, codes: seq<string>,
                            cargos: seq<seq<Container>>) {
    |codes| == |cargos| <= |route| && forall k: nat :: k < |codes| ==>
        StopRead(route, folder, verifyId, k, codes[k], cargos[k])
  }

  lemma OneMoreStop(route: seq<string>, folder: Folder, verifyId: string -> bool, codes: seq<string>,
                    cargos: seq<seq<Container>>,
                    code: string, cargo: seq<Container>)
    requires StopsRead(route, folder, verifyId, codes, cargos) && |codes| < |route|
    requires StopRead(route, folder, verifyId, |codes|, code, cargo)
    ensures StopsRead(route, folder, verifyId, codes + [code], cargos + [cargo])
  {
    forall k: nat | k < |codes| + 1
      ensures StopRead(route, folder, verifyId, k, (codes + [code])[k], (cargos + [cargo])[k])
    {
      if k < |codes| {
        assert (codes + [code])[k] == codes[k] && (cargos + [cargo])[k] == cargos[k];
      }
    }
  }

  /** The cargo files are found in the folder, put to the stops, and read. */
  method ReadStops(route: seq<string>, folder: Folder, verifyId: string -> bool)
      returns (codes: seq<string>, cargos: seq<seq<Container>>)
    requires Listed(folder) && route != []
    ensures |codes| == |route| && StopsRead(route, folder, verifyId, codes, cargos) && AllPrintable(cargos)
  {
    var ports := StopFiles(route, folder);
    codes, cargos := [], [];
    for k := 0 to |route|
      invariant |codes| == k && StopsRead(route, folder, verifyId, codes, cargos) && AllPrintable(cargos)
    {
      var code, cargo := ReadStop(route, folder, verifyId, k, ports[k]);
      OneMoreStop(route, folder, verifyId, codes, cargos, code, cargo);
      codes, cargos := codes + [code], cargos + [cargo];
    }
  }

  // ----- the travel -----

  /** Each stop has its file, or no waiting container is destined for the code "empty". */
  ghost predicate NoneForEmpty(t: Trip, folder: Folder) {
    || (forall k: nat :: k < |t.route| ==> HasFile(t.route, folder.names, k))
    || (forall j, x :: 0 <= j < |t.cargos| && x in t.cargos[j] ==> x.dest != "empty")
  }

  lemma CodesAreApart(t: Trip, folder: Folder, verifyId: string -> bool)
    requires |t.codes| == |t.route| && StopsRead(t.route, folder, verifyId, t.codes, t.cargos) &&
             NoneForEmpty(t, folder)
    ensures CodesApart(t)
  {
    assert forall k: nat :: k < |t.route| ==> StopRead(t.route, folder, verifyId, k, t.codes[k], t.cargos[k]);
    assert forall k: nat :: k < |t.route| && t.codes[k] != t.route[k] ==>
           !HasFile(t.route, folder.names, k) && t.codes[k] == "empty";
  }

  /** The run is that of the texts: plan, route, and at each stop the code and the cargo. */
  ghost predicate RunOf(run: Trip, planText: string, routeText: string, folder: Folder, verifyId: string -> bool) {
    && ValidTrip(run) && PlanRead(run.plan, planText) && run.route == RouteOf(routeText)
    && run.verifyId == verifyId && |run.plans| == |run.route|
    && StopsRead(run.route, folder, verifyId, run.codes, run.cargos)
  }

  /** The travel, once ship plan and route are read. */
  method RunWith(sim: Simulation, algorithm: Algorithm, verifyId: string -> bool,
                 ghost planText: string, ghost routeText: string, folder: Folder,
                 plan: ShipPlan, route: seq<string>) returns (ghost run: Trip)
    requires PlanRead(plan, planText) && route == RouteOf(routeText) && route != [] && Listed(folder)
    modifies sim
    ensures RunOf(run, planText, routeText, folder, verifyId)
    ensures Recorded(run, sim.numErrors - old(sim.numErrors), sim.totalOperations - old(sim.totalOperations))
    ensures DistinctAcrossPorts(run) && NoneForEmpty(run, folder) ==> sim.numErrors == old(sim.numErrors)
  {
    var codes, cargos := ReadStops(route, folder, verifyId);
    run := sim.RunSingleTravel(algorithm, verifyId, plan, route, codes, cargos);
    assert run.plan == Begun(run).plan && run.route == Begun(run).route && run.codes == Begun(run).codes &&
           run.verifyId == Begun(run).verifyId;
    if NoneForEmpty(run, folder) {
      CodesAreApart(run, folder, verifyId);
    }
  }

  /** One travel from its texts to what is recorded of it. It runs exactly when the ship plan and
      the route have no fatal error. There is no error when no id waits at two stops and each stop
      has its file, or nothing waits for the code "empty". */
  method RunTravel(sim: Simulation, algorithm: Algorithm, verifyId: string -> bool,
                   planText: string, routeText: string, folder: Folder) returns (ran: bool, ghost t: Option<Trip>)
    requires SizeOf(DataOf(planText)).Some? ==> SizeOf(DataOf(planText)).value.numFloors <= INT_MAX
    requires Listed(folder)
    modifies sim
    ensures ran <==> CanRun(planText, routeText)
    ensures ran <==> t.Some?
    ensures !ran ==> sim.numErrors == old(sim.numErrors) && sim.totalOperations == old(sim.totalOperations)
    ensures ran ==>
              && RunOf(t.value, planText, routeText, folder, verifyId)
              && Recorded(t.value, sim.numErrors - old(sim.numErrors), sim.totalOperations - old(sim.totalOperations))
              && (DistinctAcrossPorts(t.value) && NoneForEmpty(t.value, folder) ==> sim.numErrors == old(sim.numErrors))
  {
    ran, t := false, None;
    var plan, route := ReadPlanAndRoute(planText, routeText);
    if plan.Some? {
      ghost var run := RunWith(sim, algorithm, verifyId, planText, routeText, folder, plan.value, route);
      ran, t := true, Some(run);
    }
  }
}
