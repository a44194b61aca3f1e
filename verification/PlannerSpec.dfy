/** What the stowage planner computes at one port, as functions over ship values. They follow
    the planner's loops step by step. Each emitted instruction takes effect through
    `Replay.Step`, which skips an instruction the checker would not accept, and where the
    source would index a tower that does not exist they emit `Blank`; PlannerFacts proves
    that neither ever happens. */
module PlannerSpec {
  import opened Cargo
  import opened ShipSpec
  import opened Replay

  /** The flags the planner can raise; a set of them stands for the source's bit mask. */
  datatype AlgError =
    | CONTAINER_DUPLICATE_ID_ON_PORT
    | CONTAINER_ID_ALREADY_ON_SHIP
    | CONTAINER_WEIGHT
    | CONTAINER_PORT_DEST
    | CONTAINER_ID
    | CONTAINER_ID_ISO
    | CONTAINERS_LAST_PORT_HAS_CONTAINERS
    | CONTAINERS_EXCEEDS_CAPACITY

  const BAD_WEIGHT := -1
  const SEAPORT_CODE_LEN := 5

  predicate IsLetter(ch: char) {
    'a' <= ch <= 'z' || 'A' <= ch <= 'Z'
  }

  predicate SeaportCode(code: string) {
    |code| == SEAPORT_CODE_LEN && forall k :: 0 <= k < |code| ==> IsLetter(code[k])
  }

  /** Where the planner stands: the route, the index of the current port in it, the code of
      the current port, and the ISO 6346 check of container ids. */
  datatype Stop = Stop(route: seq<string>, idx: nat, code: string, verifyId: string -> bool)

  /** The index of the next visit to dest from position i of the route on; |route| if there is none. */
  function NextVisit(route: seq<string>, i: nat, dest: string): (k: nat)
    ensures k < |route| ==> i <= k && route[k] == dest && forall j :: i <= j < k ==> route[j] != dest
    ensures k >= |route| ==> k == |route| && forall j :: i <= j < |route| ==> route[j] != dest
    decreases |route| - i
  {
    if i >= |route| then |route| else if route[i] == dest then i else NextVisit(route, i + 1, dest)
  }

  /** The next stop, after the current one, at which a container for dest can leave. */
  function NextStop(stop: Stop, dest: string): nat {
    NextVisit(stop.route, stop.idx + 1, dest)
  }

  predicate OnRoute(stop: Stop, dest: string) {
    NextStop(stop, dest) < |stop.route|
  }

  predicate LastPort(stop: Stop) {
    |stop.route| - 1 == stop.idx
  }

  // ----- choosing a tower -----

  datatype Spot = Spot(row: int, col: int)

  function OtherPorts(t: seq<Container>, code: string): set<string> {
    set x | x in t && x.dest != code :: x.dest
  }

  ghost function NumPortsOther(s: Stowage, r: int, c: int, code: string): nat
    requires Shaped(s) && InGrid(s.plan, r, c)
  {
    |OtherPorts(Tower(s, r, c), code)|
  }

  ghost predicate Candidate(s: Stowage, srcRow: int, srcCol: int, r: int, c: int)
    requires Shaped(s)
  {
    InGrid(s.plan, r, c) && !Full(s, r, c) && !(r == srcRow && c == srcCol)
  }

  /** The best tower so far, carried on from (r, c) to the end of the grid. */
  ghost function BestFrom(s: Stowage, srcRow: int, srcCol: int, dest: string, r: int, c: int,
                          best: Option<Spot>): Option<Spot>
    requires Shaped(s) && 0 <= r <= s.plan.length && 0 <= c <= s.plan.width
    requires best.Some? ==> InGrid(s.plan, best.value.row, best.value.col)
    decreases s.plan.length - r, s.plan.width - c
  {
    if r == s.plan.length then best
    else if c == s.plan.width then BestFrom(s, srcRow, srcCol, dest, r + 1, 0, best)
    else
      var better := Candidate(s, srcRow, srcCol, r, c) &&
                    (best.Some? ==>
                     NumPortsOther(s, r, c, dest) < NumPortsOther(s, best.value.row, best.value.col, dest));
      BestFrom(s, srcRow, srcCol, dest, r, c + 1, if better then Some(Spot(r, c)) else best)
  }

  ghost function BestTower(s: Stowage, srcRow: int, srcCol: int, dest: string): Option<Spot>
    requires Shaped(s)
  {
    BestFrom(s, srcRow, srcCol, dest, 0, 0, None)
  }

  // ----- the unload phase -----

  /** The planner's ship, the vector it takes from and puts to, and the list written so far. */
  datatype Work = Work(ship: Stowage, port: seq<Container>, list: seq<Instruction>)

  ghost function Emit(w: Work, i: Instruction): (w': Work)
    requires Shaped(w.ship)
    ensures Shaped(w'.ship) && w'.ship.plan == w.ship.plan
  {
    var o := Step(w.ship, w.port, i);
    Work(o.ship, o.port, w.list + [i])
  }

  /** Index of the lowest container of a tower that leaves at this port; |t| if none does. */
  function FirstDue(t: seq<Container>, code: string): (k: nat)
    ensures k <= |t| && (k < |t| ==> t[k].dest == code)
    ensures forall j :: 0 <= j < k ==> t[j].dest != code
  {
    if t == [] || t[0].dest == code then 0 else 1 + FirstDue(t[1..], code)
  }

  /** The instruction that takes container x off its tower at height h: a move while fewer
      containers were taken off than there was room elsewhere, else an unload. */
  ghost function DigInstruction(s: Stowage, row: int, col: int, x: Container, code: string, cap: int, top: int,
                                h: int): Instruction
    requires Shaped(s)
  {
    if top - h < cap && x.dest != code then
      match BestTower(s, row, col, x.dest)
      case Some(p) =>
        if InGrid(s.plan, p.row, p.col)
        then Move(row, col, h, p.row, p.col, Height(s, p.row, p.col), x.id)
        else Blank(row, col, h, x.id)
      case None => Blank(row, col, h, x.id)
    else Unload(row, col, h, x.id)
  }

  /** The tower's containers from height h down to floor are taken off one by one. */
  ghost function DigOut(w: Work, row: int, col: int, floor: int, code: string, cap: int, top: int, h: int): (w': Work)
    requires Shaped(w.ship) && InGrid(w.ship.plan, row, col)
    ensures Shaped(w'.ship) && w'.ship.plan == w.ship.plan
    decreases h - floor + 1
  {
    var k := h - w.ship.plan.floorStart[row][col];
    if h < floor || !(0 <= k < |Tower(w.ship, row, col)|) then w
    else
      var i := DigInstruction(w.ship, row, col, Tower(w.ship, row, col)[k], code, cap, top, h);
      DigOut(Emit(w, i), row, col, floor, code, cap, top, h - 1)
  }

  /** Everything from the top of the tower down to height floor is taken off. */
  ghost function RemoveAllAbove(w: Work, row: int, col: int, floor: int, code: string): (w': Work)
    requires Shaped(w.ship) && InGrid(w.ship.plan, row, col)
    ensures Shaped(w'.ship) && w'.ship.plan == w.ship.plan
  {
    var top := Height(w.ship, row, col) - 1;
    DigOut(w, row, col, floor, code, CapacityExcluding(w.ship, row, col), top, top)
  }

  /** The containers taken to the port that are not for it go back to their tower. */
  ghost function ReturnAll(w: Work, row: int, col: int, code: string, rest: seq<Container>): (w': Work)
    requires Shaped(w.ship) && InGrid(w.ship.plan, row, col)
    ensures Shaped(w'.ship) && w'.ship.plan == w.ship.plan
    decreases |rest|
  {
    if rest == [] then w
    else if rest[0].dest == code then ReturnAll(w, row, col, code, rest[1..])
    else
      var i := Load(row, col, Height(w.ship, row, col), rest[0].id);
      ReturnAll(Emit(w, i), row, col, code, rest[1..])
  }

  /** One tower of the unload scan. The port vector of the result holds what left the ship. */
  ghost function UnloadTower(s: Stowage, list: seq<Instruction>, row: int, col: int, code: string): (w: Work)
    requires Shaped(s) && InGrid(s.plan, row, col)
    ensures Shaped(w.ship) && w.ship.plan == s.plan
  {
    var t := Tower(s, row, col);
    var k := FirstDue(t, code);
    if k == |t| then Work(s, [], list)
    else
      var dug := RemoveAllAbove(Work(s, [], list), row, col, s.plan.floorStart[row][col] + k, code);
      ReturnAll(dug, row, col, code, dug.port)
  }

  datatype Scan = Scan(ship: Stowage, list: seq<Instruction>)

  ghost function UnloadFrom(s: Stowage, list: seq<Instruction>, code: string, r: int, c: int): (u: Scan)
    requires Shaped(s) && 0 <= r <= s.plan.length && 0 <= c <= s.plan.width
    ensures Shaped(u.ship) && u.ship.plan == s.plan
    decreases s.plan.length - r, s.plan.width - c
  {
    if r == s.plan.length then Scan(s, list)
    else if c == s.plan.width then UnloadFrom(s, list, code, r + 1, 0)
    else
      var w := UnloadTower(s, list, r, c, code);
      UnloadFrom(w.ship, w.list, code, r, c + 1)
  }

  // ----- the load phase -----

  ghost function CheckBeforeLoad(x: Container, before: Stowage, stop: Stop): set<AlgError>
    requires Shaped(before)
  {
    (if Aboard(before, x.id) then {CONTAINER_ID_ALREADY_ON_SHIP} else {})
    + (if !stop.verifyId(x.id) then {CONTAINER_ID_ISO} else {})
    + (if x.weight == BAD_WEIGHT then {CONTAINER_WEIGHT} else {})
    + (if !SeaportCode(x.dest) then {CONTAINER_PORT_DEST} else {})
  }

  datatype Choice = Choice(instruction: Instruction, errors: set<AlgError>)

  ghost function NextLoad(s: Stowage, x: Container, before: Stowage, stop: Stop): Choice
    requires Shaped(s) && Shaped(before)
  {
    var errors := CheckBeforeLoad(x, before, stop);
    if errors != {} || !OnRoute(stop, x.dest) then
      Choice(Reject(0, 0, Height(s, 0, 0), x.id), errors)
    else
      match BestTower(s, -1, -1, x.dest)
      case None => Choice(Reject(0, 0, 0, x.id), errors + {CONTAINERS_EXCEEDS_CAPACITY})
      case Some(p) =>
        if InGrid(s.plan, p.row, p.col)
        then Choice(Load(p.row, p.col, Height(s, p.row, p.col), x.id), errors)
        else Choice(Blank(0, 0, 0, x.id), errors)
  }

  /** The instruction for the next container of the ordered cargo, given the ones loaded so far. */
  ghost function Decide(s: Stowage, x: Container, loaded: seq<Container>, before: Stowage, stop: Stop): Choice
    requires Shaped(s) && Shaped(before)
  {
    if x.dest == stop.code then Choice(Reject(0, 0, 0, x.id), {CONTAINER_ID})
    else if IndexOf(loaded, x.id) != NOT_FOUND then Choice(Reject(0, 0, 0, x.id), {CONTAINER_DUPLICATE_ID_ON_PORT})
    else NextLoad(s, x, before, stop)
  }

  datatype Loading = Loading(work: Work, loaded: seq<Container>, errors: set<AlgError>)

  ghost function LoadOne(l: Loading, x: Container, before: Stowage, stop: Stop): (l': Loading)
    requires Shaped(l.work.ship) && Shaped(before)
    ensures Shaped(l'.work.ship) && l'.work.ship.plan == l.work.ship.plan
  {
    var d := Decide(l.work.ship, x, l.loaded, before, stop);
    Loading(Emit(l.work, d.instruction),
            if d.instruction.Reject? then l.loaded else l.loaded + [x],
            l.errors + d.errors)
  }

  ghost function LoadAll(l: Loading, before: Stowage, stop: Stop, rest: seq<Container>): (l': Loading)
    requires Shaped(l.work.ship) && Shaped(before)
    ensures Shaped(l'.work.ship) && l'.work.ship.plan == l.work.ship.plan
    decreases |rest|
  {
    if rest == [] then l else LoadAll(LoadOne(l, rest[0], before, stop), before, stop, rest[1..])
  }

  // ----- one port -----

  datatype PortPlan = PortPlan(ship: Stowage, list: seq<Instruction>, errors: set<AlgError>)

  /** The planner's whole work at one port: cargo as it was read, and in the order in which
      the algorithm puts it. */
  ghost function PlanPort(s: Stowage, stop: Stop, cargo: seq<Container>, ordered: seq<Container>): (p: PortPlan)
    requires Shaped(s)
    ensures Shaped(p.ship) && p.ship.plan == s.plan
  {
    var u := UnloadFrom(s, [], stop.code, 0, 0);
    if LastPort(stop) && cargo != [] then PortPlan(u.ship, u.list, {CONTAINERS_LAST_PORT_HAS_CONTAINERS})
    else
      var l := LoadAll(Loading(Work(u.ship, cargo, u.list), [], {}), s, stop, ordered);
      PortPlan(l.work.ship, l.work.list, l.errors)
  }
}
