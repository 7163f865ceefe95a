/** The work dispatcher of RimWorld's think tree (RimWorld/JobGiver_Work.cs): for one
    pawn it walks an ordered list of work givers and hands out at most one job.

    Engine collaborators are oracles: a giver's answers for THIS pawn (ShouldSkip,
    NonScanJob, HasJobOnThing/Cell, GetPriority, JobOnThing/Cell, CanReach, GenClosest)
    are function-valued fields of `Giver` and `Scanner`, and the pawn's view of the map
    (forbidden cells and things, things lying on a cell) is a `PawnView`. */
module JobGiverWork {
  import opened Common

  // ---------------------------------------------------------------------------
  // Data model
  // ---------------------------------------------------------------------------

  /** A map cell; only the horizontal coordinates take part in distances. */
  datatype Cell = Cell(x: int, z: int)

  /** IntVec3.LengthHorizontalSquared of `a - b`. */
  function DistSquared(a: Cell, b: Cell): (d: int)
    ensures d >= 0
    ensures d == 0 <==> a == b
  {
    (a.x - b.x) * (a.x - b.x) + (a.z - b.z) * (a.z - b.z)
  }

  datatype Thing = Thing(id: nat, position: Cell)

  /** A valid TargetInfo: either a thing or a cell. `TargetInfo.Invalid` is `None`. */
  datatype Target = ThingTarget(thing: Thing) | CellTarget(cell: Cell)

  datatype JobDef = RemoveRoofJob | OtherJobDef(defName: string)

  datatype Job = Job(def: JobDef, targetA: Target, targetB: Target, playerForced: bool)

  type JobTag = string
  type WorkType = string
  type WorkTag = nat

  datatype PathEndMode = OnCell | Touch | ClosestTouch | InteractionCell

  /** The three GenClosest entry points the thing scan can use. */
  datatype ClosestSearch = ClosestThingGlobal | ClosestThingGlobalReachable | ClosestThingReachable

  /** Where GenClosest looks: the giver's own enumeration, or the map's lister of things
      matching the giver's PotentialWorkThingRequest. */
  datatype SearchSet = Given(things: seq<Thing>) | ByThingRequest

  /** One GenClosest call as the thing scan issues it. */
  datatype ThingQuery = ThingQuery(search: ClosestSearch, searchSet: SearchSet, maxDistance: real, byPriority: bool)

  /** A WorkGiver_Scanner's answers for the pawn being served. */
  datatype Scanner = Scanner(
    prioritized: bool,
    allowUnreachable: bool,
    pathEndMode: PathEndMode,
    potentialThings: Option<seq<Thing>>,     // PotentialWorkThingsGlobal; None is null
    closestThing: ThingQuery -> Option<Thing>, // GenClosest's answer (see ClosestWorkThing)
    potentialCells: seq<Cell>,               // PotentialWorkCellsGlobal
    hasJobOnCell: Cell -> bool,
    canReachCell: Cell -> bool,              // pawn.CanReach(c, PathEndMode, MaxPathDanger)
    cellPriority: Cell -> real,              // GetPriority(pawn, cell)
    acceptsThing: Thing -> bool,             // PotentialWorkThingRequest.Accepts
    hasJobOnThing: Thing -> bool,
    jobOnThing: Thing -> Option<Job>,
    jobOnCell: Cell -> Option<Job>)

  /** The content-defined part of a work giver (WorkGiverDef). */
  datatype GiverDef = GiverDef(
    defName: string,
    priorityInType: int,
    tagToGive: JobTag,
    workType: WorkType,
    nonColonistsCanDo: bool,
    workTags: set<WorkTag>,
    scanThings: bool,
    scanCells: bool)

  /** Where, if anywhere, evaluating a giver throws. `CellScanFault(at)` throws when the
      cell scan reaches its cell number `at` (cells before it have been examined). */
  datatype Fault = NoFault | NonScanFault | ThingScanFault | CellScanFault(at: nat)

  /** A work giver as the dispatcher sees it for one pawn. `scanner` is None for a giver
      that is not a WorkGiver_Scanner. */
  datatype Giver = Giver(
    def: GiverDef,
    shouldSkip: bool,
    missingCapacity: bool,   // MissingRequiredCapacity(pawn) != null
    nonScanJob: Option<Job>,
    scanner: Option<Scanner>,
    fault: Fault)

  /** Pawn_WorkSettings: EverWork and the two giver orderings. */
  datatype WorkSettings = WorkSettings(everWork: bool, giversNormal: seq<Giver>, giversEmergency: seq<Giver>)

  datatype PawnView = PawnView(
    name: string,
    position: Cell,
    isColonist: bool,
    workTagsDisabled: Option<set<WorkTag> -> bool>, // pawn.story.WorkTagIsDisabled; None when story is null
    workSettings: Option<WorkSettings>,
    forbiddenCell: Cell -> bool,
    forbiddenThing: Thing -> bool,
    thingsAt: Cell -> seq<Thing>)         // cell.GetThingList(map)

  datatype TimeAssignment = Anything | Work | Sleep | Joy | OtherAssignment(defName: string)

  /** The forced-work override (pawn.mindState.priorityWork) while it is prioritized. */
  datatype PriorityWork = PriorityWork(cell: Cell, workGiversByPriority: seq<Giver>)

  /** What TryIssueJobPackage gives: no job, a job with its tag, or the exception it
      throws when it reaches the giver lists of a pawn without work settings. */
  datatype ThinkResult = NoJob | JobResult(job: Job, tag: JobTag) | NullWorkSettingsThrown

  const ErrorOnceKeyNoJob := 6112651

  // ---------------------------------------------------------------------------
  // GetPriority
  // ---------------------------------------------------------------------------

  /** ThinkNode priority of working: 0 for a pawn that never works, otherwise given by the
      current time assignment (no timetable counts as Anything); an assignment outside the
      four known ones throws NotImplementedException. */
  function GetPriority(workSettings: Option<WorkSettings>, currentAssignment: Option<TimeAssignment>): (r: Result<real>)
    ensures (workSettings.None? || !workSettings.value.everWork) ==> r == Ok(0.0)
    ensures workSettings.Some? && workSettings.value.everWork ==>
      (r.Exception? <==> currentAssignment.Some? && currentAssignment.value.OtherAssignment?)
    ensures workSettings.Some? && workSettings.value.everWork && r.Ok? ==>
      r.value == (if currentAssignment.None? || currentAssignment.value == Anything then 5.5
                  else if currentAssignment.value == Work then 9.0
                  else 2.0)
  {
    if workSettings.None? || !workSettings.value.everWork then Ok(0.0)
    else
      var a := if currentAssignment.Some? then currentAssignment.value else Anything;
      if a == Anything then Ok(5.5)
      else if a == Work then Ok(9.0)
      else if a == Sleep then Ok(2.0)
      else if a == Joy then Ok(2.0)
      else Exception("NotImplementedException")
  }

  // ---------------------------------------------------------------------------
  // Usability of a giver and the thing scan's GenClosest call
  // ---------------------------------------------------------------------------

  /** PawnCanUseWorkGiver: colonist-only givers need a colonist, the giver's work tags must
      not be disabled by the pawn's story, the giver must not skip and must not miss a
      required capacity. */
  predicate CanUse(p: PawnView, g: Giver)
    ensures CanUse(p, g) && !p.isColonist ==> g.def.nonColonistsCanDo
    ensures g.shouldSkip || g.missingCapacity ==> !CanUse(p, g)
    ensures p.workTagsDisabled.Some? && p.workTagsDisabled.value(g.def.workTags) ==> !CanUse(p, g)
    ensures p.isColonist && p.workTagsDisabled.None? && !g.shouldSkip && !g.missingCapacity ==> CanUse(p, g)
  {
    (g.def.nonColonistsCanDo || p.isColonist)
    && (p.workTagsDisabled.None? || !p.workTagsDisabled.value(g.def.workTags))
    && !g.shouldSkip
    && !g.missingCapacity
  }

  /** The GenClosest call of the thing scan: prioritized scanners rank things by priority,
      scanners that allow unreachable targets search globally up to 99999, the others only
      reachable things up to 9999; a null PotentialWorkThingsGlobal falls back to the things
      matching the giver's thing request. */
  function ThingQueryFor(s: Scanner): (q: ThingQuery)
    ensures q.byPriority <==> s.prioritized
    ensures q.search == ClosestThingGlobal <==> s.allowUnreachable
    ensures q.search == ClosestThingReachable <==> !s.prioritized && !s.allowUnreachable
    ensures q.maxDistance == (if s.allowUnreachable then 99999.0 else 9999.0)
    ensures q.searchSet == (if s.potentialThings.Some? then Given(s.potentialThings.value) else ByThingRequest)
  {
    var searchSet := if s.potentialThings.Some? then Given(s.potentialThings.value) else ByThingRequest;
    if s.prioritized then
      if s.allowUnreachable then ThingQuery(ClosestThingGlobal, searchSet, 99999.0, true)
      else ThingQuery(ClosestThingGlobalReachable, searchSet, 9999.0, true)
    else if s.allowUnreachable then ThingQuery(ClosestThingGlobal, searchSet, 99999.0, false)
    else ThingQuery(ClosestThingReachable, searchSet, 9999.0, false)
  }

  /** The thing the thing scan finds. GenClosest only answers with a thing of its search set
      (the giver's enumeration, or the things matching its request) that passes the scan's
      validator: not forbidden for the pawn and HasJobOnThing. Any other answer of the
      oracle is read as null. */
  function ClosestWorkThing(p: PawnView, s: Scanner): (r: Option<Thing>)
    ensures r.Some? ==> !p.forbiddenThing(r.value) && s.hasJobOnThing(r.value)
    ensures r.Some? && s.potentialThings.Some? ==> r.value in s.potentialThings.value
    ensures r.Some? && s.potentialThings.None? ==> s.acceptsThing(r.value)
    ensures r.Some? ==> r == s.closestThing(ThingQueryFor(s))
  {
    var t := s.closestThing(ThingQueryFor(s));
    if t.Some? && !p.forbiddenThing(t.value) && s.hasJobOnThing(t.value)
       && (if s.potentialThings.Some? then t.value in s.potentialThings.value else s.acceptsThing(t.value))
    then t
    else None
  }

  // ---------------------------------------------------------------------------
  // The cell scan
  // ---------------------------------------------------------------------------

  /** The running record of the cell scan: the flagged cell, its squared distance (num2)
      and its priority (num3). */
  datatype CellBest = CellBest(best: Option<Cell>, num2: real, num3: real)

  /** -3.40282347E+38, the lowest float. */
  const MinFloat: real := -340282347000000000000000000000000000000.0

  const InitialCellBest := CellBest(None, 99999.0, MinFloat)

  function CellDist(p: PawnView, c: Cell): real
  {
    DistSquared(c, p.position) as real
  }

  /** The priority a flagged cell records: GetPriority for a prioritized scanner, else 0. */
  function CellPrio(s: Scanner, c: Cell): real
  {
    if s.prioritized then s.cellPriority(c) else 0.0
  }

  /** A cell the scan may take at all: not forbidden, with a job, and reachable unless the
      scanner allows unreachable targets. */
  predicate Eligible(p: PawnView, s: Scanner, c: Cell)
  {
    !p.forbiddenCell(c) && s.hasJobOnCell(c) && (s.allowUnreachable || s.canReachCell(c))
  }

  /** Whether a cell with priority `pr` at squared distance `d` replaces the record
      (`num3`, `num2`): by higher priority, then by nearer distance, when prioritized;
      by nearer distance alone otherwise. */
  predicate Beats(prioritized: bool, pr: real, d: real, num3: real, num2: real)
  {
    if prioritized then pr > num3 || (pr == num3 && d < num2) else d < num2
  }

  predicate Better(p: PawnView, s: Scanner, a: Cell, b: Cell)
  {
    Beats(s.prioritized, CellPrio(s, a), CellDist(p, a), CellPrio(s, b), CellDist(p, b))
  }

  /** One iteration of the cell loop. */
  function CellStep(p: PawnView, s: Scanner, st: CellBest, c: Cell): (r: CellBest)
    ensures r == (if Eligible(p, s, c) && Beats(s.prioritized, CellPrio(s, c), CellDist(p, c), st.num3, st.num2)
                  then CellBest(Some(c), CellDist(p, c), CellPrio(s, c)) else st)
  {
    var num4 := CellDist(p, c);
    if s.prioritized then
      if !p.forbiddenCell(c) && s.hasJobOnCell(c) then
        if !s.allowUnreachable && !s.canReachCell(c) then st
        else
          var num5 := s.cellPriority(c);
          if num5 > st.num3 || (num5 == st.num3 && num4 < st.num2) then CellBest(Some(c), num4, num5) else st
      else st
    else if num4 < st.num2 && !p.forbiddenCell(c) && s.hasJobOnCell(c) then
      if !s.allowUnreachable && !s.canReachCell(c) then st else CellBest(Some(c), num4, 0.0)
    else st
  }

  /** The cell loop over `cells`, starting from the record `st`. */
  function ScanCellsFrom(p: PawnView, s: Scanner, cells: seq<Cell>, st: CellBest): CellBest
    decreases |cells|
  {
    if |cells| == 0 then st else ScanCellsFrom(p, s, cells[1..], CellStep(p, s, st, cells[0]))
  }

  /** Reference definition of the cell the scan should pick: the earliest eligible cell
      that no eligible cell beats. */
  function FirstBest(p: PawnView, s: Scanner, cells: seq<Cell>): Option<Cell>
    decreases |cells|
  {
    if |cells| == 0 then None
    else
      var rest := FirstBest(p, s, cells[1..]);
      if Eligible(p, s, cells[0]) && (rest.None? || !Better(p, s, rest.value, cells[0])) then Some(cells[0])
      else rest
  }

  /** The cells a scan examines before a CellScanFault throws. */
  function CellsExamined(s: Scanner, fault: Fault): (cells: seq<Cell>)
    ensures cells <= s.potentialCells
    ensures |cells| < |s.potentialCells| <==> CellFaultHits(s, fault)
  {
    if CellFaultHits(s, fault) then s.potentialCells[..fault.at] else s.potentialCells
  }

  predicate CellFaultHits(s: Scanner, fault: Fault)
  {
    fault.CellScanFault? && fault.at < |s.potentialCells|
  }

  lemma BeatsTransitive(pri: bool, a3: real, a2: real, b3: real, b2: real, c3: real, c2: real)
    requires Beats(pri, a3, a2, b3, b2) && Beats(pri, b3, b2, c3, c2)
    ensures Beats(pri, a3, a2, c3, c2)
  {
  }

  /** A rank no worse than one that beats a record beats it too. */
  lemma NotBeatenBeats(pri: bool, a3: real, a2: real, b3: real, b2: real, c3: real, c2: real)
    requires !Beats(pri, b3, b2, a3, a2) && Beats(pri, b3, b2, c3, c2)
    ensures Beats(pri, a3, a2, c3, c2)
  {
  }

  /** The cell loop run from any record ends on the reference pick if that pick beats the
      starting record, and on the starting record otherwise. */
  lemma {:induction false} ScanCellsFromFirstBest(p: PawnView, s: Scanner, cells: seq<Cell>, st: CellBest)
    ensures var b := FirstBest(p, s, cells);
      ScanCellsFrom(p, s, cells, st)
        == if b.Some? && Beats(s.prioritized, CellPrio(s, b.value), CellDist(p, b.value), st.num3, st.num2)
           then CellBest(b, CellDist(p, b.value), CellPrio(s, b.value))
           else st
    decreases |cells|
  {
    if |cells| > 0 {
      var c := cells[0];
      var st1 := CellStep(p, s, st, c);
      ScanCellsFromFirstBest(p, s, cells[1..], st1);
      var rest := FirstBest(p, s, cells[1..]);
      if rest.Some? {
        var r := rest.value;
        if Eligible(p, s, c) && Beats(s.prioritized, CellPrio(s, c), CellDist(p, c), st.num3, st.num2) {
          if Better(p, s, r, c) {
            BeatsTransitive(s.prioritized, CellPrio(s, r), CellDist(p, r), CellPrio(s, c), CellDist(p, c), st.num3, st.num2);
          }
        } else if Eligible(p, s, c) && !Better(p, s, r, c) {
          if Beats(s.prioritized, CellPrio(s, r), CellDist(p, r), st.num3, st.num2) {
            NotBeatenBeats(s.prioritized, CellPrio(s, c), CellDist(p, c), CellPrio(s, r), CellDist(p, r), st.num3, st.num2);
          }
        }
      }
    }
  }

  /** The scan's pick, from the initial record (priority -3.40282347E+38, distance 99999),
      is the reference pick exactly when that pick beats the initial record. */
  lemma CellScanPicksFirstBest(p: PawnView, s: Scanner, cells: seq<Cell>)
    ensures var b := FirstBest(p, s, cells);
      ScanCellsFrom(p, s, cells, InitialCellBest).best
        == if b.Some? && Beats(s.prioritized, CellPrio(s, b.value), CellDist(p, b.value), MinFloat, 99999.0) then b else None
  {
    ScanCellsFromFirstBest(p, s, cells, InitialCellBest);
  }

  /** The reference pick is an eligible cell of the list, and there is one whenever the
      list has an eligible cell. */
  lemma {:induction false} FirstBestEligible(p: PawnView, s: Scanner, cells: seq<Cell>)
    ensures FirstBest(p, s, cells).Some? ==> FirstBest(p, s, cells).value in cells && Eligible(p, s, FirstBest(p, s, cells).value)
    ensures FirstBest(p, s, cells).None? <==> forall c :: c in cells ==> !Eligible(p, s, c)
    decreases |cells|
  {
    if |cells| > 0 {
      FirstBestEligible(p, s, cells[1..]);
      assert forall c :: c in cells ==> c == cells[0] || c in cells[1..];
    }
  }

  /** No eligible cell of the list beats the reference pick. */
  lemma {:induction false} FirstBestNotBeaten(p: PawnView, s: Scanner, cells: seq<Cell>, c: Cell)
    requires FirstBest(p, s, cells).Some?
    requires c in cells && Eligible(p, s, c)
    ensures !Better(p, s, c, FirstBest(p, s, cells).value)
    decreases |cells|
  {
    var rest := FirstBest(p, s, cells[1..]);
    if c != cells[0] {
      assert c in cells[1..];
      FirstBestEligible(p, s, cells[1..]);
      FirstBestNotBeaten(p, s, cells[1..], c);
      if FirstBest(p, s, cells) == Some(cells[0]) {
        var r := rest.value;
        if Better(p, s, c, cells[0]) {
          NotBeatenBeats(s.prioritized, CellPrio(s, r), CellDist(p, r), CellPrio(s, c), CellDist(p, c), CellPrio(s, cells[0]), CellDist(p, cells[0]));
        }
      }
    } else if FirstBest(p, s, cells) != Some(cells[0]) {
      assert rest.Some? && Better(p, s, rest.value, cells[0]);
      if Better(p, s, c, rest.value) {
        BeatsTransitive(s.prioritized, CellPrio(s, c), CellDist(p, c), CellPrio(s, rest.value), CellDist(p, rest.value), CellPrio(s, c), CellDist(p, c));
      }
    }
  }

  /** Ties go to the earlier cell: the reference pick beats every eligible cell listed
      before its first occurrence. */
  lemma {:induction false} FirstBestWinsTies(p: PawnView, s: Scanner, cells: seq<Cell>, i: nat)
    requires FirstBest(p, s, cells).Some?
    requires i < |cells| && Eligible(p, s, cells[i])
    requires forall j :: 0 <= j <= i ==> cells[j] != FirstBest(p, s, cells).value
    ensures Better(p, s, FirstBest(p, s, cells).value, cells[i])
    decreases |cells|
  {
    if i > 0 {
      FirstBestWinsTies(p, s, cells[1..], i - 1);
    }
  }

  /** Without priorities, a cell at squared distance 99999 or more is never picked. */
  lemma FarCellNeverPicked(p: PawnView, s: Scanner, cells: seq<Cell>, c: Cell)
    requires !s.prioritized && CellDist(p, c) >= 99999.0
    ensures ScanCellsFrom(p, s, cells, InitialCellBest).best != Some(c)
  {
    CellScanPicksFirstBest(p, s, cells);
  }

  // ---------------------------------------------------------------------------
  // One giver of the normal scan, and the scan over the giver list
  // ---------------------------------------------------------------------------

  /** A target that some scanner found, with that scanner (targetInfo, workGiver_Scanner). */
  datatype Held = Held(target: Target, scanner: Scanner)

  /** The state carried from giver to giver: the tier of the last usable giver (num), the
      held target, the pawn's lastGivenWorkType and the log. */
  datatype LoopState = LoopState(num: int, held: Option<Held>, lastGiven: Option<WorkType>, log: Log)

  datatype Outcome = Outcome(result: ThinkResult, lastGiven: Option<WorkType>, log: Log)

  datatype Step = Return(outcome: Outcome) | Continue(state: LoopState)

  const InitialNum := -999

  function ExceptionText(p: PawnView, g: Giver): string
  {
    p.name + " threw exception in WorkGiver " + g.def.defName
  }

  function NoJobText(p: PawnView): string
  {
    "a work giver provided a target but no job for pawn " + p.name
  }

  /** Whether evaluating the usable giver `g` throws inside the try block. */
  predicate Throws(g: Giver)
  {
    g.fault == NonScanFault
    || (g.nonScanJob.None? && g.scanner.Some?
        && ((g.def.scanThings && g.fault == ThingScanFault)
            || (g.def.scanCells && CellFaultHits(g.scanner.value, g.fault))))
  }

  /** What the scans of one usable giver find on their own: the last flagged cell if the
      cell scan flagged one, else the closest thing; nothing once the giver has thrown
      before finding, or for a giver that returned a non-scan job or is no scanner. */
  function FoundBy(p: PawnView, g: Giver): (r: Option<Held>)
    ensures r.Some? ==> g.scanner.Some? && r.value.scanner == g.scanner.value
    ensures r.Some? && r.value.target.CellTarget? ==> g.def.scanCells && Eligible(p, g.scanner.value, r.value.target.cell)
    ensures r.Some? && r.value.target.ThingTarget?
        ==> g.def.scanThings && !p.forbiddenThing(r.value.target.thing) && r.value.scanner.hasJobOnThing(r.value.target.thing)
  {
    if g.fault == NonScanFault || g.nonScanJob.Some? || g.scanner.None? then None
    else
      var s := g.scanner.value;
      if g.def.scanThings && g.fault == ThingScanFault then None
      else
        var thing := if g.def.scanThings then ClosestWorkThing(p, s) else None;
        var cell := if g.def.scanCells then ScanCellsFrom(p, s, CellsExamined(s, g.fault), InitialCellBest).best else None;
        if cell.Some? then
          CellScanPicksFirstBest(p, s, CellsExamined(s, g.fault));
          FirstBestEligible(p, s, CellsExamined(s, g.fault));
          Some(Held(CellTarget(cell.value), s))
        else if thing.Some? then Some(Held(ThingTarget(thing.value), s))
        else None
  }

  /** A cell flagged by a scanner's cell scan replaces the thing its own thing scan found;
      the cell scan starts from the initial record for every scanner. */
  lemma CellOverridesOwnThing(p: PawnView, g: Giver, c: Cell)
    requires g.scanner.Some? && g.def.scanCells
    requires ScanCellsFrom(p, g.scanner.value, CellsExamined(g.scanner.value, g.fault), InitialCellBest).best == Some(c)
    requires Throws(g) ==> g.fault.CellScanFault?
    requires g.nonScanJob.None?
    ensures FoundBy(p, g) == Some(Held(CellTarget(c), g.scanner.value))
  {
  }

  /** JobOnThing or JobOnCell of the scanner that found the held target. */
  function JobFor(h: Held): Option<Job>
  {
    match h.target
    case ThingTarget(t) => h.scanner.jobOnThing(t)
    case CellTarget(c) => h.scanner.jobOnCell(c)
  }

  /** The code after the try block: a held target makes the giver's work type the last
      given one and is turned into a job by the scanner that found it; if that yields no
      job the failure is logged once (key 6112651) and the scan goes on. */
  function AfterTry(p: PawnView, g: Giver, st: LoopState): Step
  {
    if st.held.Some? then
      var last := Some(g.def.workType);
      var job := JobFor(st.held.value);
      if job.Some? then Return(Outcome(JobResult(job.value, g.def.tagToGive), last, st.log))
      else Continue(LoopState(g.def.priorityInType, st.held, last, st.log.ErrorOnce(NoJobText(p), ErrorOnceKeyNoJob)))
    else Continue(st.(num := g.def.priorityInType))
  }

  /** One usable giver of the normal scan. */
  function GiverStep(p: PawnView, g: Giver, st: LoopState): Step
  {
    if g.fault != NonScanFault && g.nonScanJob.Some? then
      Return(Outcome(JobResult(g.nonScanJob.value, g.def.tagToGive), st.lastGiven, st.log))
    else
      var found := FoundBy(p, g);
      AfterTry(p, g, st.(held := if found.Some? then found else st.held,
                         log := if Throws(g) then st.log.Error(ExceptionText(p, g)) else st.log))
  }

  /** The normal scan over the ordered giver list: it stops with no job at the first giver
      of another tier once a target is held, skips givers the pawn cannot use, and
      returns the first job a giver yields. */
  function ScanGivers(p: PawnView, gs: seq<Giver>, st: LoopState): Outcome
    decreases |gs|
  {
    if |gs| == 0 then Outcome(NoJob, st.lastGiven, st.log)
    else if gs[0].def.priorityInType != st.num && st.held.Some? then Outcome(NoJob, st.lastGiven, st.log)
    else if !CanUse(p, gs[0]) then ScanGivers(p, gs[1..], st)
    else
      match GiverStep(p, gs[0], st)
      case Return(o) => o
      case Continue(st1) => ScanGivers(p, gs[1..], st1)
  }

  function InitialLoopState(last: Option<WorkType>, log: Log): LoopState
  {
    LoopState(InitialNum, None, last, log)
  }

  // ---------------------------------------------------------------------------
  // The forced-work path (GiverTryGiveJobPrioritized) and the whole package
  // ---------------------------------------------------------------------------

  datatype Attempt = Attempt(job: Option<Job>, lastGiven: Option<WorkType>, log: Log)

  /** The first thing on the cell the scanner accepts, that is not forbidden and that has a job. */
  function FirstWorkThing(p: PawnView, s: Scanner, things: seq<Thing>): (r: Option<Thing>)
    ensures r.Some? ==> r.value in things && s.acceptsThing(r.value) && !p.forbiddenThing(r.value) && s.hasJobOnThing(r.value)
    ensures r.None? ==> forall t :: t in things ==> !(s.acceptsThing(t) && !p.forbiddenThing(t) && s.hasJobOnThing(t))
    decreases |things|
  {
    if |things| == 0 then None
    else if s.acceptsThing(things[0]) && !p.forbiddenThing(things[0]) && s.hasJobOnThing(things[0]) then Some(things[0])
    else
      assert forall t :: t in things ==> t == things[0] || t in things[1..];
      FirstWorkThing(p, s, things[1..])
  }

  function TargetedExceptionText(p: PawnView, g: Giver): string
  {
    p.name + " threw exception in GiverTryGiveJobTargeted on WorkGiver " + g.def.defName
  }

  /** Whether the targeted attempt of a usable giver throws. The attempt throws where it
      reaches the failing call: a NonScanFault at once; a ThingScanFault when the loop over
      the cell's things examines its first thing; a CellScanFault(0) (the targeted call
      examines one cell, cell number 0) once no thing on the cell has given a job. */
  predicate ThrowsTargeted(p: PawnView, g: Giver, cell: Cell)
  {
    g.fault == NonScanFault
    || (g.nonScanJob.None? && g.scanner.Some?
        && ((g.def.scanThings && g.fault == ThingScanFault && |p.thingsAt(cell)| > 0)
            || (g.def.scanCells && g.fault == CellScanFault(0)
                && (!g.def.scanThings || FirstWorkThing(p, g.scanner.value, p.thingsAt(cell)).None?))))
  }

  /** GiverTryGiveJobPrioritized: offer a giver the one forced cell. A thing on the cell it
      accepts, or else the cell itself, makes its work type the last given one and is
      turned into the job (which may be none); a throw is logged and gives no job. */
  function TryGiveTargeted(p: PawnView, g: Giver, cell: Cell, last: Option<WorkType>, log: Log): Attempt
  {
    if !CanUse(p, g) then Attempt(None, last, log)
    else if g.fault == NonScanFault then Attempt(None, last, log.Error(TargetedExceptionText(p, g)))
    else if g.nonScanJob.Some? then Attempt(g.nonScanJob, last, log)
    else if g.scanner.None? then Attempt(None, last, log)
    else
      var s := g.scanner.value;
      var things := p.thingsAt(cell);
      if g.def.scanThings && g.fault == ThingScanFault && |things| > 0 then
        Attempt(None, last, log.Error(TargetedExceptionText(p, g)))
      else
        var thing := if g.def.scanThings then FirstWorkThing(p, s, things) else None;
        if thing.Some? then Attempt(s.jobOnThing(thing.value), Some(g.def.workType), log)
        else if g.def.scanCells && g.fault == CellScanFault(0) then
          Attempt(None, last, log.Error(TargetedExceptionText(p, g)))
        else if g.def.scanCells && !p.forbiddenCell(cell) && s.hasJobOnCell(cell) then
          Attempt(s.jobOnCell(cell), Some(g.def.workType), log)
        else Attempt(None, last, log)
  }

  /** The job a giver yields for the forced cell; it does not depend on the log or on the
      last given work type. */
  function TargetedJob(p: PawnView, g: Giver, cell: Cell): Option<Job>
  {
    TryGiveTargeted(p, g, cell, None, EmptyLog).job
  }

  /** The forced-work loop: the first giver with a job gives it, marked player-forced, with
      that giver's tag. */
  function EmergencyScan(p: PawnView, cell: Cell, gs: seq<Giver>, last: Option<WorkType>, log: Log): Outcome
    decreases |gs|
  {
    if |gs| == 0 then Outcome(NoJob, last, log)
    else
      var a := TryGiveTargeted(p, gs[0], cell, last, log);
      if a.job.Some? then Outcome(JobResult(a.job.value.(playerForced := true), gs[0].def.tagToGive), a.lastGiven, a.log)
      else EmergencyScan(p, cell, gs[1..], a.lastGiven, a.log)
  }

  /** TryIssueJobPackage as a value: the result, whether the forced work was cleared, and
      the new lastGivenWorkType and log. */
  datatype Issued = Issued(result: ThinkResult, clearedPriorityWork: bool, lastGiven: Option<WorkType>, log: Log)

  function IssueJobPackage(emergency: bool, p: PawnView, pw: Option<PriorityWork>, last: Option<WorkType>, log: Log): Issued
  {
    var em := if emergency && pw.Some? then EmergencyScan(p, pw.value.cell, pw.value.workGiversByPriority, last, log)
              else Outcome(NoJob, last, log);
    if em.result.JobResult? then Issued(em.result, false, em.lastGiven, em.log)
    else if p.workSettings.None? then Issued(NullWorkSettingsThrown, emergency && pw.Some?, em.lastGiven, em.log)
    else
      var list := if emergency then p.workSettings.value.giversEmergency else p.workSettings.value.giversNormal;
      var o := ScanGivers(p, list, InitialLoopState(em.lastGiven, em.log));
      Issued(o.result, emergency && pw.Some?, o.lastGiven, o.log)
  }

  // ---------------------------------------------------------------------------
  // Properties of the normal scan
  // ---------------------------------------------------------------------------

  /** The job a usable giver yields on its own: its non-scan job, or the job its scanner
      makes for the target its scans found. */
  function GiverJob(p: PawnView, g: Giver): Option<Job>
  {
    if g.fault != NonScanFault && g.nonScanJob.Some? then g.nonScanJob
    else if FoundBy(p, g).Some? then JobFor(FoundBy(p, g).value)
    else None
  }

  predicate SameTier(gs: seq<Giver>, i: nat, k: nat, tier: int)
    requires k < |gs|
  {
    forall m :: i <= m <= k ==> gs[m].def.priorityInType == tier
  }

  /** Giver `k` of `gs` is reached and yields the job: every usable giver before it yields
      none, and every usable giver before it that found a target (and the target held at
      the start, of tier `num`) is of the same tier as every giver up to `k`. */
  predicate FirstJobGiver(p: PawnView, gs: seq<Giver>, held: Option<Held>, num: int, k: nat)
  {
    k < |gs| && CanUse(p, gs[k]) && GiverJob(p, gs[k]).Some?
    && (forall i :: 0 <= i < k && CanUse(p, gs[i]) ==> GiverJob(p, gs[i]).None?)
    && (forall i :: 0 <= i < k && CanUse(p, gs[i]) && FoundBy(p, gs[i]).Some? ==> SameTier(gs, i, k, gs[i].def.priorityInType))
    && (held.Some? ==> SameTier(gs, 0, k, num))
  }

  /** A target still held after its giver is one its scanner makes no job for. */
  predicate HeldYieldsNoJob(st: LoopState)
  {
    st.held.Some? ==> JobFor(st.held.value).None?
  }

  lemma FirstJobGiverShift(p: PawnView, gs: seq<Giver>, held: Option<Held>, num: int, held1: Option<Held>, num1: int, k: nat)
    requires 0 < k && FirstJobGiver(p, gs, held, num, k)
    requires held1.Some? ==> SameTier(gs, 1, k, num1)
    ensures FirstJobGiver(p, gs[1..], held1, num1, k - 1)
  {
    assert forall m :: 1 <= m <= k ==> gs[m] == gs[1..][m - 1];
  }

  lemma FirstJobGiverUnshift(p: PawnView, gs: seq<Giver>, held: Option<Held>, num: int, held1: Option<Held>, num1: int, k1: nat)
    requires |gs| > 0 && FirstJobGiver(p, gs[1..], held1, num1, k1)
    requires CanUse(p, gs[0]) ==> GiverJob(p, gs[0]).None?
    requires CanUse(p, gs[0]) && FoundBy(p, gs[0]).Some? ==> held1.Some? && num1 == gs[0].def.priorityInType
    requires held.Some? ==> gs[0].def.priorityInType == num && held1.Some? && num1 == num
    ensures FirstJobGiver(p, gs, held, num, k1 + 1)
  {
    assert forall m :: 1 <= m <= k1 + 1 ==> gs[m] == gs[1..][m - 1];
  }

  /** Soundness of the normal scan: a job it returns is the job of a first job giver `k`,
      handed out with that giver's tag. */
  lemma {:induction false} ScanGiversSoundFrom(p: PawnView, gs: seq<Giver>, st: LoopState) returns (k: nat)
    requires HeldYieldsNoJob(st)
    requires ScanGivers(p, gs, st).result.JobResult?
    ensures FirstJobGiver(p, gs, st.held, st.num, k)
    ensures ScanGivers(p, gs, st).result == JobResult(GiverJob(p, gs[k]).value, gs[k].def.tagToGive)
    decreases |gs|
  {
    var g := gs[0];
    if !CanUse(p, g) {
      var k1 := ScanGiversSoundFrom(p, gs[1..], st);
      FirstJobGiverUnshift(p, gs, st.held, st.num, st.held, st.num, k1);
      k := k1 + 1;
    } else {
      var step := GiverStep(p, g, st);
      if step.Return? {
        k := 0;
      } else {
        var st1 := step.state;
        var found := FoundBy(p, g);
        assert st1.num == g.def.priorityInType;
        assert st1.held == if found.Some? then found else st.held;
        var k1 := ScanGiversSoundFrom(p, gs[1..], st1);
        FirstJobGiverUnshift(p, gs, st.held, st.num, st1.held, st1.num, k1);
        k := k1 + 1;
      }
    }
  }

  /** Completeness of the normal scan: a first job giver `k` gets its job handed out, with
      its tag. */
  lemma {:induction false} ScanGiversCompleteFrom(p: PawnView, gs: seq<Giver>, st: LoopState, k: nat)
    requires HeldYieldsNoJob(st)
    requires FirstJobGiver(p, gs, st.held, st.num, k)
    ensures ScanGivers(p, gs, st).result == JobResult(GiverJob(p, gs[k]).value, gs[k].def.tagToGive)
    decreases k
  {
    var g := gs[0];
    if k > 0 {
      if !CanUse(p, g) {
        FirstJobGiverShift(p, gs, st.held, st.num, st.held, st.num, k);
        ScanGiversCompleteFrom(p, gs[1..], st, k - 1);
      } else {
        var found := FoundBy(p, g);
        match GiverStep(p, g, st)
        case Return(_) =>
          assert false;
        case Continue(st1) =>
          assert st1.num == g.def.priorityInType;
          assert st1.held == if found.Some? then found else st.held;
          FirstJobGiverShift(p, gs, st.held, st.num, st1.held, st1.num, k);
          ScanGiversCompleteFrom(p, gs[1..], st1, k - 1);
      }
    }
  }

  /** From the initial state (tier -999, no target held) the normal scan returns a job
      exactly when some giver is a first job giver, and then it returns that giver's job
      with its tag. */
  lemma ScanGiversFirstJob(p: PawnView, gs: seq<Giver>, last: Option<WorkType>, log: Log, k: nat)
    requires FirstJobGiver(p, gs, None, InitialNum, k)
    ensures ScanGivers(p, gs, InitialLoopState(last, log)).result == JobResult(GiverJob(p, gs[k]).value, gs[k].def.tagToGive)
  {
    ScanGiversCompleteFrom(p, gs, InitialLoopState(last, log), k);
  }

  lemma ScanGiversJobSource(p: PawnView, gs: seq<Giver>, last: Option<WorkType>, log: Log) returns (k: nat)
    requires ScanGivers(p, gs, InitialLoopState(last, log)).result.JobResult?
    ensures FirstJobGiver(p, gs, None, InitialNum, k)
    ensures ScanGivers(p, gs, InitialLoopState(last, log)).result == JobResult(GiverJob(p, gs[k]).value, gs[k].def.tagToGive)
  {
    k := ScanGiversSoundFrom(p, gs, InitialLoopState(last, log));
  }

  /** The first usable giver with a non-scan job (and no exception) gets its job handed out
      unless a held target of another tier ends the scan first. */
  lemma NonScanJobWins(p: PawnView, g: Giver, rest: seq<Giver>, st: LoopState)
    requires CanUse(p, g) && g.fault != NonScanFault && g.nonScanJob.Some?
    requires st.held.None? || g.def.priorityInType == st.num
    ensures ScanGivers(p, [g] + rest, st).result == JobResult(g.nonScanJob.value, g.def.tagToGive)
  {
  }

  /** A usable giver that does not return moves the tier marker to its own tier, and
      leaves the held target alone unless its scans found one. */
  lemma UsableGiverSetsTier(p: PawnView, g: Giver, st: LoopState)
    requires GiverStep(p, g, st).Continue?
    ensures GiverStep(p, g, st).state.num == g.def.priorityInType
    ensures GiverStep(p, g, st).state.held == if FoundBy(p, g).Some? then FoundBy(p, g) else st.held
  {
  }

  /** A held target ends the scan, with no job, at the first giver of another tier, usable
      or not. */
  lemma TierBoundaryEndsScan(p: PawnView, gs: seq<Giver>, st: LoopState)
    requires |gs| > 0 && st.held.Some? && gs[0].def.priorityInType != st.num
    ensures ScanGivers(p, gs, st) == Outcome(NoJob, st.lastGiven, st.log)
  {
  }

  /** A giver the pawn cannot use changes nothing: not the tier, not the held target. */
  lemma UnusableGiverSkipped(p: PawnView, g: Giver, rest: seq<Giver>, st: LoopState)
    requires !CanUse(p, g)
    requires st.held.None? || g.def.priorityInType == st.num
    ensures ScanGivers(p, [g] + rest, st) == ScanGivers(p, rest, st)
  {
    assert ([g] + rest)[1..] == rest;
  }

  /** An exception in NonScanJob or in the thing scan of a reached, usable giver does not
      abort the scan: the giver
      acts as one that is not a scanner and has no non-scan job, after the exception is
      written to the log. */
  lemma ThrowingGiverContinues(p: PawnView, g: Giver, rest: seq<Giver>, st: LoopState)
    requires CanUse(p, g) && Throws(g) && !g.fault.CellScanFault?
    requires st.held.None? || g.def.priorityInType == st.num
    ensures var g' := g.(fault := NoFault, nonScanJob := None, scanner := None);
      ScanGivers(p, [g] + rest, st) == ScanGivers(p, [g'] + rest, st.(log := st.log.Error(ExceptionText(p, g))))
  {
    var g' := g.(fault := NoFault, nonScanJob := None, scanner := None);
    assert ([g] + rest)[1..] == rest && ([g'] + rest)[1..] == rest;
    assert CanUse(p, g) == CanUse(p, g');
    assert FoundBy(p, g).None? && FoundBy(p, g').None?;
    assert GiverStep(p, g, st) == GiverStep(p, g', st.(log := st.log.Error(ExceptionText(p, g))));
  }

  /** An exception in the cell scan keeps what the cells before the failing one gave: the
      giver finds what a scan of those cells alone finds. */
  lemma CellFaultKeepsEarlierCells(p: PawnView, g: Giver)
    requires g.scanner.Some? && g.fault.CellScanFault? && g.nonScanJob.None? && g.def.scanCells
    requires CellFaultHits(g.scanner.value, g.fault)
    ensures var s := g.scanner.value;
      var before := ScanCellsFrom(p, s, s.potentialCells[..g.fault.at], InitialCellBest).best;
      FoundBy(p, g) == if before.Some? then Some(Held(CellTarget(before.value), s))
                       else if g.def.scanThings && ClosestWorkThing(p, g.scanner.value).Some? then Some(Held(ThingTarget(ClosestWorkThing(p, g.scanner.value).value), s))
                       else None
  {
  }

  // ---------------------------------------------------------------------------
  // Properties of the forced-work path and of the whole package
  // ---------------------------------------------------------------------------

  lemma TargetedJobIgnoresState(p: PawnView, g: Giver, cell: Cell, last: Option<WorkType>, log: Log)
    ensures TryGiveTargeted(p, g, cell, last, log).job == TargetedJob(p, g, cell)
  {
  }

  /** A targeted job is the giver's non-scan job, the job for an accepted, allowed thing
      with a job lying on the cell, or the job for the cell itself when it is allowed and
      has a job; it needs a usable giver that does not throw. */
  lemma TargetedJobSource(p: PawnView, g: Giver, cell: Cell)
    requires TargetedJob(p, g, cell).Some?
    ensures CanUse(p, g) && !ThrowsTargeted(p, g, cell)
    ensures var j := TargetedJob(p, g, cell);
      g.nonScanJob == j
      || (g.scanner.Some? && g.def.scanThings
          && exists t :: t in p.thingsAt(cell) && g.scanner.value.acceptsThing(t) && !p.forbiddenThing(t)
                         && g.scanner.value.hasJobOnThing(t) && g.scanner.value.jobOnThing(t) == j)
      || (g.scanner.Some? && g.def.scanCells && !p.forbiddenCell(cell) && g.scanner.value.hasJobOnCell(cell)
          && g.scanner.value.jobOnCell(cell) == j)
  {
    if g.nonScanJob.None? {
      var s := g.scanner.value;
      var thing := if g.def.scanThings then FirstWorkThing(p, s, p.thingsAt(cell)) else None;
      if thing.Some? {
        assert thing.value in p.thingsAt(cell);
      }
    }
  }

  /** A thing the scanner accepts, that is not forbidden and that has a job. */
  predicate WorkThing(p: PawnView, s: Scanner, t: Thing)
  {
    s.acceptsThing(t) && !p.forbiddenThing(t) && s.hasJobOnThing(t)
  }

  /** FirstWorkThing picks the work thing of lowest index. */
  lemma {:induction false} FirstWorkThingIsFirst(p: PawnView, s: Scanner, things: seq<Thing>, k: nat)
    requires k < |things| && WorkThing(p, s, things[k])
    requires forall i :: 0 <= i < k ==> !WorkThing(p, s, things[i])
    ensures FirstWorkThing(p, s, things) == Some(things[k])
    decreases k
  {
    if k > 0 {
      assert !WorkThing(p, s, things[0]);
      forall i | 0 <= i < k - 1
        ensures !WorkThing(p, s, things[1..][i])
      {
        assert things[1..][i] == things[i + 1];
      }
      FirstWorkThingIsFirst(p, s, things[1..], k - 1);
    }
  }

  /** A usable scanner that does not throw on the cell and scans things hands out the job
      of the first work thing lying on the cell and records its work type. */
  lemma TargetedJobOfFirstThing(p: PawnView, g: Giver, cell: Cell, last: Option<WorkType>, log: Log, k: nat)
    requires CanUse(p, g) && !ThrowsTargeted(p, g, cell)
    requires g.nonScanJob.None? && g.scanner.Some? && g.def.scanThings
    requires k < |p.thingsAt(cell)| && WorkThing(p, g.scanner.value, p.thingsAt(cell)[k])
    requires forall i :: 0 <= i < k ==> !WorkThing(p, g.scanner.value, p.thingsAt(cell)[i])
    ensures TryGiveTargeted(p, g, cell, last, log)
         == Attempt(g.scanner.value.jobOnThing(p.thingsAt(cell)[k]), Some(g.def.workType), log)
  {
    FirstWorkThingIsFirst(p, g.scanner.value, p.thingsAt(cell), k);
  }

  /** With no work thing on the cell, a usable cell scanner that does not throw hands out
      the cell's job when the cell is allowed and has one, and records its work type. */
  lemma TargetedJobOfCell(p: PawnView, g: Giver, cell: Cell, last: Option<WorkType>, log: Log)
    requires CanUse(p, g) && !ThrowsTargeted(p, g, cell)
    requires g.nonScanJob.None? && g.scanner.Some? && g.def.scanCells
    requires !g.def.scanThings || forall t :: t in p.thingsAt(cell) ==> !WorkThing(p, g.scanner.value, t)
    requires !p.forbiddenCell(cell) && g.scanner.value.hasJobOnCell(cell)
    ensures TryGiveTargeted(p, g, cell, last, log)
         == Attempt(g.scanner.value.jobOnCell(cell), Some(g.def.workType), log)
  {
    if g.def.scanThings {
      var r := FirstWorkThing(p, g.scanner.value, p.thingsAt(cell));
      if r.Some? {
        assert WorkThing(p, g.scanner.value, r.value);
      }
    }
  }

  /** A targeted attempt logs the giver's exception exactly when the giver is usable and
      throws on the cell; a throw gives no job and leaves the last given work type. */
  lemma TargetedThrowLogged(p: PawnView, g: Giver, cell: Cell, last: Option<WorkType>, log: Log)
    ensures var a := TryGiveTargeted(p, g, cell, last, log);
      a.log == if CanUse(p, g) && ThrowsTargeted(p, g, cell) then log.Error(TargetedExceptionText(p, g)) else log
    ensures CanUse(p, g) && ThrowsTargeted(p, g, cell)
        ==> TryGiveTargeted(p, g, cell, last, log) == Attempt(None, last, log.Error(TargetedExceptionText(p, g)))
  {
  }

  /** A fault the targeted attempt does not reach changes nothing: the attempt is that of
      the same giver without the fault. */
  lemma TargetedFaultUnreached(p: PawnView, g: Giver, cell: Cell, last: Option<WorkType>, log: Log)
    requires !ThrowsTargeted(p, g, cell)
    ensures TryGiveTargeted(p, g, cell, last, log) == TryGiveTargeted(p, g.(fault := NoFault), cell, last, log)
  {
  }

  /** The forced-work loop hands out the job of the first giver that has one for the cell,
      marked player-forced, with that giver's tag. */
  lemma {:induction false} EmergencyScanFirstJob(p: PawnView, cell: Cell, gs: seq<Giver>, last: Option<WorkType>, log: Log, k: nat)
    requires k < |gs| && TargetedJob(p, gs[k], cell).Some?
    requires forall i :: 0 <= i < k ==> TargetedJob(p, gs[i], cell).None?
    ensures EmergencyScan(p, cell, gs, last, log).result
         == JobResult(TargetedJob(p, gs[k], cell).value.(playerForced := true), gs[k].def.tagToGive)
    decreases k
  {
    TargetedJobIgnoresState(p, gs[0], cell, last, log);
    if k > 0 {
      var a := TryGiveTargeted(p, gs[0], cell, last, log);
      EmergencyScanFirstJob(p, cell, gs[1..], a.lastGiven, a.log, k - 1);
    }
  }

  /** When no giver has a job for the forced cell, the forced-work loop yields none. */
  lemma {:induction false} EmergencyScanNoJob(p: PawnView, cell: Cell, gs: seq<Giver>, last: Option<WorkType>, log: Log)
    requires forall i :: 0 <= i < |gs| ==> TargetedJob(p, gs[i], cell).None?
    ensures EmergencyScan(p, cell, gs, last, log).result == NoJob
    decreases |gs|
  {
    if |gs| > 0 {
      TargetedJobIgnoresState(p, gs[0], cell, last, log);
      var a := TryGiveTargeted(p, gs[0], cell, last, log);
      EmergencyScanNoJob(p, cell, gs[1..], a.lastGiven, a.log);
    }
  }

  /** Forced work comes first on the emergency node: the first of its givers with a job for
      the forced cell wins, and the forced work is kept. */
  lemma ForcedWorkWins(p: PawnView, pw: PriorityWork, last: Option<WorkType>, log: Log, k: nat)
    requires k < |pw.workGiversByPriority| && TargetedJob(p, pw.workGiversByPriority[k], pw.cell).Some?
    requires forall i :: 0 <= i < k ==> TargetedJob(p, pw.workGiversByPriority[i], pw.cell).None?
    ensures var r := IssueJobPackage(true, p, Some(pw), last, log);
      !r.clearedPriorityWork
      && r.result == JobResult(TargetedJob(p, pw.workGiversByPriority[k], pw.cell).value.(playerForced := true),
                               pw.workGiversByPriority[k].def.tagToGive)
  {
    EmergencyScanFirstJob(p, pw.cell, pw.workGiversByPriority, last, log, k);
  }

  /** Forced work none of whose givers has a job for its cell is cleared, and the node
      falls back to the emergency giver list. */
  lemma ForcedWorkCleared(p: PawnView, pw: PriorityWork, last: Option<WorkType>, log: Log)
    requires p.workSettings.Some?
    requires forall i :: 0 <= i < |pw.workGiversByPriority| ==> TargetedJob(p, pw.workGiversByPriority[i], pw.cell).None?
    ensures var em := EmergencyScan(p, pw.cell, pw.workGiversByPriority, last, log);
      var r := IssueJobPackage(true, p, Some(pw), last, log);
      r.clearedPriorityWork
      && r.result == ScanGivers(p, p.workSettings.value.giversEmergency, InitialLoopState(em.lastGiven, em.log)).result
  {
    EmergencyScanNoJob(p, pw.cell, pw.workGiversByPriority, last, log);
  }

  /** Without forced work, or on the normal node, the package is the scan of the node's
      giver list and the forced work is left alone. */
  lemma NoForcedWorkScansList(emergency: bool, p: PawnView, pw: Option<PriorityWork>, last: Option<WorkType>, log: Log)
    requires p.workSettings.Some?
    requires !emergency || pw.None?
    ensures var list := if emergency then p.workSettings.value.giversEmergency else p.workSettings.value.giversNormal;
      var o := ScanGivers(p, list, InitialLoopState(last, log));
      IssueJobPackage(emergency, p, pw, last, log) == Issued(o.result, false, o.lastGiven, o.log)
  {
  }

  /** A pawn without work settings that no forced giver serves makes the node throw when it
      reaches the giver lists; the emergency node has cleared the forced work by then. */
  lemma MissingWorkSettingsThrow(emergency: bool, p: PawnView, pw: Option<PriorityWork>, last: Option<WorkType>, log: Log)
    requires p.workSettings.None?
    requires emergency && pw.Some? ==>
      forall i :: 0 <= i < |pw.value.workGiversByPriority| ==> TargetedJob(p, pw.value.workGiversByPriority[i], pw.value.cell).None?
    ensures IssueJobPackage(emergency, p, pw, last, log).result == NullWorkSettingsThrown
    ensures IssueJobPackage(emergency, p, pw, last, log).clearedPriorityWork == (emergency && pw.Some?)
  {
    if emergency && pw.Some? {
      EmergencyScanNoJob(p, pw.value.cell, pw.value.workGiversByPriority, last, log);
    }
  }

  // ---------------------------------------------------------------------------
  // The think node itself
  // ---------------------------------------------------------------------------

  /** The parts of Pawn_MindState the dispatcher reads and writes. */
  class MindState {
    var priorityWork: Option<PriorityWork>
    var lastGivenWorkType: Option<WorkType>

    constructor(priorityWork: Option<PriorityWork>, lastGivenWorkType: Option<WorkType>)
      ensures this.priorityWork == priorityWork && this.lastGivenWorkType == lastGivenWorkType
    {
      this.priorityWork := priorityWork;
      this.lastGivenWorkType := lastGivenWorkType;
    }
  }

  /** JobGiver_Work: the think node, normal or emergency. */
  class JobGiverWorkNode {
    const emergency: bool

    constructor(emergency: bool)
      ensures this.emergency == emergency
    {
      this.emergency := emergency;
    }

    /** TryIssueJobPackage: forced work first on the emergency node, then the scan of the
        node's giver list. */
    method TryIssueJobPackage(p: PawnView, mind: MindState, logger: Logger) returns (r: ThinkResult)
      modifies mind, logger
      ensures var i := IssueJobPackage(emergency, p, old(mind.priorityWork), old(mind.lastGivenWorkType), old(logger.log));
        r == i.result && mind.lastGivenWorkType == i.lastGiven && logger.log == i.log
        && mind.priorityWork == (if i.clearedPriorityWork then None else old(mind.priorityWork))
    {
      if emergency && mind.priorityWork.Some? {
        var pw := mind.priorityWork.value;
        var gs := pw.workGiversByPriority;
        var i := 0;
        while i < |gs|
          invariant 0 <= i <= |gs|
          invariant mind.priorityWork == old(mind.priorityWork)
          invariant EmergencyScan(p, pw.cell, gs[i..], mind.lastGivenWorkType, logger.log)
                 == EmergencyScan(p, pw.cell, gs, old(mind.lastGivenWorkType), old(logger.log))
        {
          var job := GiverTryGiveJobPrioritized(p, gs[i], pw.cell, mind, logger);
          if job.Some? {
            r := JobResult(job.value.(playerForced := true), gs[i].def.tagToGive);
            return;
          }
          i := i + 1;
        }
        mind.priorityWork := None;
      }
      ghost var last0 := mind.lastGivenWorkType;
      ghost var log0 := logger.log;
      ghost var pw0 := mind.priorityWork;
      if p.workSettings.None? {
        return NullWorkSettingsThrown;
      }
      var list := if emergency then p.workSettings.value.giversEmergency else p.workSettings.value.giversNormal;
      var num := InitialNum;
      var held: Option<Held> := None;
      var j := 0;
      while j < |list|
        invariant 0 <= j <= |list|
        invariant mind.priorityWork == pw0
        invariant ScanGivers(p, list[j..], LoopState(num, held, mind.lastGivenWorkType, logger.log))
               == ScanGivers(p, list, InitialLoopState(last0, log0))
      {
        var g := list[j];
        if g.def.priorityInType != num && held.Some? {
          break;
        }
        if CanUse(p, g) {
          var done;
          done, num, held := TryGiver(p, g, num, held, mind, logger);
          if done.Some? {
            r := done.value;
            return;
          }
        }
        j := j + 1;
      }
      r := NoJob;
    }

    /** The body of the normal loop for one usable giver: the try block, then the held
        target. `done` is the result when the giver returns one. */
    method TryGiver(p: PawnView, g: Giver, num: int, held: Option<Held>, mind: MindState, logger: Logger)
      returns (done: Option<ThinkResult>, num': int, held': Option<Held>)
      modifies mind, logger
      ensures mind.priorityWork == old(mind.priorityWork)
      ensures match GiverStep(p, g, LoopState(num, held, old(mind.lastGivenWorkType), old(logger.log)))
        case Return(o) => done == Some(o.result) && mind.lastGivenWorkType == o.lastGiven && logger.log == o.log
        case Continue(st) => done.None? && num' == st.num && held' == st.held
                             && mind.lastGivenWorkType == st.lastGiven && logger.log == st.log
    {
      if g.fault != NonScanFault && g.nonScanJob.Some? {
        return Some(JobResult(g.nonScanJob.value, g.def.tagToGive)), num, held;
      }
      var target, threw := TryScans(p, g, held);
      if threw {
        logger.log := logger.log.Error(ExceptionText(p, g));
      }
      done, num', held' := AfterTryBlock(p, g, num, target, mind, logger);
    }

    /** The code after the try block, on the target the block left held. */
    method AfterTryBlock(p: PawnView, g: Giver, num: int, target: Option<Held>, mind: MindState, logger: Logger)
      returns (done: Option<ThinkResult>, num': int, held': Option<Held>)
      modifies mind, logger
      ensures mind.priorityWork == old(mind.priorityWork)
      ensures match AfterTry(p, g, LoopState(num, target, old(mind.lastGivenWorkType), old(logger.log)))
        case Return(o) => done == Some(o.result) && mind.lastGivenWorkType == o.lastGiven && logger.log == o.log
        case Continue(st) => done.None? && num' == st.num && held' == st.held
                             && mind.lastGivenWorkType == st.lastGiven && logger.log == st.log
    {
      if target.Some? {
        mind.lastGivenWorkType := Some(g.def.workType);
        var h := target.value;
        var job := if h.target.ThingTarget? then h.scanner.jobOnThing(h.target.thing) else h.scanner.jobOnCell(h.target.cell);
        if job.Some? {
          return Some(JobResult(job.value, g.def.tagToGive)), num, target;
        }
        logger.log := logger.log.ErrorOnce(NoJobText(p), ErrorOnceKeyNoJob);
      }
      return None, g.def.priorityInType, target;
    }

    /** The try block of a giver that does not return a non-scan job: its scans update the
        held target, and `threw` tells whether an exception ended the block. */
    method TryScans(p: PawnView, g: Giver, held: Option<Held>) returns (target: Option<Held>, threw: bool)
      requires !(g.fault != NonScanFault && g.nonScanJob.Some?)
      ensures threw == Throws(g)
      ensures target == if FoundBy(p, g).Some? then FoundBy(p, g) else held
    {
      target := held;
      threw := false;
      if g.fault == NonScanFault {
        threw := true;
      } else if g.scanner.Some? {
        var s := g.scanner.value;
        if g.def.scanThings {
          if g.fault == ThingScanFault {
            threw := true;
          } else {
            var thing := ClosestWorkThing(p, s);
            if thing.Some? {
              target := Some(Held(ThingTarget(thing.value), s));
            }
          }
        }
        if !threw && g.def.scanCells {
          target, threw := ScanCells(p, s, g.fault, target);
        }
      }
    }

    /** The cell loop of one scanner; it stops with `threw` when it reaches the cell a
        CellScanFault names. */
    method ScanCells(p: PawnView, s: Scanner, fault: Fault, target: Option<Held>) returns (target': Option<Held>, threw: bool)
      ensures threw == CellFaultHits(s, fault)
      ensures var best := ScanCellsFrom(p, s, CellsExamined(s, fault), InitialCellBest).best;
        target' == if best.Some? then Some(Held(CellTarget(best.value), s)) else target
    {
      var cells := s.potentialCells;
      ghost var examined := CellsExamined(s, fault);
      var num2 := 99999.0;
      var num3 := MinFloat;
      ghost var best: Option<Cell> := None;
      target' := target;
      threw := false;
      var i := 0;
      while i < |cells|
        invariant 0 <= i <= |examined|
        invariant CellFaultHits(s, fault) ==> i <= fault.at
        invariant ScanCellsFrom(p, s, examined[i..], CellBest(best, num2, num3))
               == ScanCellsFrom(p, s, examined, InitialCellBest)
        invariant target' == if best.Some? then Some(Held(CellTarget(best.value), s)) else target
      {
        if fault == CellScanFault(i) {
          threw := true;
          break;
        }
        var current := cells[i];
        var flag := false;
        var num4 := DistSquared(current, p.position) as real;
        var num5 := 0.0;
        if s.prioritized {
          if !p.forbiddenCell(current) && s.hasJobOnCell(current) {
            if s.allowUnreachable || s.canReachCell(current) {
              num5 := s.cellPriority(current);
              if num5 > num3 || (num5 == num3 && num4 < num2) {
                flag := true;
              }
            }
          }
        } else if num4 < num2 && !p.forbiddenCell(current) && s.hasJobOnCell(current) {
          if s.allowUnreachable || s.canReachCell(current) {
            flag := true;
          }
        }
        assert examined[i] == current;
        assert CellStep(p, s, CellBest(best, num2, num3), current)
            == if flag then CellBest(Some(current), num4, num5) else CellBest(best, num2, num3);
        if flag {
          target' := Some(Held(CellTarget(current), s));
          best := Some(current);
          num2 := num4;
          num3 := num5;
        }
        i := i + 1;
      }
    }

    /** GiverTryGiveJobPrioritized: offer one giver the forced cell. */
    method GiverTryGiveJobPrioritized(p: PawnView, g: Giver, cell: Cell, mind: MindState, logger: Logger) returns (job: Option<Job>)
      modifies mind, logger
      ensures mind.priorityWork == old(mind.priorityWork)
      ensures Attempt(job, mind.lastGivenWorkType, logger.log)
           == TryGiveTargeted(p, g, cell, old(mind.lastGivenWorkType), old(logger.log))
    {
      if !CanUse(p, g) {
        return None;
      }
      if g.fault == NonScanFault {
        logger.log := logger.log.Error(TargetedExceptionText(p, g));
        return None;
      }
      if g.nonScanJob.Some? {
        return g.nonScanJob;
      }
      if g.scanner.None? {
        return None;
      }
      var s := g.scanner.value;
      if g.def.scanThings {
        var things := p.thingsAt(cell);
        var i := 0;
        while i < |things|
          invariant 0 <= i <= |things|
          invariant g.fault == ThingScanFault ==> i == 0
          invariant FirstWorkThing(p, s, things[i..]) == FirstWorkThing(p, s, things)
        {
          if g.fault == ThingScanFault {
            logger.log := logger.log.Error(TargetedExceptionText(p, g));
            return None;
          }
          var thing := things[i];
          if s.acceptsThing(thing) && !p.forbiddenThing(thing) && s.hasJobOnThing(thing) {
            mind.lastGivenWorkType := Some(g.def.workType);
            return s.jobOnThing(thing);
          }
          i := i + 1;
        }
      }
      if g.def.scanCells && g.fault == CellScanFault(0) {
        logger.log := logger.log.Error(TargetedExceptionText(p, g));
        return None;
      }
      if g.def.scanCells && !p.forbiddenCell(cell) && s.hasJobOnCell(cell) {
        mind.lastGivenWorkType := Some(g.def.workType);
        return s.jobOnCell(cell);
      }
      return None;
    }
  }
}
