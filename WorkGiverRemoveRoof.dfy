/** The roof-removal work giver (RimWorld/WorkGiver_RemoveRoof.cs), a prioritized cell
    scanner for the dispatcher in JobGiverWork. Map grids (bounds, edifices, roofs, the
    NoRoof area) and the reservation system are oracles. */
module WorkGiverRemoveRoof {
  import opened Common
  import opened JobGiverWork

  datatype Building = Building(holdsRoof: bool)

  /** The map as the giver reads it. */
  datatype RoofMap = RoofMap(
    inBounds: Cell -> bool,
    edifice: Cell -> Option<Building>,
    roofed: Cell -> bool,
    noRoofArea: Cell -> bool,        // areaManager.NoRoof[c]
    noRoofActiveCells: seq<Cell>)    // areaManager.NoRoof.ActiveCells

  /** GenAdj.AdjacentCells: the eight neighbour offsets. */
  const AdjacentCells: seq<Cell> :=
    [Cell(0, 1), Cell(1, 1), Cell(1, 0), Cell(1, -1), Cell(0, -1), Cell(-1, -1), Cell(-1, 0), Cell(-1, 1)]

  function Offset(c: Cell, d: Cell): Cell
  {
    Cell(c.x + d.x, c.z + d.z)
  }

  /** An in-bounds neighbour whose edifice holds a roof. */
  predicate HoldsRoofAt(m: RoofMap, c: Cell)
  {
    m.inBounds(c) && m.edifice(c).Some? && m.edifice(c).value.holdsRoof
  }

  predicate RoofedAt(m: RoofMap, c: Cell)
  {
    m.inBounds(c) && m.roofed(c)
  }

  /** Some neighbour of `cell` at the offsets `ds` holds a roof. */
  predicate HoldsRoofAmong(m: RoofMap, cell: Cell, ds: seq<Cell>)
    decreases |ds|
  {
    |ds| > 0 && (HoldsRoofAmong(m, cell, ds[..|ds| - 1]) || HoldsRoofAt(m, Offset(cell, ds[|ds| - 1])))
  }

  /** The number of roofed in-bounds neighbours of `cell` at the offsets `ds`. */
  function RoofedAmong(m: RoofMap, cell: Cell, ds: seq<Cell>): (n: nat)
    ensures n <= |ds|
    decreases |ds|
  {
    if |ds| == 0 then 0
    else RoofedAmong(m, cell, ds[..|ds| - 1]) + (if RoofedAt(m, Offset(cell, ds[|ds| - 1])) then 1 else 0)
  }

  /** GetPriority's value: -60 next to a roof holder, else minus the roofed neighbours,
      at most three. */
  function RoofPriority(m: RoofMap, cell: Cell): real
  {
    if HoldsRoofAmong(m, cell, AdjacentCells) then -60.0
    else -(if RoofedAmong(m, cell, AdjacentCells) < 3 then RoofedAmong(m, cell, AdjacentCells) else 3) as real
  }

  lemma {:induction false} HoldsRoofAmongMember(m: RoofMap, cell: Cell, ds: seq<Cell>)
    ensures HoldsRoofAmong(m, cell, ds) <==> exists d :: d in ds && HoldsRoofAt(m, Offset(cell, d))
    decreases |ds|
  {
    if |ds| > 0 {
      HoldsRoofAmongMember(m, cell, ds[..|ds| - 1]);
      assert ds == ds[..|ds| - 1] + [ds[|ds| - 1]];
      assert forall d :: d in ds <==> d in ds[..|ds| - 1] || d == ds[|ds| - 1];
    }
  }

  /** GetPriority is -60 exactly when one of the eight neighbours is in bounds and has a
      roof-holding edifice; otherwise it is minus the count of roofed in-bounds neighbours,
      capped at 3. */
  lemma RoofPriorityMeaning(m: RoofMap, cell: Cell)
    ensures RoofPriority(m, cell) == -60.0 <==> exists d :: d in AdjacentCells && HoldsRoofAt(m, Offset(cell, d))
    ensures RoofPriority(m, cell) != -60.0 ==>
      RoofPriority(m, cell) == -(if RoofedAmong(m, cell, AdjacentCells) < 3 then RoofedAmong(m, cell, AdjacentCells) else 3) as real
  {
    HoldsRoofAmongMember(m, cell, AdjacentCells);
  }

  /** The priority is one of -60, -3, -2, -1 and 0. */
  lemma RoofPriorityValues(m: RoofMap, cell: Cell)
    ensures RoofPriority(m, cell) in {-60.0, -3.0, -2.0, -1.0, 0.0}
  {
  }

  /** GetPriority: the 8-neighbour loop with its early return. */
  method GetPriority(m: RoofMap, cell: Cell) returns (r: real)
    ensures r == RoofPriority(m, cell)
  {
    var num := 0;
    var i := 0;
    while i < 8
      invariant 0 <= i <= 8
      invariant !HoldsRoofAmong(m, cell, AdjacentCells[..i])
      invariant num == RoofedAmong(m, cell, AdjacentCells[..i])
    {
      var c := Offset(cell, AdjacentCells[i]);
      assert AdjacentCells[..i + 1][..i] == AdjacentCells[..i];
      if m.inBounds(c) {
        var edifice := m.edifice(c);
        if edifice.Some? && edifice.value.holdsRoof {
          assert HoldsRoofAmong(m, cell, AdjacentCells[..i + 1]);
          HoldsRoofAmongMember(m, cell, AdjacentCells[..i + 1]);
          HoldsRoofAmongMember(m, cell, AdjacentCells);
          return -60.0;
        }
        if m.roofed(c) {
          num := num + 1;
        }
      }
      i := i + 1;
    }
    assert AdjacentCells[..8] == AdjacentCells;
    r := -(if num < 3 then num else 3) as real;
  }

  /** HasJobOnCell: inside the NoRoof area, roofed, not forbidden, and the ceiling can be
      reserved. */
  function HasJobOnCell(m: RoofMap, p: PawnView, canReserveCeiling: Cell -> bool, c: Cell): (r: bool)
    ensures r <==> m.noRoofArea(c) && m.roofed(c) && !p.forbiddenCell(c) && canReserveCeiling(c)
    ensures !m.noRoofArea(c) || !m.roofed(c) || p.forbiddenCell(c) ==> !r
  {
    if !m.noRoofArea(c) then false
    else if !m.roofed(c) then false
    else if p.forbiddenCell(c) then false
    else canReserveCeiling(c)
  }

  /** JobOnCell: a RemoveRoof job with the cell as both targets. */
  function JobOnCell(c: Cell): (j: Option<Job>)
    ensures j.Some? && j.value.def == RemoveRoofJob
    ensures j.value.targetA == CellTarget(c) && j.value.targetB == CellTarget(c) && !j.value.playerForced
  {
    Some(Job(RemoveRoofJob, CellTarget(c), CellTarget(c), false))
  }

  /** The giver as a scanner: the members WorkGiver_RemoveRoof overrides replace those of the
      inherited scanner `base`. */
  function RemoveRoofScanner(base: Scanner, m: RoofMap, p: PawnView, canReserveCeiling: Cell -> bool): (s: Scanner)
    ensures s.prioritized && s.pathEndMode == ClosestTouch
    ensures s.potentialCells == m.noRoofActiveCells
    ensures s.allowUnreachable == base.allowUnreachable && s.canReachCell == base.canReachCell
  {
    base.(prioritized := true,
          pathEndMode := ClosestTouch,
          potentialCells := m.noRoofActiveCells,
          hasJobOnCell := c => HasJobOnCell(m, p, canReserveCeiling, c),
          cellPriority := c => RoofPriority(m, c),
          jobOnCell := JobOnCell)
  }

  /** In the dispatcher's cell scan, the roof scanner picks an active NoRoof cell that is
      roofed, allowed and reservable, and no such cell outranks it by roof priority and
      then distance; the job for it removes the roof there. */
  lemma RemoveRoofScanPick(base: Scanner, m: RoofMap, p: PawnView, canReserveCeiling: Cell -> bool, c: Cell)
    requires ScanCellsFrom(p, RemoveRoofScanner(base, m, p, canReserveCeiling), m.noRoofActiveCells, InitialCellBest).best == Some(c)
    ensures c in m.noRoofActiveCells && m.noRoofArea(c) && m.roofed(c) && !p.forbiddenCell(c) && canReserveCeiling(c)
    ensures forall c' :: c' in m.noRoofActiveCells && Eligible(p, RemoveRoofScanner(base, m, p, canReserveCeiling), c') ==>
      RoofPriority(m, c') < RoofPriority(m, c)
      || (RoofPriority(m, c') == RoofPriority(m, c) && CellDist(p, c') >= CellDist(p, c))
    ensures JobFor(Held(CellTarget(c), RemoveRoofScanner(base, m, p, canReserveCeiling)))
         == Some(Job(RemoveRoofJob, CellTarget(c), CellTarget(c), false))
  {
    var s := RemoveRoofScanner(base, m, p, canReserveCeiling);
    CellScanPicksFirstBest(p, s, m.noRoofActiveCells);
    FirstBestEligible(p, s, m.noRoofActiveCells);
    forall c' | c' in m.noRoofActiveCells && Eligible(p, s, c')
      ensures RoofPriority(m, c') < RoofPriority(m, c)
              || (RoofPriority(m, c') == RoofPriority(m, c) && CellDist(p, c') >= CellDist(p, c))
    {
      FirstBestNotBeaten(p, s, m.noRoofActiveCells, c');
    }
  }
}
