/**
 * The side projector: prepareTriangles (src/triangles.ts) and its copy
 * renderTriangles (src/magicavoxel.ts). Each voxel is rotated for one of the
 * four sides, mapped to lattice coordinates (u, v, w), and deposits six surface
 * patches, two per visible face, into a grid of rays indexed by (u, v); w is
 * the position along the ray, smaller meaning nearer to the viewer.
 */
module Triangles {
  import opened Wrappers
  import opened Vox

  /** One grid cell: a JavaScript array indexed by w, with holes where nothing was written. */
  type Ray = seq<Option<Triangle>>

  /** The extent (A, B) of the rotated footprint: sides 1 and 3 swap the two axes. */
  function Footprint(m: Model, side: Side): (r: (nat, nat))
    ensures r == (m.sizeX, m.sizeY) || r == (m.sizeY, m.sizeX)
    ensures r.0 + r.1 == m.SizeU()
  {
    if side % 2 == 0 then (m.sizeX, m.sizeY) else (m.sizeY, m.sizeX)
  }

  /** The inverse of Rotate. */
  function Unrotate(m: Model, side: Side, vX: int, vY: int): (int, int) {
    if side == 0 then (vX, vY)
    else if side == 1 then (m.sizeX - vY - 1, vX)
    else if side == 2 then (m.sizeX - vX - 1, m.sizeY - vY - 1)
    else (vY, m.sizeY - vX - 1)
  }

  /**
   * The rotated column (vX, vY) of a voxel at (x, y), seen from `side`. Side 0
   * is the identity; each rotation maps the box's footprint one to one into
   * [0, A) x [0, B), and UnrotateRoundTrip shows it is onto.
   */
  function Rotate(m: Model, side: Side, x: int, y: int): (r: (int, int))
    ensures side == 0 ==> r == (x, y)
    ensures Unrotate(m, side, r.0, r.1) == (x, y)
    ensures 0 <= x < m.sizeX && 0 <= y < m.sizeY ==>
      0 <= r.0 < Footprint(m, side).0 && 0 <= r.1 < Footprint(m, side).1
  {
    if side == 0 then (x, y)
    else if side == 1 then (y, m.sizeX - x - 1)
    else if side == 2 then (m.sizeX - x - 1, m.sizeY - y - 1)
    else (m.sizeY - y - 1, x)
  }

  /**
   * Rotate undoes Unrotate, and Unrotate takes the rotated footprint back into
   * the box: together with Rotate's contract, the rotation maps the box one to
   * one onto [0, A) x [0, B).
   */
  lemma UnrotateRoundTrip(m: Model, side: Side, vX: int, vY: int)
    ensures var (x, y) := Unrotate(m, side, vX, vY); Rotate(m, side, x, y) == (vX, vY)
    ensures 0 <= vX < Footprint(m, side).0 && 0 <= vY < Footprint(m, side).1 ==>
      var (x, y) := Unrotate(m, side, vX, vY); 0 <= x < m.sizeX && 0 <= y < m.sizeY
  {
  }

  /** Shifts u so that the rotated column (0, B - 1) lands in column 0 (see ProjectCorners). */
  function OffsetU(m: Model, side: Side): (r: int)
    ensures r == Footprint(m, side).1 - 1
  {
    if side % 2 == 1 then m.sizeX - 1 else m.sizeY - 1
  }

  /** Shifts v so that the three rows of the lowest front voxel end at the grid's last row. */
  function OffsetV(m: Model): (r: int)
    ensures m.SizeV() > 0 ==> r + 3 == Rows(m)
  {
    m.SizeV() - 4
  }

  function OffsetW(m: Model): int { m.sizeZ - 1 }

  /** Lattice coordinates: column u, row v, depth w along the ray. */
  datatype Lattice = Lattice(u: int, v: int, w: int)

  /**
   * Where the voxel lands for `side`. The lattice point determines the voxel:
   * its height from v and w, and its rotated column from u and w.
   */
  function Project(m: Model, side: Side, vox: Voxel): (r: Lattice)
    ensures var (vX, vY) := Rotate(m, side, vox.x, vox.y);
      && 3 * vox.z == (OffsetV(m) - r.v) - (r.w - OffsetW(m))
      && vX - vY == r.u - OffsetU(m, side)
      && vX + vY == r.w - OffsetW(m) + vox.z
  {
    var (vX, vY) := Rotate(m, side, vox.x, vox.y);
    Lattice(OffsetU(m, side) + vX - vY, OffsetV(m) - vX - vY - 2 * vox.z, OffsetW(m) + vX + vY - vox.z)
  }

  /**
   * The face a voxel projected to `p` deposits at cell (a, b), if any: Top at
   * (u, v) and (u+1, v), Left at (u, v+1) and (u, v+2), Right at (u+1, v+1)
   * and (u+1, v+2).
   */
  function CellFace(p: Lattice, a: int, b: int): (f: Option<Face>)
    ensures f.Some? <==> (a == p.u || a == p.u + 1) && p.v <= b <= p.v + 2
  {
    if b == p.v && (a == p.u || a == p.u + 1) then Some(Top)
    else if a == p.u && (b == p.v + 1 || b == p.v + 2) then Some(Left)
    else if a == p.u + 1 && (b == p.v + 1 || b == p.v + 2) then Some(Right)
    else None
  }

  /** `ray[w] = t`; a negative w names no array element, so the ray is unchanged. */
  function Place(ray: Ray, w: int, t: Triangle): (r: Ray)
    ensures w < 0 ==> r == ray
    ensures w >= 0 ==> |r| == (if w < |ray| then |ray| else w + 1) && r[w] == Some(t)
    ensures forall j | 0 <= j < |r| && j != w :: r[j] == (if j < |ray| then ray[j] else None)
  {
    if w >= 0 then SetAt(ray, w, t) else ray
  }

  /** The effect on the ray at (a, b) of depositing a voxel projected to `p` with colour `c`. */
  function Stamp(ray: Ray, p: Lattice, c: byte, a: int, b: int): (r: Ray)
    ensures |ray| <= |r|
    ensures CellFace(p, a, b).None? || p.w < 0 ==> r == ray
    ensures CellFace(p, a, b).Some? && p.w >= 0 ==> p.w < |r| && r[p.w] == Some(Triangle(CellFace(p, a, b).value, c))
    ensures forall j | 0 <= j < |r| && j != p.w :: r[j] == (if j < |ray| then ray[j] else None)
  {
    match CellFace(p, a, b)
    case None => ray
    case Some(f) => Place(ray, p.w, Triangle(f, c))
  }

  /**
   * The ray at (a, b) after the voxels `vs` have been deposited in order. As a
   * JavaScript array it ends at its deepest deposit, so its last entry is never
   * a hole, and every depth a voxel deposits at lies within it.
   */
  function RayAt(m: Model, side: Side, vs: seq<Voxel>, a: int, b: int): (r: Ray)
    decreases |vs|
    ensures |r| == 0 || r[|r| - 1].Some?
    ensures forall k | 0 <= k < |vs| && Hits(m, side, vs[k], a, b, Project(m, side, vs[k]).w) ::
      Project(m, side, vs[k]).w < |r|
  {
    if vs == [] then []
    else
      var last := vs[|vs| - 1];
      assert forall k | 0 <= k < |vs| - 1 :: vs[..|vs| - 1][k] == vs[k];
      Stamp(RayAt(m, side, vs[..|vs| - 1], a, b), Project(m, side, last), last.colorIndex, a, b)
  }

  /** Rows of the grid: sizeV - 1 (a model with sizeV = 0 also has no columns). */
  function Rows(m: Model): nat { if m.SizeV() == 0 then 0 else m.SizeV() - 1 }

  /** All six cells of the voxel are inside the sizeU x (sizeV - 1) grid. */
  predicate Fits(m: Model, side: Side, vox: Voxel) {
    var p := Project(m, side, vox);
    0 <= p.u && p.u + 1 < m.SizeU() && 0 <= p.v && p.v + 2 < Rows(m)
  }

  predicate AllFit(m: Model, side: Side, vs: seq<Voxel>) {
    forall j | 0 <= j < |vs| :: Fits(m, side, vs[j])
  }

  /** The grid prepareTriangles returns, or the TypeError of a cell outside it. */
  function Grid(m: Model, side: Side): (r: Result<seq<seq<Ray>>>)
    ensures r.Ok? <==> AllFit(m, side, m.voxels)
    ensures r.Err? ==> r.error == OutsideGrid
    ensures r.Ok? ==> |r.value| == m.SizeU() && forall u | 0 <= u < |r.value| :: |r.value[u]| == Rows(m)
  {
    if AllFit(m, side, m.voxels) then
      Ok(seq(m.SizeU(), u requires 0 <= u < m.SizeU() =>
        seq(Rows(m), v requires 0 <= v < Rows(m) => RayAt(m, side, m.voxels, u, v))))
    else Err(OutsideGrid)
  }

  // ---------------------------------------------------------------------------
  // Properties of the projection.
  // ---------------------------------------------------------------------------

  /**
   * What the three offsets achieve: the rotated column (0, B - 1) goes to
   * column 0, the lowest voxel of the front column (0, 0) occupies the last
   * three rows of the grid, and the top voxel of that column has depth 0.
   */
  lemma ProjectCorners(m: Model, side: Side, vox: Voxel)
    ensures Rotate(m, side, vox.x, vox.y).0 == 0 && Rotate(m, side, vox.x, vox.y).1 == Footprint(m, side).1 - 1 ==>
      Project(m, side, vox).u == 0
    ensures Rotate(m, side, vox.x, vox.y) == (0, 0) && vox.z == 0 && m.SizeV() > 0 ==>
      Project(m, side, vox).v + 3 == Rows(m)
    ensures Rotate(m, side, vox.x, vox.y) == (0, 0) && vox.z + 1 == m.sizeZ ==>
      Project(m, side, vox).w == 0
  {
  }

  /**
   * A voxel inside the model's box always fits: its six cells lie in the grid
   * and its depth is between 0 and sizeX + sizeY + sizeZ - 3.
   */
  lemma ProjectInBounds(m: Model, side: Side, vox: Voxel)
    requires vox.x < m.sizeX && vox.y < m.sizeY && vox.z < m.sizeZ
    ensures Fits(m, side, vox)
    ensures 0 <= Project(m, side, vox).w <= m.sizeX + m.sizeY + m.sizeZ - 3
  {
    var (vX, vY) := Rotate(m, side, vox.x, vox.y);
    assert 0 <= vX < Footprint(m, side).0 && 0 <= vY < Footprint(m, side).1;
  }

  /** The projector never fails on a model whose voxels respect its box. */
  lemma InBoxGrid(m: Model, side: Side)
    requires m.InBox()
    ensures Grid(m, side).Ok?
  {
    forall j | 0 <= j < |m.voxels| ensures Fits(m, side, m.voxels[j]) {
      ProjectInBounds(m, side, m.voxels[j]);
    }
  }

  /**
   * Two voxels share a column (u, v) exactly when their rotated positions agree
   * in vX - vY and in vX + vY + 2z; then their depths differ by three per unit
   * of height, the higher voxel being nearer.
   */
  lemma SameColumnDepth(m: Model, side: Side, p: Voxel, q: Voxel)
    ensures var (pX, pY) := Rotate(m, side, p.x, p.y);
      var (qX, qY) := Rotate(m, side, q.x, q.y);
      (Project(m, side, p).u, Project(m, side, p).v) == (Project(m, side, q).u, Project(m, side, q).v)
      <==> pX - pY == qX - qY && pX + pY + 2 * p.z == qX + qY + 2 * q.z
    ensures (Project(m, side, p).u, Project(m, side, p).v) == (Project(m, side, q).u, Project(m, side, q).v) ==>
      Project(m, side, p).w - Project(m, side, q).w == 3 * (q.z - p.z)
  {
  }

  /**
   * Two voxels that deposit a patch into the same cell at the same depth are at
   * the same position: distinct positions never collide.
   */
  lemma NoCollision(m: Model, side: Side, p: Voxel, q: Voxel, a: int, b: int)
    requires CellFace(Project(m, side, p), a, b).Some? && CellFace(Project(m, side, q), a, b).Some?
    requires Project(m, side, p).w == Project(m, side, q).w
    ensures (p.x, p.y, p.z) == (q.x, q.y, q.z)
  {
    var (pX, pY) := Rotate(m, side, p.x, p.y);
    var (qX, qY) := Rotate(m, side, q.x, q.y);
    var dX, dY, dZ := pX - qX, pY - qY, p.z - q.z;
    assert dZ == dX + dY;
    assert -2 <= 3 * dZ <= 2;
    assert dZ == 0;
    assert dX == 0 && dY == 0;
    assert Unrotate(m, side, pX, pY) == Unrotate(m, side, qX, qY);
  }

  /** The voxel `vox` deposits a patch into the ray at (a, b) at depth w. */
  predicate Hits(m: Model, side: Side, vox: Voxel, a: int, b: int, w: int) {
    CellFace(Project(m, side, vox), a, b).Some? && Project(m, side, vox).w == w && w >= 0
  }

  /** The last voxel of `vs` that deposits at depth w of the ray at (a, b). */
  function LastHit(m: Model, side: Side, vs: seq<Voxel>, a: int, b: int, w: int): (r: Option<nat>)
    decreases |vs|
    ensures r.Some? ==> r.value < |vs| && Hits(m, side, vs[r.value], a, b, w)
    ensures r.Some? ==> forall k | r.value < k < |vs| :: !Hits(m, side, vs[k], a, b, w)
    ensures r.None? ==> forall k | 0 <= k < |vs| :: !Hits(m, side, vs[k], a, b, w)
  {
    if vs == [] then None
    else if Hits(m, side, vs[|vs| - 1], a, b, w) then Some(|vs| - 1)
    else
      var r := LastHit(m, side, vs[..|vs| - 1], a, b, w);
      assert forall k | 0 <= k < |vs| - 1 :: vs[..|vs| - 1][k] == vs[k];
      r
  }

  /** The patch a voxel deposits at (a, b). */
  function PatchOf(m: Model, side: Side, vox: Voxel, a: int, b: int): Triangle
    requires CellFace(Project(m, side, vox), a, b).Some?
  {
    Triangle(CellFace(Project(m, side, vox), a, b).value, vox.colorIndex)
  }

  /**
   * Depth w of the ray at (a, b) holds the patch of the last voxel that
   * deposits there, and is empty (a hole, or past the end) when no voxel does.
   */
  lemma {:induction false} RayContents(m: Model, side: Side, vs: seq<Voxel>, a: int, b: int, w: int)
    requires w >= 0
    decreases |vs|
    ensures var ray := RayAt(m, side, vs, a, b);
      match LastHit(m, side, vs, a, b, w)
      case None => w >= |ray| || ray[w] == None
      case Some(j) => w < |ray| && ray[w] == Some(PatchOf(m, side, vs[j], a, b))
  {
    if vs != [] {
      var init, last := vs[..|vs| - 1], vs[|vs| - 1];
      RayContents(m, side, init, a, b, w);
      var prev := RayAt(m, side, init, a, b);
      assert RayAt(m, side, vs, a, b) == Stamp(prev, Project(m, side, last), last.colorIndex, a, b);
      if Hits(m, side, last, a, b, w) {
        assert LastHit(m, side, vs, a, b, w) == Some(|vs| - 1);
      } else {
        assert LastHit(m, side, vs, a, b, w) == LastHit(m, side, init, a, b, w);
        if LastHit(m, side, init, a, b, w).Some? {
          assert init[LastHit(m, side, init, a, b, w).value] == vs[LastHit(m, side, init, a, b, w).value];
        }
      }
    }
  }

  // ---------------------------------------------------------------------------
  // prepareTriangles as the source runs it: allocate the grid, then deposit
  // each voxel's six patches in place.
  // ---------------------------------------------------------------------------

  /** The grid's contents as a value. */
  function Snapshot(grid: array2<Ray>): seq<seq<Ray>>
    reads grid
  {
    seq(grid.Length0, u requires 0 <= u < grid.Length0 reads grid =>
      seq(grid.Length1, v requires 0 <= v < grid.Length1 reads grid => grid[u, v]))
  }

  /** Depositing voxel i extends RayAt and AllFit from the first i voxels to the first i + 1. */
  lemma DepositStep(m: Model, side: Side, vs: seq<Voxel>, i: nat)
    requires i < |vs|
    ensures forall a, b ::
      RayAt(m, side, vs[..i + 1], a, b) == Stamp(RayAt(m, side, vs[..i], a, b), Project(m, side, vs[i]), vs[i].colorIndex, a, b)
    ensures AllFit(m, side, vs[..i]) && Fits(m, side, vs[i]) ==> AllFit(m, side, vs[..i + 1])
  {
    var pre := vs[..i + 1];
    assert pre[..|pre| - 1] == vs[..i] && pre[|pre| - 1] == vs[i];
    if AllFit(m, side, vs[..i]) && Fits(m, side, vs[i]) {
      assert forall j | 0 <= j < i + 1 :: pre[j] == if j < i then vs[..i][j] else vs[i];
    }
  }

  /** A grid holding RayAt of all voxels in every cell is the value Grid specifies. */
  lemma GridIsSnapshot(m: Model, side: Side, grid: array2<Ray>)
    requires AllFit(m, side, m.voxels)
    requires grid.Length0 == m.SizeU() && grid.Length1 == Rows(m)
    requires forall a, b | 0 <= a < grid.Length0 && 0 <= b < grid.Length1 ::
      grid[a, b] == RayAt(m, side, m.voxels, a, b)
    ensures Grid(m, side) == Ok(Snapshot(grid))
  {
    var g := Grid(m, side).value;
    var snap := Snapshot(grid);
    assert |g| == |snap| == grid.Length0;
    forall u | 0 <= u < |g| ensures g[u] == snap[u] {
      assert |g[u]| == |snap[u]| == grid.Length1;
      forall v | 0 <= v < |g[u]| ensures g[u][v] == snap[u][v] {
        assert g[u][v] == RayAt(m, side, m.voxels, u, v);
        assert snap[u][v] == grid[u, v];
      }
    }
    assert g == snap;
  }

  /** The six assignments of one voxel, in the order the chained assignments run. */
  method Deposit(grid: array2<Ray>, p: Lattice, c: byte)
    requires 0 <= p.u && p.u + 1 < grid.Length0 && 0 <= p.v && p.v + 2 < grid.Length1
    modifies grid
    ensures forall a, b | 0 <= a < grid.Length0 && 0 <= b < grid.Length1 ::
      grid[a, b] == Stamp(old(grid[a, b]), p, c, a, b)
  {
    grid[p.u + 1, p.v] := Place(grid[p.u + 1, p.v], p.w, Triangle(Top, c));
    grid[p.u, p.v] := Place(grid[p.u, p.v], p.w, Triangle(Top, c));
    grid[p.u, p.v + 2] := Place(grid[p.u, p.v + 2], p.w, Triangle(Left, c));
    grid[p.u, p.v + 1] := Place(grid[p.u, p.v + 1], p.w, Triangle(Left, c));
    grid[p.u + 1, p.v + 2] := Place(grid[p.u + 1, p.v + 2], p.w, Triangle(Right, c));
    grid[p.u + 1, p.v + 1] := Place(grid[p.u + 1, p.v + 1], p.w, Triangle(Right, c));
  }

  method PrepareTriangles(m: Model, side: Side) returns (grid: array2<Ray>, res: Outcome)
    ensures fresh(grid)
    ensures grid.Length0 == m.SizeU() && grid.Length1 == Rows(m)
    ensures res.Pass? <==> Grid(m, side).Ok?
    ensures res.Fail? ==> res.error == OutsideGrid
    ensures res.Pass? ==> Grid(m, side).value == Snapshot(grid)
  {
    var offsetU := if side % 2 == 1 then m.sizeX - 1 else m.sizeY - 1;
    var offsetV := m.SizeV() - 4;
    var offsetW := m.sizeZ - 1;

    grid := new Ray[m.SizeU(), Rows(m)]((u, v) => []);

    for i := 0 to |m.voxels|
      invariant AllFit(m, side, m.voxels[..i])
      invariant forall a, b | 0 <= a < grid.Length0 && 0 <= b < grid.Length1 ::
        grid[a, b] == RayAt(m, side, m.voxels[..i], a, b)
    {
      var voxel := m.voxels[i];
      var (vX, vY) := Rotate(m, side, voxel.x, voxel.y);
      var p := Lattice(offsetU + vX - vY, offsetV - vX - vY - 2 * voxel.z, offsetW + vX + vY - voxel.z);

      if !(0 <= p.u && p.u + 1 < grid.Length0 && 0 <= p.v && p.v + 2 < grid.Length1) {
        assert !Fits(m, side, m.voxels[i]);
        return grid, Fail(OutsideGrid);
      }
      assert p == Project(m, side, voxel);
      label before:
      Deposit(grid, p, voxel.colorIndex);
      DepositStep(m, side, m.voxels, i);
      forall a, b | 0 <= a < grid.Length0 && 0 <= b < grid.Length1
        ensures grid[a, b] == RayAt(m, side, m.voxels[..i + 1], a, b)
      {
        assert old@before(grid[a, b]) == RayAt(m, side, m.voxels[..i], a, b);
        assert grid[a, b] == Stamp(old@before(grid[a, b]), p, voxel.colorIndex, a, b);
      }
    }
    assert m.voxels[..|m.voxels|] == m.voxels;
    res := Pass;
    GridIsSnapshot(m, side, grid);
  }
}
