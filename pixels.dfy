/**
 * The pixel placer: preparePixels (src/pixels.ts) and its copy renderPixels
 * (src/magicavoxel.ts). Each lattice column u becomes two pixel columns; for
 * every cell (u, v) inside the visible window the nearest patch of its ray is
 * looked up in the palette, shaded by face, and written as a double-height
 * pixel at (2u + toggle, v) and (2u + toggle, v + 1).
 */
module Pixels {
  import opened Wrappers
  import opened Vox
  import opened Triangles
  import Arith

  // ---------------------------------------------------------------------------
  // The RGBA byte buffer.
  // ---------------------------------------------------------------------------

  /** Byte offset of pixel (x, y) in a buffer of rows `width` pixels wide, as the source computes it. */
  function Offset(width: nat, x: nat, y: nat): nat { (width * y + x) * 4 }

  /** Channel k of pixel (x, y) of a width x height buffer; always inside the buffer. */
  function Index(width: nat, height: nat, x: nat, y: nat, k: nat): (i: nat)
    requires x < width && y < height && k < 4
    ensures i < width * height * 4
  {
    IndexBound(width, height, x, y, k);
    Offset(width, x, y) + k
  }

  /** Byte k of an RGBA colour; an unwritten pixel reads as zero. */
  function Channel(c: Option<Color>, k: nat): byte {
    match c
    case None => 0
    case Some(c) => if k == 0 then c.r else if k == 1 then c.g else if k == 2 then c.b else c.a
  }

  /**
   * The four channel writes of one pixel starting at byte `idx`; as on a typed
   * array, a write past the end is ignored.
   */
  function WritePixel(d: seq<byte>, idx: nat, c: Color): (r: seq<byte>)
    ensures |r| == |d|
  {
    seq(|d|, j requires 0 <= j < |d| => PixelByte(d, idx, c, j))
  }

  function PixelByte(d: seq<byte>, idx: nat, c: Color, j: nat): byte
    requires j < |d|
  {
    if idx <= j < idx + 4 then Channel(Some(c), j - idx) else d[j]
  }

  /** putDoubleHeightPixel: the same colour at (x, y) and at (x, y + 1). */
  function DoubleHeight(d: seq<byte>, width: nat, x: nat, y: nat, c: Color): (r: seq<byte>)
    ensures |r| == |d|
  {
    WritePixel(WritePixel(d, Offset(width, x, y), c), Offset(width, x, y + 1), c)
  }

  lemma IndexBound(width: nat, height: nat, x: nat, y: nat, k: nat)
    requires x < width && y < height && k < 4
    ensures Offset(width, x, y) + k < width * height * 4
  {
    assert width * y + x < width * (y + 1);
    Arith.MulMonotone(width, y + 1, height);
  }

  /** An in-bounds index determines its pixel and channel. */
  lemma IndexDecompose(width: nat, x: nat, y: nat, k: nat)
    requires x < width && k < 4
    ensures (Offset(width, x, y) + k) / 4 == width * y + x && (Offset(width, x, y) + k) % 4 == k
    ensures (width * y + x) / width == y && (width * y + x) % width == x
  {
    Arith.DivModUnique(Offset(width, x, y) + k, 4, width * y + x, k);
    Arith.DivModUnique(width * y + x, width, y, x);
  }

  lemma IndexInjective(width: nat, x: nat, y: nat, k: nat, x': nat, y': nat, k': nat)
    requires x < width && k < 4 && x' < width && k' < 4
    requires Offset(width, x, y) + k == Offset(width, x', y') + k'
    ensures x == x' && y == y' && k == k'
  {
    IndexDecompose(width, x, y, k);
    IndexDecompose(width, x', y', k');
  }

  /** Every byte of a width x height buffer is channel k of exactly one pixel (x, y). */
  lemma IndexCover(width: nat, height: nat, i: nat)
    requires i < width * height * 4
    ensures width > 0 && 0 <= (i / 4) % width < width && 0 <= (i / 4) / width < height
    ensures Offset(width, (i / 4) % width, (i / 4) / width) + i % 4 == i
  {
    var p := i / 4;
    assert p < width * height;
    var x, y := p % width, p / width;
    assert p == width * y + x;
    if y >= height {
      Arith.MulMonotone(width, height, y);
      assert false;
    }
  }

  /** Channel k of pixel (x', y') lies in the four bytes of pixel (x, y) only when the pixels coincide. */
  lemma OffsetRange(width: nat, x: nat, y: nat, x': nat, y': nat, k: nat)
    requires x < width && x' < width && k < 4
    ensures Offset(width, x, y) <= Offset(width, x', y') + k < Offset(width, x, y) + 4 <==> x == x' && y == y'
  {
    var j := Offset(width, x', y') + k;
    if Offset(width, x, y) <= j < Offset(width, x, y) + 4 {
      IndexInjective(width, x', y', k, x, y, j - Offset(width, x, y));
    }
  }

  /**
   * Writing a double-height pixel changes the two pixels (x, y) and (x, y + 1),
   * all four channels, and no other byte of the buffer.
   */
  lemma DoubleHeightAt(d: seq<byte>, width: nat, height: nat, x: nat, y: nat, c: Color, x': nat, y': nat, k: nat)
    requires |d| == width * height * 4
    requires x < width && y + 1 < height && x' < width && y' < height && k < 4
    ensures var d' := DoubleHeight(d, width, x, y, c);
      |d'| == |d| &&
      d'[Index(width, height, x', y', k)] ==
        if x' == x && (y' == y || y' == y + 1) then Channel(Some(c), k) else d[Index(width, height, x', y', k)]
  {
    var i := Index(width, height, x', y', k);
    OffsetRange(width, x, y, x', y', k);
    OffsetRange(width, x, y + 1, x', y', k);
  }

  /** The pixel buffer of one rendered side, as the source's ImageData. */
  class ImageData {
    const width: nat
    const height: nat
    const data: array<byte>

    /** A fresh buffer: width * height RGBA pixels, every byte zero. */
    constructor (width: nat, height: nat)
      ensures this.width == width && this.height == height
      ensures fresh(data) && data.Length == width * height * 4
      ensures forall i | 0 <= i < data.Length :: data[i] == 0
    {
      this.width := width;
      this.height := height;
      data := new byte[width * height * 4](_ => 0);
    }

    /** The two indices are written in turn, four channels each. */
    method PutDoubleHeightPixel(x: nat, y: nat, c: Color)
      modifies data
      ensures data[..] == DoubleHeight(old(data[..]), width, x, y, c)
    {
      var idx := (width * y + x) * 4;
      PutPixel(idx, c);
      idx := (width * (y + 1) + x) * 4;
      PutPixel(idx, c);
    }

    method PutPixel(idx: nat, c: Color)
      modifies data
      ensures data[..] == WritePixel(old(data[..]), idx, c)
    {
      ghost var d := data[..];
      if idx < data.Length { data[idx] := c.r; }
      if idx + 1 < data.Length { data[idx + 1] := c.g; }
      if idx + 2 < data.Length { data[idx + 2] := c.b; }
      if idx + 3 < data.Length { data[idx + 3] := c.a; }
      forall j | 0 <= j < data.Length ensures data[j] == WritePixel(d, idx, c)[j] {
        if idx <= j < idx + 4 {
          assert Channel(Some(c), j - idx) == [c.r, c.g, c.b, c.a][j - idx];
        }
      }
    }
  }

  // ---------------------------------------------------------------------------
  // The visible window and the pixel toggle.
  // ---------------------------------------------------------------------------

  function Width(m: Model): nat { 2 * m.SizeU() }
  function Height(m: Model): nat { m.SizeV() }

  /** The extent of the side facing right in the picture: sizeY for odd sides, sizeX for even ones. */
  function RightSide(m: Model, side: Side): (r: nat)
    ensures r == Footprint(m, side).0
  {
    if side % 2 == 1 then m.sizeY else m.sizeX
  }

  function LeftSide(m: Model, side: Side): (r: nat)
    ensures r == Footprint(m, side).1
  {
    if side % 2 == 1 then m.sizeX else m.sizeY
  }

  function Max(a: int, b: int): int { if a >= b then a else b }

  /** The first row of column u that can hold a visible surface; never negative. */
  function StartV(m: Model, side: Side, u: int): (r: int)
    ensures r >= 0
  {
    Max(RightSide(m, side) - u - 1, u - RightSide(m, side))
  }

  /** One past the last row the window reads in column u; the double-height pixel at row r - 1 still fits. */
  function EndV(m: Model, side: Side, u: int): (r: int)
    ensures r <= m.SizeV() - 1
  {
    m.SizeV() - Max(LeftSide(m, side) - u - 1, u - LeftSide(m, side)) - 1
  }

  /** The cells the pixel loops visit. */
  predicate InWindow(m: Model, side: Side, u: int, v: int) {
    0 <= u < m.SizeU() && StartV(m, side, u) <= v < EndV(m, side, u)
  }

  /**
   * The window lies inside the grid, both rows of each double-height pixel lie
   * inside the image, and the window is never inverted in a column of the grid.
   */
  lemma WindowInGrid(m: Model, side: Side, u: int, v: int)
    ensures 0 <= u < m.SizeU() ==> StartV(m, side, u) <= EndV(m, side, u)
    ensures InWindow(m, side, u, v) ==> 0 <= v && v < Rows(m) && v + 1 < Height(m)
    ensures InWindow(m, side, u, v) ==> 2 * u + Toggle(m, side, u, v) < Width(m)
  {
  }

  /** Every cell an in-box voxel deposits into is read by the pixel loops. */
  lemma WindowCoversDeposits(m: Model, side: Side, vox: Voxel, a: int, b: int)
    requires vox.x < m.sizeX && vox.y < m.sizeY && vox.z < m.sizeZ
    requires CellFace(Project(m, side, vox), a, b).Some?
    ensures InWindow(m, side, a, b)
  {
    var (vX, vY) := Rotate(m, side, vox.x, vox.y);
    assert 0 <= vX < RightSide(m, side) && 0 <= vY < LeftSide(m, side);
  }

  /** XOR of the low bits of rightSide, v and u: which of the column's two pixels cell (u, v) lights. */
  function Toggle(m: Model, side: Side, u: nat, v: nat): (t: nat)
    ensures t < 2
  {
    (RightSide(m, side) % 2 + v % 2 + u % 2) % 2
  }

  lemma ToggleFlips(m: Model, side: Side, u: nat, v: nat)
    ensures Toggle(m, side, u, v + 1) == 1 - Toggle(m, side, u, v)
  {
  }

  /** The cell whose pixel lands at (x, y): column x / 2, and row y or y - 1 by the toggle. */
  function SourceRow(m: Model, side: Side, x: nat, y: nat): int {
    if Toggle(m, side, x / 2, y) == x % 2 then y else y - 1
  }

  /**
   * Cell (u, v) writes pixel (x, y) exactly when (x, y) has (u, v) as its
   * source cell. Hence two distinct cells never write the same pixel.
   */
  lemma PixelSource(m: Model, side: Side, u: nat, v: nat, x: nat, y: nat)
    ensures (x == 2 * u + Toggle(m, side, u, v) && (y == v || y == v + 1)) <==>
      (x / 2 == u && SourceRow(m, side, x, y) == v)
  {
    ToggleFlips(m, side, u, v);
    if x == 2 * u + Toggle(m, side, u, v) {
      Arith.DivModUnique(x, 2, u, Toggle(m, side, u, v));
    }
    if x / 2 == u {
      assert x == 2 * u + x % 2;
      if y >= 1 { ToggleFlips(m, side, u, y - 1); }
    }
  }

  lemma NoSharedPixel(m: Model, side: Side, u: nat, v: nat, u': nat, v': nat, x: nat, y: nat)
    requires x == 2 * u + Toggle(m, side, u, v) && (y == v || y == v + 1)
    requires x == 2 * u' + Toggle(m, side, u', v') && (y == v' || y == v' + 1)
    ensures u == u' && v == v'
  {
    PixelSource(m, side, u, v, x, y);
    PixelSource(m, side, u', v', x, y);
  }

  // ---------------------------------------------------------------------------
  // The nearest patch of a ray.
  // ---------------------------------------------------------------------------

  /** `ray.filter(Boolean)`: the patches of the ray in order of depth, holes dropped. */
  function Populated(ray: Ray): (r: seq<Triangle>)
    ensures |r| <= |ray|
    ensures forall k | 0 <= k < |r| :: Some(r[k]) in ray
    ensures forall w | 0 <= w < |ray| && ray[w].Some? :: ray[w].value in r
  {
    if ray == [] then []
    else if ray[0].Some? then [ray[0].value] + Populated(ray[1..])
    else Populated(ray[1..])
  }

  /** The smallest depth that holds a patch. */
  function FirstDepth(ray: Ray): (r: Option<nat>)
    ensures r.Some? ==> r.value < |ray| && ray[r.value].Some? && forall w | 0 <= w < r.value :: ray[w].None?
    ensures r.None? ==> forall w | 0 <= w < |ray| :: ray[w].None?
  {
    if ray == [] then None
    else if ray[0].Some? then Some(0)
    else match FirstDepth(ray[1..])
      case None => None
      case Some(w) => Some(w + 1)
  }

  /** The filtered ray is non-empty exactly when the ray holds a patch, and its head is the nearest one. */
  lemma {:induction false} PopulatedHead(ray: Ray)
    ensures |Populated(ray)| > 0 <==> FirstDepth(ray).Some?
    ensures |Populated(ray)| > 0 ==> Some(Populated(ray)[0]) == ray[FirstDepth(ray).value]
  {
    if ray != [] && ray[0].None? {
      PopulatedHead(ray[1..]);
    }
  }

  /**
   * The nearest patch of a projected ray belongs to a voxel hitting that cell
   * at the smallest depth any voxel hits it, and it was deposited last among
   * those at that depth; the ray is empty exactly when no voxel hits the cell
   * at a non-negative depth.
   */
  lemma NearestPatch(m: Model, side: Side, vs: seq<Voxel>, a: int, b: int)
    ensures var ray := RayAt(m, side, vs, a, b);
      |Populated(ray)| == 0 <==> forall k, w | 0 <= k < |vs| :: !Hits(m, side, vs[k], a, b, w)
    ensures var ray := RayAt(m, side, vs, a, b);
      |Populated(ray)| > 0 ==> exists j | 0 <= j < |vs| ::
        Hits(m, side, vs[j], a, b, Project(m, side, vs[j]).w) &&
        Populated(ray)[0] == PatchOf(m, side, vs[j], a, b) &&
        (forall k | 0 <= k < |vs| && Hits(m, side, vs[k], a, b, Project(m, side, vs[k]).w) ::
          Project(m, side, vs[j]).w <= Project(m, side, vs[k]).w) &&
        (forall k | j < k < |vs| :: !Hits(m, side, vs[k], a, b, Project(m, side, vs[j]).w))
  {
    var ray := RayAt(m, side, vs, a, b);
    PopulatedHead(ray);
    if |Populated(ray)| > 0 {
      var w := FirstDepth(ray).value;
      RayContents(m, side, vs, a, b, w);
      var j := LastHit(m, side, vs, a, b, w).value;
      forall k | 0 <= k < |vs| && Hits(m, side, vs[k], a, b, Project(m, side, vs[k]).w)
        ensures w <= Project(m, side, vs[k]).w
      {
        var w' := Project(m, side, vs[k]).w;
        RayContents(m, side, vs, a, b, w');
      }
    } else {
      forall k, w | 0 <= k < |vs| ensures !Hits(m, side, vs[k], a, b, w) {
        if Hits(m, side, vs[k], a, b, w) {
          RayContents(m, side, vs, a, b, w);
        }
      }
    }
  }

  // ---------------------------------------------------------------------------
  // The rendered image as a value.
  // ---------------------------------------------------------------------------

  /** The shaded face colour; the alpha channel is the palette entry's own. */
  function Shaded(c: Color, f: Face, shade: (Color, Face) -> Rgb): (s: Color)
    ensures s.a == c.a
  {
    var rgb := shade(c, f);
    Color(rgb.r, rgb.g, rgb.b, c.a)
  }

  /**
   * What a cell shows: nothing for an empty ray, the shaded colour of its
   * nearest patch, or the TypeError of a palette entry that does not exist.
   */
  function CellColor(ray: Ray, palette: Palette, shade: (Color, Face) -> Rgb): (r: Result<Option<Color>>)
    ensures r == Ok(None) <==> |Populated(ray)| == 0
    ensures r.Err? <==> (|Populated(ray)| > 0 &&
      (Populated(ray)[0].colorIndex >= |palette| || palette[Populated(ray)[0].colorIndex].None?))
    ensures r.Err? ==> r.error == MissingColor
    ensures r.Ok? && r.value.Some? ==>
      var t := Populated(ray)[0];
      r.value.value.a == palette[t.colorIndex].value.a &&
      r.value.value == Shaded(palette[t.colorIndex].value, t.face, shade)
  {
    var ps := Populated(ray);
    if |ps| == 0 then Ok(None)
    else if ps[0].colorIndex < |palette| && palette[ps[0].colorIndex].Some? then
      Ok(Some(Shaded(palette[ps[0].colorIndex].value, ps[0].face, shade)))
    else Err(MissingColor)
  }

  /** The grid as prepareTriangles shapes it. */
  predicate Shaped(g: seq<seq<Ray>>, m: Model) {
    |g| == m.SizeU() && forall u | 0 <= u < |g| :: |g[u]| == Rows(m)
  }

  /** No cell of the window fails its palette lookup. */
  predicate Renderable(g: seq<seq<Ray>>, m: Model, side: Side, palette: Palette, shade: (Color, Face) -> Rgb)
    requires Shaped(g, m)
  {
    forall u, v | 0 <= u < |g| && 0 <= v < |g[u]| && InWindow(m, side, u, v) ::
      CellColor(g[u][v], palette, shade).Ok?
  }

  /** The colour pixel (x, y) ends up with; None leaves its four bytes zero. */
  function Expected(g: seq<seq<Ray>>, m: Model, side: Side, palette: Palette, shade: (Color, Face) -> Rgb, x: nat, y: nat): Option<Color>
    requires Shaped(g, m)
  {
    var u, v := x / 2, SourceRow(m, side, x, y);
    if InWindow(m, side, u, v) && CellColor(g[u][v], palette, shade).Ok? then
      CellColor(g[u][v], palette, shade).value
    else None
  }

  /** The RGBA bytes preparePixels returns, or the error it throws. */
  function Image(g: seq<seq<Ray>>, m: Model, side: Side, palette: Palette, shade: (Color, Face) -> Rgb): (r: Result<seq<byte>>)
    requires Shaped(g, m)
    ensures r.Ok? <==> Renderable(g, m, side, palette, shade)
    ensures r.Err? ==> r.error == MissingColor
    ensures r.Ok? ==> |r.value| == Width(m) * Height(m) * 4
  {
    if Renderable(g, m, side, palette, shade) then
      Ok(seq(Width(m) * Height(m) * 4, i requires 0 <= i < Width(m) * Height(m) * 4 =>
        Channel(Expected(g, m, side, palette, shade, (i / 4) % Width(m), (i / 4) / Width(m)), i % 4)))
    else Err(MissingColor)
  }

  /**
   * Each channel of each pixel of the image: the channel of the colour its
   * source cell shows, zero when that cell is outside the window or empty.
   */
  lemma ImageAt(g: seq<seq<Ray>>, m: Model, side: Side, palette: Palette, shade: (Color, Face) -> Rgb, x: nat, y: nat, k: nat)
    requires Shaped(g, m) && Renderable(g, m, side, palette, shade)
    requires x < Width(m) && y < Height(m) && k < 4
    ensures Image(g, m, side, palette, shade).value[Index(Width(m), Height(m), x, y, k)] ==
      Channel(Expected(g, m, side, palette, shade, x, y), k)
  {
    IndexDecompose(Width(m), x, y, k);
  }

  /** A buffer that agrees with Expected on every channel of every pixel is the image. */
  lemma ImageFromPixels(g: seq<seq<Ray>>, m: Model, side: Side, palette: Palette, shade: (Color, Face) -> Rgb, d: seq<byte>)
    requires Shaped(g, m) && Renderable(g, m, side, palette, shade)
    requires |d| == Width(m) * Height(m) * 4
    requires forall x: nat, y: nat, k: nat | x < Width(m) && y < Height(m) && k < 4 ::
      d[Index(Width(m), Height(m), x, y, k)] == Channel(Expected(g, m, side, palette, shade, x, y), k)
    ensures Image(g, m, side, palette, shade) == Ok(d)
  {
    var img := Image(g, m, side, palette, shade).value;
    forall i | 0 <= i < |d| ensures d[i] == img[i] {
      IndexCover(Width(m), Height(m), i);
      var x, y, k := (i / 4) % Width(m), (i / 4) / Width(m), i % 4;
      ImageAt(g, m, side, palette, shade, x, y, k);
    }
    assert img == d;
  }

  // ---------------------------------------------------------------------------
  // preparePixels as the source runs it.
  // ---------------------------------------------------------------------------

  /** Cell (u, v) comes before cell (u0, v0) in the loops' order. */
  predicate Before(u: int, v: int, u0: int, v0: int) {
    u < u0 || (u == u0 && v < v0)
  }

  /** The bytes after the loops have visited the cells before (u0, v0). */
  function Partial(g: seq<seq<Ray>>, m: Model, side: Side, palette: Palette, shade: (Color, Face) -> Rgb,
                   u0: int, v0: int, x: nat, y: nat, k: nat): byte
    requires Shaped(g, m)
  {
    if Before(x / 2, SourceRow(m, side, x, y), u0, v0) then Channel(Expected(g, m, side, palette, shade, x, y), k) else 0
  }

  /** The buffer holds Partial before (u0, v0) in every channel of every pixel. */
  ghost predicate Agrees(d: seq<byte>, g: seq<seq<Ray>>, m: Model, side: Side, palette: Palette, shade: (Color, Face) -> Rgb,
                         u0: int, v0: int)
    requires Shaped(g, m)
  {
    |d| == Width(m) * Height(m) * 4 &&
    forall x: nat, y: nat, k: nat | x < Width(m) && y < Height(m) && k < 4 ::
      d[Index(Width(m), Height(m), x, y, k)] == Partial(g, m, side, palette, shade, u0, v0, x, y, k)
  }

  /** Every window cell before (u0, v0) has passed its palette lookup. */
  ghost predicate RenderableBefore(g: seq<seq<Ray>>, m: Model, side: Side, palette: Palette, shade: (Color, Face) -> Rgb,
                                   u0: int, v0: int)
    requires Shaped(g, m)
  {
    forall u, v | InWindow(m, side, u, v) && Before(u, v, u0, v0) :: CellColor(g[u][v], palette, shade).Ok?
  }

  /**
   * Entering column u0 at row StartV and leaving it at row EndV change
   * nothing: the cells skipped are outside the window.
   */
  lemma Edges(d: seq<byte>, g: seq<seq<Ray>>, m: Model, side: Side, palette: Palette, shade: (Color, Face) -> Rgb,
              u0: nat, v0: int)
    requires Shaped(g, m)
    ensures v0 <= StartV(m, side, u0) ==>
      (Agrees(d, g, m, side, palette, shade, u0, v0) <==> Agrees(d, g, m, side, palette, shade, u0, -1)) &&
      (RenderableBefore(g, m, side, palette, shade, u0, v0) <==> RenderableBefore(g, m, side, palette, shade, u0, -1))
    ensures v0 >= EndV(m, side, u0) ==>
      (Agrees(d, g, m, side, palette, shade, u0, v0) <==> Agrees(d, g, m, side, palette, shade, u0 + 1, -1)) &&
      (RenderableBefore(g, m, side, palette, shade, u0, v0) <==> RenderableBefore(g, m, side, palette, shade, u0 + 1, -1))
  {
  }

  /** Before the first column nothing is drawn; after the last one the buffer is the image. */
  lemma Finish(d: seq<byte>, g: seq<seq<Ray>>, m: Model, side: Side, palette: Palette, shade: (Color, Face) -> Rgb)
    requires Shaped(g, m)
    ensures RenderableBefore(g, m, side, palette, shade, m.SizeU(), -1) <==> Renderable(g, m, side, palette, shade)
    ensures Agrees(d, g, m, side, palette, shade, m.SizeU(), -1) && Renderable(g, m, side, palette, shade) ==>
      Image(g, m, side, palette, shade) == Ok(d)
    ensures RenderableBefore(g, m, side, palette, shade, 0, -1)
    ensures |d| == Width(m) * Height(m) * 4 && (forall i | 0 <= i < |d| :: d[i] == 0) ==>
      Agrees(d, g, m, side, palette, shade, 0, -1)
  {
    if Agrees(d, g, m, side, palette, shade, m.SizeU(), -1) && Renderable(g, m, side, palette, shade) {
      ImageFromPixels(g, m, side, palette, shade, d);
    }
  }

  /** The buffer after cell (u, v) is visited: its double-height pixel drawn when it shows a colour. */
  function Drawn(d: seq<byte>, m: Model, side: Side, u: nat, v: nat, shown: Option<Color>): seq<byte> {
    match shown
    case None => d
    case Some(c) => DoubleHeight(d, Width(m), 2 * u + Toggle(m, side, u, v), v, c)
  }

  /** One channel of one pixel across the visit of cell (u, v). */
  lemma VisitPixel(g: seq<seq<Ray>>, m: Model, side: Side, palette: Palette, shade: (Color, Face) -> Rgb,
                   u: nat, v: nat, d: seq<byte>, x: nat, y: nat, k: nat)
    requires Shaped(g, m) && InWindow(m, side, u, v)
    requires CellColor(g[u][v], palette, shade).Ok?
    requires |d| == Width(m) * Height(m) * 4
    requires x < Width(m) && y < Height(m) && k < 4
    requires d[Index(Width(m), Height(m), x, y, k)] == Partial(g, m, side, palette, shade, u, v, x, y, k)
    ensures |Drawn(d, m, side, u, v, CellColor(g[u][v], palette, shade).value)| == |d|
    ensures Drawn(d, m, side, u, v, CellColor(g[u][v], palette, shade).value)[Index(Width(m), Height(m), x, y, k)] ==
      Partial(g, m, side, palette, shade, u, v + 1, x, y, k)
  {
    var px := 2 * u + Toggle(m, side, u, v);
    var shown := CellColor(g[u][v], palette, shade).value;
    var d' := Drawn(d, m, side, u, v, shown);
    var i := Index(Width(m), Height(m), x, y, k);
    WindowInGrid(m, side, u, v);
    PixelSource(m, side, u, v, x, y);
    if shown.Some? {
      DoubleHeightAt(d, Width(m), Height(m), px, v, shown.value, x, y, k);
    } else {
      assert d' == d;
    }
    if x == px && (y == v || y == v + 1) {
      assert x / 2 == u && SourceRow(m, side, x, y) == v;
      assert Expected(g, m, side, palette, shade, x, y) == shown;
      assert d'[i] == Channel(shown, k);
    } else {
      assert d'[i] == d[i];
    }
  }

  /** Visiting cell (u, v) turns the state before it into the state after it. */
  lemma VisitCell(g: seq<seq<Ray>>, m: Model, side: Side, palette: Palette, shade: (Color, Face) -> Rgb,
                  u: nat, v: nat, d: seq<byte>)
    requires Shaped(g, m) && InWindow(m, side, u, v)
    requires CellColor(g[u][v], palette, shade).Ok?
    requires Agrees(d, g, m, side, palette, shade, u, v)
    requires RenderableBefore(g, m, side, palette, shade, u, v)
    ensures RenderableBefore(g, m, side, palette, shade, u, v + 1)
    ensures Agrees(Drawn(d, m, side, u, v, CellColor(g[u][v], palette, shade).value),
      g, m, side, palette, shade, u, v + 1)
  {
    var d' := Drawn(d, m, side, u, v, CellColor(g[u][v], palette, shade).value);
    forall x: nat, y: nat, k: nat | x < Width(m) && y < Height(m) && k < 4
      ensures |d'| == |d| && d'[Index(Width(m), Height(m), x, y, k)] == Partial(g, m, side, palette, shade, u, v + 1, x, y, k)
    {
      VisitPixel(g, m, side, palette, shade, u, v, d, x, y, k);
    }
    WindowInGrid(m, side, u, v);
    VisitPixel(g, m, side, palette, shade, u, v, d, 0, 0, 0);
  }

  /** The grid's cells as a value. */
  lemma SnapshotAt(grid: array2<Ray>)
    ensures |Snapshot(grid)| == grid.Length0
    ensures forall u | 0 <= u < grid.Length0 :: |Snapshot(grid)[u]| == grid.Length1
    ensures forall u, v | 0 <= u < grid.Length0 && 0 <= v < grid.Length1 :: Snapshot(grid)[u][v] == grid[u, v]
  {
  }

  /**
   * One pass of the inner loop of preparePixels: the nearest patch of cell
   * (u, v), its palette entry, and the double-height pixel it lights. Returns
   * false where the source throws on a missing palette entry.
   */
  method DrawCell(pixels: ImageData, grid: array2<Ray>, m: Model, side: Side,
                  palette: Palette, shade: (Color, Face) -> Rgb, rightSide: nat, u: nat, v: nat)
    returns (ok: bool)
    requires u < grid.Length0 && v < grid.Length1
    requires rightSide == RightSide(m, side)
    requires pixels.width == Width(m)
    modifies pixels.data
    ensures ok <==> CellColor(grid[u, v], palette, shade).Ok?
    ensures ok ==> pixels.data[..] == Drawn(old(pixels.data[..]), m, side, u, v, CellColor(grid[u, v], palette, shade).value)
  {
    var ray := Populated(grid[u, v]);
    if |ray| > 0 {
      var triangle := ray[0];
      if !(triangle.colorIndex < |palette| && palette[triangle.colorIndex].Some?) {
        return false;
      }
      var triangleColor := palette[triangle.colorIndex].value;
      var shaded := shade(triangleColor, triangle.face);
      var pxToggle := (rightSide % 2 + v % 2 + u % 2) % 2;
      var color := Color(shaded.r, shaded.g, shaded.b, triangleColor.a);
      assert CellColor(grid[u, v], palette, shade).value == Some(color);
      var x := u * 2 + pxToggle;
      assert x == 2 * u + Toggle(m, side, u, v);
      pixels.PutDoubleHeightPixel(x, v, color);
    }
    ok := true;
  }

  /**
   * One pass of the outer loop of preparePixels: rows StartV to EndV of
   * column u, in order. Returns false where the source throws.
   */
  method DrawColumn(pixels: ImageData, grid: array2<Ray>, ghost g: seq<seq<Ray>>, m: Model, side: Side,
                    palette: Palette, shade: (Color, Face) -> Rgb, rightSide: nat, leftSide: nat, u: nat)
    returns (ok: bool)
    requires grid.Length0 == m.SizeU() && grid.Length1 == Rows(m) && u < m.SizeU()
    requires g == Snapshot(grid) && Shaped(g, m)
    requires rightSide == RightSide(m, side) && leftSide == LeftSide(m, side)
    requires pixels.width == Width(m)
    requires Agrees(pixels.data[..], g, m, side, palette, shade, u, -1)
    requires RenderableBefore(g, m, side, palette, shade, u, -1)
    modifies pixels.data
    ensures ok ==> Agrees(pixels.data[..], g, m, side, palette, shade, u + 1, -1)
    ensures ok ==> RenderableBefore(g, m, side, palette, shade, u + 1, -1)
    ensures !ok ==> !Renderable(g, m, side, palette, shade)
  {
    var startV := Max(rightSide - u - 1, u - rightSide);
    var endV := m.SizeV() - Max(leftSide - u - 1, u - leftSide) - 1;
    WindowInGrid(m, side, u, startV);
    Edges(pixels.data[..], g, m, side, palette, shade, u, startV);

    var v := startV;
    while v < endV
      invariant startV <= v <= endV
      invariant RenderableBefore(g, m, side, palette, shade, u, v)
      invariant Agrees(pixels.data[..], g, m, side, palette, shade, u, v)
    {
      WindowInGrid(m, side, u, v);
      ghost var d := pixels.data[..];
      assert g[u][v] == grid[u, v];
      ok := DrawCell(pixels, grid, m, side, palette, shade, rightSide, u, v);
      if !ok {
        return;
      }
      VisitCell(g, m, side, palette, shade, u, v, d);
      v := v + 1;
    }
    Edges(pixels.data[..], g, m, side, palette, shade, u, v);
    ok := true;
  }

  method PreparePixels(grid: array2<Ray>, m: Model, side: Side, palette: Palette, shade: (Color, Face) -> Rgb)
    returns (pixels: ImageData, res: Outcome)
    requires grid.Length0 == m.SizeU() && grid.Length1 == Rows(m)
    ensures fresh(pixels) && fresh(pixels.data)
    ensures pixels.width == Width(m) && pixels.height == Height(m)
    ensures Shaped(Snapshot(grid), m)
    ensures res.Pass? <==> Renderable(Snapshot(grid), m, side, palette, shade)
    ensures res.Fail? ==> res.error == MissingColor
    ensures res.Pass? ==> Image(Snapshot(grid), m, side, palette, shade) == Ok(pixels.data[..])
  {
    ghost var g := Snapshot(grid);
    SnapshotAt(grid);
    var pixelWidth := m.SizeU() * 2;
    var pixelHeight := m.SizeV();
    pixels := new ImageData(pixelWidth, pixelHeight);

    var rightSide, leftSide;
    if side % 2 == 1 {
      rightSide, leftSide := m.sizeY, m.sizeX;
    } else {
      rightSide, leftSide := m.sizeX, m.sizeY;
    }

    Finish(pixels.data[..], g, m, side, palette, shade);
    for u := 0 to grid.Length0
      invariant RenderableBefore(g, m, side, palette, shade, u, -1)
      invariant Agrees(pixels.data[..], g, m, side, palette, shade, u, -1)
    {
      var ok := DrawColumn(pixels, grid, g, m, side, palette, shade, rightSide, leftSide, u);
      if !ok {
        return pixels, Fail(MissingColor);
      }
    }
    Finish(pixels.data[..], g, m, side, palette, shade);
    res := Pass;
  }
}
