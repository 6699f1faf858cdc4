/**
 * The sprite-sheet composer: createSpriteSheet and renderChunk
 * (src/spritesheet.ts) and their single-file copy renderSpriteSheet
 * (src/magicavoxel.ts). The sheet is one RGBA buffer 8 * max sizeU pixels
 * wide and (number of models) * max sizeV pixels high; every model is
 * rendered for the four sides in turn and each rendered block is copied row by
 * row to the byte offset side * W + line * 4W + frame * W * H, exactly as the
 * source computes it.
 */
module SpriteSheet {
  import opened Wrappers
  import opened Vox
  import opened Triangles
  import opened Pixels
  import Arith

  /** A model as the split variant passes it around: with the shared palette and its frame number. */
  datatype FramedModel = FramedModel(model: Model, palette: Palette, frame: nat)

  // ---------------------------------------------------------------------------
  // Sheet geometry.
  // ---------------------------------------------------------------------------

  /** Math.max over a non-empty list. */
  function MaxOf(xs: seq<nat>): (r: nat)
    requires |xs| > 0
    ensures forall i | 0 <= i < |xs| :: xs[i] <= r
    ensures exists i | 0 <= i < |xs| :: xs[i] == r
  {
    if |xs| == 1 then xs[0]
    else
      var rest := MaxOf(xs[1..]);
      assert forall i | 1 <= i < |xs| :: xs[i] == xs[1..][i - 1];
      if xs[0] >= rest then xs[0] else rest
  }

  function SizesU(ms: seq<FramedModel>): seq<nat> { seq(|ms|, i requires 0 <= i < |ms| => ms[i].model.SizeU()) }
  function SizesV(ms: seq<FramedModel>): seq<nat> { seq(|ms|, i requires 0 <= i < |ms| => ms[i].model.SizeV()) }

  /** `Math.max(...models.map((m) => m.sizeU))`. */
  function MaxSizeU(ms: seq<FramedModel>): (r: nat)
    requires |ms| > 0
    ensures forall i | 0 <= i < |ms| :: ms[i].model.SizeU() <= r
    ensures exists i | 0 <= i < |ms| :: ms[i].model.SizeU() == r
  {
    var r := MaxOf(SizesU(ms));
    assert forall i | 0 <= i < |ms| :: SizesU(ms)[i] == ms[i].model.SizeU();
    r
  }

  /** `Math.max(...models.map((m) => m.sizeV))`. */
  function MaxSizeV(ms: seq<FramedModel>): (r: nat)
    requires |ms| > 0
    ensures forall i | 0 <= i < |ms| :: ms[i].model.SizeV() <= r
    ensures exists i | 0 <= i < |ms| :: ms[i].model.SizeV() == r
  {
    var r := MaxOf(SizesV(ms));
    assert forall i | 0 <= i < |ms| :: SizesV(ms)[i] == ms[i].model.SizeV();
    r
  }

  /** Sheet width in pixels: room for four blocks of the widest model side by side. */
  function SheetWidth(ms: seq<FramedModel>): (w: nat)
    requires |ms| > 0
    ensures forall i | 0 <= i < |ms| :: RowBytes(ms[i].model) <= w
  {
    8 * MaxSizeU(ms)
  }

  /** Sheet height in pixels: one band of the tallest model per model. */
  function SheetHeight(ms: seq<FramedModel>): (h: nat)
    requires |ms| > 0
    ensures forall i | 0 <= i < |ms| :: Height(ms[i].model) <= h
  {
    assert |ms| * MaxSizeV(ms) >= MaxSizeV(ms) by {
      if MaxSizeV(ms) > 0 { Arith.MulAtLeast(|ms|, MaxSizeV(ms)); }
    }
    |ms| * MaxSizeV(ms)
  }

  /** Bytes in one row of a rendered block (`chunk.width * 4`). */
  function RowBytes(m: Model): (r: nat)
    ensures r == 8 * m.SizeU()
  {
    Width(m) * 4
  }

  /** Rows the copy loop visits: none for an empty block, else every row of it. */
  function Lines(m: Model): (r: nat)
    ensures r <= Height(m)
    ensures r == 0 <==> m.SizeU() == 0 || m.SizeV() == 0
  {
    if Width(m) == 0 then 0 else Height(m)
  }

  /** The byte offset renderChunk copies row `line` of side `side` of frame `frame` to. */
  function RowOffset(w: nat, h: nat, side: nat, line: nat, frame: nat): (r: nat)
    ensures r == w * (side + 4 * line + frame * h)
  {
    side * w + line * w * 4 + frame * w * h
  }

  // ---------------------------------------------------------------------------
  // Composition as a value.
  // ---------------------------------------------------------------------------

  /**
   * `dst.set(src, offset)` on a typed array: a RangeError, before anything is
   * copied, when src does not fit; otherwise src overwrites the bytes from
   * offset on and nothing else changes.
   */
  function SetBytes(dst: seq<byte>, src: seq<byte>, offset: nat): (r: Result<seq<byte>>)
    ensures r.Ok? <==> offset + |src| <= |dst|
    ensures r.Err? ==> r.error == CopyOutOfRange
    ensures r.Ok? ==> |r.value| == |dst|
    ensures r.Ok? ==> forall j | 0 <= j < |dst| ::
      r.value[j] == if offset <= j < offset + |src| then src[j - offset] else dst[j]
  {
    if offset + |src| <= |dst| then Ok(dst[..offset] + src + dst[offset + |src|..]) else Err(CopyOutOfRange)
  }

  /** The RGBA bytes of one rendered side, or the error projecting or drawing it throws. */
  function Chunk(m: Model, side: Side, palette: Palette, shade: (Color, Face) -> Rgb): (r: Result<seq<byte>>)
    ensures r.Ok? ==> |r.value| == Width(m) * Height(m) * 4
  {
    match Grid(m, side)
    case Err(e) => Err(e)
    case Ok(g) => Image(g, m, side, palette, shade)
  }

  lemma RowsInChunk(m: Model, lines: nat)
    requires lines <= Lines(m)
    ensures lines * RowBytes(m) <= Width(m) * Height(m) * 4
  {
    if lines > 0 {
      Arith.MulMonotone(RowBytes(m), lines, Height(m));
    }
  }

  /** Row `line` of a rendered block: `chunk.subarray(pos, pos + chunk.width * 4)` with pos = line * width * 4. */
  function RowOf(chunk: seq<byte>, m: Model, line: nat): (r: seq<byte>)
    requires line < Lines(m) && |chunk| == Width(m) * Height(m) * 4
    ensures |r| == RowBytes(m)
    ensures forall k | 0 <= k < RowBytes(m) :: line * RowBytes(m) + k < |chunk| && r[k] == chunk[line * RowBytes(m) + k]
  {
    RowsInChunk(m, line + 1);
    assert line * RowBytes(m) + RowBytes(m) == (line + 1) * RowBytes(m);
    chunk[line * RowBytes(m)..(line + 1) * RowBytes(m)]
  }

  /** The first `lines` row copies of renderChunk, line 0 first. */
  function Paste(buf: seq<byte>, chunk: seq<byte>, fm: FramedModel, lines: nat, w: nat, h: nat, side: nat)
    : (r: Result<seq<byte>>)
    requires lines <= Lines(fm.model) && |chunk| == Width(fm.model) * Height(fm.model) * 4
    ensures r.Ok? ==> |r.value| == |buf|
    ensures r.Err? ==> r.error == CopyOutOfRange
    decreases lines
  {
    if lines == 0 then Ok(buf)
    else
      match Paste(buf, chunk, fm, lines - 1, w, h, side)
      case Err(e) => Err(e)
      case Ok(prev) => SetBytes(prev, RowOf(chunk, fm.model, lines - 1), RowOffset(w, h, side, lines - 1, fm.frame))
  }

  /** One rendered side as renderChunk receives it from preparePixels: its bytes, or the error thrown. */
  type Block = Result<seq<byte>>

  /** A block of model m: an error, or exactly the RGBA bytes of a 2 sizeU x sizeV image. */
  predicate Sized(c: Block, m: Model) {
    c.Ok? ==> |c.value| == Width(m) * Height(m) * 4
  }

  /** Four blocks, one per side, each sized for m. */
  predicate SizedAll(bs: seq<Block>, m: Model) {
    |bs| == 4 && forall s | 0 <= s < 4 :: Sized(bs[s], m)
  }

  /** The blocks of the four sides of a model, East first. */
  function Blocks(fm: FramedModel, shade: (Color, Face) -> Rgb): (bs: seq<Block>)
    ensures |bs| == 4
    ensures forall s: Side :: bs[s] == Chunk(fm.model, s, fm.palette, shade)
  {
    seq(4, s requires 0 <= s < 4 => Chunk(fm.model, s, fm.palette, shade))
  }

  /** The blocks of every model, in model order. */
  function AllBlocks(ms: seq<FramedModel>, shade: (Color, Face) -> Rgb): (bss: seq<seq<Block>>)
    ensures |bss| == |ms|
    ensures forall i | 0 <= i < |ms| :: bss[i] == Blocks(ms[i], shade)
  {
    seq(|ms|, i requires 0 <= i < |ms| => Blocks(ms[i], shade))
  }

  /** renderChunk once its block is drawn: paste every row of it, or pass the drawing error on. */
  function RenderChunk(buf: seq<byte>, c: Block, fm: FramedModel, side: nat, w: nat, h: nat): (r: Result<seq<byte>>)
    requires Sized(c, fm.model)
    ensures r.Ok? ==> |r.value| == |buf| && c.Ok?
  {
    match c
    case Err(e) => Err(e)
    case Ok(chunk) => Paste(buf, chunk, fm, Lines(fm.model), w, h, side)
  }

  /** Sides 0 .. sides - 1 of one model, in that order. */
  function RenderSides(buf: seq<byte>, fm: FramedModel, bs: seq<Block>, sides: nat, w: nat, h: nat)
    : (r: Result<seq<byte>>)
    requires sides <= 4 && SizedAll(bs, fm.model)
    ensures r.Ok? ==> |r.value| == |buf|
    decreases sides
  {
    if sides == 0 then Ok(buf)
    else
      match RenderSides(buf, fm, bs, sides - 1, w, h)
      case Err(e) => Err(e)
      case Ok(prev) => RenderChunk(prev, bs[sides - 1], fm, sides - 1, w, h)
  }

  /** Blocks sized for each model of ms. */
  predicate SizedFor(bss: seq<seq<Block>>, ms: seq<FramedModel>) {
    |bss| == |ms| && forall i | 0 <= i < |ms| :: SizedAll(bss[i], ms[i].model)
  }

  /** Models 0 .. n - 1, in order, each for all four sides. */
  function RenderModels(buf: seq<byte>, ms: seq<FramedModel>, bss: seq<seq<Block>>, n: nat, w: nat, h: nat)
    : (r: Result<seq<byte>>)
    requires n <= |ms| && SizedFor(bss, ms)
    ensures r.Ok? ==> |r.value| == |buf|
    decreases n
  {
    if n == 0 then Ok(buf)
    else
      match RenderModels(buf, ms, bss, n - 1, w, h)
      case Err(e) => Err(e)
      case Ok(prev) => RenderSides(prev, ms[n - 1], bss[n - 1], 4, w, h)
  }

  /** The sheet createSpriteSheet returns, or the error it throws. */
  function Sheet(ms: seq<FramedModel>, shade: (Color, Face) -> Rgb): (r: Result<seq<byte>>)
    requires |ms| > 0
    ensures r.Ok? ==> |r.value| == SheetLength(ms)
  {
    RenderModels(Zeros(SheetLength(ms)), ms, AllBlocks(ms, shade), |ms|, SheetWidth(ms), SheetHeight(ms))
  }

  /** A freshly allocated typed array of n bytes. */
  function Zeros(n: nat): (z: seq<byte>)
    ensures |z| == n && forall j | 0 <= j < n :: z[j] == 0
  {
    seq(n, _ => 0)
  }

  /** Bytes in the sheet buffer. */
  function SheetLength(ms: seq<FramedModel>): nat
    requires |ms| > 0
  {
    Arith.MulNonneg(SheetWidth(ms), SheetHeight(ms));
    SheetWidth(ms) * SheetHeight(ms) * 4
  }

  // ---------------------------------------------------------------------------
  // createSpriteSheet, renderChunk and renderSpriteSheet as the source runs them.
  // ---------------------------------------------------------------------------

  /** `dst.set(src, offset)`: the copy loop of the typed array, after its range check. */
  method SetInto(dst: array<byte>, src: seq<byte>, offset: nat) returns (res: Outcome)
    modifies dst
    ensures res.Pass? <==> SetBytes(old(dst[..]), src, offset).Ok?
    ensures res.Fail? ==> res.error == CopyOutOfRange && dst[..] == old(dst[..])
    ensures res.Pass? ==> dst[..] == SetBytes(old(dst[..]), src, offset).value
  {
    if offset + |src| > dst.Length {
      return Fail(CopyOutOfRange);
    }
    ghost var d := dst[..];
    for j := 0 to |src|
      invariant forall i | 0 <= i < dst.Length :: dst[i] == if offset <= i < offset + j then src[i - offset] else d[i]
    {
      dst[offset + j] := src[j];
    }
    res := Pass;
  }

  /** renderChunk: prepareTriangles, preparePixels, then one `set` per block row. */
  method RenderChunkInto(sheet: ImageData, fm: FramedModel, side: Side, shade: (Color, Face) -> Rgb)
    returns (res: Outcome)
    modifies sheet.data
    ensures var r := RenderChunk(old(sheet.data[..]), Chunk(fm.model, side, fm.palette, shade), fm, side, sheet.width, sheet.height);
      (res.Pass? <==> r.Ok?) && (res.Pass? ==> sheet.data[..] == r.value)
  {
    var m := fm.model;
    var grid, r1 := PrepareTriangles(m, side);
    if r1.Fail? {
      assert Chunk(m, side, fm.palette, shade).Err?;
      return r1;
    }
    var chunkPixels, r2 := PreparePixels(grid, m, side, fm.palette, shade);
    if r2.Fail? {
      assert Chunk(m, side, fm.palette, shade).Err?;
      return r2;
    }
    assert Chunk(m, side, fm.palette, shade) == Ok(chunkPixels.data[..]);
    res := CopyRows(sheet, chunkPixels, fm, side);
  }

  /** The `pos`/`line` loop of renderChunk: one `set` per row of the rendered block. */
  method CopyRows(sheet: ImageData, chunkPixels: ImageData, fm: FramedModel, side: Side) returns (res: Outcome)
    requires chunkPixels.data != sheet.data
    requires chunkPixels.width == Width(fm.model)
    requires chunkPixels.data.Length == Width(fm.model) * Height(fm.model) * 4
    modifies sheet.data
    ensures var r := Paste(old(sheet.data[..]), chunkPixels.data[..], fm, Lines(fm.model), sheet.width, sheet.height, side);
      (res.Pass? <==> r.Ok?) && (res.Pass? ==> sheet.data[..] == r.value)
  {
    var m := fm.model;
    ghost var chunk := chunkPixels.data[..];
    ghost var buf := sheet.data[..];
    var rowBytes := chunkPixels.width * 4;
    var pos, line := 0, 0;
    while pos < chunkPixels.data.Length
      invariant line <= Lines(m) && pos == line * rowBytes
      invariant chunkPixels.data[..] == chunk
      invariant Paste(buf, chunk, fm, line, sheet.width, sheet.height, side) == Ok(sheet.data[..])
      decreases chunkPixels.data.Length - pos
    {
      LineInChunk(m, line, pos);
      var offset := side * sheet.width + line * sheet.width * 4 + fm.frame * sheet.width * sheet.height;
      assert offset == RowOffset(sheet.width, sheet.height, side, line, fm.frame);
      assert chunkPixels.data[pos..pos + rowBytes] == RowOf(chunk, m, line);
      var r := SetInto(sheet.data, chunkPixels.data[pos..pos + rowBytes], offset);
      if r.Fail? {
        PasteFailsOnward(buf, chunk, fm, line + 1, Lines(m), sheet.width, sheet.height, side);
        return r;
      }
      assert (line + 1) * rowBytes == line * rowBytes + rowBytes;
      pos, line := pos + rowBytes, line + 1;
    }
    LinesDone(m, line, pos);
    res := Pass;
  }

  /** A copy that fails makes the rest of the block fail. */
  lemma {:induction false} PasteFailsOnward(buf: seq<byte>, chunk: seq<byte>, fm: FramedModel, k: nat, n: nat, w: nat, h: nat, side: nat)
    requires k <= n <= Lines(fm.model) && |chunk| == Width(fm.model) * Height(fm.model) * 4
    requires Paste(buf, chunk, fm, k, w, h, side).Err?
    ensures Paste(buf, chunk, fm, n, w, h, side).Err?
    decreases n - k
  {
    if k < n {
      PasteFailsOnward(buf, chunk, fm, k + 1, n, w, h, side);
    }
  }

  /** A row still to be copied lies inside the block, and the block has rows. */
  lemma LineInChunk(m: Model, line: nat, pos: nat)
    requires pos == line * RowBytes(m) && pos < Width(m) * Height(m) * 4
    ensures RowBytes(m) > 0 && line < Lines(m) && pos + RowBytes(m) <= Width(m) * Height(m) * 4
  {
    if Width(m) == 0 {
      assert false;
    }
    if line >= Height(m) {
      Arith.MulMonotone(RowBytes(m), Height(m), line);
      assert false;
    }
    RowsInChunk(m, line + 1);
  }

  /** The copy loop stops exactly after the last row. */
  lemma LinesDone(m: Model, line: nat, pos: nat)
    requires line <= Lines(m) && pos == line * RowBytes(m) && pos >= Width(m) * Height(m) * 4
    ensures line == Lines(m)
  {
    if Width(m) > 0 && line < Height(m) {
      Arith.MulMonotone(RowBytes(m), line + 1, Height(m));
      assert false;
    }
  }

  /**
   * createSpriteSheet: allocate the zeroed sheet, then render every model for
   * sides 0, 1, 2, 3 in that order into it. The source is not defined for an
   * empty model list (Math.max of nothing), hence the precondition.
   */
  method CreateSpriteSheet(ms: seq<FramedModel>, shade: (Color, Face) -> Rgb)
    returns (sheet: ImageData, frameCount: nat, res: Outcome)
    requires |ms| > 0
    ensures fresh(sheet) && fresh(sheet.data)
    ensures sheet.width == SheetWidth(ms) && sheet.height == SheetHeight(ms)
    ensures sheet.data.Length == SheetLength(ms)
    ensures frameCount == |ms|
    ensures res.Pass? <==> Sheet(ms, shade).Ok?
    ensures res.Pass? ==> sheet.data[..] == Sheet(ms, shade).value
  {
    var spriteSheetWidth := 8 * MaxSizeU(ms);
    var spriteSheetHeight := |ms| * MaxSizeV(ms);
    sheet := new ImageData(spriteSheetWidth, spriteSheetHeight);
    frameCount := |ms|;
    ghost var zero := sheet.data[..];
    assert zero == Zeros(SheetLength(ms));
    assert Sheet(ms, shade) == RenderModels(zero, ms, AllBlocks(ms, shade), |ms|, sheet.width, sheet.height);

    res := RenderAll(sheet, ms, shade);
  }

  /** The `models.forEach` loop of createSpriteSheet. */
  method RenderAll(sheet: ImageData, ms: seq<FramedModel>, shade: (Color, Face) -> Rgb) returns (res: Outcome)
    modifies sheet.data
    ensures var r := RenderModels(old(sheet.data[..]), ms, AllBlocks(ms, shade), |ms|, sheet.width, sheet.height);
      (res.Pass? <==> r.Ok?) && (res.Pass? ==> sheet.data[..] == r.value)
  {
    ghost var before := sheet.data[..];
    for i := 0 to |ms|
      invariant RenderModels(before, ms, AllBlocks(ms, shade), i, sheet.width, sheet.height) == Ok(sheet.data[..])
    {
      var r := RenderModelInto(sheet, ms[i], shade);
      if r.Fail? {
        ModelsFailOnward(before, ms, AllBlocks(ms, shade), i + 1, |ms|, sheet.width, sheet.height);
        return r;
      }
    }
    res := Pass;
  }

  /** The body of the `models.forEach` callback: sides 0, 1, 2, 3 of one model, in that order. */
  method RenderModelInto(sheet: ImageData, fm: FramedModel, shade: (Color, Face) -> Rgb) returns (res: Outcome)
    modifies sheet.data
    ensures var r := RenderSides(old(sheet.data[..]), fm, Blocks(fm, shade), 4, sheet.width, sheet.height);
      (res.Pass? <==> r.Ok?) && (res.Pass? ==> sheet.data[..] == r.value)
  {
    ghost var before := sheet.data[..];
    for side := 0 to 4
      invariant RenderSides(before, fm, Blocks(fm, shade), side, sheet.width, sheet.height) == Ok(sheet.data[..])
    {
      var r := RenderChunkInto(sheet, fm, side, shade);
      if r.Fail? {
        SidesFailOnward(before, fm, Blocks(fm, shade), side + 1, 4, sheet.width, sheet.height);
        return r;
      }
    }
    res := Pass;
  }

  lemma {:induction false} SidesFailOnward(buf: seq<byte>, fm: FramedModel, bs: seq<Block>, k: nat, n: nat, w: nat, h: nat)
    requires k <= n <= 4 && SizedAll(bs, fm.model) && RenderSides(buf, fm, bs, k, w, h).Err?
    ensures RenderSides(buf, fm, bs, n, w, h).Err?
    decreases n - k
  {
    if k < n {
      SidesFailOnward(buf, fm, bs, k + 1, n, w, h);
    }
  }

  lemma {:induction false} ModelsFailOnward(buf: seq<byte>, ms: seq<FramedModel>, bss: seq<seq<Block>>, k: nat, n: nat, w: nat, h: nat)
    requires k <= n <= |ms| && SizedFor(bss, ms) && RenderModels(buf, ms, bss, k, w, h).Err?
    ensures RenderModels(buf, ms, bss, n, w, h).Err?
    decreases n - k
  {
    if k < n {
      ModelsFailOnward(buf, ms, bss, k + 1, n, w, h);
    }
  }

  /** The models of a decoded file with their frame numbers: model i is frame i, all share the palette. */
  function Frames(vd: VoxData): (ms: seq<FramedModel>)
    ensures |ms| == |vd.models|
    ensures forall i | 0 <= i < |ms| :: ms[i] == FramedModel(vd.models[i], vd.palette, i)
  {
    seq(|vd.models|, i requires 0 <= i < |vd.models| => FramedModel(vd.models[i], vd.palette, i))
  }

  /**
   * renderSpriteSheet, the single-file copy: the same composition with the
   * model index as frame number and the file's palette for every model.
   */
  method RenderSpriteSheet(vd: VoxData, shade: (Color, Face) -> Rgb)
    returns (sheet: ImageData, frameCount: nat, res: Outcome)
    requires |vd.models| > 0
    ensures fresh(sheet) && fresh(sheet.data)
    ensures sheet.width == SheetWidth(Frames(vd)) && sheet.height == SheetHeight(Frames(vd))
    ensures frameCount == |vd.models|
    ensures res.Pass? <==> Sheet(Frames(vd), shade).Ok?
    ensures res.Pass? ==> sheet.data[..] == Sheet(Frames(vd), shade).value
  {
    sheet, frameCount, res := CreateSpriteSheet(Frames(vd), shade);
  }

  // ---------------------------------------------------------------------------
  // Where the row copies land.
  // ---------------------------------------------------------------------------

  /**
   * The W-byte slot a row copy would occupy if the sheet were laid out as four
   * side blocks per sheet row and one band of maxV sheet rows per frame.
   */
  function Slot(side: nat, line: nat, frame: nat, maxV: nat): nat {
    side + 4 * (line + frame * maxV)
  }

  /**
   * With n models the sheet is n * maxV rows high, and the offset as written
   * is the slot layout exactly when the frame is 0 or there are four models:
   * the frame term `frame * W * H` is `frame * maxV` sheet rows only when
   * H == 4 * maxV.
   */
  lemma OffsetIsSlot(w: nat, maxV: nat, n: nat, side: nat, line: nat, frame: nat)
    requires w > 0 && maxV > 0
    ensures RowOffset(w, n * maxV, side, line, frame) == w * Slot(side, line, frame, maxV) <==> (frame == 0 || n == 4)
  {
    var x := frame * maxV * w;
    OffsetMinusSlot(w, maxV, n, side, line, frame);
    if frame > 0 {
      Arith.MulPositive(frame, maxV);
      Arith.MulPositive(frame * maxV, w);
      ZeroProduct(x, n - 4);
    }
  }

  /** The offset as written exceeds the slot offset by frame * maxV * W * (n - 4) bytes. */
  lemma OffsetMinusSlot(w: nat, maxV: nat, n: nat, side: nat, line: nat, frame: nat)
    ensures RowOffset(w, n * maxV, side, line, frame) - w * Slot(side, line, frame, maxV) == frame * maxV * w * (n - 4)
  {
    var x := frame * maxV * w;
    assert w * Slot(side, line, frame, maxV) == side * w + line * w * 4 + 4 * x;
    assert frame * w * (n * maxV) == n * x;
    assert n * x - 4 * x == x * (n - 4);
  }

  lemma ZeroProduct(x: int, y: int)
    requires x > 0
    ensures x * y == 0 <==> y == 0
  {
    if y > 0 {
      Arith.MulPositive(x, y);
    } else if y < 0 {
      Arith.MulPositive(x, -y);
      assert x * y == -(x * -y);
    }
  }

  /** Distinct (side, line, frame) triples with side < 4 and line < maxV have distinct slots. */
  lemma SlotsDistinct(s1: nat, l1: nat, f1: nat, s2: nat, l2: nat, f2: nat, maxV: nat)
    requires s1 < 4 && s2 < 4 && l1 < maxV && l2 < maxV
    requires Slot(s1, l1, f1, maxV) == Slot(s2, l2, f2, maxV)
    ensures s1 == s2 && l1 == l2 && f1 == f2
  {
    var k := Slot(s1, l1, f1, maxV);
    Arith.DivModUnique(k, 4, l1 + f1 * maxV, s1);
    Arith.DivModUnique(k, 4, l2 + f2 * maxV, s2);
    Arith.DivModUnique(l1 + f1 * maxV, maxV, f1, l1);
    Arith.DivModUnique(l2 + f2 * maxV, maxV, f2, l2);
  }

  /** A run of at most W bytes from the start of slot k1 ends before slot k2 > k1 begins. */
  lemma SlotsApart(w: nat, k1: nat, k2: nat, len: nat)
    requires k1 < k2 && len <= w
    ensures w * k1 + len <= w * k2
  {
    Arith.MulMonotone(w, k1 + 1, k2);
  }

  /** Every slot of frames 0 .. n - 1 lies inside a sheet of n * maxV rows. */
  lemma SlotInSheet(w: nat, maxV: nat, n: nat, side: nat, line: nat, frame: nat, len: nat)
    requires side < 4 && line < maxV && frame < n && len <= w
    ensures w * Slot(side, line, frame, maxV) + len <= w * (n * maxV) * 4
  {
    Arith.MulMonotone(maxV, frame + 1, n);
    assert Slot(side, line, frame, maxV) < 4 * (maxV * (frame + 1));
    SlotsApart(w, Slot(side, line, frame, maxV), 4 * (n * maxV), len);
  }

  /**
   * Two models, frames 0 and 1, maxV even: row `line` of frame 1 is copied
   * onto row `line + maxV / 2` of frame 0, so the two frames overlap.
   */
  lemma TwoFramesOverlap(w: nat, maxV: nat, side: nat, line: nat)
    requires maxV % 2 == 0
    ensures RowOffset(w, 2 * maxV, side, line, 1) == RowOffset(w, 2 * maxV, side, line + maxV / 2, 0)
  {
    assert maxV == 2 * (maxV / 2);
    assert 1 * w * (2 * maxV) == (maxV / 2) * w * 4;
  }

  /** Byte j is written by the copy of row `line` of side `side` of fm. */
  predicate InCopy(w: nat, h: nat, fm: FramedModel, side: nat, line: nat, j: int) {
    RowOffset(w, h, side, line, fm.frame) <= j < RowOffset(w, h, side, line, fm.frame) + RowBytes(fm.model)
  }

  /** Every row copy of side `side` of fm ends inside a buffer of len bytes. */
  predicate ChunkFits(w: nat, h: nat, fm: FramedModel, side: nat, len: nat) {
    forall l | 0 <= l < Lines(fm.model) :: RowOffset(w, h, side, l, fm.frame) + RowBytes(fm.model) <= len
  }

  /** Block c of side `side` of fm was drawn, and all its rows fit. */
  predicate Placed(len: nat, c: Block, fm: FramedModel, side: nat, w: nat, h: nat) {
    c.Ok? && ChunkFits(w, h, fm, side, len)
  }

  /** No copy of side `side` of fm touches byte j. */
  predicate Misses(w: nat, h: nat, fm: FramedModel, side: nat, j: int) {
    forall l | 0 <= l < Lines(fm.model) :: !InCopy(w, h, fm, side, l, j)
  }

  // ---------------------------------------------------------------------------
  // Rendering fails exactly when a side cannot be drawn or a row overruns.
  // ---------------------------------------------------------------------------

  lemma {:induction false} PasteOk(buf: seq<byte>, chunk: seq<byte>, fm: FramedModel, lines: nat, w: nat, h: nat, side: nat)
    requires lines <= Lines(fm.model) && |chunk| == Width(fm.model) * Height(fm.model) * 4
    ensures Paste(buf, chunk, fm, lines, w, h, side).Ok? <==>
      forall l | 0 <= l < lines :: RowOffset(w, h, side, l, fm.frame) + RowBytes(fm.model) <= |buf|
  {
    if lines > 0 {
      PasteOk(buf, chunk, fm, lines - 1, w, h, side);
    }
  }

  lemma ChunkOk(buf: seq<byte>, c: Block, fm: FramedModel, side: nat, w: nat, h: nat)
    requires Sized(c, fm.model)
    ensures RenderChunk(buf, c, fm, side, w, h).Ok? <==> Placed(|buf|, c, fm, side, w, h)
  {
    if c.Ok? {
      PasteOk(buf, c.value, fm, Lines(fm.model), w, h, side);
    }
  }

  lemma {:induction false} SidesOk(buf: seq<byte>, fm: FramedModel, bs: seq<Block>, sides: nat, w: nat, h: nat)
    requires sides <= 4 && SizedAll(bs, fm.model)
    ensures RenderSides(buf, fm, bs, sides, w, h).Ok? <==>
      forall s | 0 <= s < sides :: Placed(|buf|, bs[s], fm, s, w, h)
  {
    if sides > 0 {
      SidesOk(buf, fm, bs, sides - 1, w, h);
      var prev := RenderSides(buf, fm, bs, sides - 1, w, h);
      if prev.Ok? {
        ChunkOk(prev.value, bs[sides - 1], fm, sides - 1, w, h);
      }
    }
  }

  lemma {:induction false} ModelsOk(buf: seq<byte>, ms: seq<FramedModel>, bss: seq<seq<Block>>, n: nat, w: nat, h: nat)
    requires n <= |ms| && SizedFor(bss, ms)
    ensures RenderModels(buf, ms, bss, n, w, h).Ok? <==>
      forall i, s | 0 <= i < n && 0 <= s < 4 :: Placed(|buf|, bss[i][s], ms[i], s, w, h)
  {
    if n > 0 {
      ModelsOk(buf, ms, bss, n - 1, w, h);
      var prev := RenderModels(buf, ms, bss, n - 1, w, h);
      if prev.Ok? {
        SidesOk(prev.value, ms[n - 1], bss[n - 1], 4, w, h);
      }
    }
  }

  /** createSpriteSheet succeeds exactly when every side of every model draws and every copied row fits. */
  lemma SheetOk(ms: seq<FramedModel>, shade: (Color, Face) -> Rgb)
    requires |ms| > 0
    ensures Sheet(ms, shade).Ok? <==> forall i, s: Side | 0 <= i < |ms| ::
      Chunk(ms[i].model, s, ms[i].palette, shade).Ok? && ChunkFits(SheetWidth(ms), SheetHeight(ms), ms[i], s, SheetLength(ms))
  {
    var bss := AllBlocks(ms, shade);
    var w, h, len := SheetWidth(ms), SheetHeight(ms), SheetLength(ms);
    SheetBlocks(ms, shade, 0, 0);
    ModelsOk(Zeros(len), ms, bss, |ms|, w, h);
    forall i, s: Side | 0 <= i < |ms|
      ensures Placed(len, bss[i][s], ms[i], s, w, h) <==> Chunk(ms[i].model, s, ms[i].palette, shade).Ok? && ChunkFits(w, h, ms[i], s, len)
    {
      assert bss[i][s] == Chunk(ms[i].model, s, ms[i].palette, shade);
    }
  }

  /**
   * A model with frame number 4 or more and a non-empty block makes
   * createSpriteSheet throw: the frame term alone, frame * W * H, already
   * reaches the end of the W * H * 4 byte sheet.
   */
  lemma SheetOverrun(ms: seq<FramedModel>, shade: (Color, Face) -> Rgb, i: nat)
    requires 0 <= i < |ms| && ms[i].frame >= 4 && ms[i].model.SizeU() > 0
    ensures Sheet(ms, shade).Err?
  {
    var w, h := SheetWidth(ms), SheetHeight(ms);
    var fm := ms[i];
    if Sheet(ms, shade).Ok? {
      SheetOk(ms, shade);
      assert ChunkFits(w, h, fm, 0, SheetLength(ms));
      FirstRowOverruns(w, h, fm);
      assert false;
    }
  }

  lemma FirstRowOverruns(w: nat, h: nat, fm: FramedModel)
    requires fm.frame >= 4 && fm.model.SizeU() > 0
    ensures !ChunkFits(w, h, fm, 0, w * h * 4)
  {
    assert Lines(fm.model) > 0 by {
      assert fm.model.SizeV() >= fm.model.SizeU();
    }
    Arith.MulNonneg(w, h);
    Arith.MulMonotone(w * h, 4, fm.frame);
    assert RowOffset(w, h, 0, 0, fm.frame) == fm.frame * w * h;
  }

  // ---------------------------------------------------------------------------
  // What the copies leave behind.
  // ---------------------------------------------------------------------------

  /** Copying the first `lines` rows leaves a byte outside all of them as it was. */
  lemma {:induction false} PasteKeeps(buf: seq<byte>, chunk: seq<byte>, fm: FramedModel, lines: nat, w: nat, h: nat, side: nat, j: int)
    requires lines <= Lines(fm.model) && |chunk| == Width(fm.model) * Height(fm.model) * 4
    requires Paste(buf, chunk, fm, lines, w, h, side).Ok? && 0 <= j < |buf|
    requires forall l | 0 <= l < lines :: !InCopy(w, h, fm, side, l, j)
    ensures Paste(buf, chunk, fm, lines, w, h, side).value[j] == buf[j]
  {
    if lines > 0 {
      PasteKeeps(buf, chunk, fm, lines - 1, w, h, side, j);
      var prev := Paste(buf, chunk, fm, lines - 1, w, h, side).value;
      var off := RowOffset(w, h, side, lines - 1, fm.frame);
      var row := RowOf(chunk, fm.model, lines - 1);
      assert Paste(buf, chunk, fm, lines, w, h, side) == SetBytes(prev, row, off);
      assert !InCopy(w, h, fm, side, lines - 1, j);
      assert j < off || off + |row| <= j;
    }
  }

  /** After the first `lines` copies, byte k of row `line` sits at its offset, unless a later row overwrote it. */
  lemma {:induction false} PasteWrites(buf: seq<byte>, chunk: seq<byte>, fm: FramedModel, lines: nat, w: nat, h: nat, side: nat,
                                       line: nat, k: nat)
    requires lines <= Lines(fm.model) && |chunk| == Width(fm.model) * Height(fm.model) * 4
    requires Paste(buf, chunk, fm, lines, w, h, side).Ok?
    requires line < lines && k < RowBytes(fm.model)
    requires LaterMiss(w, h, fm, side, line, lines, RowOffset(w, h, side, line, fm.frame) + k)
    ensures RowOffset(w, h, side, line, fm.frame) + k < |buf|
    ensures Paste(buf, chunk, fm, lines, w, h, side).value[RowOffset(w, h, side, line, fm.frame) + k]
      == RowOf(chunk, fm.model, line)[k]
  {
    var p := RowOffset(w, h, side, line, fm.frame) + k;
    var prev := Paste(buf, chunk, fm, lines - 1, w, h, side).value;
    var off := RowOffset(w, h, side, lines - 1, fm.frame);
    var row := RowOf(chunk, fm.model, lines - 1);
    assert Paste(buf, chunk, fm, lines, w, h, side) == SetBytes(prev, row, off);
    if line < lines - 1 {
      PasteWrites(buf, chunk, fm, lines - 1, w, h, side, line, k);
      assert !InCopy(w, h, fm, side, lines - 1, p);
      assert p < off || off + |row| <= p;
    } else {
      assert p == off + k;
    }
  }

  /** No row after `line` among the first `lines` of side `side` of fm reaches byte p. */
  predicate LaterMiss(w: nat, h: nat, fm: FramedModel, side: nat, line: nat, lines: nat, p: int) {
    forall l | line < l < lines :: !InCopy(w, h, fm, side, l, p)
  }

  lemma ChunkKeeps(buf: seq<byte>, c: Block, fm: FramedModel, side: nat, w: nat, h: nat, j: int)
    requires Sized(c, fm.model) && RenderChunk(buf, c, fm, side, w, h).Ok? && 0 <= j < |buf|
    requires Misses(w, h, fm, side, j)
    ensures RenderChunk(buf, c, fm, side, w, h).value[j] == buf[j]
  {
    PasteKeeps(buf, c.value, fm, Lines(fm.model), w, h, side, j);
  }

  lemma {:induction false} SidesKeeps(buf: seq<byte>, fm: FramedModel, bs: seq<Block>, sides: nat, w: nat, h: nat, j: int)
    requires sides <= 4 && SizedAll(bs, fm.model) && RenderSides(buf, fm, bs, sides, w, h).Ok? && 0 <= j < |buf|
    requires forall s | 0 <= s < sides :: Misses(w, h, fm, s, j)
    ensures RenderSides(buf, fm, bs, sides, w, h).value[j] == buf[j]
  {
    if sides > 0 {
      SidesKeeps(buf, fm, bs, sides - 1, w, h, j);
      var prev := RenderSides(buf, fm, bs, sides - 1, w, h).value;
      ChunkKeeps(prev, bs[sides - 1], fm, sides - 1, w, h, j);
    }
  }

  lemma {:induction false} ModelsKeeps(buf: seq<byte>, ms: seq<FramedModel>, bss: seq<seq<Block>>, n: nat, w: nat, h: nat, j: int)
    requires n <= |ms| && SizedFor(bss, ms) && RenderModels(buf, ms, bss, n, w, h).Ok? && 0 <= j < |buf|
    requires forall i, s | 0 <= i < n && 0 <= s < 4 :: Misses(w, h, ms[i], s, j)
    ensures RenderModels(buf, ms, bss, n, w, h).value[j] == buf[j]
  {
    if n > 0 {
      ModelsKeeps(buf, ms, bss, n - 1, w, h, j);
      var prev := RenderModels(buf, ms, bss, n - 1, w, h).value;
      SidesKeeps(prev, ms[n - 1], bss[n - 1], 4, w, h, j);
    }
  }

  /** A byte of the sheet no row copy reaches stays 0, i.e. fully transparent. */
  lemma SheetBlank(ms: seq<FramedModel>, shade: (Color, Face) -> Rgb, j: int)
    requires |ms| > 0 && Sheet(ms, shade).Ok? && 0 <= j < SheetLength(ms)
    requires forall i, s | 0 <= i < |ms| && 0 <= s < 4 :: Misses(SheetWidth(ms), SheetHeight(ms), ms[i], s, j)
    ensures Sheet(ms, shade).value[j] == 0
  {
    SheetBlocks(ms, shade, 0, 0);
    ModelsKeeps(Zeros(SheetLength(ms)), ms, AllBlocks(ms, shade), |ms|, SheetWidth(ms), SheetHeight(ms), j);
  }

  /** Byte p is reached by the copy of row `line` of side `side` of fm only, among that model's copies. */
  predicate SoleCopy(w: nat, h: nat, fm: FramedModel, side: nat, line: nat, p: int) {
    forall s, l | 0 <= s < 4 && 0 <= l < Lines(fm.model) && (s != side || l != line) :: !InCopy(w, h, fm, s, l, p)
  }

  /** Byte p is reached by the copy of row `line` of side `side` of model i only, among all copies. */
  predicate Alone(w: nat, h: nat, ms: seq<FramedModel>, i: nat, side: nat, line: nat, p: int)
    requires i < |ms|
  {
    SoleCopy(w, h, ms[i], side, line, p) &&
    forall i2, s | 0 <= i2 < |ms| && i2 != i && 0 <= s < 4 :: Misses(w, h, ms[i2], s, p)
  }

  lemma ChunkWrites(buf: seq<byte>, c: Block, fm: FramedModel, side: nat, w: nat, h: nat, line: nat, k: nat)
    requires Sized(c, fm.model) && RenderChunk(buf, c, fm, side, w, h).Ok?
    requires side < 4 && line < Lines(fm.model) && k < RowBytes(fm.model)
    requires SoleCopy(w, h, fm, side, line, RowOffset(w, h, side, line, fm.frame) + k)
    ensures c.Ok? && RowOffset(w, h, side, line, fm.frame) + k < |buf|
    ensures RenderChunk(buf, c, fm, side, w, h).value[RowOffset(w, h, side, line, fm.frame) + k]
      == RowOf(c.value, fm.model, line)[k]
  {
    var p := RowOffset(w, h, side, line, fm.frame) + k;
    forall l | line < l < Lines(fm.model)
      ensures !InCopy(w, h, fm, side, l, p)
    {
      assert l != line;
    }
    assert LaterMiss(w, h, fm, side, line, Lines(fm.model), p);
    PasteWrites(buf, c.value, fm, Lines(fm.model), w, h, side, line, k);
  }

  lemma {:induction false} SidesWrites(buf: seq<byte>, fm: FramedModel, bs: seq<Block>, sides: nat, w: nat, h: nat,
                                       side: nat, line: nat, k: nat)
    requires sides <= 4 && SizedAll(bs, fm.model) && RenderSides(buf, fm, bs, sides, w, h).Ok?
    requires side < sides && line < Lines(fm.model) && k < RowBytes(fm.model)
    requires SoleCopy(w, h, fm, side, line, RowOffset(w, h, side, line, fm.frame) + k)
    ensures bs[side].Ok? && RowOffset(w, h, side, line, fm.frame) + k < |buf|
    ensures RenderSides(buf, fm, bs, sides, w, h).value[RowOffset(w, h, side, line, fm.frame) + k]
      == RowOf(bs[side].value, fm.model, line)[k]
  {
    var p := RowOffset(w, h, side, line, fm.frame) + k;
    var prev := RenderSides(buf, fm, bs, sides - 1, w, h).value;
    if side == sides - 1 {
      ChunkWrites(prev, bs[side], fm, side, w, h, line, k);
    } else {
      SidesWrites(buf, fm, bs, sides - 1, w, h, side, line, k);
      ChunkKeeps(prev, bs[sides - 1], fm, sides - 1, w, h, p);
    }
  }

  lemma {:induction false} ModelsWrites(buf: seq<byte>, ms: seq<FramedModel>, bss: seq<seq<Block>>, n: nat, w: nat, h: nat,
                                        i: nat, side: nat, line: nat, k: nat)
    requires n <= |ms| && SizedFor(bss, ms) && RenderModels(buf, ms, bss, n, w, h).Ok?
    requires i < n && side < 4 && line < Lines(ms[i].model) && k < RowBytes(ms[i].model)
    requires Alone(w, h, ms, i, side, line, RowOffset(w, h, side, line, ms[i].frame) + k)
    ensures bss[i][side].Ok? && RowOffset(w, h, side, line, ms[i].frame) + k < |buf|
    ensures RenderModels(buf, ms, bss, n, w, h).value[RowOffset(w, h, side, line, ms[i].frame) + k]
      == RowOf(bss[i][side].value, ms[i].model, line)[k]
  {
    var p := RowOffset(w, h, side, line, ms[i].frame) + k;
    var prev := RenderModels(buf, ms, bss, n - 1, w, h).value;
    if i == n - 1 {
      SidesWrites(prev, ms[i], bss[i], 4, w, h, side, line, k);
    } else {
      ModelsWrites(buf, ms, bss, n - 1, w, h, i, side, line, k);
      SidesKeeps(prev, ms[n - 1], bss[n - 1], 4, w, h, p);
    }
  }

  // ---------------------------------------------------------------------------
  // One model, or exactly four, numbered by position: the layout holds.
  // ---------------------------------------------------------------------------

  /** The model lists for which the offset as written stacks the frames: one model or four, frame i at index i. */
  predicate Stacked(ms: seq<FramedModel>) {
    (|ms| == 1 || |ms| == 4) && forall i | 0 <= i < |ms| :: ms[i].frame == i
  }

  /**
   * Row `line` of side `side` of model i goes to sheet row line + i * maxV,
   * starting at byte side * W of that row (pixel side * 2 * max sizeU), and
   * fits inside the sheet.
   */
  lemma StackedOffset(ms: seq<FramedModel>, i: nat, side: nat, line: nat)
    requires Stacked(ms) && i < |ms| && side < 4 && line < Lines(ms[i].model)
    ensures RowOffset(SheetWidth(ms), SheetHeight(ms), side, line, ms[i].frame) == SheetWidth(ms) * Slot(side, line, i, MaxSizeV(ms))
    ensures SheetWidth(ms) * Slot(side, line, i, MaxSizeV(ms)) + RowBytes(ms[i].model) <= SheetLength(ms)
  {
    var w, maxV := SheetWidth(ms), MaxSizeV(ms);
    assert w > 0 && maxV > 0 by {
      assert ms[i].model.SizeU() > 0;
    }
    OffsetIsSlot(w, maxV, |ms|, side, line, i);
    SlotInSheet(w, maxV, |ms|, side, line, i, RowBytes(ms[i].model));
  }

  /** Under Stacked, a byte of one row copy lies in no other copy. */
  lemma StackedApart(ms: seq<FramedModel>, i: nat, side: nat, line: nat, k: nat, i2: nat, s2: nat, l2: nat)
    requires Stacked(ms) && i < |ms| && side < 4 && line < Lines(ms[i].model) && k < RowBytes(ms[i].model)
    requires i2 < |ms| && s2 < 4 && l2 < Lines(ms[i2].model) && (i2 != i || s2 != side || l2 != line)
    ensures !InCopy(SheetWidth(ms), SheetHeight(ms), ms[i2], s2, l2,
                    RowOffset(SheetWidth(ms), SheetHeight(ms), side, line, ms[i].frame) + k)
  {
    var w, maxV := SheetWidth(ms), MaxSizeV(ms);
    StackedOffset(ms, i, side, line);
    StackedOffset(ms, i2, s2, l2);
    var k1, k2 := Slot(side, line, i, maxV), Slot(s2, l2, i2, maxV);
    if k1 == k2 {
      SlotsDistinct(side, line, i, s2, l2, i2, maxV);
    } else if k2 < k1 {
      SlotsApart(w, k2, k1, RowBytes(ms[i2].model));
    } else {
      SlotsApart(w, k1, k2, k + 1);
    }
  }

  /** Under Stacked, with w and h the sheet's row bytes and height, byte k of a row copy lies in that copy only. */
  lemma StackedAlone(ms: seq<FramedModel>, w: nat, h: nat, i: nat, side: nat, line: nat, k: nat)
    requires Stacked(ms) && w == SheetWidth(ms) && h == SheetHeight(ms)
    requires i < |ms| && side < 4 && line < Lines(ms[i].model) && k < RowBytes(ms[i].model)
    ensures Alone(w, h, ms, i, side, line, RowOffset(w, h, side, line, ms[i].frame) + k)
  {
    var p := RowOffset(w, h, side, line, ms[i].frame) + k;
    forall s, l | 0 <= s < 4 && 0 <= l < Lines(ms[i].model) && (s != side || l != line)
      ensures !InCopy(w, h, ms[i], s, l, p)
    {
      StackedApart(ms, i, side, line, k, i, s, l);
    }
    forall i2, s, l | 0 <= i2 < |ms| && i2 != i && 0 <= s < 4 && 0 <= l < Lines(ms[i2].model)
      ensures !InCopy(w, h, ms[i2], s, l, p)
    {
      StackedApart(ms, i, side, line, k, i2, s, l);
    }
  }

  /** With one model or four, no copy overruns: the sheet fails only when a side cannot be drawn. */
  lemma StackedSheetOk(ms: seq<FramedModel>, shade: (Color, Face) -> Rgb)
    requires Stacked(ms)
    ensures Sheet(ms, shade).Ok? <==> forall i, s: Side | 0 <= i < |ms| :: Chunk(ms[i].model, s, ms[i].palette, shade).Ok?
  {
    SheetOk(ms, shade);
    forall i, s: Side | 0 <= i < |ms|
      ensures ChunkFits(SheetWidth(ms), SheetHeight(ms), ms[i], s, SheetLength(ms))
    {
      forall l | 0 <= l < Lines(ms[i].model) {
        StackedOffset(ms, i, s, l);
      }
    }
  }

  /**
   * With one model or four, every byte of every rendered row ends up where
   * the layout puts it: sheet row line + i * maxV, from byte side * W on.
   */
  lemma StackedSheetContents(ms: seq<FramedModel>, shade: (Color, Face) -> Rgb, i: nat, side: Side, line: nat, k: nat)
    requires Stacked(ms) && Sheet(ms, shade).Ok?
    requires i < |ms| && line < Lines(ms[i].model) && k < RowBytes(ms[i].model)
    ensures RowOffset(SheetWidth(ms), SheetHeight(ms), side, line, ms[i].frame) == SheetWidth(ms) * Slot(side, line, i, MaxSizeV(ms))
    ensures Chunk(ms[i].model, side, ms[i].palette, shade).Ok?
    ensures RowOffset(SheetWidth(ms), SheetHeight(ms), side, line, ms[i].frame) + k < SheetLength(ms)
    ensures Sheet(ms, shade).value[RowOffset(SheetWidth(ms), SheetHeight(ms), side, line, ms[i].frame) + k]
      == RowOf(Chunk(ms[i].model, side, ms[i].palette, shade).value, ms[i].model, line)[k]
  {
    StackedOffset(ms, i, side, line);
    SheetBlocks(ms, shade, i, side);
    StackedBlocksContents(Zeros(SheetLength(ms)), ms, AllBlocks(ms, shade), SheetWidth(ms), SheetHeight(ms), i, side, line, k);
  }

  /** The Stacked layout theorem for any starting buffer and any blocks of the right sizes. */
  lemma StackedBlocksContents(buf: seq<byte>, ms: seq<FramedModel>, bss: seq<seq<Block>>, w: nat, h: nat,
                              i: nat, side: Side, line: nat, k: nat)
    requires Stacked(ms) && w == SheetWidth(ms) && h == SheetHeight(ms) && SizedFor(bss, ms)
    requires RenderModels(buf, ms, bss, |ms|, w, h).Ok?
    requires i < |ms| && line < Lines(ms[i].model) && k < RowBytes(ms[i].model)
    ensures bss[i][side].Ok? && RowOffset(w, h, side, line, ms[i].frame) + k < |buf|
    ensures RenderModels(buf, ms, bss, |ms|, w, h).value[RowOffset(w, h, side, line, ms[i].frame) + k]
      == RowOf(bss[i][side].value, ms[i].model, line)[k]
  {
    StackedAlone(ms, w, h, i, side, line, k);
    ModelsWrites(buf, ms, bss, |ms|, w, h, i, side, line, k);
  }

  /** The sheet is the composition of the blocks of all models, and side `side` of model i is its block. */
  lemma SheetBlocks(ms: seq<FramedModel>, shade: (Color, Face) -> Rgb, i: nat, side: Side)
    requires |ms| > 0 && i < |ms|
    ensures SizedFor(AllBlocks(ms, shade), ms)
    ensures Sheet(ms, shade) == RenderModels(Zeros(SheetLength(ms)), ms, AllBlocks(ms, shade), |ms|, SheetWidth(ms), SheetHeight(ms))
    ensures AllBlocks(ms, shade)[i][side] == Chunk(ms[i].model, side, ms[i].palette, shade)
  {
  }
}
