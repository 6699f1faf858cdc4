/**
 * The MagicaVoxel decoder: the header check of readVoxFile and the chunk walk
 * of parseVoxData (src/magicavoxel.ts).
 */
module Decoder {
  import opened Wrappers
  import opened Vox
  import Arith

  // ---------------------------------------------------------------------------
  // Reading the buffer (Node's Buffer API); a read beyond the end is an error.
  // ---------------------------------------------------------------------------

  /** The unsigned 32-bit little-endian value of four bytes. */
  function LE32(b0: byte, b1: byte, b2: byte, b3: byte): nat {
    b0 + 256 * b1 + 0x1_0000 * b2 + 0x100_0000 * b3
  }

  /** The four little-endian bytes of a 32-bit value: the inverse of LE32. */
  function EncodeLE32(n: nat): (r: seq<byte>)
    requires n < 0x1_0000_0000
    ensures |r| == 4
  {
    [n % 256, (n / 256) % 256, (n / 0x1_0000) % 256, n / 0x100_0000]
  }

  lemma LE32RoundTrip(n: nat)
    requires n < 0x1_0000_0000
    ensures var e := EncodeLE32(n); LE32(e[0], e[1], e[2], e[3]) == n
  {
    var q1, q2, q3 := n / 256, n / 256 / 256, n / 256 / 256 / 256;
    var r0, r1, r2 := n % 256, q1 % 256, q2 % 256;
    assert n == 256 * q1 + r0 && q1 == 256 * q2 + r1 && q2 == 256 * q3 + r2;
    Arith.DivModUnique(n, 0x1_0000, q2, r0 + 256 * r1);
    Arith.DivModUnique(n, 0x100_0000, q3, r0 + 256 * r1 + 0x1_0000 * r2);
  }

  lemma EncodeLE32RoundTrip(b0: byte, b1: byte, b2: byte, b3: byte)
    ensures LE32(b0, b1, b2, b3) < 0x1_0000_0000
    ensures EncodeLE32(LE32(b0, b1, b2, b3)) == [b0, b1, b2, b3]
  {
    var n := LE32(b0, b1, b2, b3);
    Arith.DivModUnique(n, 256, b1 + 256 * b2 + 0x1_0000 * b3, b0);
    Arith.DivModUnique(b1 + 256 * b2 + 0x1_0000 * b3, 256, b2 + 256 * b3, b1);
    Arith.DivModUnique(n, 0x1_0000, b2 + 256 * b3, b0 + 256 * b1);
    Arith.DivModUnique(b2 + 256 * b3, 256, b3, b2);
    Arith.DivModUnique(n, 0x100_0000, b3, b0 + 256 * b1 + 0x1_0000 * b2);
  }

  /** Buffer.readUInt32LE(off) once the bounds are known. */
  function U32At(data: seq<byte>, off: nat): (r: nat)
    requires off + 4 <= |data|
    ensures r < 0x1_0000_0000
  {
    LE32(data[off], data[off + 1], data[off + 2], data[off + 3])
  }

  /** Buffer.readUInt32LE(off): throws a RangeError unless all four bytes exist. */
  function ReadU32(data: seq<byte>, off: nat): (r: Result<nat>)
    ensures r.Ok? <==> off + 4 <= |data|
    ensures r.Ok? ==> r.value == U32At(data, off)
  {
    if off + 4 <= |data| then Ok(U32At(data, off)) else Err(ReadPastEnd)
  }

  /** What ReadU32 returns is exactly the four bytes it read, as an unsigned 32-bit value. */
  lemma ReadU32Bytes(data: seq<byte>, off: nat)
    requires off + 4 <= |data|
    ensures U32At(data, off) < 0x1_0000_0000
    ensures EncodeLE32(U32At(data, off)) == data[off..off + 4]
  {
    EncodeLE32RoundTrip(data[off], data[off + 1], data[off + 2], data[off + 3]);
  }

  /** Node's 'ascii' decoding of one byte: the high bit is cleared. */
  function Ascii(b: byte): char {
    (b % 128) as char
  }

  /** Buffer.toString('ascii', lo, hi): silently stops at the end of the buffer. */
  function AsciiSlice(data: seq<byte>, lo: nat, hi: nat): (s: string)
    ensures |s| == if lo < hi && lo < |data| then (if hi < |data| then hi else |data|) - lo else 0
    ensures forall k | 0 <= k < |s| :: s[k] == Ascii(data[lo + k])
  {
    var end := if hi < |data| then hi else |data|;
    if lo >= end then [] else seq(end - lo, k requires 0 <= k < end - lo => Ascii(data[lo + k]))
  }

  // ---------------------------------------------------------------------------
  // The header check of readVoxFile.
  // ---------------------------------------------------------------------------

  const Magic: string := "VOX "
  const SupportedVersion: nat := 150

  /** readVoxFile after the file has been read: magic tag, then version. */
  function CheckHeader(data: seq<byte>): (r: Result<seq<byte>>)
    ensures r.Ok? <==>
      |data| >= 8 &&
      (forall k | 0 <= k < 4 :: data[k] % 128 == Magic[k] as int) &&
      LE32(data[4], data[5], data[6], data[7]) == SupportedVersion
    ensures r.Ok? ==> r.value == data
    ensures r == Err(NotMagicaVoxel) <==>
      |data| < 4 || exists k | 0 <= k < 4 :: data[k] % 128 != Magic[k] as int
    ensures r == Err(UnsupportedVersion) <==>
      |data| >= 8 &&
      (forall k | 0 <= k < 4 :: data[k] % 128 == Magic[k] as int) &&
      LE32(data[4], data[5], data[6], data[7]) != SupportedVersion
    ensures r == Err(ReadPastEnd) <==>
      4 <= |data| < 8 && forall k | 0 <= k < 4 :: data[k] % 128 == Magic[k] as int
  {
    if AsciiSlice(data, 0, 4) != Magic then Err(NotMagicaVoxel)
    else
      var version :- ReadU32(data, 4);
      if version != SupportedVersion then Err(UnsupportedVersion) else Ok(data)
  }

  // ---------------------------------------------------------------------------
  // Chunk contents.
  // ---------------------------------------------------------------------------

  /** What parseVoxData has built so far: its models array and its palette array. */
  datatype ParseState = ParseState(models: seq<Model>, palette: Palette)

  const InitialState := ParseState([], [])

  lemma VoxelRecordsSnoc(data: seq<byte>, base: nat, n: nat)
    requires base + 4 * (n + 1) <= |data|
    ensures VoxelRecords(data, base, n + 1) == VoxelRecords(data, base, n) + [VoxelRecord(data, base + 4 * n)]
  {
    var a, b := VoxelRecords(data, base, n + 1), VoxelRecords(data, base, n) + [VoxelRecord(data, base + 4 * n)];
    assert |a| == |b|;
    forall k | 0 <= k < |a| ensures a[k] == b[k] {
      if k < n { assert b[k] == VoxelRecords(data, base, n)[k]; }
    }
  }

  /**
   * The current (most recently pushed) model's voxel list extended by `vs`;
   * every other model and every box stays as it was.
   */
  function AddVoxels(ms: seq<Model>, vs: seq<Voxel>): (r: seq<Model>)
    requires |ms| > 0
    ensures |r| == |ms|
    ensures forall i | 0 <= i < |ms| - 1 :: r[i] == ms[i]
    ensures var last := |ms| - 1;
      && (r[last].sizeX, r[last].sizeY, r[last].sizeZ) == (ms[last].sizeX, ms[last].sizeY, ms[last].sizeZ)
      && r[last].voxels == ms[last].voxels + vs
  {
    var last := |ms| - 1;
    ms[last := ms[last].(voxels := ms[last].voxels + vs)]
  }

  lemma AddVoxelsTwice(ms: seq<Model>, a: seq<Voxel>, b: seq<Voxel>)
    requires |ms| > 0
    ensures AddVoxels(AddVoxels(ms, a), b) == AddVoxels(ms, a + b)
  {
    var last := |ms| - 1;
    AppendAssoc(ms[last].voxels, a, b);
    assert AddVoxels(AddVoxels(ms, a), b)[last] == AddVoxels(ms, a + b)[last];
  }

  /** AddVoxels in the form the XYZI step of ApplyChunk states. */
  lemma AddVoxelsShape(ms: seq<Model>, vs: seq<Voxel>)
    requires |ms| > 0
    ensures var last := |ms| - 1;
      AddVoxels(ms, vs) == ms[..last] + [ms[last].(voxels := ms[last].voxels + vs)]
  {
  }

  /** One four-byte record read as a colour r, g, b, a. */
  function ColorRecord(data: seq<byte>, at: nat): Color
    requires at + 4 <= |data|
  {
    Color(data[at], data[at + 1], data[at + 2], data[at + 3])
  }

  /** One four-byte record read as a voxel x, y, z, colour index. */
  function VoxelRecord(data: seq<byte>, at: nat): Voxel
    requires at + 4 <= |data|
  {
    Voxel(data[at], data[at + 1], data[at + 2], data[at + 3])
  }

  /** The XYZI records: n voxels of four bytes from `base` on. */
  function VoxelRecords(data: seq<byte>, base: nat, n: nat): (vs: seq<Voxel>)
    requires base + 4 * n <= |data|
    ensures |vs| == n
    ensures forall k | 0 <= k < n :: vs[k] == VoxelRecord(data, base + 4 * k)
  {
    seq(n, k requires 0 <= k < n => VoxelRecord(data, base + 4 * k))
  }

  /** Bytes an RGBA chunk needs after its 12-byte header: 255 records of 4 bytes. */
  const RgbaRecords: nat := 255

  /** The palette array an RGBA chunk leaves: a hole at 0, entries 1..255 from the records. */
  function RgbaPalette(data: seq<byte>, off: nat): (p: Palette)
    requires off + 12 + 4 * RgbaRecords <= |data|
    ensures |p| == 256 && p[0] == None
    ensures forall c | 0 <= c < RgbaRecords :: p[c + 1] == Some(ColorRecord(data, off + 12 + 4 * c))
  {
    [None] + seq(RgbaRecords, c requires 0 <= c < RgbaRecords => Some(ColorRecord(data, off + 12 + 4 * c)))
  }

  /** The model a SIZE chunk at `off` declares, when its three dimensions can be read. */
  function SizeModel(data: seq<byte>, off: nat): (r: Result<Model>)
    ensures r.Ok? <==> off + 24 <= |data|
    ensures r.Err? ==> r.error == ReadPastEnd
    ensures r.Ok? ==>
      && r.value.voxels == []
      && r.value.sizeX == LE32(data[off + 12], data[off + 13], data[off + 14], data[off + 15])
      && r.value.sizeY == LE32(data[off + 16], data[off + 17], data[off + 18], data[off + 19])
      && r.value.sizeZ == LE32(data[off + 20], data[off + 21], data[off + 22], data[off + 23])
  {
    var sizeX :- ReadU32(data, off + 12);
    var sizeY :- ReadU32(data, off + 16);
    var sizeZ :- ReadU32(data, off + 20);
    Ok(Model(sizeX, sizeY, sizeZ, []))
  }

  /** The chunk id at `off`, as parseChunk compares it. */
  function ChunkId(data: seq<byte>, off: nat): string {
    AsciiSlice(data, off, off + 4)
  }

  /** The ids parseChunk tells apart. */
  datatype ChunkKind = SizeChunk | VoxelChunk | PaletteChunk | OtherChunk

  /** The four bytes at `off` read as ASCII spell `c0 c1 c2 c3`. */
  predicate IdIs(data: seq<byte>, off: nat, c0: char, c1: char, c2: char, c3: char)
    requires off + 4 <= |data|
  {
    Ascii(data[off]) == c0 && Ascii(data[off + 1]) == c1 && Ascii(data[off + 2]) == c2 && Ascii(data[off + 3]) == c3
  }

  /** The kind of the chunk at `off`, decided letter by letter (see KindIsChunkId). */
  function Kind(data: seq<byte>, off: nat): ChunkKind
    requires off + 4 <= |data|
  {
    if IdIs(data, off, 'S', 'I', 'Z', 'E') then SizeChunk
    else if IdIs(data, off, 'X', 'Y', 'Z', 'I') then VoxelChunk
    else if IdIs(data, off, 'R', 'G', 'B', 'A') then PaletteChunk
    else OtherChunk
  }

  /** Kind tells chunks apart exactly as parseChunk's comparisons of the id string do. */
  lemma KindIsChunkId(data: seq<byte>, off: nat)
    requires off + 4 <= |data|
    ensures Kind(data, off) == SizeChunk <==> ChunkId(data, off) == "SIZE"
    ensures Kind(data, off) == VoxelChunk <==> ChunkId(data, off) == "XYZI"
    ensures Kind(data, off) == PaletteChunk <==> ChunkId(data, off) == "RGBA"
  {
    var id := ChunkId(data, off);
    assert |id| == 4;
    assert id == [Ascii(data[off]), Ascii(data[off + 1]), Ascii(data[off + 2]), Ascii(data[off + 3])];
  }

  /**
   * The effect of the content of the chunk at `off` (a chunk whose content
   * length is not 0) on the models and the palette.
   */
  function ApplyChunk(data: seq<byte>, off: nat, kind: ChunkKind, st: ParseState): (r: Result<ParseState>)
    // SIZE: one new model with the declared box and no voxels, appended last.
    ensures kind == SizeChunk ==> (r.Ok? <==> off + 24 <= |data|)
    ensures kind == SizeChunk && r.Ok? ==>
      && r.value.palette == st.palette
      && r.value.models == st.models + [Model(U32At(data, off + 12), U32At(data, off + 16), U32At(data, off + 20), [])]
    // XYZI: its voxels are appended to the most recent model, and nothing else changes;
    // voxels before any SIZE chunk are an error.
    ensures kind == VoxelChunk ==>
      (r.Ok? <==> (&& off + 16 <= |data|
                   && (U32At(data, off + 12) == 0 || (|st.models| > 0 && off + 16 + 4 * U32At(data, off + 12) <= |data|))))
    ensures kind == VoxelChunk ==>
      (r == Err(NoCurrentModel) <==> (off + 16 <= |data| && U32At(data, off + 12) > 0 && |st.models| == 0))
    ensures kind == VoxelChunk && r.Ok? ==>
      && r.value.palette == st.palette
      && (|st.models| == 0 ==> r.value.models == st.models)
      && |r.value.models| == |st.models|
      && (|st.models| > 0 ==>
            var last := |st.models| - 1;
            && r.value.models[..last] == st.models[..last]
            && r.value.models[last] == st.models[last].(voxels := st.models[last].voxels +
                 VoxelRecords(data, off + 16, U32At(data, off + 12))))
    // RGBA: the palette is replaced, whatever it was, and the models are kept.
    ensures kind == PaletteChunk ==> (r.Ok? <==> off + 12 + 4 * RgbaRecords <= |data|)
    ensures kind == PaletteChunk && r.Ok? ==> r.value == st.(palette := RgbaPalette(data, off))
    // Any other id changes nothing.
    ensures kind == OtherChunk ==> r == Ok(st)
    // A chunk's content fails only by running out of data or by voxels before any model.
    ensures r.Err? ==> r.error == ReadPastEnd || r.error == NoCurrentModel
  {
    match kind
    case SizeChunk =>
      var model :- SizeModel(data, off);
      Ok(st.(models := st.models + [model]))
    case VoxelChunk =>
      var numVoxels :- ReadU32(data, off + 12);
      if numVoxels == 0 then Ok(st)
      else if |st.models| == 0 then Err(NoCurrentModel)
      else if off + 16 + 4 * numVoxels > |data| then Err(ReadPastEnd)
      else
        var last := |st.models| - 1;
        var current := st.models[last];
        Ok(st.(models := st.models[..last] + [current.(voxels := current.voxels + VoxelRecords(data, off + 16, numVoxels))]))
    case PaletteChunk =>
      if off + 12 + 4 * RgbaRecords > |data| then Err(ReadPastEnd)
      else Ok(st.(palette := RgbaPalette(data, off)))
    case OtherChunk => Ok(st)
  }

  // ---------------------------------------------------------------------------
  // The walk over the chunk tree.
  // ---------------------------------------------------------------------------

  function ContentLength(data: seq<byte>, off: nat): nat requires off + 12 <= |data| { U32At(data, off + 4) }
  function ChildrenLength(data: seq<byte>, off: nat): nat requires off + 12 <= |data| { U32At(data, off + 8) }

  /** Where the children of the chunk at `off` start. */
  function ChildOffset(data: seq<byte>, off: nat): (r: nat)
    requires off + 12 <= |data|
    ensures r > off
  {
    off + 12 + ContentLength(data, off)
  }

  /** Where the sibling of the chunk at `off` starts. */
  function SiblingOffset(data: seq<byte>, off: nat): (r: nat)
    requires off + 12 <= |data|
    ensures r >= ChildOffset(data, off)
  {
    off + 12 + ChildrenLength(data, off) + ContentLength(data, off)
  }

  /** One chunk's own effect: its content is looked at only when its content length is not 0. */
  function Step(data: seq<byte>, off: nat, st: ParseState): (r: Result<ParseState>)
    requires off + 12 <= |data|
    ensures ContentLength(data, off) == 0 ==> r == Ok(st)
    ensures r.Err? ==> r.error == ReadPastEnd || r.error == NoCurrentModel
  {
    if ContentLength(data, off) > 0 then ApplyChunk(data, off, Kind(data, off), st) else Ok(st)
  }

  /**
   * `b` extends `a` the way the walk does: models are only appended, the ones
   * before the most recent are never touched, and the most recent keeps its box
   * and only gains voxels.
   */
  ghost predicate Grows(a: ParseState, b: ParseState) {
    |a.models| <= |b.models| &&
    (forall i | 0 <= i < |a.models| - 1 :: b.models[i] == a.models[i]) &&
    (|a.models| > 0 ==>
      var i := |a.models| - 1;
      b.models[i].sizeX == a.models[i].sizeX && b.models[i].sizeY == a.models[i].sizeY &&
      b.models[i].sizeZ == a.models[i].sizeZ && a.models[i].voxels <= b.models[i].voxels)
  }

  /** The palette is either untouched (empty) or a whole palette with a hole at 0. */
  ghost predicate PaletteShape(p: Palette) {
    p == [] || (|p| == 256 && p[0] == None)
  }

  lemma StepGrows(data: seq<byte>, off: nat, st: ParseState)
    requires off + 12 <= |data|
    ensures Step(data, off, st).Ok? ==> Grows(st, Step(data, off, st).value)
    ensures Step(data, off, st).Ok? && PaletteShape(st.palette) ==> PaletteShape(Step(data, off, st).value.palette)
  {
    if ContentLength(data, off) > 0 && Kind(data, off) == VoxelChunk && Step(data, off, st).Ok? && |st.models| > 0 {
      var r := Step(data, off, st).value;
      var last := |st.models| - 1;
      assert forall i | 0 <= i < last :: r.models[i] == r.models[..last][i];
    }
  }

  lemma GrowsTrans(a: ParseState, b: ParseState, c: ParseState)
    requires Grows(a, b) && Grows(b, c)
    ensures Grows(a, c)
  {
    if |a.models| > 0 {
      var i := |a.models| - 1;
      if i < |b.models| - 1 {
        assert c.models[i] == b.models[i];
      }
    }
  }

  /**
   * parseChunk(off): this chunk's content, then (when the children length is
   * not 0) the walk from the first child, then (when the next offset is inside
   * the buffer) the walk from the sibling. Every call starts strictly after
   * its caller's offset, which is the termination measure.
   */
  function Walk(data: seq<byte>, off: nat, st: ParseState): (r: Result<ParseState>)
    decreases |data| - off
    ensures off + 12 > |data| ==> r == Err(ReadPastEnd)
    ensures r.Err? ==> r.error == ReadPastEnd || r.error == NoCurrentModel
  {
    if off + 12 > |data| then Err(ReadPastEnd)
    else
      var own := Step(data, off, st);
      if own.Err? then own
      else
        var children := if ChildrenLength(data, off) > 0 then Walk(data, ChildOffset(data, off), own.value) else own;
        if children.Err? then children
        else if SiblingOffset(data, off) < |data| then Walk(data, SiblingOffset(data, off), children.value)
        else children
  }

  /** One unfolding of Walk, in the order parseChunk takes its steps. */
  lemma WalkUnfold(data: seq<byte>, off: nat, st: ParseState)
    requires off + 12 <= |data|
    ensures var own := Step(data, off, st);
      Walk(data, off, st) ==
        if own.Err? then own
        else
          var children := if ChildrenLength(data, off) > 0 then Walk(data, ChildOffset(data, off), own.value) else own;
          if children.Err? then children
          else if SiblingOffset(data, off) < |data| then Walk(data, SiblingOffset(data, off), children.value)
          else children
  {
  }

  /** A successful walk only grows the models and leaves a well-shaped palette well shaped. */
  lemma {:induction false} WalkGrows(data: seq<byte>, off: nat, st: ParseState)
    decreases |data| - off
    ensures Walk(data, off, st).Ok? ==> Grows(st, Walk(data, off, st).value)
    ensures Walk(data, off, st).Ok? && PaletteShape(st.palette) ==> PaletteShape(Walk(data, off, st).value.palette)
  {
    if off + 12 <= |data| && Walk(data, off, st).Ok? {
      StepGrows(data, off, st);
      var st1 := Step(data, off, st).value;
      var st2 := st1;
      if ChildrenLength(data, off) > 0 {
        WalkGrows(data, ChildOffset(data, off), st1);
        st2 := Walk(data, ChildOffset(data, off), st1).value;
        GrowsTrans(st, st1, st2);
      }
      if SiblingOffset(data, off) < |data| {
        WalkGrows(data, SiblingOffset(data, off), st2);
        GrowsTrans(st, st2, Walk(data, off, st).value);
      }
    }
  }

  lemma ConsTail<T>(x: T, a: seq<T>, b: seq<T>)
    ensures ([x] + a + b)[0] == x && ([x] + a + b)[1..] == a + b
  {
  }

  lemma AppendAssoc<T>(a: seq<T>, b: seq<T>, c: seq<T>)
    ensures (a + b) + c == a + (b + c)
  {
  }

  /**
   * The offsets of the chunks the walk visits, in the order it visits them.
   * A child's walk runs on over its siblings to the end of the buffer, so a
   * chunk after a children region can be visited twice.
   */
  function Trace(data: seq<byte>, off: nat): (r: Result<seq<nat>>)
    decreases |data| - off
    ensures r.Ok? ==> |r.value| > 0 && r.value[0] == off
    ensures r.Ok? ==> forall i | 0 <= i < |r.value| :: off <= r.value[i] && r.value[i] + 12 <= |data|
  {
    if off + 12 > |data| then Err(ReadPastEnd)
    else
      var kids :- if ChildrenLength(data, off) > 0 then Trace(data, ChildOffset(data, off)) else Ok([]);
      var sibs :- if SiblingOffset(data, off) < |data| then Trace(data, SiblingOffset(data, off)) else Ok([]);
      Ok([off] + kids + sibs)
  }

  ghost predicate Headers(data: seq<byte>, offs: seq<nat>) {
    forall i | 0 <= i < |offs| :: offs[i] + 12 <= |data|
  }

  /** The chunk effects applied one after another to the visited offsets. */
  function Steps(data: seq<byte>, offs: seq<nat>, st: ParseState): Result<ParseState>
    requires Headers(data, offs)
    decreases |offs|
  {
    if offs == [] then Ok(st)
    else
      var st1 :- Step(data, offs[0], st);
      Steps(data, offs[1..], st1)
  }

  lemma {:induction false} StepsAppend(data: seq<byte>, a: seq<nat>, b: seq<nat>, st: ParseState)
    requires Headers(data, a) && Headers(data, b)
    ensures Headers(data, a + b)
    ensures Steps(data, a + b, st) ==
      match Steps(data, a, st) case Ok(st1) => Steps(data, b, st1) case Err(e) => Err(e)
    decreases |a|
  {
    assert Headers(data, a + b) by {
      forall i | 0 <= i < |a + b| ensures (a + b)[i] + 12 <= |data| {
        if i >= |a| { assert (a + b)[i] == b[i - |a|]; }
      }
    }
    if a == [] {
      assert a + b == b;
    } else {
      assert (a + b)[0] == a[0];
      assert (a + b)[1..] == a[1..] + b;
      var r := Step(data, a[0], st);
      if r.Ok? {
        StepsAppend(data, a[1..], b, r.value);
        assert Steps(data, a + b, st) == Steps(data, a[1..] + b, r.value);
      }
    }
  }

  lemma StepsCons(data: seq<byte>, x: nat, rest: seq<nat>, st: ParseState)
    requires x + 12 <= |data| && Headers(data, rest)
    ensures Headers(data, [x] + rest)
    ensures Steps(data, [x] + rest, st) ==
      if Step(data, x, st).Ok? then Steps(data, rest, Step(data, x, st).value) else Step(data, x, st)
  {
    ConsTail(x, rest, []);
    assert [x] + rest + [] == [x] + rest;
  }

  /** The walk is the chunk effects applied in visit order. */
  lemma {:induction false} WalkIsSteps(data: seq<byte>, off: nat, st: ParseState)
    decreases |data| - off
    ensures Trace(data, off).Ok? ==> Walk(data, off, st) == Steps(data, Trace(data, off).value, st)
    ensures Trace(data, off).Err? ==> Walk(data, off, st).Err?
  {
    if off + 12 <= |data| {
      var child, next := ChildOffset(data, off), SiblingOffset(data, off);
      var hasKids, hasSibs := ChildrenLength(data, off) > 0, next < |data|;
      var tk := if hasKids then Trace(data, child) else Ok([]);
      var ts := if hasSibs then Trace(data, next) else Ok([]);
      var st1 := Step(data, off, st);
      if st1.Ok? {
        var st2 := if hasKids then Walk(data, child, st1.value) else Ok(st1.value);
        if hasKids { WalkIsSteps(data, child, st1.value); }
        if st2.Ok? && hasSibs { WalkIsSteps(data, next, st2.value); }
        if tk.Ok? && ts.Ok? {
          WalkOk(data, off, st, st1.value, st2, tk.value, ts.value);
        }
      } else if tk.Ok? && ts.Ok? {
        StepsCons(data, off, tk.value + ts.value, st);
      }
    }
  }

  /**
   * One level of WalkIsSteps: the visit list splits into this chunk, its
   * children's list and its siblings'; `st2` is the state after the children.
   */
  lemma WalkOk(data: seq<byte>, off: nat, st: ParseState, st1: ParseState, st2: Result<ParseState>,
               kids: seq<nat>, sibs: seq<nat>)
    requires off + 12 <= |data| && Step(data, off, st) == Ok(st1)
    requires ChildrenLength(data, off) > 0 ==> Trace(data, ChildOffset(data, off)) == Ok(kids)
    requires ChildrenLength(data, off) == 0 ==> kids == []
    requires SiblingOffset(data, off) < |data| ==> Trace(data, SiblingOffset(data, off)) == Ok(sibs)
    requires SiblingOffset(data, off) >= |data| ==> sibs == []
    requires Headers(data, kids) && Headers(data, sibs)
    requires st2 == (if ChildrenLength(data, off) > 0 then Walk(data, ChildOffset(data, off), st1) else Ok(st1))
    requires st2 == Steps(data, kids, st1)
    requires st2.Ok? && SiblingOffset(data, off) < |data| ==>
      Walk(data, SiblingOffset(data, off), st2.value) == Steps(data, sibs, st2.value)
    ensures Trace(data, off) == Ok([off] + kids + sibs)
    ensures Walk(data, off, st) == Steps(data, [off] + kids + sibs, st)
  {
    StepsAppend(data, kids, sibs, st1);
    StepsCons(data, off, kids + sibs, st);
    AppendAssoc([off], kids, sibs);
  }

  /** An RGBA chunk whose content the walk looks at. */
  predicate IsPaletteChunk(data: seq<byte>, off: nat)
    requires off + 12 <= |data|
  {
    ContentLength(data, off) > 0 && Kind(data, off) == PaletteChunk
  }

  predicate IsSizeChunk(data: seq<byte>, off: nat)
    requires off + 12 <= |data|
  {
    ContentLength(data, off) > 0 && Kind(data, off) == SizeChunk
  }

  /** The last visited RGBA chunk, if any. */
  function LastPaletteChunk(data: seq<byte>, offs: seq<nat>): Option<nat>
    requires Headers(data, offs)
    decreases |offs|
  {
    if offs == [] then None
    else
      var later := LastPaletteChunk(data, offs[1..]);
      if later.Some? then later
      else if IsPaletteChunk(data, offs[0]) then Some(offs[0])
      else None
  }

  /** The last RGBA chunk decides the palette; with none, the palette is untouched. */
  lemma {:induction false} StepsPalette(data: seq<byte>, offs: seq<nat>, st: ParseState)
    requires Headers(data, offs)
    requires Steps(data, offs, st).Ok?
    ensures match LastPaletteChunk(data, offs)
      case None => Steps(data, offs, st).value.palette == st.palette
      case Some(o) =>
        && o + 12 + 4 * RgbaRecords <= |data|
        && Steps(data, offs, st).value.palette == RgbaPalette(data, o)
    decreases |offs|
  {
    if offs != [] {
      var st1 := Step(data, offs[0], st).value;
      StepsPalette(data, offs[1..], st1);
    }
  }

  datatype Box = Box(sizeX: nat, sizeY: nat, sizeZ: nat)

  function Boxes(ms: seq<Model>): (bs: seq<Box>)
    ensures |bs| == |ms|
    ensures forall i | 0 <= i < |ms| :: bs[i] == Box(ms[i].sizeX, ms[i].sizeY, ms[i].sizeZ)
  {
    seq(|ms|, i requires 0 <= i < |ms| => Box(ms[i].sizeX, ms[i].sizeY, ms[i].sizeZ))
  }

  /** The box of a SIZE chunk that is looked at, as a zero- or one-element list. */
  function SizeBox(data: seq<byte>, o: nat): seq<Box>
    requires o + 12 <= |data|
  {
    if IsSizeChunk(data, o) && o + 24 <= |data|
    then [Box(U32At(data, o + 12), U32At(data, o + 16), U32At(data, o + 20))] else []
  }

  /** The boxes declared by the visited SIZE chunks, in visit order. */
  function SizeBoxes(data: seq<byte>, offs: seq<nat>): seq<Box>
    requires Headers(data, offs)
    decreases |offs|
  {
    if offs == [] then []
    else
      SizeBox(data, offs[0]) + SizeBoxes(data, offs[1..])
  }

  lemma StepBoxes(data: seq<byte>, o: nat, st: ParseState)
    requires o + 12 <= |data|
    requires Step(data, o, st).Ok?
    ensures Boxes(Step(data, o, st).value.models) == Boxes(st.models) + SizeBox(data, o)
  {
    var st1 := Step(data, o, st).value;
    if ContentLength(data, o) > 0 && Kind(data, o) == VoxelChunk && |st.models| > 0 {
      var last := |st.models| - 1;
      assert forall i | 0 <= i < last :: st1.models[i] == st1.models[..last][i];
      assert Boxes(st1.models) == Boxes(st.models);
    } else if IsSizeChunk(data, o) {
      assert Boxes(st1.models) == Boxes(st.models) + SizeBox(data, o);
    }
  }

  /** Each visited SIZE chunk appends one model, in visit order, and no other chunk adds or reboxes a model. */
  lemma {:induction false} StepsBoxes(data: seq<byte>, offs: seq<nat>, st: ParseState)
    requires Headers(data, offs)
    requires Steps(data, offs, st).Ok?
    ensures Boxes(Steps(data, offs, st).value.models) == Boxes(st.models) + SizeBoxes(data, offs)
    decreases |offs|
  {
    if offs != [] {
      var o := offs[0];
      var st1 := Step(data, o, st).value;
      var rest := Steps(data, offs[1..], st1).value;
      assert Steps(data, offs, st).value == rest;
      var b0, b1, b2 := Boxes(st.models), SizeBox(data, o), SizeBoxes(data, offs[1..]);
      assert Boxes(st1.models) == b0 + b1 by { StepBoxes(data, o, st); }
      assert Boxes(rest.models) == Boxes(st1.models) + b2 by { StepsBoxes(data, offs[1..], st1); }
      assert SizeBoxes(data, offs) == b1 + b2;
      AppendAssoc(b0, b1, b2);
    }
  }

  // ---------------------------------------------------------------------------
  // The default palette and the whole of parseVoxData.
  // ---------------------------------------------------------------------------

  /** The built-in palette, one 32-bit value per entry, alpha in the top byte. */
  const DefaultPaletteHex: seq<bv32> :=
    [0x00000000, 0xffffffff, 0xffccffff, 0xff99ffff, 0xff66ffff, 0xff33ffff, 0xff00ffff, 0xffffccff] +
    [0xffccccff, 0xff99ccff, 0xff66ccff, 0xff33ccff, 0xff00ccff, 0xffff99ff, 0xffcc99ff, 0xff9999ff] +
    [0xff6699ff, 0xff3399ff, 0xff0099ff, 0xffff66ff, 0xffcc66ff, 0xff9966ff, 0xff6666ff, 0xff3366ff] +
    [0xff0066ff, 0xffff33ff, 0xffcc33ff, 0xff9933ff, 0xff6633ff, 0xff3333ff, 0xff0033ff, 0xffff00ff] +
    [0xffcc00ff, 0xff9900ff, 0xff6600ff, 0xff3300ff, 0xff0000ff, 0xffffffcc, 0xffccffcc, 0xff99ffcc] +
    [0xff66ffcc, 0xff33ffcc, 0xff00ffcc, 0xffffcccc, 0xffcccccc, 0xff99cccc, 0xff66cccc, 0xff33cccc] +
    [0xff00cccc, 0xffff99cc, 0xffcc99cc, 0xff9999cc, 0xff6699cc, 0xff3399cc, 0xff0099cc, 0xffff66cc] +
    [0xffcc66cc, 0xff9966cc, 0xff6666cc, 0xff3366cc, 0xff0066cc, 0xffff33cc, 0xffcc33cc, 0xff9933cc] +
    [0xff6633cc, 0xff3333cc, 0xff0033cc, 0xffff00cc, 0xffcc00cc, 0xff9900cc, 0xff6600cc, 0xff3300cc] +
    [0xff0000cc, 0xffffff99, 0xffccff99, 0xff99ff99, 0xff66ff99, 0xff33ff99, 0xff00ff99, 0xffffcc99] +
    [0xffcccc99, 0xff99cc99, 0xff66cc99, 0xff33cc99, 0xff00cc99, 0xffff9999, 0xffcc9999, 0xff999999] +
    [0xff669999, 0xff339999, 0xff009999, 0xffff6699, 0xffcc6699, 0xff996699, 0xff666699, 0xff336699] +
    [0xff006699, 0xffff3399, 0xffcc3399, 0xff993399, 0xff663399, 0xff333399, 0xff003399, 0xffff0099] +
    [0xffcc0099, 0xff990099, 0xff660099, 0xff330099, 0xff000099, 0xffffff66, 0xffccff66, 0xff99ff66] +
    [0xff66ff66, 0xff33ff66, 0xff00ff66, 0xffffcc66, 0xffcccc66, 0xff99cc66, 0xff66cc66, 0xff33cc66] +
    [0xff00cc66, 0xffff9966, 0xffcc9966, 0xff999966, 0xff669966, 0xff339966, 0xff009966, 0xffff6666] +
    [0xffcc6666, 0xff996666, 0xff666666, 0xff336666, 0xff006666, 0xffff3366, 0xffcc3366, 0xff993366] +
    [0xff663366, 0xff333366, 0xff003366, 0xffff0066, 0xffcc0066, 0xff990066, 0xff660066, 0xff330066] +
    [0xff000066, 0xffffff33, 0xffccff33, 0xff99ff33, 0xff66ff33, 0xff33ff33, 0xff00ff33, 0xffffcc33] +
    [0xffcccc33, 0xff99cc33, 0xff66cc33, 0xff33cc33, 0xff00cc33, 0xffff9933, 0xffcc9933, 0xff999933] +
    [0xff669933, 0xff339933, 0xff009933, 0xffff6633, 0xffcc6633, 0xff996633, 0xff666633, 0xff336633] +
    [0xff006633, 0xffff3333, 0xffcc3333, 0xff993333, 0xff663333, 0xff333333, 0xff003333, 0xffff0033] +
    [0xffcc0033, 0xff990033, 0xff660033, 0xff330033, 0xff000033, 0xffffff00, 0xffccff00, 0xff99ff00] +
    [0xff66ff00, 0xff33ff00, 0xff00ff00, 0xffffcc00, 0xffcccc00, 0xff99cc00, 0xff66cc00, 0xff33cc00] +
    [0xff00cc00, 0xffff9900, 0xffcc9900, 0xff999900, 0xff669900, 0xff339900, 0xff009900, 0xffff6600] +
    [0xffcc6600, 0xff996600, 0xff666600, 0xff336600, 0xff006600, 0xffff3300, 0xffcc3300, 0xff993300] +
    [0xff663300, 0xff333300, 0xff003300, 0xffff0000, 0xffcc0000, 0xff990000, 0xff660000, 0xff330000] +
    [0xff0000ee, 0xff0000dd, 0xff0000bb, 0xff0000aa, 0xff000088, 0xff000077, 0xff000055, 0xff000044] +
    [0xff000022, 0xff000011, 0xff00ee00, 0xff00dd00, 0xff00bb00, 0xff00aa00, 0xff008800, 0xff007700] +
    [0xff005500, 0xff004400, 0xff002200, 0xff001100, 0xffee0000, 0xffdd0000, 0xffbb0000, 0xffaa0000] +
    [0xff880000, 0xff770000, 0xff550000, 0xff440000, 0xff220000, 0xff110000, 0xffeeeeee, 0xffdddddd] +
    [0xffbbbbbb, 0xffaaaaaa, 0xff888888, 0xff777777, 0xff555555, 0xff444444, 0xff222222, 0xff111111]

  /** HexChannel k of a 32-bit palette value: `(hex & mask_k) >>> 8k`. */
  function HexChannel(hex: bv32, k: nat): (c: bv32)
    requires k < 4
    ensures c < 256
  {
    if k == 0 then hex & 0x0000_00ff
    else if k == 1 then (hex & 0x0000_ff00) >> 8
    else if k == 2 then (hex & 0x00ff_0000) >> 16
    else (hex & 0xff00_0000) >> 24
  }

  /** The four channels are the whole value: decoding a palette value loses nothing. */
  lemma ChannelsRoundTrip(hex: bv32)
    ensures HexChannel(hex, 0) | (HexChannel(hex, 1) << 8) | (HexChannel(hex, 2) << 16) | (HexChannel(hex, 3) << 24) == hex
  {
  }

  function ToByte(c: bv32): byte requires c < 256 { c as int }

  /** The colour of a 32-bit palette value: r = byte 0, g = byte 1, b = byte 2, a = byte 3. */
  function HexColor(hex: bv32): Color {
    Color(ToByte(HexChannel(hex, 0)), ToByte(HexChannel(hex, 1)), ToByte(HexChannel(hex, 2)), ToByte(HexChannel(hex, 3)))
  }

  /** defaultPalette.map(...): all 256 entries exist. */
  function DefaultPalette(): (p: Palette)
    ensures |p| == 256
    ensures forall i | 0 <= i < 256 :: p[i] == Some(HexColor(DefaultPaletteHex[i]))
  {
    seq(256, i requires 0 <= i < 256 => Some(HexColor(DefaultPaletteHex[i])))
  }

  lemma DefaultPaletteEnds()
    ensures DefaultPalette()[0] == Some(Color(0, 0, 0, 0))
    ensures DefaultPalette()[1] == Some(Color(255, 255, 255, 255))
    ensures DefaultPalette()[255] == Some(Color(0x11, 0x11, 0x11, 255))
  {
    assert DefaultPaletteHex[0] == 0x0000_0000 && DefaultPaletteHex[1] == 0xffff_ffff;
    assert DefaultPaletteHex[255] == 0xff11_1111;
  }

  /** parseVoxData: walk from offset 8, then fall back to the default palette. */
  function Parse(data: seq<byte>): (r: Result<VoxData>)
    ensures r.Ok? ==> |r.value.palette| == 256
    ensures r.Ok? ==> r.value.palette == DefaultPalette() || r.value.palette[0] == None
    ensures r.Err? ==> r.error == ReadPastEnd || r.error == NoCurrentModel
  {
    var st :- (WalkGrows(data, 8, InitialState); Walk(data, 8, InitialState));
    Ok(VoxData(st.models, if |st.palette| == 0 then DefaultPalette() else st.palette))
  }

  /** readVoxFile followed by parseVoxData. */
  function Decode(data: seq<byte>): (r: Result<VoxData>)
    ensures CheckHeader(data).Err? ==> r == Err(CheckHeader(data).error)
    ensures CheckHeader(data).Ok? ==> r == Parse(data)
  {
    var checked :- CheckHeader(data);
    Parse(checked)
  }

  /** The decoded file as the walk leaves it, in terms of the chunks it visits. */
  lemma ParseFromChunks(data: seq<byte>)
    requires Parse(data).Ok?
    ensures Trace(data, 8).Ok?
    ensures var offs := Trace(data, 8).value;
      Boxes(Parse(data).value.models) == SizeBoxes(data, offs)
    ensures var offs := Trace(data, 8).value;
      match LastPaletteChunk(data, offs)
      case None => Parse(data).value.palette == DefaultPalette()
      case Some(o) => o + 12 + 4 * RgbaRecords <= |data| && Parse(data).value.palette == RgbaPalette(data, o)
  {
    ParseIsSteps(data);
    StepsFromChunks(data, Trace(data, 8).value);
  }

  /** The steps from the initial state, with the palette fallback, in terms of the chunks visited. */
  lemma StepsFromChunks(data: seq<byte>, offs: seq<nat>)
    requires Headers(data, offs) && Steps(data, offs, InitialState).Ok?
    ensures var st := Steps(data, offs, InitialState).value;
      Boxes(st.models) == SizeBoxes(data, offs)
    ensures var st := Steps(data, offs, InitialState).value;
      var palette := if |st.palette| == 0 then DefaultPalette() else st.palette;
      match LastPaletteChunk(data, offs)
      case None => palette == DefaultPalette()
      case Some(o) => o + 12 + 4 * RgbaRecords <= |data| && palette == RgbaPalette(data, o)
  {
    StepsBoxes(data, offs, InitialState);
    StepsPalette(data, offs, InitialState);
    assert Boxes(InitialState.models) == [];
  }

  /** A successful parse is the steps over the traced chunks, with the palette fallback applied. */
  lemma ParseIsSteps(data: seq<byte>)
    requires Parse(data).Ok?
    ensures Trace(data, 8).Ok? && Steps(data, Trace(data, 8).value, InitialState).Ok?
    ensures var st := Steps(data, Trace(data, 8).value, InitialState).value;
      Parse(data).value == VoxData(st.models, if |st.palette| == 0 then DefaultPalette() else st.palette)
  {
    WalkIsSteps(data, 8, InitialState);
  }

  // ---------------------------------------------------------------------------
  // parseVoxData as the source runs it: a recursive walk that updates the
  // models array, the current-model cursor and the palette in place.
  // ---------------------------------------------------------------------------

  /** An in-place step's outcome and resulting state agree with the specification's result. */
  ghost predicate ParserAgrees(res: Outcome, st: ParseState, r: Result<ParseState>) {
    (r.Ok? ==> res == Pass && st == r.value) && (r.Err? ==> res == Fail(r.error))
  }

  /** currentModel is always the model pushed last. */
  ghost predicate CurrentIsLast(current: Option<nat>, models: seq<Model>) {
    current == if |models| == 0 then None else Some(|models| - 1)
  }

  class VoxParser {
    const data: seq<byte>
    var models: seq<Model>
    var palette: Palette
    /** currentModel: the index of the model the next XYZI chunk fills. */
    var current: Option<nat>

    function State(): ParseState
      reads this
    {
      ParseState(models, palette)
    }

    constructor (data: seq<byte>)
      ensures this.data == data && State() == InitialState && CurrentIsLast(current, models)
    {
      this.data := data;
      models := [];
      palette := [];
      current := None;
    }

    /** The SIZE branch: a new model becomes the current one and is pushed. */
    method ReadSize(offset: nat) returns (res: Outcome)
      requires CurrentIsLast(current, models) && offset + 12 <= |data|
      modifies this
      ensures CurrentIsLast(current, models)
      ensures ParserAgrees(res, State(), ApplyChunk(data, offset, SizeChunk, old(State())))
    {
      if offset + 24 > |data| {
        return Fail(ReadPastEnd);
      }
      var sizeX := U32At(data, offset + 12);
      var sizeY := U32At(data, offset + 16);
      var sizeZ := U32At(data, offset + 20);
      models := models + [Model(sizeX, sizeY, sizeZ, [])];
      current := Some(|models| - 1);
      res := Pass;
    }

    /** `currentModel.voxels.push(voxel)` */
    method PushVoxel(voxel: Voxel)
      requires current.Some? && CurrentIsLast(current, models)
      modifies this
      ensures CurrentIsLast(current, models) && current == old(current) && palette == old(palette)
      ensures models == AddVoxels(old(models), [voxel])
    {
      var model := models[current.value];
      models := models[current.value := model.(voxels := model.voxels + [voxel])];
    }

    /** The XYZI branch: numVoxels records pushed one by one onto the current model. */
    method ReadVoxels(offset: nat) returns (res: Outcome)
      requires CurrentIsLast(current, models) && offset + 12 <= |data|
      modifies this
      ensures CurrentIsLast(current, models)
      ensures ParserAgrees(res, State(), ApplyChunk(data, offset, VoxelChunk, old(State())))
    {
      if offset + 16 > |data| {
        return Fail(ReadPastEnd);
      }
      var numVoxels := U32At(data, offset + 12);
      if |models| > 0 {
        assert models[|models| - 1].voxels + [] == models[|models| - 1].voxels;
      }
      for v := 0 to numVoxels
        invariant CurrentIsLast(current, models) && palette == old(palette)
        invariant offset + 16 + 4 * v <= |data|
        invariant |old(models)| == 0 ==> v == 0 && models == old(models)
        invariant |old(models)| > 0 ==> models == AddVoxels(old(models), VoxelRecords(data, offset + 16, v))
      {
        if current.None? {
          return Fail(NoCurrentModel);
        }
        var dataOffset := offset + 16 + v * 4;
        if dataOffset + 4 > |data| {
          return Fail(ReadPastEnd);
        }
        var voxel := VoxelRecord(data, dataOffset);
        PushVoxel(voxel);
        VoxelRecordsSnoc(data, offset + 16, v);
        AddVoxelsTwice(old(models), VoxelRecords(data, offset + 16, v), [voxel]);
      }
      if |old(models)| > 0 {
        AddVoxelsShape(old(models), VoxelRecords(data, offset + 16, numVoxels));
      }
      res := Pass;
    }

    /** The RGBA branch: a fresh palette array, entries 1..255 assigned in order. */
    method ReadPalette(offset: nat) returns (res: Outcome)
      requires CurrentIsLast(current, models) && offset + 12 <= |data|
      modifies this
      ensures CurrentIsLast(current, models)
      ensures ParserAgrees(res, State(), ApplyChunk(data, offset, PaletteChunk, old(State())))
    {
      palette := [];
      for c := 0 to RgbaRecords
        invariant CurrentIsLast(current, models) && models == old(models)
        invariant offset + 12 + 4 * c <= |data|
        invariant |palette| == if c == 0 then 0 else c + 1
        invariant c > 0 ==> palette[0] == None
        invariant forall k | 0 <= k < c :: palette[k + 1] == Some(ColorRecord(data, offset + 12 + 4 * k))
      {
        var dataOffset := offset + 12 + c * 4;
        if dataOffset + 4 > |data| {
          return Fail(ReadPastEnd);
        }
        palette := SetAt(palette, c + 1, ColorRecord(data, dataOffset));
      }
      assert palette == RgbaPalette(data, offset);
      res := Pass;
    }

    /** The chunk's content, dispatched on its id. */
    method ReadContent(offset: nat, chunkId: string) returns (res: Outcome)
      requires CurrentIsLast(current, models) && offset + 12 <= |data| && chunkId == ChunkId(data, offset)
      modifies this
      ensures CurrentIsLast(current, models)
      ensures ParserAgrees(res, State(), ApplyChunk(data, offset, Kind(data, offset), old(State())))
    {
      KindIsChunkId(data, offset);
      if chunkId == "SIZE" {
        res := ReadSize(offset);
      } else if chunkId == "XYZI" {
        res := ReadVoxels(offset);
      } else if chunkId == "RGBA" {
        res := ReadPalette(offset);
      } else {
        res := Pass;
      }
    }

    /** parseChunk(offset): content, then children, then the sibling. */
    method ParseChunk(offset: nat) returns (res: Outcome)
      requires CurrentIsLast(current, models)
      modifies this
      decreases |data| - offset
      ensures CurrentIsLast(current, models)
      ensures ParserAgrees(res, State(), Walk(data, offset, old(State())))
    {
      if offset + 12 > |data| {
        return Fail(ReadPastEnd);
      }
      var chunkId := ChunkId(data, offset);
      var chunkContentLength := U32At(data, offset + 4);
      var chunkChildrenLength := U32At(data, offset + 8);

      res := Pass;
      if chunkContentLength > 0 {
        res := ReadContent(offset, chunkId);
        if res.Fail? {
          return;
        }
      }
      if chunkChildrenLength > 0 {
        res := ParseChunk(ChildOffset(data, offset));
        if res.Fail? {
          return;
        }
      }
      var newOffset := SiblingOffset(data, offset);
      if newOffset < |data| {
        res := ParseChunk(newOffset);
      }
    }
  }

  /** parseVoxData: walk from offset 8, then fall back to the default palette. */
  method ParseVoxData(data: seq<byte>) returns (r: Result<VoxData>)
    ensures r == Parse(data)
  {
    var parser := new VoxParser(data);
    var res := parser.ParseChunk(8);
    if res.Fail? {
      return Err(res.error);
    }
    var palette := parser.palette;
    if |palette| == 0 {
      palette := DefaultPalette();
    }
    r := Ok(VoxData(parser.models, palette));
  }
}
