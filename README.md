# vox2sprite in Dafny

A model of the core of vox2sprite, which turns a MagicaVoxel `.vox` file
into an isometric sprite sheet of the model seen from its four sides. The
pipeline has four stages:

1. **Decoder** (`decoder.dfy`): the header check of `readVoxFile` and the whole of
   `parseVoxData`.
   - The chunk walk is specified as a recursive function, `Walk`.
   - A class `VoxParser` runs it the way the source does: it mutates the model
     list, the current-model cursor and the palette in place.
   - `Trace` lists the chunks the walk visits, and the decoded models' boxes and
     the palette are stated in terms of that list. The models are the boxes of
     the visited `SIZE` chunks, in visit order. The palette is the last visited
     `RGBA` chunk's, or the built-in default palette. Each model's voxels follow
     from the `XYZI` clause of `ApplyChunk` step by step.
2. **Side projector** (`triangles.dfy`): `prepareTriangles` and its copy
   `renderTriangles`.
   - The grid is an `array2` of rays, filled in place voxel by voxel.
   - Its contents are proved equal to `Grid`, a value that names, for every
     cell, the last voxel depositing there.
3. **Pixel placer** (`pixels.dfy`): `preparePixels` and its copy `renderPixels`.
   - They write double-height pixels into a zeroed RGBA `array`.
   - The result is proved equal to `Image`, which defines every byte from the
     nearest patch of the cell that lights it.
4. **Sprite-sheet composer** (`spritesheet.ts`'s `createSpriteSheet` and
   `renderChunk`, and the single-file copy `renderSpriteSheet`): every
   rendered block is copied row by row into one sheet buffer.

How the composer is modelled:

- Each row write goes through a model of `TypedArray.prototype.set`, which
  throws a RangeError, before copying anything, when the row does not fit.
- The byte offset of row `line` of side `side` of frame `f` is modelled exactly
  as the code computes it: `side*W + line*4W + f*W*H`.
- W is `8 * max sizeU` and H is `n * max sizeV` for `n` models.
- With one model, or with four models numbered 0–3, this offset is the row
  `line + f * maxV` of the sheet, and every copy lands in its own slot
  (`OffsetIsSlot`, `StackedSheetContents`).
- For every other model count the frames are not stacked:
  - with two models and an even max sizeV, frame 1 is copied over the lower
    half of frame 0 (`TwoFramesOverlap`);
  - a frame number of 4 or more on a model with a non-empty block always
    overruns the buffer, so the source throws (`SheetOverrun`).
- These results describe the code as written. The model does not correct them.

Modelling conventions:

- JavaScript arrays with holes are `seq<Option<_>>` (see `Vox.SetAt`). An `RGBA`
  chunk leaves palette entry 0 a hole.
- A read past the end of the buffer, a `TypeError` on `undefined` and a
  RangeError from `set` are the cases of `Wrappers.Error`.
- Node's `'ascii'` decoding clears bit 7 of each byte.
- A negative depth `w` names a property, not an array element, so it never
  shows up in a ray.
- The two colour libraries are abstracted as a parameter,
  `shade: (Color, Face) -> Rgb`, that returns byte-valued channels. The
  libraries are `color`'s `darken` in the single-file copy and HSLuv in the
  split version.
- The split version carries `frame` and `palette` on each model; the model
  calls this `FramedModel`.
- `renderSpriteSheet` is the same composition with frame `i` and the file's
  palette for model `i` (see `Frames`).

## Model

| member | source | states |
|---|---|---|
| Vox.SetAt | src/magicavoxel.ts:163 | assigning index i of a JS array sets that entry, extends the array with holes when i is past the end, and leaves every other entry as it was |
| Decoder.ReadU32 | src/magicavoxel.ts:117 | `readUInt32LE` succeeds exactly when all four bytes exist, and then yields their little-endian value |
| Decoder.ReadU32Bytes | src/magicavoxel.ts:131-132 | the value read is below 2^32 and re-encodes to exactly the four bytes read |
| Decoder.LE32RoundTrip | src/magicavoxel.ts:117 | encoding a 32-bit value into four bytes and reading them back gives the value |
| Decoder.EncodeLE32RoundTrip | src/magicavoxel.ts:117 | reading four bytes and encoding the value gives the same four bytes |
| Decoder.AsciiSlice | src/magicavoxel.ts:130 | `toString('ascii', lo, hi)` has length clipped at the buffer end; character k is byte lo+k with the high bit cleared |
| Decoder.CheckHeader | src/magicavoxel.ts:114-118 | the header is accepted exactly when the first four bytes read "VOX " and the LE uint32 at byte 4 is 150; accepted data is returned unchanged; "not MagicaVoxel" is reported exactly when the tag is short or wrong; with a good tag, fewer than 8 bytes is the read error and any other version is "unsupported version" |
| Decoder.VoxelRecords | src/magicavoxel.ts:150-157 | n voxels; voxel k is the bytes x, y, z, colour index at base + 4k |
| Decoder.AddVoxels | src/magicavoxel.ts:152-157 | pushing voxels onto the current model extends the last model's voxel list only, keeping its box and all other models |
| Decoder.AddVoxelsTwice | src/magicavoxel.ts:150-158 | two batches of pushes equal one push of the concatenation |
| Decoder.RgbaPalette | src/magicavoxel.ts:160-169 | the palette after an RGBA chunk has 256 entries, a hole at 0, and entry c+1 read from offset + 12 + 4c |
| Decoder.SizeModel | src/magicavoxel.ts:136-146 | a SIZE chunk declares a model exactly when the three LE uint32 sizes at offset + 12, + 16 and + 20 can be read; the model has those sizes and no voxels; otherwise the read error |
| Decoder.KindIsChunkId | src/magicavoxel.ts:130-159 | the chunk kind is SIZE, XYZI or RGBA exactly when the ASCII id string equals that name |
| Decoder.ApplyChunk | src/magicavoxel.ts:134-171 | SIZE appends one empty model with the declared box; XYZI appends its records to the newest model only and fails before any SIZE; RGBA replaces the palette; other ids change nothing; each case fails exactly when a read passes the end |
| Decoder.Step | src/magicavoxel.ts:134 | a chunk whose content length is 0 is skipped without looking at its id or content; a chunk fails only by running out of data or with voxels before any model |
| Decoder.ChildOffset | src/magicavoxel.ts:174 | the children start strictly after the chunk's offset |
| Decoder.SiblingOffset | src/magicavoxel.ts:177 | the sibling starts no earlier than the children, hence strictly after the chunk |
| Decoder.Walk | src/magicavoxel.ts:129-181 | parseChunk from an offset: a header that does not fit in the buffer is the read error, and the whole walk fails only by running out of data or with voxels before any model |
| Decoder.StepGrows | src/magicavoxel.ts:134-171 | one chunk only appends models or grows the newest model's voxels, and keeps the palette either untouched or 256 entries with a hole at 0 |
| Decoder.WalkGrows | src/magicavoxel.ts:129-181 | a successful walk never changes an earlier model or the newest model's box, and only appends voxels |
| Decoder.Trace | src/magicavoxel.ts:173-180 | the visited chunk list starts at the given offset and every visited header lies inside the buffer, at or after that offset |
| Decoder.WalkIsSteps | src/magicavoxel.ts:129-183 | the recursive walk equals the chunk effects applied in visit order; if the visit list cannot be read, the walk fails |
| Decoder.StepsPalette | src/magicavoxel.ts:159-169 | the last visited RGBA chunk decides the palette; with none, the palette is untouched |
| Decoder.StepBoxes | src/magicavoxel.ts:135-158 | one chunk adds a model box exactly when it is a SIZE chunk with readable sizes |
| Decoder.StepsBoxes | src/magicavoxel.ts:135-158 | the model boxes after a run of chunks are the earlier boxes followed by the SIZE boxes in visit order |
| Decoder.HexChannel | src/magicavoxel.ts:188-191 | each masked and shifted channel is below 256 |
| Decoder.ChannelsRoundTrip | src/magicavoxel.ts:188-191 | the four channels reassemble the 32-bit value, so decoding loses nothing |
| Decoder.DefaultPalette | src/magicavoxel.ts:185-194 | the default palette has 256 entries, entry i decoded from the i-th 32-bit constant |
| Decoder.DefaultPaletteEnds | src/magicavoxel.ts:70-103 | entry 0 is (0,0,0,0), entry 1 opaque white, entry 255 opaque grey 0x11 |
| Decoder.Parse | src/magicavoxel.ts:183-196 | a decoded palette has 256 entries and is either the default one or has a hole at 0; parsing fails only by running out of data or with voxels before any model |
| Decoder.Decode | src/magicavoxel.ts:114-123 | a header error is passed on unchanged; otherwise the result is the parse of the data |
| Decoder.ParseFromChunks | src/magicavoxel.ts:123-197 | the decoded models' boxes are the SIZE boxes in visit order, and the palette is the last RGBA chunk's or else the default |
| Decoder.ParseIsSteps | src/magicavoxel.ts:183-196 | a successful parse is the chunk steps from offset 8 followed by the default-palette fallback |
| Decoder.StepsFromChunks | src/magicavoxel.ts:185-194 | from the empty state, the steps' boxes and palette (with fallback) are as the visited chunks dictate |
| Decoder.VoxParser.constructor | src/magicavoxel.ts:124-127 | the parser starts with no models, an empty palette and no current model |
| Decoder.VoxParser.ReadSize | src/magicavoxel.ts:135-147 | the SIZE branch updates the fields as ApplyChunk specifies, with its error, and the new model becomes current |
| Decoder.VoxParser.PushVoxel | src/magicavoxel.ts:152-157 | one push appends the voxel to the current model only |
| Decoder.VoxParser.ReadVoxels | src/magicavoxel.ts:148-158 | the XYZI loop's end state and error agree with ApplyChunk |
| Decoder.VoxParser.ReadPalette | src/magicavoxel.ts:159-169 | the RGBA loop's end state and error agree with ApplyChunk |
| Decoder.VoxParser.ReadContent | src/magicavoxel.ts:134-171 | the dispatch on the id string agrees with ApplyChunk for the chunk's kind |
| Decoder.VoxParser.ParseChunk | src/magicavoxel.ts:129-181 | the in-place recursive parse leaves exactly the state Walk specifies, and fails exactly when Walk does; the cursor is always the newest model |
| Decoder.ParseVoxData | src/magicavoxel.ts:123-197 | the in-place parser with its palette fallback returns exactly Parse |
| Triangles.Rotate | src/triangles.ts:36-48 | side 0 is the identity; the rotation is undone by Unrotate and maps the box's footprint into [0,A)×[0,B), with A and B swapped on odd sides |
| Triangles.UnrotateRoundTrip | src/triangles.ts:36-48 | Rotate undoes Unrotate, and Unrotate takes every cell of [0,A)×[0,B) back into the box; with Rotate's contract the rotation maps the box one to one onto that rectangle |
| Triangles.Footprint | src/pixels.ts:39-47 | the rotated footprint is the box's sizeX × sizeY, swapped on odd sides; its two extents add up to sizeU |
| Triangles.OffsetU | src/triangles.ts:21 | offsetU is the footprint's second extent minus 1 |
| Triangles.OffsetV | src/triangles.ts:22 | offsetV is three rows above the last grid row |
| Triangles.ProjectCorners | src/triangles.ts:21-23 | the offsets put the rotated column (0, B−1) in grid column 0, the lowest voxel of the front column in the last three rows, and the top voxel of the front column at depth 0 |
| Triangles.Project | src/triangles.ts:50-52 | u, v and w determine the voxel back: its height from (offsetV − v) − (w − offsetW) = 3z, and its rotated column from u − offsetU = vX − vY and w − offsetW + z = vX + vY |
| Triangles.Place | src/triangles.ts:54-67 | `ray[w] = t` sets entry w, extending the ray with holes past its end; a negative w leaves the ray as it was; every other entry is kept |
| Triangles.Stamp | src/triangles.ts:54-67 | depositing a voxel changes the ray of a cell only when the cell is one of its six, and then only at the voxel's depth, which receives the face for that cell and the voxel's colour |
| Triangles.RayAt | src/triangles.ts:33-68 | the ray of a cell after all deposits ends at its deepest deposit (its last entry is never a hole) and contains every depth a voxel deposits at |
| Triangles.CellFace | src/triangles.ts:54-67 | a voxel at (u,v) deposits into cell (a,b) exactly when a is u or u+1 and b is v, v+1 or v+2 |
| Triangles.Grid | src/triangles.ts:25-68 | the projection succeeds exactly when every voxel's six cells are inside the grid; the grid has sizeU columns of sizeV−1 rays |
| Triangles.ProjectInBounds | src/triangles.ts:21-67 | a voxel inside the box has all six cells in the grid, and depth 0 ≤ w ≤ sizeX+sizeY+sizeZ−3 |
| Triangles.InBoxGrid | src/triangles.ts:33-68 | the projector never fails on a model whose voxels lie inside its box |
| Triangles.SameColumnDepth | src/triangles.ts:50-52 | two voxels share (u,v) exactly when vX−vY and vX+vY+2z agree; their depths then differ by 3 per unit of z, the higher being nearer |
| Triangles.NoCollision | src/triangles.ts:50-67 | two voxels writing the same cell at the same depth are at the same position |
| Triangles.LastHit | src/triangles.ts:54-67 | the last voxel of a list that deposits at a given cell and depth, or none |
| Triangles.RayContents | src/triangles.ts:33-68 | a ray holds, at each depth, the patch of the last voxel depositing there, and is empty there when none does |
| Triangles.Deposit | src/triangles.ts:54-67 | the six assignments change exactly the six cells of the voxel, each by one placement |
| Triangles.PrepareTriangles | src/triangles.ts:20-75 | the in-place projector returns a sizeU × (sizeV−1) grid, fails exactly when Grid does, and otherwise holds exactly Grid's rays |
| Pixels.Index | src/pixels.ts:31 | the byte index of an in-range pixel channel lies within the buffer |
| Pixels.IndexInjective | src/pixels.ts:31 | distinct pixel channels have distinct byte indices |
| Pixels.IndexCover | src/pixels.ts:17-21 | every byte of the buffer is a channel of some in-range pixel |
| Pixels.DoubleHeightAt | src/pixels.ts:23-37 | a double-height write sets all four channels of (x,y) and (x,y+1) and touches no other byte |
| Pixels.ImageData.constructor | src/pixels.ts:17-21 | a fresh buffer of width·height·4 zero bytes |
| Pixels.ImageData.PutDoubleHeightPixel | src/pixels.ts:23-37 | the in-place write produces DoubleHeight of the old bytes |
| Pixels.ImageData.PutPixel | src/pixels.ts:31-36 | the four channel writes at idx, ignoring writes past the end as a typed array does |
| Pixels.RightSide | src/pixels.ts:39-47 | rightSide is the first extent of the rotated footprint |
| Pixels.LeftSide | src/pixels.ts:39-47 | leftSide is the second extent of the rotated footprint |
| Pixels.StartV | src/pixels.ts:50 | the window never starts above row 0 |
| Pixels.EndV | src/pixels.ts:51 | the window ends at or before row sizeV−1 |
| Pixels.WindowInGrid | src/pixels.ts:49-73 | every window cell lies inside the grid, both rows of its double-height pixel lie inside the image, and x = 2u + toggle < 2·sizeU |
| Pixels.WindowCoversDeposits | src/pixels.ts:49-53 | every cell an in-box voxel deposits into lies in the window, so the window skips only empty rays |
| Pixels.Toggle | src/pixels.ts:72 | the toggle is a bit |
| Pixels.ToggleFlips | src/pixels.ts:72 | the toggle flips between rows v and v+1 |
| Pixels.PixelSource | src/pixels.ts:72-73 | cell (u,v) writes pixel (x,y) exactly when (x,y)'s source cell is (u,v) |
| Pixels.NoSharedPixel | src/pixels.ts:72-73 | no two distinct cells write the same pixel |
| Pixels.FirstDepth | src/pixels.ts:54-56 | the smallest depth holding a patch, or none when the ray is empty |
| Pixels.Populated | src/pixels.ts:54 | `filter(Boolean)` keeps at most the ray's length, only patches that are in the ray, and every patch of the ray |
| Pixels.PopulatedHead | src/pixels.ts:54-56 | the filtered ray is non-empty exactly when the ray holds a patch, and its head is the patch at the smallest depth |
| Pixels.NearestPatch | src/pixels.ts:54-56 | the chosen patch is that of a voxel at the smallest depth any voxel hits the cell, the last such one deposited; the ray is empty exactly when no voxel hits the cell |
| Pixels.Shaded | src/pixels.ts:57-70 | the written alpha is the palette entry's alpha, unchanged |
| Pixels.CellColor | src/pixels.ts:54-70 | an empty ray shows nothing; a missing palette entry is the TypeError; otherwise the shaded palette colour of the nearest patch |
| Pixels.Image | src/pixels.ts:11-79 | the image fails exactly when some window cell has a missing palette entry, and otherwise has 2·sizeU·sizeV·4 bytes |
| Pixels.ImageAt | src/pixels.ts:11-79 | every channel of every pixel is that of the colour its source cell shows, or 0 when that cell is outside the window or empty |
| Pixels.DrawCell | src/pixels.ts:54-74 | one inner-loop pass succeeds exactly when the cell's palette lookup does, and then draws that cell's pixel |
| Pixels.DrawColumn | src/pixels.ts:50-75 | one column pass extends the drawn prefix by the column, or fails only when the image is not renderable |
| Pixels.PreparePixels | src/pixels.ts:11-79 | the in-place placer returns a 2·sizeU × sizeV buffer, fails exactly when Image does, and otherwise holds exactly Image's bytes |
| SpriteSheet.MaxOf | src/spritesheet.ts:27-28 | Math.max of a non-empty list bounds every element and is one of them |
| SpriteSheet.MaxSizeU | src/spritesheet.ts:27 | the widest model's sizeU, bounding all others |
| SpriteSheet.MaxSizeV | src/spritesheet.ts:28 | the tallest model's sizeV, bounding all others |
| SpriteSheet.SheetWidth | src/spritesheet.ts:27 | every model's block row (2·sizeU pixels) fits in the width of one side block |
| SpriteSheet.SheetHeight | src/spritesheet.ts:28 | the sheet height is at least every model's sizeV |
| SpriteSheet.RowBytes | src/spritesheet.ts:16 | a block row, `chunk.width * 4` bytes, is 8 bytes per grid column |
| SpriteSheet.Lines | src/spritesheet.ts:16 | the copy loop visits at most the block's sizeV rows, and none exactly when the block is empty |
| SpriteSheet.RowOffset | src/spritesheet.ts:19-21 | the offset as written is always a whole number of W-byte sheet quarter-rows: side + 4·line + frame·H of them |
| SpriteSheet.SetBytes | src/spritesheet.ts:17-22 | `set` succeeds exactly when the source fits at the offset; it then overwrites exactly those bytes; otherwise the RangeError |
| SpriteSheet.Chunk | src/spritesheet.ts:14 | a rendered block has 2·sizeU·sizeV·4 bytes |
| SpriteSheet.RowOf | src/spritesheet.ts:18 | the subarray of a block row is the row's chunk.width·4 bytes, in order |
| SpriteSheet.Paste | src/spritesheet.ts:16-23 | the row copies keep the sheet's length and fail only with the RangeError |
| SpriteSheet.RenderChunk | src/spritesheet.ts:13-24 | renderChunk keeps the sheet's length, and succeeds only when its block was drawn |
| SpriteSheet.RenderSides | src/spritesheet.ts:40-42 | the sides loop keeps the sheet's length |
| SpriteSheet.RenderModels | src/spritesheet.ts:39-43 | the models loop keeps the sheet's length |
| SpriteSheet.Blocks | src/spritesheet.ts:40-42 | the four blocks of a model, East, South, West, North |
| SpriteSheet.Sheet | src/spritesheet.ts:26-46 | the composed sheet has W·H·4 bytes |
| SpriteSheet.Zeros | src/spritesheet.ts:34 | a fresh typed array: n zero bytes |
| SpriteSheet.SetInto | src/spritesheet.ts:17-22 | the in-place `set` fails exactly when SetBytes does, and otherwise leaves SetBytes's bytes |
| SpriteSheet.RenderChunkInto | src/spritesheet.ts:13-24 | renderChunk projects, draws and copies the block, ending as RenderChunk specifies and failing exactly when it does |
| SpriteSheet.CopyRows | src/spritesheet.ts:16-23 | the pos/line loop performs exactly the row copies of Paste, failing exactly when one does not fit |
| SpriteSheet.CreateSpriteSheet | src/spritesheet.ts:26-46 | the sheet is 8·max sizeU by n·max sizeV, frameCount is the number of models, and the bytes are exactly Sheet's, failing exactly when Sheet does |
| SpriteSheet.RenderAll | src/spritesheet.ts:39-43 | the models loop renders every model in order, as RenderModels specifies |
| SpriteSheet.RenderModelInto | src/spritesheet.ts:40-42 | one model is rendered for sides 0, 1, 2, 3 in that order, as RenderSides specifies |
| SpriteSheet.Frames | src/magicavoxel.ts:336-339 | model i of the file is frame i, with the file's palette |
| SpriteSheet.RenderSpriteSheet | src/magicavoxel.ts:321-356 | the single-file composer is the same composition over Frames, with frameCount the number of models |
| SpriteSheet.OffsetIsSlot | src/spritesheet.ts:19-21 | the offset as written is slot side + 4·(line + frame·maxV) of width W exactly when the frame is 0 or there are four models |
| SpriteSheet.SlotsDistinct | src/spritesheet.ts:19-21 | distinct (side, line, frame) with side < 4 and line < maxV have distinct slots |
| SpriteSheet.SlotsApart | src/spritesheet.ts:19 | a row of at most W bytes ends before the next slot starts, so side blocks in one sheet row do not overlap |
| SpriteSheet.SlotInSheet | src/spritesheet.ts:27-34 | every slot of frames 0..n−1 lies in the W·H·4 byte buffer |
| SpriteSheet.TwoFramesOverlap | src/spritesheet.ts:19-21 | with two models and maxV even, frame 1's row l is written at frame 0's row l + maxV/2 |
| SpriteSheet.PasteOk | src/spritesheet.ts:16-23 | the row copies succeed exactly when every row fits in the sheet |
| SpriteSheet.ChunkOk | src/spritesheet.ts:13-24 | renderChunk succeeds exactly when the block was drawn and all its rows fit |
| SpriteSheet.SidesOk | src/spritesheet.ts:40-42 | the sides loop succeeds exactly when each side is drawn and fits |
| SpriteSheet.ModelsOk | src/spritesheet.ts:39-43 | the models loop succeeds exactly when every side of every model is drawn and fits |
| SpriteSheet.SheetOk | src/spritesheet.ts:26-46 | createSpriteSheet succeeds exactly when every side of every model renders and every row copy fits |
| SpriteSheet.SheetOverrun | src/spritesheet.ts:21 | a model with frame ≥ 4 and a non-empty block always makes the composer throw |
| SpriteSheet.FirstRowOverruns | src/spritesheet.ts:19-21 | with frame ≥ 4, the first row of side 0 already ends past W·H·4 bytes |
| SpriteSheet.PasteKeeps | src/spritesheet.ts:16-23 | a byte outside every copied row is unchanged |
| SpriteSheet.ChunkKeeps | src/spritesheet.ts:13-24 | renderChunk leaves a byte outside its rows unchanged |
| SpriteSheet.SidesKeeps | src/spritesheet.ts:40-42 | the sides loop leaves a byte outside all its rows unchanged |
| SpriteSheet.ModelsKeeps | src/spritesheet.ts:39-43 | the models loop leaves a byte outside all rows unchanged |
| SpriteSheet.SheetBlank | src/spritesheet.ts:34 | a byte of the sheet that no row copy reaches stays 0, i.e. transparent |
| SpriteSheet.PasteWrites | src/spritesheet.ts:16-23 | byte k of a copied row sits at its offset + k, unless a later row of the block overwrote it |
| SpriteSheet.ChunkWrites | src/spritesheet.ts:13-24 | byte k of row `line` of the block is at its offset + k when no other row of the model reaches it |
| SpriteSheet.SidesWrites | src/spritesheet.ts:40-42 | the same after all sides of a model |
| SpriteSheet.ModelsWrites | src/spritesheet.ts:39-43 | the same after all models, when no other copy of any model reaches it |
| SpriteSheet.StackedOffset | src/spritesheet.ts:19-28 | with one model or four numbered by position, row `line` of side `side` of model i is slot side + 4·(line + i·maxV) and fits in the sheet |
| SpriteSheet.StackedApart | src/spritesheet.ts:19-21 | under that layout a byte of one row copy lies in no other copy |
| SpriteSheet.StackedAlone | src/spritesheet.ts:19-21 | under that layout every byte of a row copy is reached by that copy only |
| SpriteSheet.StackedSheetOk | src/spritesheet.ts:16-28 | under that layout the composer fails only when some side cannot be drawn |
| SpriteSheet.StackedBlocksContents | src/spritesheet.ts:39-43 | under that layout every byte of every block row ends up at its offset in the sheet |
| SpriteSheet.StackedSheetContents | src/spritesheet.ts:13-46 | under that layout sheet byte side·W + (line + i·maxV)·4W + k is byte k of row `line` of model i's side block |

## Left out

- File and PNG/JSON I/O are not modelled:
  - `readFileSync` in `readVoxFile`; only its header check is modelled;
  - `writePngFile` and `writeJsonFile`;
  - the top-level `vox2sprite` functions;
  - the command line in `src/vox2sprite.ts`.
- The colour libraries (`color`'s `darken`, HSLuv with `Math.round`) are floating-point foreign code. They are the `shade` parameter, whose outputs are already bytes, which also stands for `Uint8ClampedArray`'s clamping.
- `test/magicavoxel.test.js` compares PNG files on disk end to end. There is nothing in it to model.
- SpriteSheet.CreateSpriteSheet and SpriteSheet.RenderSpriteSheet require at least one model. With none, the source computes `Math.max()` = −Infinity and builds a sheet of non-numeric size.
- SpriteSheet.StackedSheetContents covers only one model, or four numbered 0–3. For other counts the copies of different frames overlap or overrun. TwoFramesOverlap and SheetOverrun show this, and ModelsWrites gives the contents of a byte under the weaker "reached by one copy only" hypothesis.
- The split variant's models arrive with `frame` and `palette` already set by a caller that is not part of this model. `FramedModel` carries them as given.
- Decoder.VoxParser.ParseChunk models neither the recursion depth limit of the JavaScript engine nor a stack overflow on deeply nested chunks.
- Numbers are unbounded integers. JavaScript doubles lose precision past 2^53, engines refuse very large typed arrays, and `new Array(model.sizeU)` and `new Array(model.sizeV - 1)` in the grid allocation throw a RangeError at lengths of 2^32 or more; none of this is modelled (Triangles.Grid and Triangles.PrepareTriangles allocate any size).
- Triangles.Grid reports the first out-of-grid voxel as an error. The source throws a TypeError there after having written the earlier voxels. That partial grid is discarded and never observed.
