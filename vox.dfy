/** The entities shared by all pipeline stages: voxels, models, colours, patches. */
module Vox {
  import opened Wrappers

  type byte = x: int | 0 <= x < 256

  /** One voxel record of an XYZI chunk: unsigned bytes x, y, z, colour index. */
  datatype Voxel = Voxel(x: byte, y: byte, z: byte, colorIndex: byte)

  /**
   * A decoded model: the box declared by a SIZE chunk (unsigned 32-bit values)
   * and the voxels of the XYZI chunks that followed it.
   */
  datatype Model = Model(sizeX: nat, sizeY: nat, sizeZ: nat, voxels: seq<Voxel>) {
    /** Lattice width: one column per unit of x - y. */
    function SizeU(): nat { sizeX + sizeY }

    /** Lattice height in rows of the rendered block. */
    function SizeV(): nat { sizeX + sizeY + 2 * sizeZ }

    /** Every voxel lies inside the declared box (the source assumes, never checks, this). */
    predicate InBox() {
      forall i | 0 <= i < |voxels| ::
        voxels[i].x < sizeX && voxels[i].y < sizeY && voxels[i].z < sizeZ
    }
  }

  datatype Color = Color(r: byte, g: byte, b: byte, a: byte)

  /**
   * A palette as the source's JavaScript array: an entry that was never
   * assigned (index 0 after an RGBA chunk) is a hole, here None.
   */
  type Palette = seq<Option<Color>>

  datatype VoxData = VoxData(models: seq<Model>, palette: Palette)

  /** East = 0, South = 1, West = 2, North = 3. */
  type Side = s: nat | s < 4

  const East: Side := 0
  const South: Side := 1
  const West: Side := 2
  const North: Side := 3

  /** The face a surface patch belongs to; Ord() is its enum value (the darkening step is Ord()/3). */
  datatype Face = Top | Right | Left {
    function Ord(): nat { match this case Top => 0 case Right => 1 case Left => 2 }
  }

  /** A surface patch, called a triangle in the source. */
  datatype Triangle = Triangle(face: Face, colorIndex: byte)

  /** The shaded colour of a face, as the foreign colour library returns it after clamping. */
  datatype Rgb = Rgb(r: byte, g: byte, b: byte)

  /** `a[i] = x` on a JavaScript array: writing past the end first extends it with holes. */
  function SetAt<T>(a: seq<Option<T>>, i: nat, x: T): (r: seq<Option<T>>)
    ensures |r| == if i < |a| then |a| else i + 1
    ensures r[i] == Some(x)
    ensures forall k | 0 <= k < |r| && k != i :: r[k] == if k < |a| then a[k] else None
  {
    if i < |a| then a[i := Some(x)] else a + seq(i - |a|, _ => None) + [Some(x)]
  }
}
