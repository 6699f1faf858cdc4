/** Failure-compatible result types shared by the decoder and the renderer. */
module Wrappers {

  datatype Option<+T> = None | Some(value: T)

  /** What the source reports by throwing. Every error aborts the conversion. */
  datatype Error =
    | ReadPastEnd          // Buffer.readUInt8 / readUInt32LE beyond the end (RangeError)
    | NotMagicaVoxel       // magic tag is not "VOX "
    | UnsupportedVersion   // version is not 150
    | NoCurrentModel       // XYZI voxels pushed before any SIZE chunk (TypeError)
    | OutsideGrid          // a voxel whose cells fall outside the triangle grid (TypeError)
    | MissingColor         // a visible patch whose palette entry is undefined (TypeError)
    | CopyOutOfRange       // Uint8ClampedArray.set past the end of the sheet (RangeError)

  /** The outcome of a step that changes state in place: it either completes or throws. */
  datatype Outcome = Pass | Fail(error: Error)

  datatype Result<+R> = Ok(value: R) | Err(error: Error) {
    predicate IsFailure() { Err? }

    function PropagateFailure<U>(): Result<U>
      requires Err?
    {
      Err(error)
    }

    function Extract(): R
      requires Ok?
    {
      value
    }
  }
}
