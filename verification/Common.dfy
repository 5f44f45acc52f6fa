/** Types shared by every part of the model. */
module Common {
  newtype byte = x: int | 0 <= x < 256

  type Bytes = seq<byte>

  datatype Option<+T> = None | Some(value: T)

  /** The status codes of src/common/yappo_types_v2.h that the modelled operations can return. */
  datatype Status =
    | InvalidArgument
    | InvalidFormat
    | OutOfRange
    | Conflict
    | Duplicate
    | CapacityExceeded

  datatype Result<+T> = Ok(value: T) | Err(error: Status)
}
