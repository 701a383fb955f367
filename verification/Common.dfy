// Datatypes shared by every part of the model.
module Common {

  datatype Option<+T> = None | Some(value: T)

  datatype Result<+T, +E> = Ok(value: T) | Err(error: E)

  type byte = b: int | 0 <= b < 256
  type Bytes = seq<byte>
}
