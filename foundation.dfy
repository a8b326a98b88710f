/**
 * Value types the app takes from the platform: bytes and `Data`, `UUID`,
 * Swift's `Optional`, a thrown error as a `Result`, and the
 * `(Data?, Error?)` pair an item provider's completion handler receives.
 */
module Foundation {

  newtype byte = x: int | 0 <= x < 256

  /** A `Data` payload: a sequence of bytes. */
  type Data = seq<byte>

  /** A `UUID` is sixteen bytes. */
  type Uuid = s: seq<byte> | |s| == 16
    witness [0, 0, 0, 0, 0, 0, 0, 0, 0, 0, 0, 0, 0, 0, 0, 0]

  /** Swift's `Optional`. */
  datatype Option<+T> = None | Some(value: T)

  /** The outcome of a Swift function that `throws`: its value or the error thrown. */
  datatype Result<+T, +E> = Success(value: T) | Failure(error: E)

  /** The two arguments an item provider's completion handler is called with. */
  datatype Completion<+E> = Completion(data: Option<Data>, error: Option<E>)
}
