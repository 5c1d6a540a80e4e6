/**
 * Shared vocabulary of the generator model: optional values, results with
 * the closed error taxonomy that replaces the program's boxed errors, file
 * system paths and the 32-bit unsigned integers the program counts with.
 */
module Common {

  /** A path as its sequence of components; `Path::join` is concatenation. */
  type Path = seq<string>

  /** Rust's `u32`. */
  type U32 = n: nat | n < 0x1_0000_0000

  datatype Option<+T> = None | Some(value: T)

  /** The failure kinds a run can end with. */
  datatype Error =
    | InvalidArgument(kind: string, token: string)         // unknown shard, size or flavour token
    | IncompatibleConfiguration(shard: string, flavor: string)  // flavour allows only the single shard
    | PathConflict(path: Path)                             // the target already exists
    | IoFailure(path: Path)                                // a directory could not be created
    | NotSupported(operation: string)                      // an operation the flavour does not define

  datatype Result<+T> = Ok(value: T) | Err(error: Error) {

    predicate IsFailure() {
      Err?
    }

    function PropagateFailure<U>(): Result<U>
      requires Err?
    {
      Err(error)
    }

    function Extract(): T
      requires Ok?
    {
      value
    }
  }
}
