/**
 * The domain-level sentinel errors shared by every tool, and the two small
 * wrappers the model uses for Go's `(value, error)` returns and for Go's
 * nil-able pointers.
 */
module Domain {

  /** One constructor per sentinel error value of the domain package. */
  datatype Error =
    | InvalidPath         // the provided file path is invalid
    | PathTraversal       // a path traversal attempt was detected
    | FileNotFound        // the requested file does not exist
    | WriteFailed         // a file write operation failed
    | DirCreateFailed     // directory creation failed
    | InvalidJSON         // the content is not valid JSON
    | ReadFailed          // a file read operation failed
    | NotAnArray          // the target path does not hold a JSON array
    | ArrayPathNotFound   // the array path does not exist in the JSON
    | InvalidFilter       // a filter configuration is invalid (declared, never returned)

  /** A Go `(T, error)` pair where exactly one side is meaningful. */
  datatype Result<T> = Ok(value: T) | Err(error: Error)

  /** A Go pointer or nil-able reference: `None` stands for nil. */
  datatype Option<T> = None | Some(value: T)
}
