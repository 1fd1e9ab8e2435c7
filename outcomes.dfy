/** Option and Result values standing for Python's `None` and its exceptions. */
module Outcomes {

  datatype Option<+T> = None | Some(value: T)

  datatype Result<+T, +E> = Ok(value: T) | Err(error: E)

  /** The `errno` values the filesystem operations of the model can fail with. */
  datatype Errno =
    | ENOENT   // no such file or directory
    | ENOTDIR  // a path component is not a directory
    | EEXIST   // the path already exists
    | EISDIR   // the path is a directory
    | ELOOP    // too many levels of symbolic links

  /** The exceptions that can leave the merge engine. */
  datatype Error =
    | OSError(errno: Errno)
    | ValueError(message: string)
    | EnvironmentException(message: string)
    | CalledProcessError(returncode: int)
    | RuntimeError(message: string)
}
