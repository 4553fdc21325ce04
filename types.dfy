/** Values shared by every part of the model: the library's error type, a
    stored profile, and the two wrappers the Rust code returns. */
module Types {

  datatype Option<+T> = None | Some(value: T)

  /** `GitError`. The `io::Error` that `IoError` wraps is reduced to the fact
      that an I/O operation failed. */
  datatype GitError =
    | CommandFailed(message: string)
    | NotFound
    | IoError

  /** `Result<T, GitError>`. */
  datatype Result<+T> = Ok(value: T) | Err(error: GitError)

  /** `GitProfile`: the identity stored under one profile name. */
  datatype Profile = Profile(name: string, email: string)
}
