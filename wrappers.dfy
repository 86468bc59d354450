/** Optional values and error results, used wherever the Go code returns `(T, error)`,
    a nil pointer, or terminates the process. */
module Wrappers {

  datatype Option<+T> = None | Some(value: T)

  datatype Result<+T> = Ok(value: T) | Err(error: string)

  /** What a handler step does to the process: it carries on, or the Go code ends the
      process (`log.Fatal`, `zap Fatal`, or a runtime panic such as a nil dereference). */
  datatype Outcome = Continue | Crash(reason: string)
}
