/** Small shared vocabulary: optional values and the error-or-success
    outcome of a Go call that returns `error`. */
module Base {

  /** Go's nil-able result, as an explicit option. */
  datatype Option<T> = None | Some(value: T)

  /** The text of a Go `error`; the errors the model deals with
      (`exec.Cmd.Start`, `os.Process.Kill`) always carry a message. */
  type Reason = s: string | s != "" witness "error"

  /** A call returning `error`: nil (`Ok`) or a non-nil error. */
  datatype Outcome = Ok | Err(reason: Reason)
}
