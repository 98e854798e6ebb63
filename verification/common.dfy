/** Values shared by the renderer and main-process models. */
module Common {

  /** A value that may be absent: a JavaScript `null`/`undefined` reference or store entry. */
  datatype Option<+T> = None | Some(value: T)

  /** The `type` field of a `status-update` message. */
  datatype StatusKind = Info | Error

  /** The `{ message, isStreaming, type }` object carried by `status-update`. */
  datatype Status = Status(message: string, isStreaming: bool, kind: StatusKind)
}
