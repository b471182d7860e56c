/** Small value types shared by the quest and journal stores. */
module Basics {

  /** An optional value: a nullable column, or a field the client may omit. */
  datatype Option<T> = None | Some(value: T)

  /** One field of a PATCH payload: left out by the client, or set to a value. */
  datatype Patch<T> = Unset | Set(value: T)

  /** What a handler answers: a value, or the single error kind "not found"
      with the detail text the handler raises. */
  datatype Reply<T> = Ok(value: T) | NotFound(detail: string)

  /** Field merge of a partial update: a set field overwrites, an unset one keeps. */
  function Merge<T>(p: Patch<T>, current: T): T
  {
    match p
    case Unset => current
    case Set(v) => v
  }
}
