/** Vocabulary shared by every component. */
module Prelude {

  /** A row identifier. Only equality and the total order on identifiers matter. */
  type Uuid = nat

  /** An instant on the one clock the model uses, in seconds. */
  type Time = int

  datatype Option<+T> = None | Some(value: T)

  /** SQL's coalesce(value, default) on a nullable column. */
  function Coalesce<T>(value: Option<T>, default: T): T {
    match value
    case Some(v) => v
    case None => default
  }
}
