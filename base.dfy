/** Small value wrappers shared by every module of the model. */
module Base {

  /** A value that may be missing: a JavaScript `null`/`undefined`, an absent store key, NaN. */
  datatype Option<+T> = None | Some(value: T) {
    function GetOr(default: T): T {
      match this
      case Some(v) => v
      case None => default
    }
  }

  /** One field of an object spread `{ ...old, ...patch }`: the patch either leaves the
      field alone or supplies a new value for it. */
  datatype Field<+T> = Keep | Put(value: T) {
    function Over(previous: T): T {
      match this
      case Keep => previous
      case Put(v) => v
    }
  }

  function Max(a: int, b: int): int {
    if a < b then b else a
  }
}
