/** Optional values: the model's rendering of Swift's `T?`. */
module Options {

  datatype Option<+T> = None | Some(value: T) {

    /** The value if present, else `default` (Swift's `??`). */
    function GetOr(default: T): T {
      match this
      case Some(v) => v
      case None => default
    }
  }

  /** Negates a present offset; right and bottom offsets are stored this way so they point inward. */
  function Inward(o: Option<real>): (r: Option<real>)
    ensures r.Some? <==> o.Some?
    ensures r.Some? ==> r.value + o.value == 0.0
  {
    match o
    case Some(v) => Some(-v)
    case None => None
  }
}
