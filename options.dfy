/** The optional value used for absent request fields, nullable state and optional form keys. */
module Options {
  datatype Option<T> = None | Some(value: T) {
    /** The value if there is one, otherwise the default (PHP's and JavaScript's `??`). */
    function GetOr(default: T): T {
      if Some? then value else default
    }
  }
}
