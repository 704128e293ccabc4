/** A value that may be absent: an invalid future, an empty cache, a name that is not found. */
module Options {
  datatype Option<+T> = None | Some(value: T) {
    function GetOr(default: T): T {
      if this.Some? then value else default
    }
  }
}
