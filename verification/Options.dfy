/** A value that may be missing: Go's nil pointer, `ok` flag or error return. */
module Options {
  datatype Option<+T> = None | Some(value: T) {
    function GetOr(default: T): T { if Some? then value else default }
  }
}
