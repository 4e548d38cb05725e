/** Optional values: the model's stand-in for a Java or Lua value that may be null or nil. */
module Optional {

  datatype Option<+T> = None | Some(value: T)

  /** The value, or `default` when there is none. */
  function GetOr<T>(o: Option<T>, default: T): T
  {
    if o.Some? then o.value else default
  }
}
