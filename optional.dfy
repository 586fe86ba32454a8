/** An optional value, for a lookup that may find nothing. */
module Optional {

  datatype Option<T> = None | Some(value: T)
  {
    /** The value if there is one, otherwise `default`. */
    function GetOr(default: T): T
    {
      if Some? then value else default
    }
  }
}
