/** The optional value used wherever the source works with `null` or `undefined`. */
module Wrappers {

  datatype Option<+T> = None | Some(value: T) {

    /** The value if there is one, otherwise `default`. */
    function GetOr(default: T): T {
      if Some? then value else default
    }
  }

  /** The set holding the value of `o`, or the empty set. */
  function Elements<T>(o: Option<T>): (s: set<T>)
    ensures o.None? <==> s == {}
    ensures o.Some? ==> s == {o.value}
  {
    if o.Some? then {o.value} else {}
  }
}
