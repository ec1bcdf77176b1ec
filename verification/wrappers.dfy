/** The optional value used for nullable GPU handles. */
module Wrappers {

  datatype Option<+T> = None | Some(value: T)

  /** The set of values an option holds: empty for `None`. */
  function Elems<T>(o: Option<T>): (s: set<T>)
    ensures o.None? <==> s == {}
    ensures o.Some? ==> s == {o.value}
  {
    if o.Some? then {o.value} else {}
  }
}
