/** A value that may be absent: a JavaScript `null` handle, a missing
    storage record, a failed request. */
module Optional {

  datatype Option<+T> = None | Some(value: T)

  /** The handles an optional timer or stream handle holds: none or one. */
  function HandleSet(h: Option<nat>): set<nat> {
    if h.Some? then {h.value} else {}
  }
}
