/** Optional values, and the three states a property of a JavaScript object literal can be in. */
module Optional {

  /** A value that may be missing. */
  datatype Option<+T> = None | Some(value: T)

  /** A property of an object: not an own key at all (`Absent`), an own key holding `undefined`
      (`Undefined`), or an own key holding a value. The object spread `{...a, ...b}` copies every
      own key of `b`, including those whose value is `undefined`. */
  datatype Slot<+T> = Absent | Undefined | Present(value: T) {

    /** The value read through the property: `undefined` for both missing and undefined keys. */
    function Read(): (r: Option<T>)
      ensures r.Some? <==> Present?
      ensures r.Some? ==> r.value == value
    {
      if Present? then Some(value) else None
    }
  }

  /** `{...{k: base}, ...{k: patch}}` for a single key: an own key of the right-hand side wins. */
  function Spread<T>(base: Slot<T>, patch: Slot<T>): (r: Slot<T>)
    ensures patch.Absent? ==> r == base
    ensures !patch.Absent? ==> r == patch
  {
    if patch.Absent? then base else patch
  }
}
