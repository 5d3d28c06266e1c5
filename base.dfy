/** Values shared by every component: optional values and the visible/hidden flag. */
module Base {

  datatype Option<T> = None | Some(value: T)

  /** The `status` flag that every catalogue entry carries. */
  datatype Visibility = Visible | Hidden

  /** The status toggle used by every admin list: visible becomes hidden and back. */
  function Toggled(v: Visibility): (r: Visibility)
    ensures r != v
  {
    if v == Visible then Hidden else Visible
  }

  /** JavaScript truthiness of an optional number: `undefined` and `0` are falsy. */
  predicate TruthyNumber(o: Option<int>)
  {
    o.Some? && o.value != 0
  }

  /** JavaScript truthiness of an optional string: `undefined` and `''` are falsy. */
  predicate TruthyString(o: Option<string>)
  {
    o.Some? && o.value != ""
  }
}
