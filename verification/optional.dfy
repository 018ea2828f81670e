/** Optional values and the JavaScript truthiness test the handlers apply to request fields. */
module Optional {

  /** A JSON body field that may be absent (`undefined`) or present. */
  datatype Option<+T> = None | Some(value: T)

  /** `!!field` for a string field: absent and the empty string are falsy, every other string is truthy. */
  predicate Truthy(field: Option<string>)
  {
    field.Some? && field.value != ""
  }

  /** `a || b` on string values: the first operand when it is truthy, else the second. */
  function OrElse(field: Option<string>, fallback: string): (r: string)
    ensures Truthy(field) ==> r == field.value
    ensures !Truthy(field) ==> r == fallback
    ensures fallback != "" ==> r != ""
  {
    if Truthy(field) then field.value else fallback
  }
}
