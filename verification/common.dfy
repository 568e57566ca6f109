/** Shared vocabulary of the notification pipeline: optional document fields,
    the JavaScript coercions the handlers apply to them, and the opaque server
    timestamp the store substitutes on write. */
module Common {

  /** A document field that may be absent (`undefined` in the source). */
  datatype Option<+T> = None | Some(value: T) {

    /** The field, or `default` when it is absent. */
    function GetOr(default: T): T {
      match this
      case Some(v) => v
      case None => default
    }
  }

  /** The placeholder the store replaces by its own clock on write
      (`FieldValue.serverTimestamp()`); its value is never observed here. */
  datatype Timestamp = ServerTimestamp

  /** JavaScript truthiness of a string field: present and not empty. */
  predicate Truthy(field: Option<string>) {
    field.Some? && field.value != ""
  }

  /** `field || fallback` on a string field: an empty string falls back too. */
  function OrElse(field: Option<string>, fallback: string): (r: string)
    ensures Truthy(field) ==> r == field.value
    ensures !Truthy(field) ==> r == fallback
  {
    if Truthy(field) then field.value else fallback
  }

  /** Template interpolation `${field}`: an absent field renders as "undefined". */
  function Show(field: Option<string>): (r: string)
    ensures field.Some? ==> r == field.value
    ensures field.None? ==> r == "undefined"
  {
    match field
    case Some(s) => s
    case None => "undefined"
  }
}
