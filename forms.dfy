/** What a server action sees of a submitted form, and what it hands back. */
module Forms {
  import opened Wrappers

  /** One form field as `formData.get` returns it, after zod's coercion: absent
      (null), a value of the expected kind, or one that does not coerce (text that is
      not a number or a date, a file where text is expected). */
  datatype Field<T> = Missing | Given(value: T) | Malformed

  /** `z.coerce.number()`: `Number(null)` is 0, and what is not a number is NaN (None).
      NaN fails every comparison, so every bound below rejects it. */
  function CoerceNumber(f: Field<real>): Option<real>
  {
    match f
    case Missing => Some(0.0)
    case Given(x) => Some(x)
    case Malformed => None
  }

  /** `z.coerce.date()`: `new Date(null)` is the epoch, an unparsable value an
      Invalid Date (None), which zod rejects. */
  function CoerceDate(f: Field<int>): Option<int>
  {
    match f
    case Missing => Some(0)
    case Given(t) => Some(t)
    case Malformed => None
  }

  /** `z.string()`: null and non-text values are rejected, any text is accepted. */
  function AsString(f: Field<string>): Option<string>
  {
    match f
    case Given(s) => Some(s)
    case _ => None
  }

  /** `.gt(bound)` after coercion: a number strictly above the bound. */
  predicate NumberAbove(f: Field<real>, bound: real)
  {
    var n := CoerceNumber(f);
    n.Some? && n.value > bound
  }

  /** What a server action ends with: the redirect it performs on success, or the
      State object it returns — field errors with a message, or a message alone. */
  datatype ActionState =
    | Redirect(path: string)
    | FieldErrors(fields: seq<string>, message: string)
    | Message(message: string)
}
