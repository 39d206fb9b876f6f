/**
 * What the two forms share: the notifications they raise and the way they
 * turn the date input's text into the `dueDate` argument and back. Parsing
 * and formatting dates are library calls, so they are parameters here.
 */
module Forms {
  import opened Base

  /** A notification: `toast(message)` or `toast.error(message)`. */
  datatype Toast = Info(message: string) | ErrorToast(message: string)

  /** `field ? parse(field) : undefined`: an empty date input sends no due date. */
  function DueDateArg(field: string, parse: string -> int): (d: Option<int>)
    ensures d.None? <==> field == ""
    ensures d.Some? ==> d.value == parse(field)
  {
    if field == "" then None else Some(parse(field))
  }

  /** `dueDate ? format(dueDate) : ""`: a missing or zero due date shows an empty date input. */
  function DueDateField(dueDate: Option<int>, format: int -> string): (field: string)
    ensures dueDate.None? || dueDate.value == 0 ==> field == ""
    ensures dueDate.Some? && dueDate.value != 0 ==> field == format(dueDate.value)
  {
    if dueDate.Some? && dueDate.value != 0 then format(dueDate.value) else ""
  }
}
