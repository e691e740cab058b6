/** Status conditions of API objects; timestamps are left out. */
module Conditions {
  import opened Wrappers

  datatype CondStatus = Unset | Yes | No | Unknown

  datatype Condition = Condition(status: CondStatus, message: string, reason: string)

  const ABSENT := Condition(Unset, "", "")

  function SetTrue(c: Condition): Condition {
    c.(status := Yes)
  }

  /** Records an error in a condition, or success when there is none. */
  function SetError(err: Option<string>): Condition {
    match err
    case None => Condition(Yes, "", "")
    case Some(message) => Condition(No, message, "Error")
  }
}
