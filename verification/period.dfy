/** The recurrence window of a budget. */
module Periods {

  datatype Period = Week | Month

  /** The name shown to the user. */
  function DisplayName(p: Period): (s: string)
    ensures |s| > 0
  {
    match p
    case Week => "Week"
    case Month => "Month"
  }

  /** The length of the window in days; always positive. */
  function Days(p: Period): (d: int)
    ensures d > 0
  {
    match p
    case Week => 7
    case Month => 30
  }
}
