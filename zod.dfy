/** The few zod rules the booking forms are built from. A rule gives the
    message of its first failure, or `None` when the value passes. */
module Zod {
  import opened Common

  /** What zod reports when a number input is empty: `valueAsNumber` gives
      NaN, which `z.number()` refuses before any bound is looked at. */
  const NotANumberMessage := "Expected number, received nan"

  /** `z.string().min(n, message)`. */
  function StringMin(s: string, n: nat, message: string): (e: Option<string>)
    ensures e.None? <==> |s| >= n
    ensures e.Some? ==> e.value == message
  {
    if |s| < n then Some(message) else None
  }

  /** `z.string().email(message)`; `validEmail` stands for zod's address pattern. */
  function Email(s: string, validEmail: string -> bool, message: string): (e: Option<string>)
    ensures e.None? <==> validEmail(s)
    ensures e.Some? ==> e.value == message
  {
    if validEmail(s) then None else Some(message)
  }

  /** `z.number().min(lo, minMessage).max(hi, maxMessage)` on a number input;
      `None` is the NaN of an empty input. */
  function NumberRange(x: Option<int>, lo: int, hi: int, minMessage: string, maxMessage: string): (e: Option<string>)
    requires lo <= hi
    ensures e.None? <==> x.Some? && lo <= x.value <= hi
    ensures x.None? ==> e == Some(NotANumberMessage)
    ensures x.Some? && x.value < lo ==> e == Some(minMessage)
    ensures x.Some? && x.value > hi ==> e == Some(maxMessage)
  {
    if x.None? then Some(NotANumberMessage)
    else if x.value < lo then Some(minMessage)
    else if x.value > hi then Some(maxMessage)
    else None
  }
}
