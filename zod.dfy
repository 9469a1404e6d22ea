/** The few pieces of the zod validation library the schemas are built from. A schema is
    modelled by the list of issue messages `safeParse` reports, in field order; the input is
    accepted exactly when that list is empty. zod's `.email()` and `.url()` checks are not
    modelled: they are given as predicates. */
module Zod {
  import opened Base

  /** The checks zod implements internally and the model takes as given. */
  datatype Formats = Formats(isEmail: string -> bool, isUrl: string -> bool)

  /** One check: no issue when it holds, its message when it does not. */
  function Check(ok: bool, message: string): (issues: seq<string>)
    ensures issues == [] <==> ok
  {
    if ok then [] else [message]
  }

  /** `z.string().min(n, message)`. */
  function MinLength(s: string, n: nat, message: string): (issues: seq<string>)
    ensures issues == [] <==> |s| >= n
  {
    Check(|s| >= n, message)
  }

  /** zod's default message for `.min(n)` without a message of its own. */
  function TooShort(n: nat): string
  {
    "String must contain at least " + NatToString(n) + " character(s)"
  }

  /** zod's default message for `.max(n)` without a message of its own. */
  function TooLong(n: nat): string
  {
    "String must contain at most " + NatToString(n) + " character(s)"
  }

  /** zod's default message for a required field that is missing. */
  const Required: string := "Required"

  /** zod's default message for a value outside an enum. */
  const InvalidEnum: string := "Invalid enum value"

  /** A field declared `X.optional().or(z.literal(''))`: absent, the empty string, or a
      string that passes X (whose failure message is the one zod reports). */
  function OptionalOrEmpty(s: Option<string>, ok: string -> bool, message: string): (issues: seq<string>)
    ensures issues == [] <==> (s.None? || s.value == "" || ok(s.value))
  {
    if s.None? || s.value == "" then [] else Check(ok(s.value), message)
  }
}
