/** The `(status, output)` pair returned by every check, in libsmon.py and smon.py alike. */
module Checks {

  /** The two status values (`OK = True`, `ERR = ER = False`). */
  const OK: bool := true
  const ERR: bool := false

  datatype CheckResult = CheckResult(ok: bool, output: string)

  /** `st, out if out else fallback`: keep the status, replace an empty output. */
  function WithDefaultOutput(r: CheckResult, fallback: string): (c: CheckResult)
    ensures c.ok == r.ok
    ensures r.output != "" ==> c.output == r.output
    ensures r.output == "" ==> c.output == fallback
  {
    if r.output != "" then r else CheckResult(r.ok, fallback)
  }

  /** With a non-empty fallback the output is never empty, and a second substitution changes nothing. */
  lemma WithDefaultOutputSettles(r: CheckResult, fallback: string)
    requires fallback != ""
    ensures WithDefaultOutput(r, fallback).output != ""
    ensures WithDefaultOutput(WithDefaultOutput(r, fallback), fallback) == WithDefaultOutput(r, fallback)
  {
  }
}
