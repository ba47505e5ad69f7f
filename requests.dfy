/** Form-parameter handling shared by the phenotype routes. */
module Requests {
  import opened Wrappers
  import opened Text

  /** A form field is given when it is present and not the empty string (JavaScript truthiness). */
  predicate Given(f: Option<string>) {
    f.Some? && f.value != ""
  }

  /** `replace` must read "true" or "false", ignoring case. */
  function ParseReplace(s: string): (r: Option<bool>)
    ensures r == Some(true) <==> Lower(s) == "true"
    ensures r == Some(false) <==> Lower(s) == "false"
  {
    if Lower(s) == "true" then Some(true)
    else if Lower(s) == "false" then Some(false)
    else None
  }

  /** The flag is read case-insensitively: lower-casing the field first changes nothing. */
  lemma ParseReplaceIgnoresCase(s: string)
    ensures ParseReplace(s) == ParseReplace(Lower(s))
  {
    LowerIdempotent(s);
  }
}
