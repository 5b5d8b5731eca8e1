/** The express-validator checks the routers and middleware use, on the
    text of a field. A field the client did not send is read as "". */
module Validation {
  import opened Common
  import opened Http

  /** The text a validator checks. */
  function Submitted(v: Option<string>): string {
    v.GetOr("")
  }

  /** `notEmpty()`. */
  predicate NotEmpty(v: Option<string>) {
    |Submitted(v)| > 0
  }

  /** `isLength({ min })`. */
  predicate LengthAtLeast(v: Option<string>, min: nat) {
    |Submitted(v)| >= min
  }

  /** `isLength({ min, max })`. */
  predicate LengthWithin(v: Option<string>, min: nat, max: nat) {
    min <= |Submitted(v)| <= max
  }

  predicate IsDigit(c: char) {
    '0' <= c <= '9'
  }

  /** `isNumeric()`: an optional sign, then digits with at most one decimal
      point, ending in a digit. */
  predicate IsNumeric(s: string) {
    var t := if |s| > 0 && (s[0] == '+' || s[0] == '-') then s[1..] else s;
    && |t| > 0
    && IsDigit(t[|t| - 1])
    && (forall i :: 0 <= i < |t| ==> IsDigit(t[i]) || t[i] == '.')
    && (forall i, j :: 0 <= i < j < |t| && t[i] == '.' ==> t[j] != '.')
  }

  /** Plain decimal text denotes a number above zero: no minus sign and
      some non-zero digit. */
  predicate DecimalAboveZero(s: string)
    requires IsNumeric(s)
  {
    s[0] != '-' && exists i :: 0 <= i < |s| && '1' <= s[i] <= '9'
  }

  /** The custom check `value > 0` on a body field. Nothing bails before
      it, so it runs on every value. A missing field (`undefined > 0`) and
      the empty text fail; for decimal text it is the numeric comparison;
      for any other text it is JavaScript's coercion, given as `otherText`. */
  predicate ExceedsZero(v: Option<string>, otherText: bool) {
    var s := Submitted(v);
    if v.None? || s == "" then false
    else if IsNumeric(s) then DecimalAboveZero(s)
    else otherText
  }

  /** One check of a validation chain: no error when it passes, otherwise the
      chain's message for that field. */
  function Rule(ok: bool, location: Location, path: string, msg: string): (r: seq<FieldError>)
    ensures |r| == if ok then 0 else 1
    ensures !ok ==> r[0] == FieldError(location, path, msg)
  {
    if ok then [] else [FieldError(location, path, msg)]
  }
}
