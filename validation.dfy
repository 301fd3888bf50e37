/** Validation rules as the routes write them, the express-validator checks
    the dispatchers build from them, and what running those checks against
    a request body reports. */
module Validation {
  import opened Js
  import opened Http

  /** A rule object `{ field, message, notEmpty?, isEmail?, minLength? }`;
      a flag that is absent reads as false. */
  datatype Rule = Rule(field: string, message: string, notEmpty: bool, isEmail: bool, minLength: bool)

  /** The one validator a check carries. */
  datatype Kind = NotEmpty | IsEmail | MinLength(min: nat)

  /** `check(field, message)` followed by one validator. */
  datatype Check = Check(kind: Kind, field: string, message: string)

  /** The value a check sees: a missing field reads as the empty string. */
  function FieldValue(body: map<string, string>, field: string): string
  {
    if field in body then body[field] else ""
  }

  /** Whether `c` accepts `body`; `isEmail` is the validator library's own test. */
  predicate Passes(c: Check, body: map<string, string>, isEmail: string -> bool)
  {
    var v := FieldValue(body, c.field);
    match c.kind
    case NotEmpty => v != ""
    case IsEmail => isEmail(v)
    case MinLength(n) => |v| >= n
  }

  /** The error a failing check reports. */
  function Failure(c: Check): ErrorItem
  {
    FieldError(c.field, c.message)
  }

  /** `validationResult(req).array()` after running `checks` in order; an
      absent check (a rule the dispatcher mapped to nothing) validates nothing. */
  function Run(checks: seq<Option<Check>>, body: map<string, string>, isEmail: string -> bool): (errors: seq<ErrorItem>)
    ensures |errors| <= |checks|
    ensures errors == [] <==> forall i :: 0 <= i < |checks| && checks[i].Some? ==> Passes(checks[i].value, body, isEmail)
    ensures forall e :: e in errors ==> exists i :: 0 <= i < |checks| && checks[i].Some? && !Passes(checks[i].value, body, isEmail) && e == Failure(checks[i].value)
  {
    if checks == [] then []
    else
      var rest := Run(checks[1..], body, isEmail);
      assert forall i :: 1 <= i < |checks| ==> checks[i] == checks[1..][i - 1];
      match checks[0]
      case Some(c) =>
        if Passes(c, body, isEmail) then rest else [Failure(c)] + rest
      case None => rest
  }
}
