/** utils/userChecks.js (and its verbatim copy inside routes/api/user.js):
    build one express-validator check per rule, dispatching on the rule's
    field NAME; the rule's flags play no part. */
module UserChecksByField {
  import opened Js
  import opened Validation

  /** The dispatch table: the only field names that get a check. */
  const FieldKinds: map<string, Kind> := map["name" := NotEmpty, "email" := IsEmail, "password" := MinLength(6)]

  function GetFieldNameCheck(info: Rule): Check
  {
    Check(NotEmpty, info.field, info.message)
  }

  function GetFieldEmailCheck(info: Rule): Check
  {
    Check(IsEmail, info.field, info.message)
  }

  function GetFieldPwordCheck(info: Rule): Check
  {
    Check(MinLength(6), info.field, info.message)
  }

  /** `_.cond` over `_.matches({ field })`: the field selects the validator. */
  function HandleField(info: Rule): (c: Option<Check>)
    ensures c.Some? <==> info.field in FieldKinds
    ensures c.Some? ==> c == Some(Check(FieldKinds[info.field], info.field, info.message))
  {
    if info.field == "name" then Some(GetFieldNameCheck(info))
    else if info.field == "email" then Some(GetFieldEmailCheck(info))
    else if info.field == "password" then Some(GetFieldPwordCheck(info))
    else None
  }

  /** `_.map(fields, handleField(check))`. */
  function GetChecks(rules: seq<Rule>): (checks: seq<Option<Check>>)
    ensures |checks| == |rules|
    ensures forall i :: 0 <= i < |rules| ==> checks[i] == HandleField(rules[i])
  {
    if rules == [] then [] else [HandleField(rules[0])] + GetChecks(rules[1..])
  }

  /** Rules whose fields are none of name, email and password validate
      nothing, whatever their flags and whatever the body. */
  lemma UnlistedFieldsValidateNothing(rules: seq<Rule>, body: map<string, string>, isEmail: string -> bool)
    requires forall i :: 0 <= i < |rules| ==> rules[i].field !in FieldKinds
    ensures forall i :: 0 <= i < |rules| ==> GetChecks(rules)[i] == None
    ensures Run(GetChecks(rules), body, isEmail) == []
  {
  }
}
