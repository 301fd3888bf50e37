/** utils/userChecks.ts: build one express-validator check per rule,
    dispatching on the rule's flags. */
module UserChecks {
  import opened Js
  import opened Validation

  /** The minimum length a `minLength` rule demands. */
  const MinLength := 6

  function GetNotEmptyCheck(info: Rule): Check
  {
    Check(NotEmpty, info.field, info.message)
  }

  function GetFieldEmailCheck(info: Rule): Check
  {
    Check(IsEmail, info.field, info.message)
  }

  function GetMinLengthCheck(info: Rule): Check
  {
    Check(Kind.MinLength(MinLength), info.field, info.message)
  }

  /** Whether `info` carries the flag that selects validator `k`. */
  predicate Tagged(info: Rule, k: Kind)
  {
    match k
    case NotEmpty => info.notEmpty
    case IsEmail => info.isEmail
    case MinLength(n) => info.minLength && n == MinLength
  }

  /** The position of a kind's clause in the dispatch table. */
  function Rank(k: Kind): nat
  {
    match k
    case NotEmpty => 0
    case IsEmail => 1
    case MinLength(_) => 2
  }

  /** `_.cond` over the flags: the first clause whose flag is set wins, and a
      rule with none of them gets no check. */
  function HandleField(info: Rule): (c: Option<Check>)
    ensures c.Some? <==> info.notEmpty || info.isEmail || info.minLength
    ensures c.Some? ==> c.value.field == info.field && c.value.message == info.message
    ensures c.Some? ==> Tagged(info, c.value.kind)
    ensures c.Some? ==> forall k :: Rank(k) < Rank(c.value.kind) ==> !Tagged(info, k)
  {
    if info.notEmpty then Some(GetNotEmptyCheck(info))
    else if info.isEmail then Some(GetFieldEmailCheck(info))
    else if info.minLength then Some(GetMinLengthCheck(info))
    else None
  }

  /** `_.map(fields, handleField(check))`. */
  function BuildChecks(rules: seq<Rule>): (checks: seq<Option<Check>>)
    ensures |checks| == |rules|
    ensures forall i :: 0 <= i < |rules| ==> checks[i] == HandleField(rules[i])
  {
    if rules == [] then [] else [HandleField(rules[0])] + BuildChecks(rules[1..])
  }
}
