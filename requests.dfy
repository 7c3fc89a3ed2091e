/** Reading the fields of a request body the way the task controller's handlers do. */
module Requests {
  import opened Js
  import opened Outcomes
  import opened TaskDomain

  /** `body[key]` for a criterion's field name. */
  function LevelField(body: map<string, Json>, c: Criterion): Json {
    Get(body, CriterionKey(c))
  }

  /** A destructured field with a default: the default replaces `undefined` only. */
  function WithDefault(v: Json, default: Json): (r: Json)
    ensures v.Undefined? ==> r == default
    ensures !v.Undefined? ==> r == v
  {
    if v.Undefined? then default else v
  }

  /** The outcome of `!v || !v.trim()` followed by `v.trim()`: a blank field, or the
      trimmed text of a filled one. */
  datatype Presence = Blank | Filled(text: string)

  /** A required text field: falsy and whitespace-only values are blank; a truthy
      non-string has no `trim` and raises a TypeError. */
  function RequiredText(v: Json): (r: Result<Presence, Failure>)
    ensures r == Ok(Blank) <==> !Truthy(v) || (v.Str? && Trim(v.s) == "")
    ensures r.Err? <==> Truthy(v) && !v.Str?
    ensures r.Err? ==> r.error == NotAString
    ensures r.Ok? && r.value.Filled? ==> v.Str? && r.value.text == Trim(v.s) && r.value.text != ""
  {
    if !Truthy(v) then Ok(Blank)
    else if !v.Str? then Err(NotAString)
    else if Trim(v.s) == "" then Ok(Blank)
    else Ok(Filled(Trim(v.s)))
  }
}
