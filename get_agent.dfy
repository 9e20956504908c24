/**
 * `handleGetAgent`: the id is converted with `String()` before it is checked,
 * so a missing id becomes the text "undefined" and is fetched. Only an id
 * whose string form is empty is rejected. `HandleGetAgentChecked` is the
 * handler with the truthiness check the other id-taking handlers use.
 */
module GetAgentTool {
  import opened Outcomes
  import opened JsValues
  import opened Api
  import opened ToolCall

  const Name := "get_agent"
  const EmptyIdMessage := "Agent ID is required"
  const MissingMessage := "'id' is a required argument."

  /** The handler as written: `String(arguments?.id)`, then `if (!id)` on the string. */
  function HandleGetAgent(tool: string, arguments: Option<Args>): (r: Result<Request, Failure>)
    ensures tool != Name ==> r == Failure(UnknownTool)
    ensures tool == Name ==> (r.Failure? <==> ToStr(Get(OrEmpty(arguments), "id")) == "")
    ensures tool == Name && r.Failure? ==> r.error == Invalid(EmptyIdMessage)
    ensures r.Success? ==> r.value == GetAgentById(ToStr(Get(OrEmpty(arguments), "id")))
  {
    if tool != Name then Failure(UnknownTool)
    else
      var id := ToStr(Get(OrEmpty(arguments), "id"));
      if id == "" then Failure(Invalid(EmptyIdMessage))
      else Success(GetAgentById(id))
  }

  /** A call without an id is not rejected: it fetches the agent named "undefined". */
  lemma MissingIdFetchesUndefined()
    ensures HandleGetAgent(Name, Some(map[])) == Success(GetAgentById("undefined"))
    ensures HandleGetAgent(Name, None) == Success(GetAgentById("undefined"))
    ensures HandleGetAgent(Name, Some(map["id" := Null])) == Success(GetAgentById("null"))
  {
  }

  /** A string id is fetched as given; only the empty string is refused. */
  lemma StringIdsAreFetched(id: string)
    ensures HandleGetAgent(Name, Some(map["id" := Str(id)]))
      == if id == "" then Failure(Invalid(EmptyIdMessage)) else Success(GetAgentById(id))
  {
  }

  /** The handler with the check made before the conversion, as for `delete_agent`. */
  function HandleGetAgentChecked(tool: string, arguments: Option<Args>): (r: Result<Request, Failure>)
    ensures tool != Name ==> r == Failure(UnknownTool)
    ensures tool == Name ==> (r.Failure? <==> !Truthy(Get(OrEmpty(arguments), "id")))
    ensures tool == Name && r.Failure? ==> r.error == Invalid(MissingMessage)
    ensures r.Success? ==> r.value == GetAgentById(ToStr(Get(OrEmpty(arguments), "id")))
  {
    if tool != Name then Failure(UnknownTool)
    else
      var id := Get(OrEmpty(arguments), "id");
      if !Truthy(id) then Failure(Invalid(MissingMessage))
      else Success(GetAgentById(ToStr(id)))
  }

  /** With the check first, a call without an id fails with the message the handler's tests expect. */
  lemma CheckedRejectsMissingId()
    ensures HandleGetAgentChecked(Name, Some(map[])) == Failure(Invalid(MissingMessage))
    ensures HandleGetAgentChecked(Name, None) == Failure(Invalid(MissingMessage))
  {
  }

  /** Both handlers fetch the same agent for every id that is truthy and not an empty-joining array. */
  lemma CheckedAgreesOnPresentIds(arguments: Option<Args>)
    requires Truthy(Get(OrEmpty(arguments), "id")) && ToStr(Get(OrEmpty(arguments), "id")) != ""
    ensures HandleGetAgentChecked(Name, arguments) == HandleGetAgent(Name, arguments)
  {
  }

  /** The falsy ids the handler as written forwards are exactly undefined, null, false and 0. */
  lemma ForwardedFalsyIds(v: JsValue)
    requires !v.Arr?
    ensures !Truthy(v) && ToStr(v) != "" <==> v.Undefined? || v.Null? || v == Bool(false) || v == Num(0)
  {
    EmptyStringOnlyFromEmpty(v);
  }
}
