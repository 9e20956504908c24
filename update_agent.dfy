/**
 * `handleUpdateAgent`: the `update_agent` call sends every argument except
 * `id` as a partial update, so only the keys the caller supplied are changed.
 * The model-name and visibility values are not checked against their enums.
 */
module UpdateAgentTool {
  import opened Outcomes
  import opened JsValues
  import opened Api
  import opened ToolCall

  const Name := "update_agent"
  const MissingMessage := "'id' is a required argument."

  function HandleUpdateAgent(tool: string, arguments: Option<Args>): (r: Result<Request, Failure>)
    ensures tool != Name ==> r == Failure(UnknownTool)
    ensures tool == Name ==> (r.Failure? <==> !Truthy(Get(OrEmpty(arguments), "id")))
    ensures tool == Name && r.Failure? ==> r.error == Invalid(MissingMessage)
    ensures r.Success? ==>
      var args := OrEmpty(arguments);
      && r.value.UpdateAgent?
      && r.value.id == ToStr(Get(args, "id"))
      && r.value.fields.Keys == args.Keys - {"id"}
      && (forall k :: k in r.value.fields ==> r.value.fields[k] == args[k])
  {
    if tool != Name then Failure(UnknownTool)
    else
      var args := OrEmpty(arguments);
      if !Truthy(Get(args, "id")) then Failure(Invalid(MissingMessage))
      else Success(UpdateAgent(ToStr(Get(args, "id")), WithoutId(args)))
  }

  /** An update naming only an id sends an empty body; one key sends that key alone, value unchecked. */
  lemma OnlySuppliedKeysAreSent(id: string, visibility: string)
    requires id != ""
    ensures HandleUpdateAgent(Name, Some(map["id" := Str(id)])) == Success(UpdateAgent(id, map[]))
    ensures HandleUpdateAgent(Name, Some(map["id" := Str(id), "visibility" := Str(visibility)]))
      == Success(UpdateAgent(id, map["visibility" := Str(visibility)]))
  {
    assert WithoutId(map["id" := Str(id)]) == map[];
    assert WithoutId(map["id" := Str(id), "visibility" := Str(visibility)]) == map["visibility" := Str(visibility)];
  }
}
