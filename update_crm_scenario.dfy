/** `handleUpdateCrmScenario`: renames a CRM scenario; `id` and `name` must be truthy. */
module UpdateCrmScenarioTool {
  import opened Outcomes
  import opened JsValues
  import opened Api
  import opened ToolCall

  const Name := "update_crm_scenario"
  const MissingMessage := "'id' and 'name' are required arguments."

  function HandleUpdateCrmScenario(tool: string, arguments: Option<Args>): (r: Result<Request, Failure>)
    ensures tool != Name ==> r == Failure(UnknownTool)
    ensures tool == Name ==>
      (r.Failure? <==> !Truthy(Get(OrEmpty(arguments), "id")) || !Truthy(Get(OrEmpty(arguments), "name")))
    ensures tool == Name && r.Failure? ==> r.error == Invalid(MissingMessage)
    ensures r.Success? ==>
      var args := OrEmpty(arguments);
      && r.value.UpdateCrmScenario?
      && r.value.id == ToStr(Get(args, "id"))
      && r.value.name == ToStr(Get(args, "name"))
      && (r.value.description.None? <==> !Truthy(Get(args, "description")))
      && (r.value.description.Some? ==> r.value.description.value == ToStr(Get(args, "description")))
  {
    if tool != Name then Failure(UnknownTool)
    else
      var args := OrEmpty(arguments);
      if AnyFalsy(args, ["id", "name"]) then Failure(Invalid(MissingMessage))
      else
        Success(UpdateCrmScenario(ToStr(Get(args, "id")), ToStr(Get(args, "name")), OptionalString(Get(args, "description"))))
  }

  /** A name alone, or an id alone, is not enough. */
  lemma BothKeysAreNeeded(v: JsValue)
    requires Truthy(v)
    ensures HandleUpdateCrmScenario(Name, Some(map["name" := v])) == Failure(Invalid(MissingMessage))
    ensures HandleUpdateCrmScenario(Name, Some(map["id" := v])) == Failure(Invalid(MissingMessage))
  {
    assert Get(map["name" := v], "id") == Undefined;
    assert Get(map["id" := v], "name") == Undefined;
  }
}
