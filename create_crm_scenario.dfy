/** `handleCreateCrmScenario`: creates a CRM scenario from a truthy `name` and an optional description. */
module CreateCrmScenarioTool {
  import opened Outcomes
  import opened JsValues
  import opened Api
  import opened ToolCall

  const Name := "create_crm_scenario"
  const MissingMessage := "'name' is a required argument."

  function HandleCreateCrmScenario(tool: string, arguments: Option<Args>): (r: Result<Request, Failure>)
    ensures tool != Name ==> r == Failure(UnknownTool)
    ensures tool == Name ==> (r.Failure? <==> !Truthy(Get(OrEmpty(arguments), "name")))
    ensures tool == Name && r.Failure? ==> r.error == Invalid(MissingMessage)
    ensures r.Success? ==>
      var args := OrEmpty(arguments);
      && r.value.CreateCrmScenario?
      && r.value.name == ToStr(Get(args, "name"))
      && (r.value.description.None? <==> !Truthy(Get(args, "description")))
      && (r.value.description.Some? ==> r.value.description.value == ToStr(Get(args, "description")))
  {
    if tool != Name then Failure(UnknownTool)
    else
      var args := OrEmpty(arguments);
      if !Truthy(Get(args, "name")) then Failure(Invalid(MissingMessage))
      else Success(CreateCrmScenario(ToStr(Get(args, "name")), OptionalString(Get(args, "description"))))
  }

  /** An empty description is dropped rather than sent as "". */
  lemma EmptyDescriptionIsDropped(name: string)
    requires name != ""
    ensures HandleCreateCrmScenario(Name, Some(map["name" := Str(name), "description" := Str("")]))
      == Success(CreateCrmScenario(name, None))
  {
  }
}
