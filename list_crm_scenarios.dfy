/**
 * `handleListCrmScenarios`: lists the CRM scenarios, filtered by agent when a
 * truthy `agentId` is given. No argument combination is rejected.
 */
module ListCrmScenariosTool {
  import opened Outcomes
  import opened JsValues
  import opened Api
  import opened ToolCall

  const Name := "list_crm_scenarios"

  function HandleListCrmScenarios(tool: string, arguments: Option<Args>): (r: Result<Request, Failure>)
    ensures tool != Name ==> r == Failure(UnknownTool)
    ensures tool == Name ==> r.Success? && r.value.ListCrmScenarios?
    ensures tool == Name ==> (r.value.agentId.None? <==> !Truthy(Get(OrEmpty(arguments), "agentId")))
    ensures tool == Name && r.value.agentId.Some? ==> r.value.agentId.value == ToStr(Get(OrEmpty(arguments), "agentId"))
  {
    if tool != Name then Failure(UnknownTool)
    else
      var agentId := match arguments case None => Undefined case Some(args) => Get(args, "agentId");
      Success(ListCrmScenarios(OptionalString(agentId)))
  }

  /** Without arguments, or with an empty `agentId`, every scenario is listed. */
  lemma NoFilterWhenAbsent()
    ensures HandleListCrmScenarios(Name, None) == Success(ListCrmScenarios(None))
    ensures HandleListCrmScenarios(Name, Some(map["agentId" := Str("")])) == Success(ListCrmScenarios(None))
  {
  }
}
