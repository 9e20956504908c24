/** `handleAddMarkAsResolvedTool`: adds a mark-as-resolved entry, which carries no configuration, to an agent's tools. */
module AddMarkAsResolvedTool {
  import opened Outcomes
  import opened JsValues
  import opened Api
  import opened ToolCall
  import opened AgentTools

  const Name := "addMarkAsResolvedTool"
  const MissingAgentMessage := "'agentId' is a required argument."

  function HandleAddMarkAsResolvedTool(tool: string, arguments: Option<Args>): (r: Result<AddPlan, Failure>)
    ensures tool != Name ==> r == Failure(UnknownTool)
    ensures tool == Name ==> (r.Failure? <==> !Truthy(Get(OrEmpty(arguments), "agentId")))
    ensures tool == Name && r.Failure? ==> r.error == Invalid(MissingAgentMessage)
    ensures r.Success? ==> r.value == AddPlan(ToStr(Get(OrEmpty(arguments), "agentId")), MarkAsResolvedTool)
  {
    if tool != Name then Failure(UnknownTool)
    else
      var agentId := Get(OrEmpty(arguments), "agentId");
      if !Truthy(agentId) then Failure(Invalid(MissingAgentMessage))
      else Success(AddPlan(ToStr(agentId), MarkAsResolvedTool))
  }

  /** An agent with an empty tool list is updated with the single new entry. */
  lemma AddsToAgentWithoutTools(agentId: string, api: RemoteApi)
    requires agentId != ""
    requires api(GetAgentById(agentId)) == Success(Obj(map["tools" := Arr([])]))
    ensures AddToAgent(HandleAddMarkAsResolvedTool(Name, Some(map["agentId" := Str(agentId)])), api).calls
      == [GetAgentById(agentId), UpdateAgentTools(agentId, [Added(MarkAsResolvedTool)])]
  {
    NoToolsAddTheEntryAlone(HandleAddMarkAsResolvedTool(Name, Some(map["agentId" := Str(agentId)])), api, map["tools" := Arr([])]);
  }
}
