/**
 * `handleAddFollowUpMessagesTool`: adds a follow-up-messages entry to an
 * agent's tools. `config` has to be truthy and is embedded as received; the
 * fields its schema declares required are not checked.
 */
module AddFollowUpMessagesTool {
  import opened Outcomes
  import opened JsValues
  import opened Api
  import opened ToolCall
  import opened AgentTools

  const Name := "add_follow_up_messages_tool"
  const MissingAgentMessage := "'agentId' is a required argument."
  const MissingConfigMessage := "'config' is a required argument."

  function HandleAddFollowUpMessagesTool(tool: string, arguments: Option<Args>): (r: Result<AddPlan, Failure>)
    ensures tool != Name ==> r == Failure(UnknownTool)
    ensures tool == Name ==>
      var args := OrEmpty(arguments);
      && (!Truthy(Get(args, "agentId")) ==> r == Failure(Invalid(MissingAgentMessage)))
      && (Truthy(Get(args, "agentId")) && !Truthy(Get(args, "config")) ==> r == Failure(Invalid(MissingConfigMessage)))
      && (r.Success? <==> Truthy(Get(args, "agentId")) && Truthy(Get(args, "config")))
    ensures r.Success? ==>
      var args := OrEmpty(arguments);
      r.value == AddPlan(ToStr(Get(args, "agentId")), FollowUpMessagesTool(Get(args, "config")))
  {
    if tool != Name then Failure(UnknownTool)
    else
      var args := OrEmpty(arguments);
      if !Truthy(Get(args, "agentId")) then Failure(Invalid(MissingAgentMessage))
      else if !Truthy(Get(args, "config")) then Failure(Invalid(MissingConfigMessage))
      else Success(AddPlan(ToStr(Get(args, "agentId")), FollowUpMessagesTool(Get(args, "config"))))
  }

  /** An empty configuration object is truthy and is embedded as it is. */
  lemma EmptyConfigIsAccepted(agentId: string)
    requires agentId != ""
    ensures HandleAddFollowUpMessagesTool(Name, Some(map["agentId" := Str(agentId), "config" := Obj(map[])]))
      == Success(AddPlan(agentId, FollowUpMessagesTool(Obj(map[]))))
  {
  }

  /** An agent with an empty tool list is updated with the single entry wrapping the configuration. */
  lemma AddsToAgentWithoutTools(agentId: string, config: map<string, JsValue>, api: RemoteApi)
    requires agentId != ""
    requires api(GetAgentById(agentId)) == Success(Obj(map["tools" := Arr([])]))
    ensures AddToAgent(HandleAddFollowUpMessagesTool(Name, Some(map["agentId" := Str(agentId), "config" := Obj(config)])), api).calls
      == [GetAgentById(agentId), UpdateAgentTools(agentId, [Added(FollowUpMessagesTool(Obj(config)))])]
  {
    NoToolsAddTheEntryAlone(HandleAddFollowUpMessagesTool(Name, Some(map["agentId" := Str(agentId), "config" := Obj(config)])), api, map["tools" := Arr([])]);
  }
}
