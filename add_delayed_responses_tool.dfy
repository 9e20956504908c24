/**
 * `handleAddDelayedResponsesTool`: adds a delayed-responses entry to an
 * agent's tools. `delay` is checked for presence only, so a delay of 0 is
 * accepted; it is converted with `Number()`.
 */
module AddDelayedResponsesTool {
  import opened Outcomes
  import opened JsValues
  import opened Api
  import opened ToolCall
  import opened AgentTools

  const Name := "add_delayed_responses_tool"
  const MissingAgentMessage := "'agentId' is a required argument."
  const MissingDelayMessage := "'delay' is a required argument."

  function HandleAddDelayedResponsesTool(tool: string, arguments: Option<Args>): (r: Result<AddPlan, Failure>)
    ensures tool != Name ==> r == Failure(UnknownTool)
    ensures tool == Name ==>
      var args := OrEmpty(arguments);
      && (!Truthy(Get(args, "agentId")) ==> r == Failure(Invalid(MissingAgentMessage)))
      && (Truthy(Get(args, "agentId")) && Get(args, "delay").Undefined? ==> r == Failure(Invalid(MissingDelayMessage)))
      && (r.Success? <==> Truthy(Get(args, "agentId")) && !Get(args, "delay").Undefined?)
    ensures r.Success? ==>
      var args := OrEmpty(arguments);
      r.value == AddPlan(ToStr(Get(args, "agentId")), DelayedResponsesTool(ToNumber(Get(args, "delay"))))
  {
    if tool != Name then Failure(UnknownTool)
    else
      var args := OrEmpty(arguments);
      if !Truthy(Get(args, "agentId")) then Failure(Invalid(MissingAgentMessage))
      else if Get(args, "delay") == Undefined then Failure(Invalid(MissingDelayMessage))
      else Success(AddPlan(ToStr(Get(args, "agentId")), DelayedResponsesTool(ToNumber(Get(args, "delay")))))
  }

  /** A delay of 0, and a null delay, are accepted and sent as 0. */
  lemma ZeroDelayIsAccepted(agentId: string)
    requires agentId != ""
    ensures HandleAddDelayedResponsesTool(Name, Some(map["agentId" := Str(agentId), "delay" := Num(0)]))
      == Success(AddPlan(agentId, DelayedResponsesTool(Finite(0))))
    ensures HandleAddDelayedResponsesTool(Name, Some(map["agentId" := Str(agentId), "delay" := Null]))
      == Success(AddPlan(agentId, DelayedResponsesTool(Finite(0))))
  {
  }

  /** The agent id is checked first: with neither key, the message is about `agentId`. */
  lemma AgentIdIsCheckedFirst()
    ensures HandleAddDelayedResponsesTool(Name, None) == Failure(Invalid(MissingAgentMessage))
  {
  }

  /** An agent with an empty tool list is updated with the single delayed-responses entry. */
  lemma AddsToAgentWithoutTools(agentId: string, delay: int, api: RemoteApi)
    requires agentId != ""
    requires api(GetAgentById(agentId)) == Success(Obj(map["tools" := Arr([])]))
    ensures AddToAgent(HandleAddDelayedResponsesTool(Name, Some(map["agentId" := Str(agentId), "delay" := Num(delay)])), api).calls
      == [GetAgentById(agentId), UpdateAgentTools(agentId, [Added(DelayedResponsesTool(Finite(delay)))])]
  {
    NoToolsAddTheEntryAlone(HandleAddDelayedResponsesTool(Name, Some(map["agentId" := Str(agentId), "delay" := Num(delay)])), api, map["tools" := Arr([])]);
  }
}
