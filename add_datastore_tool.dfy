/**
 * `handleAddDatastoreTool`: adds a datastore entry, naming the datastore by
 * `String(datastoreId)`, to an agent's tools.
 */
module AddDatastoreTool {
  import opened Outcomes
  import opened JsValues
  import opened Api
  import opened ToolCall
  import opened AgentTools

  const Name := "addDatastoreTool"
  const MissingAgentMessage := "'agentId' is a required argument."
  const MissingDatastoreMessage := "'datastoreId' is a required argument."

  function HandleAddDatastoreTool(tool: string, arguments: Option<Args>): (r: Result<AddPlan, Failure>)
    ensures tool != Name ==> r == Failure(UnknownTool)
    ensures tool == Name ==>
      var args := OrEmpty(arguments);
      && (!Truthy(Get(args, "agentId")) ==> r == Failure(Invalid(MissingAgentMessage)))
      && (Truthy(Get(args, "agentId")) && !Truthy(Get(args, "datastoreId")) ==> r == Failure(Invalid(MissingDatastoreMessage)))
      && (r.Success? <==> Truthy(Get(args, "agentId")) && Truthy(Get(args, "datastoreId")))
    ensures r.Success? ==>
      var args := OrEmpty(arguments);
      r.value == AddPlan(ToStr(Get(args, "agentId")), DatastoreTool(ToStr(Get(args, "datastoreId"))))
  {
    if tool != Name then Failure(UnknownTool)
    else
      var args := OrEmpty(arguments);
      if !Truthy(Get(args, "agentId")) then Failure(Invalid(MissingAgentMessage))
      else if !Truthy(Get(args, "datastoreId")) then Failure(Invalid(MissingDatastoreMessage))
      else Success(AddPlan(ToStr(Get(args, "agentId")), DatastoreTool(ToStr(Get(args, "datastoreId")))))
  }

  /** An agent with an empty tool list is updated with the single datastore entry. */
  lemma AddsToAgentWithoutTools(agentId: string, datastoreId: string, api: RemoteApi)
    requires agentId != "" && datastoreId != ""
    requires api(GetAgentById(agentId)) == Success(Obj(map["tools" := Arr([])]))
    ensures AddToAgent(HandleAddDatastoreTool(Name, Some(map["agentId" := Str(agentId), "datastoreId" := Str(datastoreId)])), api).calls
      == [GetAgentById(agentId), UpdateAgentTools(agentId, [Added(DatastoreTool(datastoreId))])]
  {
    NoToolsAddTheEntryAlone(HandleAddDatastoreTool(Name, Some(map["agentId" := Str(agentId), "datastoreId" := Str(datastoreId)])), api, map["tools" := Arr([])]);
  }
}
