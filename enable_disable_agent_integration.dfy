/**
 * `handleEnableDisableAgentIntegration`: `id` and `type` must be truthy, but
 * `enabled` only has to be present, so `enabled: false` reaches the remote
 * call. The integration type is not checked against the schema's enum.
 */
module EnableDisableAgentIntegrationTool {
  import opened Outcomes
  import opened JsValues
  import opened Api
  import opened ToolCall

  const Name := "enable_disable_agent_integration"
  const MissingMessage := "'id', 'type', and 'enabled' are required arguments."

  function HandleEnableDisableAgentIntegration(tool: string, arguments: Option<Args>): (r: Result<Request, Failure>)
    ensures tool != Name ==> r == Failure(UnknownTool)
    ensures tool == Name ==>
      var args := OrEmpty(arguments);
      (r.Failure? <==> !Truthy(Get(args, "id")) || !Truthy(Get(args, "type")) || Get(args, "enabled").Undefined?)
    ensures tool == Name && r.Failure? ==> r.error == Invalid(MissingMessage)
    ensures r.Success? ==>
      var args := OrEmpty(arguments);
      r.value == EnableDisableAgentIntegration(ToStr(Get(args, "id")), ToStr(Get(args, "type")), Truthy(Get(args, "enabled")))
  {
    if tool != Name then Failure(UnknownTool)
    else
      var args := OrEmpty(arguments);
      var enabled := Get(args, "enabled");
      if AnyFalsy(args, ["id", "type"]) || enabled == Undefined then Failure(Invalid(MissingMessage))
      else Success(EnableDisableAgentIntegration(ToStr(Get(args, "id")), ToStr(Get(args, "type")), Truthy(enabled)))
  }

  /** `enabled: false` is accepted and sent as false; the string "false" is truthy and enables. */
  lemma EnabledIsPresenceChecked(id: string, integration: string)
    requires id != "" && integration != ""
    ensures var base := map["id" := Str(id), "type" := Str(integration)];
      && HandleEnableDisableAgentIntegration(Name, Some(base["enabled" := Bool(false)]))
           == Success(EnableDisableAgentIntegration(id, integration, false))
      && HandleEnableDisableAgentIntegration(Name, Some(base["enabled" := Str("false")]))
           == Success(EnableDisableAgentIntegration(id, integration, true))
      && HandleEnableDisableAgentIntegration(Name, Some(base["enabled" := Null]))
           == Success(EnableDisableAgentIntegration(id, integration, false))
      && HandleEnableDisableAgentIntegration(Name, Some(base)) == Failure(Invalid(MissingMessage))
  {
  }

  /** Any integration name is forwarded, including ones outside whatsapp, telegram, zapi and instagram. */
  lemma IntegrationIsNotChecked(id: string, integration: string, enabled: bool)
    requires id != "" && integration != ""
    ensures HandleEnableDisableAgentIntegration(Name, Some(map["id" := Str(id), "type" := Str(integration), "enabled" := Bool(enabled)]))
      == Success(EnableDisableAgentIntegration(id, integration, enabled))
  {
  }
}
