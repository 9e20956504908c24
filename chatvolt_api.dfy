/**
 * The remote operations of the Chatvolt REST client that the tool handlers
 * call, each with the typed payload the handler builds for it. A value of
 * `Request` is one outbound call; HTTP, authentication and response decoding
 * are not modelled. An optional payload field is `None` where the handler
 * passes `undefined`.
 */
module Api {
  import opened Outcomes
  import opened JsValues

  /** The agent payload of `createAgent`. `tools` is passed through as received. */
  datatype NewAgent = NewAgent(
    name: string,
    description: Option<string>,
    modelName: string,
    systemPrompt: Option<string>,
    temperature: Option<JsNumber>,
    tools: JsValue)

  /** The fields shared by the `createCrmStep` and `updateCrmStep` payloads. */
  datatype StepFields = StepFields(
    name: string,
    description: Option<string>,
    agentId: Option<string>,
    trigger: Option<string>,
    prompt: Option<string>,
    initialMessage: Option<string>,
    autoNextStepId: Option<string>,
    autoNextTime: Option<JsNumber>,
    defaultStatus: Option<string>,
    defaultPriority: Option<string>,
    assigneeLogicType: Option<string>,
    selectedMembershipIdsForAssignee: JsValue,
    isRequired: Option<bool>)

  /** The payload of `createDatastore`; `storeType` is the payload's `type` field. */
  datatype NewDatastore = NewDatastore(
    name: Option<string>,
    description: Option<string>,
    storeType: string,
    isPublic: Option<bool>,
    pluginName: Option<string>,
    pluginDescriptionForHumans: Option<string>)

  /** The payload of `createDatasource`; `sourceType` is the payload's `type` field. */
  datatype NewDatasource = NewDatasource(
    datastoreId: string,
    name: string,
    sourceType: string,
    config: DatasourceConfig)

  datatype DatasourceConfig = DatasourceConfig(text: string)

  /**
   * A tool-config variant that a handler adds to an agent. Each stands for the
   * object the handler builds, `{ type: TypeTag(c), … }`: `datastoreId` for a
   * datastore, `config: { delay }` for delayed responses, the caller's
   * `config` for follow-up messages, and the tag alone for the other two.
   */
  datatype ToolConfig =
    | DatastoreTool(datastoreId: string)
    | DelayedResponsesTool(delay: JsNumber)
    | RequestHumanTool
    | MarkAsResolvedTool
    | FollowUpMessagesTool(config: JsValue)

  /** The `type` field each variant carries in the payload. */
  function TypeTag(c: ToolConfig): string
  {
    match c
    case DatastoreTool(_) => "datastore"
    case DelayedResponsesTool(_) => "delayed_responses"
    case RequestHumanTool => "request_human"
    case MarkAsResolvedTool => "mark_as_resolved"
    case FollowUpMessagesTool(_) => "follow_up_messages"
  }

  /** The `type` tag tells the five kinds of entry apart. */
  lemma TagsIdentifyVariants(c: ToolConfig, d: ToolConfig)
    ensures TypeTag(c) == TypeTag(d) <==>
      && (c.DatastoreTool? <==> d.DatastoreTool?)
      && (c.DelayedResponsesTool? <==> d.DelayedResponsesTool?)
      && (c.RequestHumanTool? <==> d.RequestHumanTool?)
      && (c.MarkAsResolvedTool? <==> d.MarkAsResolvedTool?)
      && (c.FollowUpMessagesTool? <==> d.FollowUpMessagesTool?)
  {
  }

  /** An entry of an agent's tool list: one fetched from the remote agent, or the one being added. */
  datatype ToolItem = Existing(json: JsValue) | Added(config: ToolConfig)

  datatype Request =
    | GetAgentById(id: string)
    | CreateAgent(agent: NewAgent)
    /** `updateAgent(id, agentData)` with a partial body of arbitrary fields. */
    | UpdateAgent(id: string, fields: map<string, JsValue>)
    /** `updateAgent(id, { tools })`: a body whose only field is the whole tool list. */
    | UpdateAgentTools(id: string, tools: seq<ToolItem>)
    | DeleteAgent(id: string)
    | AgentQuery(id: string, body: map<string, JsValue>)
    | EnableDisableAgentIntegration(id: string, integration: string, enabled: bool)
    | CreateCrmScenario(name: string, description: Option<string>)
    | UpdateCrmScenario(id: string, name: string, description: Option<string>)
    | DeleteCrmScenario(id: string)
    | ListCrmScenarios(agentId: Option<string>)
    | CreateCrmStep(scenarioId: string, step: StepFields)
    | UpdateCrmStep(id: string, step: StepFields)
    | DeleteCrmStep(id: string)
    | ListCrmSteps(scenarioId: string)
    | CreateDatastore(datastore: NewDatastore)
    | GetDatastoreById(id: string, queryParams: map<string, JsValue>)
    | CreateDatasource(datasource: NewDatasource)
}
