/**
 * `handleCreateCrmStep`: validates a `create_crm_step` call and coerces each
 * step field. The coercion of the step fields is shared with
 * `handleUpdateCrmStep`, which applies it field for field.
 */
module CreateCrmStepTool {
  import opened Outcomes
  import opened JsValues
  import opened Api
  import opened ToolCall

  const Name := "create_crm_step"
  const MissingMessage := "'scenarioId' and 'name' are required arguments."

  /**
   * The step fields built from the arguments: `name` is `String(name)`; each
   * optional text field is dropped when falsy and stringified otherwise;
   * `autoNextTime` is dropped when falsy and converted with `Number()`
   * otherwise; `isRequired` is dropped when falsy and `true` otherwise; the
   * membership list is passed through as received.
   */
  function StepFieldsOf(args: Args): (step: StepFields)
    ensures step.name == ToStr(Get(args, "name"))
    ensures step.description == OptionalString(Get(args, "description"))
    ensures step.agentId == OptionalString(Get(args, "agentId"))
    ensures step.trigger == OptionalString(Get(args, "trigger"))
    ensures step.prompt == OptionalString(Get(args, "prompt"))
    ensures step.initialMessage == OptionalString(Get(args, "initialMessage"))
    ensures step.autoNextStepId == OptionalString(Get(args, "autoNextStepId"))
    ensures step.defaultStatus == OptionalString(Get(args, "defaultStatus"))
    ensures step.defaultPriority == OptionalString(Get(args, "defaultPriority"))
    ensures step.assigneeLogicType == OptionalString(Get(args, "assigneeLogicType"))
    ensures step.autoNextTime.None? <==> !Truthy(Get(args, "autoNextTime"))
    ensures step.autoNextTime.Some? ==> step.autoNextTime.value == ToNumber(Get(args, "autoNextTime"))
    ensures step.isRequired.None? <==> !Truthy(Get(args, "isRequired"))
    ensures step.isRequired != Some(false)
    ensures step.selectedMembershipIdsForAssignee == Get(args, "selectedMembershipIdsForAssignee")
  {
    StepFields(
      name := ToStr(Get(args, "name")),
      description := OptionalString(Get(args, "description")),
      agentId := OptionalString(Get(args, "agentId")),
      trigger := OptionalString(Get(args, "trigger")),
      prompt := OptionalString(Get(args, "prompt")),
      initialMessage := OptionalString(Get(args, "initialMessage")),
      autoNextStepId := OptionalString(Get(args, "autoNextStepId")),
      autoNextTime := OptionalNumber(Get(args, "autoNextTime")),
      defaultStatus := OptionalString(Get(args, "defaultStatus")),
      defaultPriority := OptionalString(Get(args, "defaultPriority")),
      assigneeLogicType := OptionalString(Get(args, "assigneeLogicType")),
      selectedMembershipIdsForAssignee := Get(args, "selectedMembershipIdsForAssignee"),
      isRequired := OptionalTrue(Get(args, "isRequired")))
  }

  function HandleCreateCrmStep(tool: string, arguments: Option<Args>): (r: Result<Request, Failure>)
    ensures tool != Name ==> r == Failure(UnknownTool)
    ensures tool == Name ==>
      (r.Failure? <==> !Truthy(Get(OrEmpty(arguments), "scenarioId")) || !Truthy(Get(OrEmpty(arguments), "name")))
    ensures tool == Name && r.Failure? ==> r.error == Invalid(MissingMessage)
    ensures r.Success? ==>
      r.value == CreateCrmStep(ToStr(Get(OrEmpty(arguments), "scenarioId")), StepFieldsOf(OrEmpty(arguments)))
  {
    if tool != Name then Failure(UnknownTool)
    else
      var args := OrEmpty(arguments);
      if AnyFalsy(args, ["scenarioId", "name"]) then Failure(Invalid(MissingMessage))
      else Success(CreateCrmStep(ToStr(Get(args, "scenarioId")), StepFieldsOf(args)))
  }

  /** Neither `trigger` nor `prompt` is needed, although the description asks for one of them. */
  lemma TriggerAndPromptAreOptional(scenarioId: string, name: string)
    requires scenarioId != "" && name != ""
    ensures var r := HandleCreateCrmStep(Name, Some(map["scenarioId" := Str(scenarioId), "name" := Str(name)]));
      && r.Success?
      && r.value.step.trigger == None && r.value.step.prompt == None
  {
    var args := map["scenarioId" := Str(scenarioId), "name" := Str(name)];
    assert !Truthy(Get(args, "trigger")) && !Truthy(Get(args, "prompt"));
  }

  /** `isRequired: false` and `autoNextTime: 0` are both dropped, not forwarded. */
  lemma FalsyFlagsAreDropped(args: Args)
    requires Get(args, "isRequired") == Bool(false) && Get(args, "autoNextTime") == Num(0)
    ensures StepFieldsOf(args).isRequired == None && StepFieldsOf(args).autoNextTime == None
  {
  }
}
