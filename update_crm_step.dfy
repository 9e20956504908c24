/**
 * `handleUpdateCrmStep`: validates an `update_crm_step` call; the step fields
 * are coerced exactly as for `create_crm_step`. The enum-typed fields are
 * passed on without being checked against their enums.
 */
module UpdateCrmStepTool {
  import opened Outcomes
  import opened JsValues
  import opened Api
  import opened ToolCall
  import CreateCrmStepTool

  const Name := "update_crm_step"
  const MissingMessage := "'id' and 'name' are required arguments."

  function HandleUpdateCrmStep(tool: string, arguments: Option<Args>): (r: Result<Request, Failure>)
    ensures tool != Name ==> r == Failure(UnknownTool)
    ensures tool == Name ==>
      (r.Failure? <==> !Truthy(Get(OrEmpty(arguments), "id")) || !Truthy(Get(OrEmpty(arguments), "name")))
    ensures tool == Name && r.Failure? ==> r.error == Invalid(MissingMessage)
    ensures r.Success? ==>
      r.value == UpdateCrmStep(ToStr(Get(OrEmpty(arguments), "id")), CreateCrmStepTool.StepFieldsOf(OrEmpty(arguments)))
  {
    if tool != Name then Failure(UnknownTool)
    else
      var args := OrEmpty(arguments);
      if AnyFalsy(args, ["id", "name"]) then Failure(Invalid(MissingMessage))
      else Success(UpdateCrmStep(ToStr(Get(args, "id")), CreateCrmStepTool.StepFieldsOf(args)))
  }

  /** A value outside the status enum is forwarded as its string. */
  lemma StatusIsNotCheckedAgainstEnum(id: string, name: string, status: string)
    requires id != "" && name != "" && status != ""
    ensures var args := map["id" := Str(id), "name" := Str(name), "defaultStatus" := Str(status)];
      HandleUpdateCrmStep(Name, Some(args)).value.step.defaultStatus == Some(status)
  {
  }

  /** Updating a step and creating one build the same step fields from the same arguments. */
  lemma SameFieldsAsCreate(args: Args)
    requires Truthy(Get(args, "id")) && Truthy(Get(args, "scenarioId")) && Truthy(Get(args, "name"))
    ensures HandleUpdateCrmStep(Name, Some(args)).value.step
      == CreateCrmStepTool.HandleCreateCrmStep(CreateCrmStepTool.Name, Some(args)).value.step
  {
  }
}
