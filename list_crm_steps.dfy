/** `handleListCrmSteps`: lists the steps of the CRM scenario named by a truthy `scenarioId`, converted with `String()`. */
module ListCrmStepsTool {
  import opened Outcomes
  import opened JsValues
  import opened Api
  import opened ToolCall

  const Name := "list_crm_steps"
  const MissingMessage := "'scenarioId' is a required argument."

  function HandleListCrmSteps(tool: string, arguments: Option<Args>): (r: Result<Request, Failure>)
    ensures tool != Name ==> r == Failure(UnknownTool)
    ensures tool == Name ==> (r.Failure? <==> !Truthy(Get(OrEmpty(arguments), "scenarioId")))
    ensures tool == Name && r.Failure? ==> r.error == Invalid(MissingMessage)
    ensures r.Success? ==> r.value == ListCrmSteps(ToStr(Get(OrEmpty(arguments), "scenarioId")))
  {
    if tool != Name then Failure(UnknownTool)
    else
      var scenarioId := Get(OrEmpty(arguments), "scenarioId");
      if !Truthy(scenarioId) then Failure(Invalid(MissingMessage))
      else Success(ListCrmSteps(ToStr(scenarioId)))
  }

  /** Absent arguments read as `{}`, and falsy values count as missing. */
  lemma AbsentOrFalsyIsRejected()
    ensures HandleListCrmSteps(Name, None) == Failure(Invalid(MissingMessage))
    ensures HandleListCrmSteps(Name, Some(map["scenarioId" := Num(0)])) == Failure(Invalid(MissingMessage))
    ensures HandleListCrmSteps(Name, Some(map["scenarioId" := Str("")])) == Failure(Invalid(MissingMessage))
  {
  }
}
