/** `handleDeleteCrmScenario`: deletes the CRM scenario named by a truthy `id`, converted with `String()`. */
module DeleteCrmScenarioTool {
  import opened Outcomes
  import opened JsValues
  import opened Api
  import opened ToolCall

  const Name := "delete_crm_scenario"
  const MissingMessage := "'id' is a required argument."

  function HandleDeleteCrmScenario(tool: string, arguments: Option<Args>): (r: Result<Request, Failure>)
    ensures tool != Name ==> r == Failure(UnknownTool)
    ensures tool == Name ==> (r.Failure? <==> !Truthy(Get(OrEmpty(arguments), "id")))
    ensures tool == Name && r.Failure? ==> r.error == Invalid(MissingMessage)
    ensures r.Success? ==> r.value == DeleteCrmScenario(ToStr(Get(OrEmpty(arguments), "id")))
  {
    if tool != Name then Failure(UnknownTool)
    else
      var id := Get(OrEmpty(arguments), "id");
      if !Truthy(id) then Failure(Invalid(MissingMessage))
      else Success(DeleteCrmScenario(ToStr(id)))
  }

  /** Absent arguments read as `{}`, and falsy values count as missing. */
  lemma AbsentOrFalsyIsRejected()
    ensures HandleDeleteCrmScenario(Name, None) == Failure(Invalid(MissingMessage))
    ensures HandleDeleteCrmScenario(Name, Some(map["id" := Num(0)])) == Failure(Invalid(MissingMessage))
    ensures HandleDeleteCrmScenario(Name, Some(map["id" := Str("")])) == Failure(Invalid(MissingMessage))
  {
  }
}
