/** `handleDeleteCrmStep`: deletes the CRM step named by a truthy `id`, converted with `String()`. */
module DeleteCrmStepTool {
  import opened Outcomes
  import opened JsValues
  import opened Api
  import opened ToolCall

  const Name := "delete_crm_step"
  const MissingMessage := "'id' is a required argument."

  function HandleDeleteCrmStep(tool: string, arguments: Option<Args>): (r: Result<Request, Failure>)
    ensures tool != Name ==> r == Failure(UnknownTool)
    ensures tool == Name ==> (r.Failure? <==> !Truthy(Get(OrEmpty(arguments), "id")))
    ensures tool == Name && r.Failure? ==> r.error == Invalid(MissingMessage)
    ensures r.Success? ==> r.value == DeleteCrmStep(ToStr(Get(OrEmpty(arguments), "id")))
  {
    if tool != Name then Failure(UnknownTool)
    else
      var id := Get(OrEmpty(arguments), "id");
      if !Truthy(id) then Failure(Invalid(MissingMessage))
      else Success(DeleteCrmStep(ToStr(id)))
  }

  /** Absent arguments read as `{}`, and falsy values count as missing. */
  lemma AbsentOrFalsyIsRejected()
    ensures HandleDeleteCrmStep(Name, None) == Failure(Invalid(MissingMessage))
    ensures HandleDeleteCrmStep(Name, Some(map["id" := Num(0)])) == Failure(Invalid(MissingMessage))
    ensures HandleDeleteCrmStep(Name, Some(map["id" := Str("")])) == Failure(Invalid(MissingMessage))
  {
  }
}
