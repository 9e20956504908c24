/** `handleDeleteAgent`: deletes the agent named by a truthy `id`, converted with `String()`. */
module DeleteAgentTool {
  import opened Outcomes
  import opened JsValues
  import opened Api
  import opened ToolCall

  const Name := "delete_agent"
  const MissingMessage := "'id' is a required argument."

  function HandleDeleteAgent(tool: string, arguments: Option<Args>): (r: Result<Request, Failure>)
    ensures tool != Name ==> r == Failure(UnknownTool)
    ensures tool == Name ==> (r.Failure? <==> !Truthy(Get(OrEmpty(arguments), "id")))
    ensures tool == Name && r.Failure? ==> r.error == Invalid(MissingMessage)
    ensures r.Success? ==> r.value == DeleteAgent(ToStr(Get(OrEmpty(arguments), "id")))
  {
    if tool != Name then Failure(UnknownTool)
    else
      var id := Get(OrEmpty(arguments), "id");
      if !Truthy(id) then Failure(Invalid(MissingMessage))
      else Success(DeleteAgent(ToStr(id)))
  }

  /**
   * A deletion sends exactly one call, the deletion, and answers with the
   * stringified response; a rejected one sends nothing.
   */
  lemma DeletionExchange(arguments: Option<Args>, api: RemoteApi)
    ensures var x := Perform(HandleDeleteAgent(Name, arguments), api);
      && (!Truthy(Get(OrEmpty(arguments), "id")) ==> x == Exchange([], Failure(Invalid(MissingMessage))))
      && (Truthy(Get(OrEmpty(arguments), "id")) ==>
            var req := DeleteAgent(ToStr(Get(OrEmpty(arguments), "id")));
            && x.calls == [req]
            && (api(req).Success? ==> x.outcome == Success(JsonText(api(req).value))))
  {
  }

  /** A numeric id is sent as its decimal text, which reads back as the same number. */
  lemma NumericIdIsStringified(n: int)
    requires n != 0
    ensures HandleDeleteAgent(Name, Some(map["id" := Num(n)])).value.id == ToStr(Num(n))
    ensures ToNumber(Str(HandleDeleteAgent(Name, Some(map["id" := Num(n)])).value.id)) == Finite(n)
  {
    NumberOfStringOfInt(n);
  }
}
