/**
 * `handleAgentQuery`: the `agent_query` call sends every argument except `id`
 * as the query body. Only `id` is checked; a missing `query` is sent on.
 */
module AgentQueryTool {
  import opened Outcomes
  import opened JsValues
  import opened Api
  import opened ToolCall

  const Name := "agent_query"
  const MissingMessage := "'id' is a required argument."

  function HandleAgentQuery(tool: string, arguments: Option<Args>): (r: Result<Request, Failure>)
    ensures tool != Name ==> r == Failure(UnknownTool)
    ensures tool == Name ==> (r.Failure? <==> !Truthy(Get(OrEmpty(arguments), "id")))
    ensures tool == Name && r.Failure? ==> r.error == Invalid(MissingMessage)
    ensures r.Success? ==>
      var args := OrEmpty(arguments);
      && r.value.AgentQuery?
      && r.value.id == ToStr(Get(args, "id"))
      && r.value.body.Keys == args.Keys - {"id"}
      && (forall k :: k in r.value.body ==> r.value.body[k] == args[k])
  {
    if tool != Name then Failure(UnknownTool)
    else
      var args := OrEmpty(arguments);
      if !Truthy(Get(args, "id")) then Failure(Invalid(MissingMessage))
      else Success(AgentQuery(ToStr(Get(args, "id")), WithoutId(args)))
  }

  /** `{ id: "123", query: "Hello" }` queries agent "123" with the body `{ query: "Hello" }`. */
  lemma IdIsSplitOffTheBody()
    ensures HandleAgentQuery(Name, Some(map["id" := Str("123"), "query" := Str("Hello")]))
      == Success(AgentQuery("123", map["query" := Str("Hello")]))
  {
    var args := map["id" := Str("123"), "query" := Str("Hello")];
    assert WithoutId(args) == map["query" := Str("Hello")];
  }

  /** Absent arguments read as `{}` and fail the id check; a query without an id fails it too. */
  lemma AbsentIdIsRejected(query: JsValue)
    ensures HandleAgentQuery(Name, None) == Failure(Invalid(MissingMessage))
    ensures HandleAgentQuery(Name, Some(map["query" := query])) == Failure(Invalid(MissingMessage))
  {
    assert Get(map["query" := query], "id") == Undefined;
  }
}
