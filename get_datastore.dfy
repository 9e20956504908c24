/**
 * `handleGetDatastore`: unlike the other handlers, absent arguments are an
 * error of their own, raised before the id check. Every argument except `id`
 * becomes a query parameter.
 */
module GetDatastoreTool {
  import opened Outcomes
  import opened JsValues
  import opened Api
  import opened ToolCall

  const Name := "get_datastore"
  const NoArgumentsMessage := "Missing arguments"
  const MissingMessage := "'id' is a required argument."

  function HandleGetDatastore(tool: string, arguments: Option<Args>): (r: Result<Request, Failure>)
    ensures tool != Name ==> r == Failure(UnknownTool)
    ensures tool == Name && arguments.None? ==> r == Failure(Invalid(NoArgumentsMessage))
    ensures tool == Name && arguments.Some? ==>
      && (r.Failure? <==> !Truthy(Get(arguments.value, "id")))
      && (r.Failure? ==> r.error == Invalid(MissingMessage))
    ensures r.Success? ==>
      var args := arguments.value;
      && r.value.GetDatastoreById?
      && r.value.id == ToStr(Get(args, "id"))
      && r.value.queryParams.Keys == args.Keys - {"id"}
      && (forall k :: k in r.value.queryParams ==> r.value.queryParams[k] == args[k])
  {
    if tool != Name then Failure(UnknownTool)
    else
      match arguments
      case None => Failure(Invalid(NoArgumentsMessage))
      case Some(args) =>
        if !Truthy(Get(args, "id")) then Failure(Invalid(MissingMessage))
        else Success(GetDatastoreById(ToStr(Get(args, "id")), WithoutId(args)))
  }

  /** Absent arguments and an empty bag fail with different messages. */
  lemma AbsentDiffersFromEmpty()
    ensures HandleGetDatastore(Name, None) == Failure(Invalid(NoArgumentsMessage))
    ensures HandleGetDatastore(Name, Some(map[])) == Failure(Invalid(MissingMessage))
    ensures NoArgumentsMessage != MissingMessage
  {
  }

  /** Filters are forwarded as given: a status outside the enum and a string limit reach the query. */
  lemma FiltersAreForwardedUnchecked(id: string, status: string)
    requires id != ""
    ensures HandleGetDatastore(Name, Some(map["id" := Str(id), "status" := Str(status), "limit" := Str("10")]))
      == Success(GetDatastoreById(id, map["status" := Str(status), "limit" := Str("10")]))
  {
    var args := map["id" := Str(id), "status" := Str(status), "limit" := Str("10")];
    assert WithoutId(args) == map["status" := Str(status), "limit" := Str("10")];
  }
}
