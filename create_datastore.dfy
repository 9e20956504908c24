/**
 * `handleCreateDatastore`: validates a `create_datastore` call. The `type`
 * argument only has to be truthy; the payload's type is always "qdrant".
 */
module CreateDatastoreTool {
  import opened Outcomes
  import opened JsValues
  import opened Api
  import opened ToolCall

  const Name := "create_datastore"
  const MissingMessage := "'type' is a required argument."
  const StoreType := "qdrant"

  function HandleCreateDatastore(tool: string, arguments: Option<Args>): (r: Result<Request, Failure>)
    ensures tool != Name ==> r == Failure(UnknownTool)
    ensures tool == Name ==> (r.Failure? <==> !Truthy(Get(OrEmpty(arguments), "type")))
    ensures tool == Name && r.Failure? ==> r.error == Invalid(MissingMessage)
    ensures r.Success? ==>
      var args := OrEmpty(arguments);
      && r.value.CreateDatastore?
      && r.value.datastore.storeType == StoreType
      && r.value.datastore.name == OptionalString(Get(args, "name"))
      && r.value.datastore.description == OptionalString(Get(args, "description"))
      && (r.value.datastore.isPublic.None? <==> !Truthy(Get(args, "isPublic")))
      && r.value.datastore.isPublic != Some(false)
      && r.value.datastore.pluginName == OptionalString(Get(args, "pluginName"))
      && r.value.datastore.pluginDescriptionForHumans == OptionalString(Get(args, "pluginDescriptionForHumans"))
  {
    if tool != Name then Failure(UnknownTool)
    else
      var args := OrEmpty(arguments);
      if !Truthy(Get(args, "type")) then Failure(Invalid(MissingMessage))
      else
        Success(CreateDatastore(NewDatastore(
          name := OptionalString(Get(args, "name")),
          description := OptionalString(Get(args, "description")),
          storeType := StoreType,
          isPublic := OptionalTrue(Get(args, "isPublic")),
          pluginName := OptionalString(Get(args, "pluginName")),
          pluginDescriptionForHumans := OptionalString(Get(args, "pluginDescriptionForHumans")))))
  }

  /** The supplied `type` has no influence on the payload beyond passing the check. */
  lemma TypeValueIsIgnored(args: Args, t1: JsValue, t2: JsValue)
    requires Truthy(t1) && Truthy(t2)
    ensures HandleCreateDatastore(Name, Some(args["type" := t1])) == HandleCreateDatastore(Name, Some(args["type" := t2]))
  {
    var a1 := args["type" := t1];
    var a2 := args["type" := t2];
    assert forall k :: k != "type" ==> Get(a1, k) == Get(a2, k);
  }
}
