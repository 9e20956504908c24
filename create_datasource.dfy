/**
 * `handleCreateDatasource`: validates a `create_datasource` call and builds a
 * file datasource whose configuration holds only the text.
 */
module CreateDatasourceTool {
  import opened Outcomes
  import opened JsValues
  import opened Api
  import opened ToolCall

  const Name := "create_datasource"
  const MissingMessage := "'datastoreId', 'name' and 'text' are required arguments."
  const SourceType := "file"

  function HandleCreateDatasource(tool: string, arguments: Option<Args>): (r: Result<Request, Failure>)
    ensures tool != Name ==> r == Failure(UnknownTool)
    ensures tool == Name ==>
      var args := OrEmpty(arguments);
      (r.Failure? <==> !Truthy(Get(args, "datastoreId")) || !Truthy(Get(args, "name")) || !Truthy(Get(args, "text")))
    ensures tool == Name && r.Failure? ==> r.error == Invalid(MissingMessage)
    ensures r.Success? ==>
      var args := OrEmpty(arguments);
      && r.value.CreateDatasource?
      && r.value.datasource.datastoreId == ToStr(Get(args, "datastoreId"))
      && r.value.datasource.name == ToStr(Get(args, "name"))
      && r.value.datasource.sourceType == SourceType
      && r.value.datasource.config == DatasourceConfig(ToStr(Get(args, "text")))
  {
    if tool != Name then Failure(UnknownTool)
    else
      var args := OrEmpty(arguments);
      if AnyFalsy(args, ["datastoreId", "name", "text"]) then Failure(Invalid(MissingMessage))
      else
        Success(CreateDatasource(NewDatasource(
          ToStr(Get(args, "datastoreId")), ToStr(Get(args, "name")), SourceType,
          DatasourceConfig(ToStr(Get(args, "text"))))))
  }

  /** A call naming only the datasource is rejected before anything is sent. */
  lemma MissingDatastoreIsRejected()
    ensures HandleCreateDatasource(Name, Some(map["name" := Str("Missing Datastore ID")])) == Failure(Invalid(MissingMessage))
  {
    assert !Truthy(Get(map["name" := Str("Missing Datastore ID")], "datastoreId"));
  }
}
