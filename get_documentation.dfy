/**
 * `handleGetDocumentation` and its `DOC_FILES` table: a documentation type is
 * looked up in a fixed table of five file names and the file's text is the
 * answer. The handler does not look at the tool name. A failed read is not
 * an error: the answer is then a short message naming the type. Reading the
 * file is an oracle from the file name to its text, or `None` when the read
 * fails.
 */
module GetDocumentationTool {
  import opened Outcomes
  import opened JsValues
  import opened ToolCall

  /** `DOC_FILES`: documentation type to file name. */
  const DocFiles: map<string, string> := map[
    "tools" := "TOOL_DESCRIPTIONS.md",
    "models" := "MODELS.md",
    "prompts" := "SYSTEM_PROMPTS.md",
    "chatvolt_http_tools" := "CHATVOLT_HTTP_TOOLS.md",
    "cal_com_http_tools" := "CAL_COM_HTTP_TOOLS.md"]

  /** The `enum` of the tool's `docType` parameter, in schema order. */
  const DocTypeEnum := ["tools", "models", "prompts", "chatvolt_http_tools", "cal_com_http_tools"]

  /** Reading a file of the working directory by name. */
  type ReadFile = string -> Option<string>

  /** The table has five entries, one per schema value, each with its own file. */
  lemma DocFilesMatchSchema()
    ensures |DocFiles| == 5
    ensures forall t :: t in DocFiles <==> t in DocTypeEnum
    ensures forall t1, t2 :: t1 in DocFiles && t2 in DocFiles && t1 != t2 ==> DocFiles[t1] != DocFiles[t2]
  {
    assert DocFiles.Keys == {"tools", "models", "prompts", "chatvolt_http_tools", "cal_com_http_tools"};
    forall t1, t2 | t1 in DocFiles && t2 in DocFiles && t1 != t2 ensures DocFiles[t1] != DocFiles[t2] {
      assert |DocFiles[t1]| != |DocFiles[t2]|;
    }
  }

  function InvalidMessage(docType: JsValue): string
  {
    "Invalid docType: " + ToStr(docType)
  }

  function ReadFailedMessage(docType: string): string
  {
    "Error retrieving documentation for " + docType + "."
  }

  function HandleGetDocumentation(tool: string, arguments: Option<Args>, read: ReadFile): (r: Result<Content, Failure>)
    ensures var docType := Get(OrEmpty(arguments), "docType");
      r.Failure? <==> !(docType.Str? && docType.s in DocFiles)
    ensures r.Failure? ==> r.error == Invalid(InvalidMessage(Get(OrEmpty(arguments), "docType")))
    ensures r.Success? ==>
      var docType := Get(OrEmpty(arguments), "docType").s;
      && (read(DocFiles[docType]).Some? ==> r.value == Text(read(DocFiles[docType]).value))
      && (read(DocFiles[docType]).None? ==> r.value == Text(ReadFailedMessage(docType)))
  {
    var docType := Get(OrEmpty(arguments), "docType");
    if !Truthy(docType) || !docType.Str? || docType.s !in DocFiles then Failure(Invalid(InvalidMessage(docType)))
    else
      match read(DocFiles[docType.s])
      case Some(content) => Success(Text(content))
      case None => Success(Text(ReadFailedMessage(docType.s)))
  }

  /** The tool name plays no part: the answer is the same whatever name the call carries. */
  lemma NameIsNotChecked(tool1: string, tool2: string, arguments: Option<Args>, read: ReadFile)
    ensures HandleGetDocumentation(tool1, arguments, read) == HandleGetDocumentation(tool2, arguments, read)
  {
  }

  /** An unknown type is rejected and named in the message; "tools" reads TOOL_DESCRIPTIONS.md. */
  lemma KnownAndUnknownTypes(read: ReadFile)
    ensures HandleGetDocumentation("get_documentation", Some(map["docType" := Str("invalid_type")]), read)
      == Failure(Invalid("Invalid docType: " + "invalid_type"))
    ensures read("TOOL_DESCRIPTIONS.md").Some? ==>
      HandleGetDocumentation("get_documentation", Some(map["docType" := Str("tools")]), read)
        == Success(Text(read("TOOL_DESCRIPTIONS.md").value))
  {
    assert "invalid_type" !in DocFiles;
  }

  /** A non-string or absent type is rejected; its message shows its `String()` form. */
  lemma NonStringTypesAreRejected(read: ReadFile)
    ensures HandleGetDocumentation("getDocumentation", None, read) == Failure(Invalid("Invalid docType: " + "undefined"))
    ensures HandleGetDocumentation("getDocumentation", Some(map["docType" := Arr([Str("tools")])]), read)
      == Failure(Invalid("Invalid docType: " + "tools"))
  {
    var items := [Str("tools")];
    assert seq(|items|, i requires 0 <= i < |items| =>
             if items[i].Undefined? || items[i].Null? then "" else ToStr(items[i])) == ["tools"];
    assert ToStr(Arr(items)) == "tools";
  }
}
