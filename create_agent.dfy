/**
 * `handleCreateAgent`: validates a `create_agent` call and builds the agent
 * payload. Only `name` and `modelName` are checked, by truthiness, although
 * the schema also lists `description` and `systemPrompt` as required.
 */
module CreateAgentTool {
  import opened Outcomes
  import opened JsValues
  import opened Api
  import opened ToolCall

  const Name := "create_agent"
  const MissingMessage := "'name' and 'modelName' are required arguments."

  function HandleCreateAgent(tool: string, arguments: Option<Args>): (r: Result<Request, Failure>)
    ensures tool != Name ==> r == Failure(UnknownTool)
    ensures tool == Name ==>
      (r.Failure? <==> !Truthy(Get(OrEmpty(arguments), "name")) || !Truthy(Get(OrEmpty(arguments), "modelName")))
    ensures tool == Name && r.Failure? ==> r.error == Invalid(MissingMessage)
    ensures r.Success? ==>
      var args := OrEmpty(arguments);
      && r.value.CreateAgent?
      && r.value.agent.name == ToStr(Get(args, "name"))
      && r.value.agent.modelName == ToStr(Get(args, "modelName"))
      && r.value.agent.description == OptionalString(Get(args, "description"))
      && r.value.agent.systemPrompt == OptionalString(Get(args, "systemPrompt"))
      && r.value.agent.temperature == OptionalNumber(Get(args, "temperature"))
      && r.value.agent.tools == Get(args, "tools")
  {
    if tool != Name then Failure(UnknownTool)
    else
      var args := OrEmpty(arguments);
      if AnyFalsy(args, ["name", "modelName"]) then Failure(Invalid(MissingMessage))
      else
        Success(CreateAgent(NewAgent(
          name := ToStr(Get(args, "name")),
          description := OptionalString(Get(args, "description")),
          modelName := ToStr(Get(args, "modelName")),
          systemPrompt := OptionalString(Get(args, "systemPrompt")),
          temperature := OptionalNumber(Get(args, "temperature")),
          tools := Get(args, "tools"))))
  }

  /** Non-string required values are converted with `String()`: 123 becomes "123", true becomes "true". */
  lemma ScalarsAreStringified()
    ensures HandleCreateAgent(Name, Some(map["name" := Num(123), "modelName" := Bool(true)]))
      == Success(CreateAgent(NewAgent("123", None, "true", None, None, Undefined)))
  {
    assert ToStr(Num(123)) == "123" by {
      assert NatDigits(1) == ['1'];
      assert NatDigits(12) == ['1'] + ['2'];
      assert NatDigits(123) == ['1', '2'] + ['3'];
    }
  }

  /** A temperature of 0 is falsy and dropped; the string "0" is kept and read as 0. */
  lemma ZeroTemperatureIsDropped(name: string, modelName: string)
    requires name != "" && modelName != ""
    ensures var base := map["name" := Str(name), "modelName" := Str(modelName)];
      && HandleCreateAgent(Name, Some(base["temperature" := Num(0)])).value.agent.temperature == None
      && HandleCreateAgent(Name, Some(base["temperature" := Str("0")])).value.agent.temperature == Some(Finite(0))
  {
    ZeroQuirks();
  }

  /** A call with only `name` and `modelName` is accepted: the schema's other required keys are not enforced. */
  lemma DescriptionAndPromptAreOptional(name: string, modelName: string)
    requires name != "" && modelName != ""
    ensures HandleCreateAgent(Name, Some(map["name" := Str(name), "modelName" := Str(modelName)]))
      == Success(CreateAgent(NewAgent(name, None, modelName, None, None, Undefined)))
  {
  }
}
