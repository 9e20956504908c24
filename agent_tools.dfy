/**
 * The read-modify-write shared by the add-tool handlers: fetch the agent,
 * take its `tools` list (an empty list when it is absent), append the new
 * variant, and send the whole list back as the only field of an update.
 */
module AgentTools {
  import opened Outcomes
  import opened JsValues
  import opened Api
  import opened ToolCall

  /** What a validated add-tool call does: add `variant` to the agent `agentId`. */
  datatype AddPlan = AddPlan(agentId: string, variant: ToolConfig)

  /**
   * `[...(agent.tools || [])]` on the fetched agent. Reading a property of
   * null or undefined, and spreading a truthy value that is not iterable, are
   * TypeErrors; spreading a string yields its characters.
   */
  function ExistingTools(agent: JsValue): (r: Result<seq<JsValue>, Failure>)
    ensures agent.Obj? && !Truthy(Get(agent.fields, "tools")) ==> r == Success([])
    ensures agent.Obj? && Get(agent.fields, "tools").Arr? ==> r == Success(Get(agent.fields, "tools").items)
    ensures r.Failure? <==> agent.Undefined? || agent.Null? || (agent.Obj? && Spread(Get(agent.fields, "tools")).Failure?)
    ensures !agent.Obj? && !agent.Undefined? && !agent.Null? ==> r == Success([])
    ensures r.Failure? ==> r.error == TypeError
  {
    match agent
    case Undefined => Failure(TypeError)
    case Null => Failure(TypeError)
    case Obj(fields) => Spread(Get(fields, "tools"))
    case _ => Success([])
  }

  /** The one-character strings a string spreads into, in order. */
  function Characters(s: string): (cs: seq<JsValue>)
    ensures |cs| == |s|
    ensures forall i :: 0 <= i < |s| ==> cs[i] == Str([s[i]])
  {
    if s == "" then [] else [Str([s[0]])] + Characters(s[1..])
  }

  /**
   * `[...(tools || [])]`: a falsy value (the empty string included) gives no
   * entries, an array its own entries, a string its characters in order, and
   * anything else is not iterable.
   */
  function Spread(tools: JsValue): (r: Result<seq<JsValue>, Failure>)
    ensures !Truthy(tools) ==> r == Success([])
    ensures tools.Arr? ==> r == Success(tools.items)
    ensures tools.Str? && tools.s != "" ==>
      r.Success? && |r.value| == |tools.s| && forall i :: 0 <= i < |tools.s| ==> r.value[i] == Str([tools.s[i]])
    ensures r.Failure? <==> Truthy(tools) && !tools.Arr? && !tools.Str?
    ensures r.Failure? ==> r.error == TypeError
  {
    match tools
    case Arr(items) => Success(items)
    case Str(s) => Success(Characters(s))
    case _ => if Truthy(tools) then Failure(TypeError) else Success([])
  }

  /** `[...existingTools, newTool]`: the fetched entries, unchanged and in order, then the new one. */
  function UpdatedTools(agent: JsValue, variant: ToolConfig): (r: Result<seq<ToolItem>, Failure>)
    ensures r.Success? <==> ExistingTools(agent).Success?
    ensures r.Failure? ==> r.error == ExistingTools(agent).error
    ensures r.Success? ==>
      var kept := ExistingTools(agent).value;
      && |r.value| == |kept| + 1
      && (forall i :: 0 <= i < |kept| ==> r.value[i] == Existing(kept[i]))
      && r.value[|kept|] == Added(variant)
  {
    match ExistingTools(agent)
    case Failure(e) => Failure(e)
    case Success(kept) => Success(seq(|kept|, i requires 0 <= i < |kept| => Existing(kept[i])) + [Added(variant)])
  }

  /**
   * Runs an add-tool handler: nothing is sent when validation fails; otherwise
   * the agent is fetched and, if that succeeds, updated with exactly the
   * appended tool list, and the update's response is the result.
   */
  function AddToAgent(plan: Result<AddPlan, Failure>, api: RemoteApi): (x: Exchange)
    ensures plan.Failure? ==> x == Exchange([], Failure(plan.error))
    ensures plan.Success? ==> 1 <= |x.calls| <= 2 && x.calls[0] == GetAgentById(plan.value.agentId)
    ensures plan.Success? && api(GetAgentById(plan.value.agentId)).Failure? ==>
      x == Exchange([GetAgentById(plan.value.agentId)], Failure(Remote(api(GetAgentById(plan.value.agentId)).error)))
    ensures plan.Success? && api(GetAgentById(plan.value.agentId)).Success? ==>
      var tools := UpdatedTools(api(GetAgentById(plan.value.agentId)).value, plan.value.variant);
      && (tools.Failure? ==> x == Exchange([GetAgentById(plan.value.agentId)], Failure(tools.error)))
      && (tools.Success? ==>
            var update := UpdateAgentTools(plan.value.agentId, tools.value);
            && x.calls == [GetAgentById(plan.value.agentId), update]
            && (api(update).Success? ==> x.outcome == Success(JsonText(api(update).value)))
            && (api(update).Failure? ==> x.outcome == Failure(Remote(api(update).error))))
  {
    match plan
    case Failure(e) => Exchange([], Failure(e))
    case Success(AddPlan(id, variant)) =>
      var fetch := GetAgentById(id);
      match api(fetch)
      case Failure(msg) => Exchange([fetch], Failure(Remote(msg)))
      case Success(agent) =>
        match UpdatedTools(agent, variant)
        case Failure(e) => Exchange([fetch], Failure(e))
        case Success(tools) =>
          var update := UpdateAgentTools(id, tools);
          match api(update)
          case Success(data) => Exchange([fetch, update], Success(JsonText(data)))
          case Failure(msg) => Exchange([fetch, update], Failure(Remote(msg)))
  }

  /**
   * Whatever list the agent already has, even one holding an entry of the
   * same kind, is kept unchanged and in order in front of the new entry:
   * nothing is replaced or deduplicated.
   */
  lemma ExistingToolsStayFirst(items: seq<JsValue>, variant: ToolConfig)
    ensures UpdatedTools(Obj(map["tools" := Arr(items)]), variant)
      == Success(seq(|items|, i requires 0 <= i < |items| => Existing(items[i])) + [Added(variant)])
  {
    assert ExistingTools(Obj(map["tools" := Arr(items)])) == Success(items);
  }

  /** An agent with no tools, or an empty tool list, is updated with the new entry alone. */
  lemma NoToolsGiveOneEntry(fields: map<string, JsValue>, variant: ToolConfig)
    requires !Truthy(Get(fields, "tools")) || Get(fields, "tools") == Arr([])
    ensures UpdatedTools(Obj(fields), variant) == Success([Added(variant)])
  {
    assert ExistingTools(Obj(fields)) == Success([]);
    var r := UpdatedTools(Obj(fields), variant).value;
    assert |r| == 1 && r[0] == Added(variant);
    assert r == [Added(variant)];
  }

  /**
   * Any accepted add-tool call on an agent that has no tools, or an empty
   * list: the agent is fetched, then updated with the new entry alone.
   */
  lemma NoToolsAddTheEntryAlone(plan: Result<AddPlan, Failure>, api: RemoteApi, fields: map<string, JsValue>)
    requires plan.Success?
    requires api(GetAgentById(plan.value.agentId)) == Success(Obj(fields))
    requires !Truthy(Get(fields, "tools")) || Get(fields, "tools") == Arr([])
    ensures AddToAgent(plan, api).calls
      == [GetAgentById(plan.value.agentId), UpdateAgentTools(plan.value.agentId, [Added(plan.value.variant)])]
  {
    NoToolsGiveOneEntry(fields, plan.value.variant);
  }
}
