# Chatvolt MCP server: a Dafny model of the tool handlers

This project models the tool-calling core of the Chatvolt MCP server. The
server exposes the Chatvolt REST API to a Model Context Protocol client as a
set of named tools. Each tool call goes to one handler. A handler:

- checks the tool name;
- validates and coerces the call's `arguments` with JavaScript's truthiness,
  `String()` and `Number()`;
- makes one remote call, or for the add-tool handlers a fetch followed by an
  update;
- answers with the response as indented JSON text.

The project also models the build script `update-tool-descriptions.mjs`. That
script picks the tool source files and works out where each one's compiled
module sits. It then regenerates each tool's description from the tool's input
schema.

Layout:

- `outcomes.dfy` (`Outcomes`): `Option` and `Result`.
- `js_values.dfy` (`JsValues`): JSON-shaped JavaScript values (`JsValue`) and
  the operations on them:
  - a missing key reads as `undefined` (`Get`);
  - `arguments ?? {}` (`OrEmpty`);
  - truthiness (`Truthy`);
  - `String()` (`ToStr`) and `Number()` (`ToNumber`);
  - the `x ? String(x) : undefined` pattern (`OptionalString`, `OptionalNumber`,
    `OptionalTrue`).
- `strings.dfy` (`Strings`): `endsWith`, `indexOf`, `split(sep)[0]`,
  `replace` with a string pattern, and `join`.
- `chatvolt_api.dfy` (`Api`): the remote operations the handlers call, as a
  `Request` datatype. It also holds the typed payloads: new agent, CRM step
  fields, new datastore, new datasource, and the tool entries an agent carries.
- `tool_call.dfy` (`ToolCall`): how a call fails (`Invalid` for a thrown
  validation error, `Remote` for an API client error, `TypeError`) and what it
  answers. The remote API is an oracle `Request -> Result<JsValue, string>`.
  `Perform` runs a one-call handler and records the requests it sent.
- `agent_tools.dfy` (`AgentTools`): the read-modify-write shared by the five
  add-tool handlers.
- One file and module per tool source file, named after the tool (for example
  `create_agent.dfy`, module `CreateAgentTool`). Each holds the handler as a
  function from the tool name and the optional arguments to the request it
  sends or the error it throws, plus lemmas on the behaviours the tests and
  the code show.
- `update_tool_descriptions.dfy` (`ToolDescriptions`): the file filter, the
  build path and the description formatter. The formatter is a method with the
  script's loop, proved equal to the `Described` function. Idempotence and the
  line format are proved about that function.

Where the tests in `src/tools.test.ts` and the code disagree, the model
follows the code. The only such case is `get_agent`'s check of a missing `id`
(src/tools.test.ts:106-118); see Findings.

## Model

| member | source | states |
|---|---|---|
| Api.TagsIdentifyVariants | src/tools/addDatastoreTool.ts:45-48 | The five `type` tags ("datastore", "delayed_responses", "request_human", "mark_as_resolved", "follow_up_messages") are equal exactly for entries of the same kind |
| ToolCall.Perform | src/tools/deleteAgent.ts:30-39 | A rejected call sends nothing; an accepted one sends exactly its request and answers with the response as JSON text, or passes the client's error on |
| ToolCall.AnyFalsy | src/tools/createDatasource.ts:40-42 | `!a \|\| !b \|\| …` holds exactly when some listed argument is missing or falsy |
| ToolCall.WithoutId | src/tools/queryAgent.ts:125 | `{ id, ...rest }`: every key but `id`, with its value unchanged |
| JsValues.OptionalString | src/tools/createAgent.ts:104 | `v ? String(v) : undefined`: absent exactly when `v` is falsy, otherwise `String(v)` |
| JsValues.OptionalNumber | src/tools/createAgent.ts:107 | `v ? Number(v) : undefined`: absent exactly when `v` is falsy, otherwise `Number(v)` |
| JsValues.OptionalTrue | src/tools/createDatastore.ts:63 | `v ? Boolean(v) : undefined`: absent exactly when falsy, and never `false` |
| JsValues.Truthy | src/tools/createAgent.ts:98-99 | `!x`: see FalsyValues |
| JsValues.FalsyValues | src/tools/createAgent.ts:98-99 | A value is falsy exactly when it is `undefined`, `null`, `false`, 0 or the empty string; arrays and objects are always truthy |
| JsValues.ToStr | src/tools/createAgent.ts:103 | `String(v)`: no contract of its own; its behaviour is stated by NumberOfStringOfInt, EmptyStringOnlyFromEmpty, GetAgentTool.ForwardedFalsyIds and CreateAgentTool.ScalarsAreStringified |
| JsValues.ToNumber | src/tools/createAgent.ts:107 | `Number(v)`: no contract of its own; see ZeroQuirks, NumberOfStringOfInt and the handlers' zero-value lemmas |
| JsValues.IntToString | src/tools/deleteAgent.ts:30 | The decimal text of an integer: at least one digit, reading back as the integer, with no leading zero unless it is the single digit "0", and a leading "-" followed by a non-zero digit for a negative one (JavaScript's form for magnitudes below 2^53) |
| JsValues.NumberOfStringOfInt | src/tools/deleteAgent.ts:30 | `Number(String(n))` gives `n` back for every integer of the model (see Left out for magnitudes of 2^53 and more) |
| JsValues.EmptyStringOnlyFromEmpty | src/tools/getAgent.ts:25-28 | `String(v)` is empty exactly when `v` is the empty string, for non-array values |
| JsValues.ZeroQuirks | src/tools/createAgent.ts:107 | The number 0 is dropped as falsy; the string "0" is kept and read as 0 |
| AgentTools.Spread | src/tools/addDatastoreTool.ts:42-51 | `[...(tools \|\| [])]`: a falsy value gives no entries, an array its entries, a non-empty string its characters in order; it fails, with a TypeError, exactly when the value is truthy and neither an array nor a string |
| AgentTools.ExistingTools | src/tools/addDatastoreTool.ts:42 | `agent.tools \|\| []` spread: no tools gives the empty list, an array is taken as it is, a non-object agent other than null or undefined gives the empty list, and it fails, always with a TypeError, exactly for a null or undefined agent or a truthy `tools` that cannot be spread |
| AgentTools.UpdatedTools | src/tools/addDatastoreTool.ts:51 | The fetched entries, unchanged and in order, followed by exactly one new entry; it fails exactly when reading the tools fails |
| AgentTools.AddToAgent | src/tools/addDatastoreTool.ts:38-65 | Nothing is sent when validation fails. Otherwise the agent is fetched first. If the fetch fails its error is the answer. If it succeeds, the only other call is the update of `tools` to the appended list, and its response or error is the answer |
| AgentTools.ExistingToolsStayFirst | src/tools/addDatastoreTool.ts:42-51 | An agent's existing tool list, whatever its length, is sent back entry for entry in order, followed by the new entry |
| AgentTools.NoToolsAddTheEntryAlone | src/tools/addDatastoreTool.ts:38-58 | Any accepted add-tool call on an agent with no tools or an empty list fetches the agent, then updates it with the new entry alone |
| AgentTools.NoToolsGiveOneEntry | src/tools/addDatastoreTool.ts:42-51 | An agent with no tools, or an empty list, is updated with the new entry alone |
| CreateAgentTool.HandleCreateAgent | src/tools/createAgent.ts:90-121 | Wrong name gives "Unknown tool". Fails exactly when `name` or `modelName` is falsy, with the source's message. The payload stringifies the two required values, drops a falsy description, prompt or temperature, and forwards `tools` unchanged |
| CreateAgentTool.ScalarsAreStringified | src/tools.test.ts:199-227 | `{name: 123, modelName: true}` creates an agent named "123" with model "true" |
| CreateAgentTool.ZeroTemperatureIsDropped | src/tools/createAgent.ts:107 | Temperature 0 is dropped; temperature "0" is kept as the number 0 |
| CreateAgentTool.DescriptionAndPromptAreOptional | src/tools/createAgent.ts:98-109 | A call with only `name` and `modelName` is accepted, although the schema lists more required keys |
| CreateCrmStepTool.StepFieldsOf | src/tools/createCrmStep.ts:114-129 | Each step field as the source builds it. `name` is `String()`. Nine text fields are `x ? String(x) : undefined`. `autoNextTime` is dropped when falsy, else `Number()`. `isRequired` is dropped when falsy and never `false`. The membership list passes through |
| CreateCrmStepTool.HandleCreateCrmStep | src/tools/createCrmStep.ts:86-139 | Wrong name gives "Unknown tool". Fails exactly when `scenarioId` or `name` is falsy, with the source's message. Otherwise creates the step under `String(scenarioId)` with those fields |
| CreateCrmStepTool.TriggerAndPromptAreOptional | src/tools/createCrmStep.ts:108-118 | A call with only `scenarioId` and `name` is accepted, with no trigger and no prompt |
| CreateCrmStepTool.FalsyFlagsAreDropped | src/tools/createCrmStep.ts:121-128 | `isRequired: false` and `autoNextTime: 0` are both dropped |
| UpdateCrmStepTool.HandleUpdateCrmStep | src/tools/updateCrmStep.ts:102-155 | Wrong name gives "Unknown tool". Fails exactly when `id` or `name` is falsy, with the source's message. Otherwise updates step `String(id)` with the same field coercions as creation |
| UpdateCrmStepTool.StatusIsNotCheckedAgainstEnum | src/tools/updateCrmStep.ts:138 | Any non-empty `defaultStatus` string is forwarded as given |
| UpdateCrmStepTool.SameFieldsAsCreate | src/tools/updateCrmStep.ts:128-145 | For the same arguments, update and create send the same step fields |
| CreateDatastoreTool.HandleCreateDatastore | src/tools/createDatastore.ts:41-80 | Wrong name gives "Unknown tool". Fails exactly when `type` is falsy. The payload's store type is always "qdrant", and the optional fields are coerced as the source does |
| CreateDatastoreTool.TypeValueIsIgnored | src/tools/createDatastore.ts:55-62 | Any two truthy `type` values give the same request |
| CreateDatasourceTool.HandleCreateDatasource | src/tools/createDatasource.ts:32-63 | Wrong name gives "Unknown tool". Fails exactly when `datastoreId`, `name` or `text` is falsy. Sends a "file" datasource with the three values stringified |
| CreateDatasourceTool.MissingDatastoreIsRejected | src/tools.test.ts:332-345 | `{name: "Missing Datastore ID"}` is rejected with the three-key message |
| EnableDisableAgentIntegrationTool.HandleEnableDisableAgentIntegration | src/tools/enableDisableAgentIntegration.ts:33-60 | Wrong name gives "Unknown tool". Fails exactly when `id` or `type` is falsy or `enabled` is absent. `enabled` is sent as `Boolean(enabled)` |
| EnableDisableAgentIntegrationTool.EnabledIsPresenceChecked | src/tools/enableDisableAgentIntegration.ts:42-49 | `enabled: false` and `null` are accepted and send false; the string "false" sends true; a missing `enabled` is rejected |
| EnableDisableAgentIntegrationTool.IntegrationIsNotChecked | src/tools/enableDisableAgentIntegration.ts:46-50 | Any non-empty integration type string is forwarded as given |
| AgentQueryTool.HandleAgentQuery | src/tools/queryAgent.ts:120-141 | Wrong name gives "Unknown tool". Fails exactly when `id` is falsy. Otherwise queries agent `String(id)` with every other argument as the body, unchanged |
| AgentQueryTool.IdIsSplitOffTheBody | src/tools.test.ts:264-281 | `{id: "123", query: "Hello"}` queries agent "123" with body `{query: "Hello"}` |
| AgentQueryTool.AbsentIdIsRejected | src/tools.test.ts:283-295 | No arguments, or only a query, is rejected with "'id' is a required argument." |
| UpdateAgentTool.HandleUpdateAgent | src/tools/updateAgent.ts:128-151 | Wrong name gives "Unknown tool". Fails exactly when `id` is falsy. Otherwise updates agent `String(id)` with exactly the other supplied keys |
| UpdateAgentTool.OnlySuppliedKeysAreSent | src/tools/updateAgent.ts:135-141 | Only an id sends an empty update; one more key sends that key alone |
| GetDatastoreTool.HandleGetDatastore | src/tools/getDatastore.ts:54-78 | Wrong name gives "Unknown tool". Absent arguments give "Missing arguments". A falsy `id` gives the id message. Otherwise fetches `String(id)` with every other argument forwarded as query parameters |
| GetDatastoreTool.AbsentDiffersFromEmpty | src/tools/getDatastore.ts:59-66 | Absent arguments and `{}` fail with two different messages |
| GetDatastoreTool.FiltersAreForwardedUnchecked | src/tools/getDatastore.ts:62-68 | Status and limit filters are forwarded as given, with no enum or range check |
| GetDocumentationTool.DocFilesMatchSchema | src/tools/getDocumentation.ts:5-24 | The table has five types, exactly the schema's enum, each with its own file |
| GetDocumentationTool.HandleGetDocumentation | src/tools/getDocumentation.ts:32-64 | Fails exactly when `docType` is not a string key of the table, with "Invalid docType: " and `String(docType)`. Otherwise the answer is the file's text, or the source's failure message when the read fails |
| GetDocumentationTool.NameIsNotChecked | src/tools/getDocumentation.ts:32-33 | The tool name never changes the result |
| GetDocumentationTool.KnownAndUnknownTypes | src/tools.test.ts:348-401 | "invalid_type" is rejected with "Invalid docType: invalid_type"; "tools" answers with the text of TOOL_DESCRIPTIONS.md |
| GetDocumentationTool.NonStringTypesAreRejected | src/tools/getDocumentation.ts:35-36 | No arguments are rejected naming "undefined"; the array ["tools"] is rejected naming "tools" |
| GetAgentTool.HandleGetAgent | src/tools/getAgent.ts:20-40 | As written: wrong name gives "Unknown tool". Fails exactly when `String(id)` is empty, with "Agent ID is required". Otherwise fetches `String(id)` |
| GetAgentTool.MissingIdFetchesUndefined | src/tools/getAgent.ts:25-30 | `{}` and absent arguments fetch agent "undefined"; `id: null` fetches "null" |
| GetAgentTool.StringIdsAreFetched | src/tools.test.ts:88-104 | A string id is fetched as it is; only the empty string is rejected |
| GetAgentTool.HandleGetAgentChecked | src/tools.test.ts:106-118 | Corrected: fails exactly when `id` is falsy, with "'id' is a required argument.". Otherwise fetches `String(id)` |
| GetAgentTool.CheckedRejectsMissingId | src/tools.test.ts:106-118 | The corrected handler rejects `{}` and absent arguments |
| GetAgentTool.CheckedAgreesOnPresentIds | src/tools/getAgent.ts:25-30 | For a truthy id whose string is not empty, both handlers send the same request |
| GetAgentTool.ForwardedFalsyIds | src/tools/getAgent.ts:25-28 | The falsy non-array ids the as-written check lets through are exactly undefined, null, false and 0 |
| DeleteAgentTool.HandleDeleteAgent | src/tools/deleteAgent.ts:19-40 | Wrong name gives "Unknown tool". Fails exactly when `id` is falsy, with the source's message. Otherwise deletes `String(id)` |
| DeleteAgentTool.DeletionExchange | src/tools/deleteAgent.ts:24-39 | A missing id sends nothing. Otherwise exactly one delete is sent, and its response is the answer |
| DeleteAgentTool.NumericIdIsStringified | src/tools/deleteAgent.ts:30 | A numeric id is sent as its decimal string (JavaScript's form below 2^53), which reads back as the same number |
| DeleteCrmStepTool.HandleDeleteCrmStep | src/tools/deleteCrmStep.ts:22-43 | Wrong name gives "Unknown tool". Fails exactly when `id` is falsy. Otherwise deletes step `String(id)` |
| DeleteCrmStepTool.AbsentOrFalsyIsRejected | src/tools/deleteCrmStep.ts:28-31 | Absent arguments, id 0 and id "" are all rejected |
| DeleteCrmScenarioTool.HandleDeleteCrmScenario | src/tools/deleteCrmScenario.ts:19-40 | Wrong name gives "Unknown tool". Fails exactly when `id` is falsy. Otherwise deletes scenario `String(id)` |
| DeleteCrmScenarioTool.AbsentOrFalsyIsRejected | src/tools/deleteCrmScenario.ts:25-28 | Absent arguments, id 0 and id "" are all rejected |
| ListCrmStepsTool.HandleListCrmSteps | src/tools/listCrmSteps.ts:19-40 | Wrong name gives "Unknown tool". Fails exactly when `scenarioId` is falsy. Otherwise lists the steps of `String(scenarioId)` |
| ListCrmStepsTool.AbsentOrFalsyIsRejected | src/tools/listCrmSteps.ts:25-28 | Absent arguments, scenario id 0 and "" are all rejected |
| ListCrmScenariosTool.HandleListCrmScenarios | src/tools/listCrmScenarios.ts:18-35 | Wrong name gives "Unknown tool"; otherwise never fails. The agent filter is absent exactly when `agentId` is falsy, else `String(agentId)` |
| ListCrmScenariosTool.NoFilterWhenAbsent | src/tools/listCrmScenarios.ts:25 | Absent arguments and an empty agent id both list with no filter |
| CreateCrmScenarioTool.HandleCreateCrmScenario | src/tools/createCrmScenario.ts:27-51 | Wrong name gives "Unknown tool". Fails exactly when `name` is falsy. The description is absent exactly when falsy, else stringified |
| CreateCrmScenarioTool.EmptyDescriptionIsDropped | src/tools/createCrmScenario.ts:40 | An empty description is not sent |
| UpdateCrmScenarioTool.HandleUpdateCrmScenario | src/tools/updateCrmScenario.ts:32-57 | Wrong name gives "Unknown tool". Fails exactly when `id` or `name` is falsy. Otherwise both are stringified, and the description is absent exactly when falsy |
| UpdateCrmScenarioTool.BothKeysAreNeeded | src/tools/updateCrmScenario.ts:39-41 | Only a name, or only an id, is rejected |
| AddDelayedResponsesTool.HandleAddDelayedResponsesTool | src/tools/addDelayedResponsesTool.ts:23-68 | Wrong name gives "Unknown tool". A falsy `agentId` is rejected first. Then an absent `delay` is rejected. Otherwise plans a delayed-responses entry with `Number(delay)` |
| AddDelayedResponsesTool.ZeroDelayIsAccepted | src/tools/addDelayedResponsesTool.ts:34-48 | Delay 0 is accepted as 0; delay null is accepted and read as 0 |
| AddDelayedResponsesTool.AgentIdIsCheckedFirst | src/tools/addDelayedResponsesTool.ts:28-36 | With no arguments the agent id message wins over the delay message |
| AddDelayedResponsesTool.AddsToAgentWithoutTools | src/tools.test.ts:513-522 | For an agent with no tools: fetch, then update with the single new entry |
| AddDatastoreTool.HandleAddDatastoreTool | src/tools/addDatastoreTool.ts:23-66 | Wrong name gives "Unknown tool". `agentId` is checked then `datastoreId`, each with its message. Otherwise plans a datastore entry with `String(datastoreId)` |
| AddDatastoreTool.AddsToAgentWithoutTools | src/tools.test.ts:474-481 | For an agent with no tools: fetch, then update with the single new entry |
| AddRequestHumanTool.HandleAddRequestHumanTool | src/tools/addRequestHumanTool.ts:19-57 | Wrong name gives "Unknown tool". Fails exactly when `agentId` is falsy. Otherwise plans a request-human entry |
| AddRequestHumanTool.AddsToAgentWithoutTools | src/tools.test.ts:552-558 | For an agent with no tools: fetch, then update with the single new entry |
| AddMarkAsResolvedTool.HandleAddMarkAsResolvedTool | src/tools/addMarkAsResolvedTool.ts:19-52 | Wrong name gives "Unknown tool". Fails exactly when `agentId` is falsy. Otherwise plans a mark-as-resolved entry |
| AddMarkAsResolvedTool.AddsToAgentWithoutTools | src/tools.test.ts:583-589 | For an agent with no tools: fetch, then update with the single new entry |
| AddFollowUpMessagesTool.HandleAddFollowUpMessagesTool | src/tools/addFollowUpMessagesTool.ts:38-73 | Wrong name gives "Unknown tool". `agentId` is checked then `config`, each with its message. Otherwise plans a follow-up entry holding `config` unchanged |
| AddFollowUpMessagesTool.EmptyConfigIsAccepted | src/tools/addFollowUpMessagesTool.ts:51-60 | An empty config object is truthy and accepted |
| AddFollowUpMessagesTool.AddsToAgentWithoutTools | src/tools.test.ts:619-626 | For an agent with no tools: fetch, then update with the single new entry |
| Strings.Before | update-tool-descriptions.mjs:30 | `split(sep)[0]`: a prefix with no `sep` inside. When `sep` occurs it stops at its first occurrence; otherwise it is the whole string |
| Strings.ReplaceFirst | update-tool-descriptions.mjs:18 | `replace` with a string pattern replaces only the first occurrence, and leaves a string without the pattern unchanged |
| ToolDescriptions.IsToolFile | update-tool-descriptions.mjs:11-13 | The filter's test; its behaviour is stated by ToolFiles and ToolFileExamples |
| ToolDescriptions.ToolFiles | update-tool-descriptions.mjs:10-14 | A name is kept exactly when it ends in `.ts` and is neither `index.ts` nor `tools.test.ts` |
| ToolDescriptions.ToolFilesOfConcatenation | update-tool-descriptions.mjs:10-14 | Filtering keeps listing order |
| ToolDescriptions.ToolFileExamples | update-tool-descriptions.mjs:10-14 | `createAgent.ts` and `createAgent.test.ts` are kept; `index.ts`, `tools.test.ts` and `createAgent.js` are not |
| ToolDescriptions.BuildFileName | update-tool-descriptions.mjs:18 | `toolFile.replace('.ts', '.js')`; see BuildNameSwapsExtension and BuildNameReplacesFirstOccurrence |
| ToolDescriptions.BuildFilePath | update-tool-descriptions.mjs:18 | The compiled module's path; see BuildPathOfToolFile |
| ToolDescriptions.BuildPathOfToolFile | update-tool-descriptions.mjs:18 | A kept tool file whose only `.ts` is its extension is looked up as `build/tools/<stem>.js` |
| ToolDescriptions.BuildNameSwapsExtension | update-tool-descriptions.mjs:18 | A name whose only `.ts` is its extension gets `.js` in its place |
| ToolDescriptions.BuildNameReplacesFirstOccurrence | update-tool-descriptions.mjs:18 | In `a.tsx.ts` the first `.ts` is replaced, giving `a.jsx.ts` |
| ToolDescriptions.KeptDescription | update-tool-descriptions.mjs:30 | `split('\n\nParameters:')[0]`: a prefix of the description holding no header; when a header occurs it starts right after the prefix, and otherwise the description is kept whole |
| ToolDescriptions.Described | update-tool-descriptions.mjs:30-44 | The regenerated description; see FormatDescription, DescribedIsIdempotent, HeaderIffProperties and KeptOfGenerated |
| ToolDescriptions.ParamLine | update-tool-descriptions.mjs:37-42 | One property's line; see RequiredMarkerIffRequired, LineEndsWithDescription and the enum lemmas |
| ToolDescriptions.EnumSuffix | update-tool-descriptions.mjs:39-42 | The enum listing; see FiveOrFewerAreAllShown, ValuesPastFiveAreNotShown, EllipsisMarksMoreThanFive, DocTypeListing and StatusListing |
| ToolDescriptions.FormatDescription | update-tool-descriptions.mjs:30-44 | The script's loop builds exactly `Described`, the kept text followed, when there are properties, by the header and one line per property |
| ToolDescriptions.AppendParamLines | update-tool-descriptions.mjs:36-43 | Extending the text property by property appends every property's line in order |
| ToolDescriptions.LinesAreInPropertyOrder | update-tool-descriptions.mjs:36-43 | Property i's line sits right after the lines of the properties before it |
| ToolDescriptions.RequiredMarkerIffRequired | update-tool-descriptions.mjs:37-38 | A line opens with the name and type, and `, required` follows exactly when the name is in `required` |
| ToolDescriptions.LineEndsWithDescription | update-tool-descriptions.mjs:38 | Without an enum a line ends with "): " and the description; a missing description leaves nothing after it |
| ToolDescriptions.ValuesPastFiveAreNotShown | update-tool-descriptions.mjs:40 | Two enums that agree on their first five values get the same listing |
| ToolDescriptions.FiveOrFewerAreAllShown | update-tool-descriptions.mjs:39-42 | Five values or fewer are all listed, comma-separated, with no "..." |
| ToolDescriptions.DocTypeListing | src/tools/getDocumentation.ts:18-24 | The five documentation types are listed in full, as the description states them |
| ToolDescriptions.StatusListing | src/tools/getDatastore.ts:11-30 | Of the six datastore statuses the first five are listed, followed by "..." |
| ToolDescriptions.EllipsisMarksMoreThanFive | update-tool-descriptions.mjs:40-41 | More than five values are listed as the first five would be, with "..." before the closing parenthesis |
| ToolDescriptions.HeaderIsFirstAfterKept | update-tool-descriptions.mjs:30-35 | When the kept text holds no header, the header appended after it is the first one in the result |
| ToolDescriptions.KeptOfGenerated | update-tool-descriptions.mjs:30-35 | Splitting a generated description at the header gives back the kept text it was built from |
| ToolDescriptions.KeptIsStable | update-tool-descriptions.mjs:30-34 | With no properties the result is the kept text, which holds no header and is kept unchanged again |
| ToolDescriptions.DescribedIsIdempotent | update-tool-descriptions.mjs:30-44 | Regenerating a generated description with the same schema changes nothing |
| ToolDescriptions.HeaderIffProperties | update-tool-descriptions.mjs:34-35 | The result holds the parameters header exactly when the schema has at least one property |

## Left out

- The MCP transport, the server's tool registry and dispatch (`src/index.ts`, `src/server.ts`, `src/tools/index.ts`) are not part of this model. A handler is entered with the tool name it was given.
- `src/services/chatvolt.ts` is not part of this model. Its HTTP calls, API key, URLs and error wrapping are replaced by the `RemoteApi` oracle. `Request` names the operation and its arguments.
- The `list_agents` and `list_datastores` handlers take no arguments and only forward the API's answer. They sit outside the modelled core.
- `JSON.stringify(data, null, 2)` is not computed; `JsonText(data)` stands for it.
- Numbers are integers only. Floating point, NaN arithmetic and `Number()` of strings other than "", digit strings and negative digit strings are not evaluated. Those stay `NumberOfText(s)`. `Number(null)` and `Number(false)` are 0, and `Number(true)` is 1.
- `String()` of a plain object is "[object Object]". Objects with their own `toString` are not modelled.
- The order of an object's keys is not modelled. Arguments and fields are maps.
- Reading a documentation file is an oracle from the file name to its text. The working-directory path join and the error log are not modelled.
- The add-tool handlers can lose an update when two run at once, because fetch and update are separate calls. Concurrency is not modelled.
- The script's directory listing, module loading, its check that a tool has a description and a schema, the regex rewrite of the source file and its error logging are not modelled. `BuildFilePath` assumes a bare file name, as the listing gives.
- ToolDescriptions.Property: a schema `type` is text or missing. Array-valued types and non-string enum values are not modelled. `Object.entries` lists integer-like keys first, in ascending order; the model keeps declaration order (the repository's schemas have no such keys).
- ToolDescriptions.Schema: an empty `required` list and a missing one behave the same. Both are modelled; a `required` that is not an array is not.
- AgentTools.Spread: a string `tools` value spreads into one entry per code point, as JavaScript's string iterator gives. JavaScript strings holding lone surrogates have no Dafny counterpart. Other iterables (a Map, a Set) are not modelled.
- JsValues.IntToString: equals JavaScript's `String()` only for magnitudes below 2^53. Larger numbers print in exponent form or rounded (`String(1e21)` is "1e+21", `String(2**60)` is "1152921504606847000"), so a huge numeric id is sent differently.
- JsValues.EmptyStringOnlyFromEmpty: stated for non-array values only. `String([])` and `String([null])` are also empty, and the model's `ToStr` computes those too.

## Findings

| source | as written | input that shows it | evidently intended | confidence | as-written member | corrected member |
|---|---|---|---|---|---|---|
| src/tools/getAgent.ts:25-28 | The id is converted with `String()` before the emptiness check, so a missing id becomes "undefined" and passes | `get_agent` with arguments `{}` fetches agent "undefined" instead of failing | Reject a missing or falsy id with "'id' is a required argument.", as src/tools.test.ts:106-118 expects | not executed | GetAgentTool.HandleGetAgent, with GetAgentTool.MissingIdFetchesUndefined | GetAgentTool.HandleGetAgentChecked, with GetAgentTool.CheckedRejectsMissingId |
