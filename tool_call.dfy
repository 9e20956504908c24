/**
 * What a tool call does as seen from outside: the remote calls it issues and
 * the outcome it reports. The remote API is an oracle from a request to the
 * decoded JSON response or the client's error message.
 */
module ToolCall {
  import opened Outcomes
  import opened JsValues
  import opened Api

  /** Why a tool call fails. */
  datatype Failure =
    /** `throw new Error(message)` in the handler, before any remote call. */
    | Invalid(message: string)
    /** An error raised by the API client, passed on unchanged. */
    | Remote(message: string)
    /** The `TypeError` JavaScript raises on an ill-shaped remote value. */
    | TypeError

  /** The error every handler but the documentation one throws when the tool name is not its own. */
  const UnknownTool := Invalid("Unknown tool")

  /** A text content block: either `JSON.stringify(data, null, 2)` or literal text. */
  datatype Content = JsonText(data: JsValue) | Text(text: string)

  /** The remote API as an oracle. */
  type RemoteApi = Request -> Result<JsValue, string>

  /** The remote calls a tool call issued, in order, and what it returned or threw. */
  datatype Exchange = Exchange(calls: seq<Request>, outcome: Result<Content, Failure>)

  /**
   * Runs a handler that makes one remote call: a rejected call sends nothing;
   * an accepted one sends its request and answers with the stringified
   * response, or passes on the client's error.
   */
  function Perform(plan: Result<Request, Failure>, api: RemoteApi): (x: Exchange)
    ensures plan.Failure? ==> x.calls == [] && x.outcome == Failure(plan.error)
    ensures plan.Success? ==> x.calls == [plan.value]
    ensures plan.Success? && api(plan.value).Success? ==> x.outcome == Success(JsonText(api(plan.value).value))
    ensures plan.Success? && api(plan.value).Failure? ==> x.outcome == Failure(Remote(api(plan.value).error))
  {
    match plan
    case Failure(e) => Exchange([], Failure(e))
    case Success(req) =>
      match api(req)
      case Success(data) => Exchange([req], Success(JsonText(data)))
      case Failure(msg) => Exchange([req], Failure(Remote(msg)))
  }

  /** `!args.k1 || !args.k2 || …`: some listed argument is missing or falsy. */
  function AnyFalsy(args: Args, keys: seq<string>): (r: bool)
    ensures r <==> exists k :: k in keys && !Truthy(Get(args, k))
  {
    if keys == [] then false
    else if !Truthy(Get(args, keys[0])) then true
    else
      assert forall k :: k in keys <==> k == keys[0] || k in keys[1..];
      AnyFalsy(args, keys[1..])
  }

  /** `const { id, ...rest } = args`: every key but `id`, with its value unchanged. */
  function WithoutId(args: Args): (rest: Args)
    ensures rest.Keys == args.Keys - {"id"}
    ensures forall k :: k in rest ==> rest[k] == args[k]
  {
    args - {"id"}
  }
}
