/**
 * The client of the local Ollama server (`OllamaService`): the body of
 * the chat request it posts, and how it turns whatever comes back into
 * the string it returns. The HTTP exchange and the JSON parser are
 * foreign code; what they produce is given by `ServiceOutcome`.
 */
module Ollama {
  import opened Wrappers

  /** The model asked for when the caller names none. */
  const DefaultModel: string := "qwen2.5:3b"
  /** The only role the client ever sends. */
  const UserRole: string := "user"
  /** The sampling temperature, a fixed `double` in the source. */
  const Temperature: real := 0.1
  /** The reply returned when the parsed body holds no content. */
  const NoResponse: string := "No response"
  /** What every caught exception's message is prefixed with. */
  const ErrorPrefix: string := "Error: "

  datatype RequestMessage = RequestMessage(role: string, content: string)
  datatype RequestOptions = RequestOptions(temperature: real)

  /** The anonymous object serialised as the body of `POST /api/chat`. */
  datatype ChatRequest = ChatRequest(
    model: string,
    messages: seq<RequestMessage>,
    stream: bool,
    options: RequestOptions)

  /** The prompt a server reads from a request: the content of its one
      message when that message is a user turn. */
  function PromptOf(req: ChatRequest): Option<string>
  {
    if |req.messages| == 1 && req.messages[0].role == UserRole then Some(req.messages[0].content) else None
  }

  /** The request body for `message`: a single, non-streamed user turn. */
  function BuildRequest(message: string, model: string := DefaultModel): (r: ChatRequest)
    ensures r.model == model
    ensures PromptOf(r) == Some(message) && |r.messages| == 1
    ensures !r.stream && r.options.temperature == Temperature
  {
    ChatRequest(model, [RequestMessage(UserRole, message)], false, RequestOptions(Temperature))
  }

  /** A caller that names no model gets the default one. */
  lemma DefaultModelIsQwen(message: string)
    ensures BuildRequest(message).model == "qwen2.5:3b"
  {
  }

  /** What `json["message"]` turned out to be once the body was parsed. */
  datatype MessageToken =
    | Missing
      // no "message" property: the first `?.` yields null
    | NotAnObject(indexError: string)
      // a JSON null, string, number or array: indexing it by "content"
      // throws, with the given exception message
    | Object(content: Option<string>)
      // an object; `content` is `None` when it has no "content" property,
      // otherwise whatever the property's `ToString()` renders ("" for a
      // JSON null; a string that looks like a date is parsed as a date
      // and rendered in the machine's culture format)

  /** Everything that can come of one call, up to the point where the
      method returns or an exception is caught. */
  datatype ServiceOutcome =
    | TransportFailure(msg: string)   // the POST threw (connection, timeout)
    | BadStatus(msg: string)          // `EnsureSuccessStatusCode` threw
    | Unparseable(msg: string)        // reading the body or `JObject.Parse` threw
    | Parsed(message: MessageToken)   // the body is a JSON object

  /** The body of the `try` raised an exception. */
  predicate Faulted(o: ServiceOutcome)
  {
    !o.Parsed? || o.message.NotAnObject?
  }

  /** The message of the exception that was raised. */
  function FaultMessage(o: ServiceOutcome): string
    requires Faulted(o)
  {
    if o.Parsed? then o.message.indexError else o.msg
  }

  /** `SendMessageAsync`'s result: the content of the reply, the
      "No response" sentinel, or the caught exception's message. */
  function ReplyText(o: ServiceOutcome): (r: string)
    ensures Faulted(o) ==> r == ErrorPrefix + FaultMessage(o)
    ensures o == Parsed(Missing) || o == Parsed(Object(None)) ==> r == NoResponse
    ensures forall s :: o == Parsed(Object(Some(s))) ==> r == s
  {
    match o
    case TransportFailure(m) => ErrorPrefix + m
    case BadStatus(m) => ErrorPrefix + m
    case Unparseable(m) => ErrorPrefix + m
    case Parsed(token) =>
      match token
      case Missing => NoResponse
      case NotAnObject(m) => ErrorPrefix + m
      case Object(content) => if content.Some? then content.value else NoResponse
  }
}
