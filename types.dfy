/** The values exchanged by the chat-completion client: messages, the optional
    per-call configuration, the request body sent to the API and the decoded
    response. Go zero values are written out as constants. */
module ChatTypes {

  datatype Option<T> = None | Some(value: T)

  /** The role strings the library declares. Roles stay strings: nothing in the
      library checks that a message carries one of these three. */
  const RoleUser: string := "user"
  const RoleSystem: string := "system"
  const RoleAssistant: string := "assistant"

  /** One turn of a dialogue. */
  datatype Message = Message(role: string, content: string)

  /** Sampling parameters and penalties are floating-point numbers that the
      client only copies from one record to another, so any carrier will do. */
  type Float = real

  /** The caller-supplied generation parameters read by Complete. */
  datatype ChatCompletionConfig = ChatCompletionConfig(
    temperature: Float,
    topP: Float,
    stream: bool,
    stop: seq<string>,
    maxTokens: int,
    presencePenalty: Float,
    frequencyPenalty: Float,
    user: string)

  /** The Go zero value of a configuration. */
  const ZeroConfig := ChatCompletionConfig(0.0, 0.0, false, [], 0, 0.0, 0.0, "")

  datatype ResponseFormat = ResponseFormat(formatType: string)

  /** The request body of a chat completion, as a record (not its JSON bytes). */
  datatype ChatCompletionRequest = ChatCompletionRequest(
    model: string,
    messages: seq<Message>,
    temperature: Float,
    topP: Float,
    stream: bool,
    stop: seq<string>,
    maxTokens: int,
    presencePenalty: Float,
    frequencyPenalty: Float,
    user: string,
    responseFormat: ResponseFormat)

  /** The Go zero value of a request body. */
  const ZeroRequest :=
    ChatCompletionRequest("", [], 0.0, 0.0, false, [], 0, 0.0, 0.0, "", ResponseFormat(""))

  datatype Choice = Choice(index: int, message: Message, finishReason: string)

  datatype Usage = Usage(
    promptTokens: int,
    completionTokens: int,
    totalTokens: int,
    queueTime: Float,
    promptTime: Float,
    completionTime: Float,
    totalTime: Float)

  /** A decoded chat-completion response. */
  datatype ChatCompletionResponse = ChatCompletionResponse(
    id: string,
    object: string,
    created: int,
    model: string,
    choices: seq<Choice>,
    usage: Usage,
    systemFingerprint: string)

  /** The Go zero value of a response, returned beside every error. */
  const ZeroResponse :=
    ChatCompletionResponse("", "", 0, "", [], Usage(0, 0, 0, 0.0, 0.0, 0.0, 0.0), "")
}
