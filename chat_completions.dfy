/** A conversation with the chat-completion endpoint: an ordered history seeded
    with the system prompt, the request body assembled from it, and the folding
    of the first returned choice back into the history. The HTTP exchange is a
    parameter of Complete. */
module ChatCompletions {
  import opened ChatTypes

  function SystemMessage(prompt: string): Message { Message(RoleSystem, prompt) }

  function AssistantMessage(content: string): Message { Message(RoleAssistant, content) }

  /** The history of a new or cleared conversation. */
  function Seed(prompt: string): seq<Message>
  {
    [SystemMessage(prompt)]
  }

  /** The conversation invariant: the history starts with the system prompt. */
  predicate SeededBy(history: seq<Message>, prompt: string)
  {
    |history| > 0 && history[0] == SystemMessage(prompt)
  }

  /** The eight generation parameters a request carries, read back from it. */
  function SentConfig(r: ChatCompletionRequest): ChatCompletionConfig
  {
    ChatCompletionConfig(r.temperature, r.topP, r.stream, r.stop, r.maxTokens,
                         r.presencePenalty, r.frequencyPenalty, r.user)
  }

  /** The request body Complete builds: the history and the model name, and
      either the configuration's eight parameters or, without a configuration,
      the "text" response format. */
  function RequestBody(history: seq<Message>, model: string, config: Option<ChatCompletionConfig>)
    : (r: ChatCompletionRequest)
    ensures r.model == model && r.messages == history
    ensures config.Some? ==> SentConfig(r) == config.value && r.responseFormat.formatType == ""
    ensures config.None? ==> SentConfig(r) == ZeroConfig && r.responseFormat.formatType == "text"
  {
    var base := ZeroRequest.(model := model, messages := history);
    match config
    case Some(c) =>
      base.(temperature := c.temperature, topP := c.topP, stream := c.stream, stop := c.stop,
            maxTokens := c.maxTokens, presencePenalty := c.presencePenalty,
            frequencyPenalty := c.frequencyPenalty, user := c.user)
    case None =>
      base.(responseFormat := ResponseFormat("text"))
  }

  /** The request determines the history, the model, whether a configuration was
      given, and the eight fields copied from it; in particular no configuration
      and a zero configuration give different requests. (A configuration field
      the merge does not copy, such as a seed, leaves no trace in the request.) */
  lemma RequestBodyInjective(h1: seq<Message>, m1: string, c1: Option<ChatCompletionConfig>,
                             h2: seq<Message>, m2: string, c2: Option<ChatCompletionConfig>)
    requires RequestBody(h1, m1, c1) == RequestBody(h2, m2, c2)
    ensures h1 == h2 && m1 == m2 && c1 == c2
  {
  }

  /** What the HTTP exchange of a completion ended with: a failure to encode the
      body, to build the request or to reach the server, or a response with its
      status code, status line and the result of decoding its body. */
  datatype Body = Undecodable | Decoded(response: ChatCompletionResponse)

  datatype Exchange =
    | MarshalFailed
    | RequestFailed
    | TransportFailed
    | Responded(statusCode: int, status: string, body: Body)

  datatype Error =
    | MarshalError
    | RequestError
    | TransportError
    | StatusError(message: string)
    | DecodeError
    | EmptyChoices

  function StatusErrorMessage(status: string): string
  {
    "request failed with status: " + status
  }

  /** Whether an exchange is one Complete accepts: status 200, a decoded body and
      at least one choice. */
  predicate Accepted(x: Exchange)
  {
    x.Responded? && x.statusCode == 200 && x.body.Decoded? && |x.body.response.choices| > 0
  }

  /** What Complete returns and the history it leaves. */
  datatype Completion = Completion(response: ChatCompletionResponse, err: Option<Error>,
                                   history: seq<Message>)

  /** The outcome of Complete on a history once the exchange has ended. */
  function Conclude(history: seq<Message>, x: Exchange): (c: Completion)
    ensures c.err.None? <==> Accepted(x)
    ensures c.err.Some? ==> c.response == ZeroResponse && c.history == history
    ensures c.err.None? ==>
              c.response == x.body.response &&
              c.history == history + [AssistantMessage(c.response.choices[0].message.content)]
    ensures x.MarshalFailed? ==> c.err == Some(MarshalError)
    ensures x.RequestFailed? ==> c.err == Some(RequestError)
    ensures x.TransportFailed? ==> c.err == Some(TransportError)
    ensures x.Responded? && x.statusCode != 200 ==>
              c.err == Some(StatusError(StatusErrorMessage(x.status)))
    ensures x.Responded? && x.statusCode == 200 && x.body.Undecodable? ==> c.err == Some(DecodeError)
    ensures x.Responded? && x.statusCode == 200 && x.body.Decoded? && x.body.response.choices == [] ==>
              c.err == Some(EmptyChoices)
  {
    match x
    case MarshalFailed => Completion(ZeroResponse, Some(MarshalError), history)
    case RequestFailed => Completion(ZeroResponse, Some(RequestError), history)
    case TransportFailed => Completion(ZeroResponse, Some(TransportError), history)
    case Responded(code, status, body) =>
      if code != 200 then Completion(ZeroResponse, Some(StatusError(StatusErrorMessage(status))), history)
      else match body
        case Undecodable => Completion(ZeroResponse, Some(DecodeError), history)
        case Decoded(response) =>
          if |response.choices| == 0 then Completion(ZeroResponse, Some(EmptyChoices), history)
          else Completion(response, None,
                          history + [AssistantMessage(response.choices[0].message.content)])
  }

  /** The status error names the status line it was given. */
  lemma StatusErrorSurfacesStatus(status: string)
    ensures var msg := StatusErrorMessage(status);
            |msg| >= |status| && msg[|msg| - |status|..] == status
  {
  }

  /** The outcome as the code is written: with a decoded body whose choice list is
      empty, indexing the first choice is a run-time fault. */
  datatype AsWritten = Returned(completion: Completion) | IndexOutOfRange

  function ConcludeAsWritten(history: seq<Message>, x: Exchange): (w: AsWritten)
    ensures w.IndexOutOfRange? <==>
              x.Responded? && x.statusCode == 200 && x.body.Decoded? && x.body.response.choices == []
  {
    match x
    case MarshalFailed => Returned(Completion(ZeroResponse, Some(MarshalError), history))
    case RequestFailed => Returned(Completion(ZeroResponse, Some(RequestError), history))
    case TransportFailed => Returned(Completion(ZeroResponse, Some(TransportError), history))
    case Responded(code, status, body) =>
      if code != 200 then Returned(Completion(ZeroResponse, Some(StatusError(StatusErrorMessage(status))), history))
      else match body
        case Undecodable => Returned(Completion(ZeroResponse, Some(DecodeError), history))
        case Decoded(response) =>
          if |response.choices| == 0 then IndexOutOfRange
          else Returned(Completion(response, None,
                                   history + [AssistantMessage(response.choices[0].message.content)]))
  }

  /** A 200 response with no choices faults in the code as written. */
  lemma EmptyChoicesFaultAsWritten(history: seq<Message>)
    ensures ConcludeAsWritten(history, Responded(200, "200 OK", Decoded(ZeroResponse))) == IndexOutOfRange
    ensures Conclude(history, Responded(200, "200 OK", Decoded(ZeroResponse))) ==
            Completion(ZeroResponse, Some(EmptyChoices), history)
  {
  }

  /** The corrected outcome differs from the written one exactly where the
      written one faults, and there it reports EmptyChoices and keeps the history. */
  lemma ConcludeCorrectsAsWritten(history: seq<Message>, x: Exchange)
    ensures ConcludeAsWritten(history, x).Returned? ==> ConcludeAsWritten(history, x).completion == Conclude(history, x)
    ensures ConcludeAsWritten(history, x).IndexOutOfRange? <==> Conclude(history, x).err == Some(EmptyChoices)
  {
  }

  /** A running conversation. */
  class Conversation {
    var messages: seq<Message>
    const systemPrompt: string

    ghost predicate Valid()
      reads this
    {
      SeededBy(messages, systemPrompt)
    }

    /** NewConversation: the history holds the system prompt alone. */
    constructor (systemPrompt: string)
      ensures this.systemPrompt == systemPrompt
      ensures messages == Seed(systemPrompt)
      ensures Valid()
    {
      this.systemPrompt := systemPrompt;
      messages := Seed(systemPrompt);
    }

    /** Appends the messages in the order given; roles are not checked. */
    method AddMessages(ms: seq<Message>)
      modifies this
      ensures messages == old(messages) + ms
      ensures old(Valid()) ==> Valid()
    {
      messages := messages + ms;
    }

    /** Puts the history back to the system prompt alone. */
    method ClearHistory()
      modifies this
      ensures messages == Seed(systemPrompt)
      ensures Valid()
    {
      messages := Seed(systemPrompt);
    }

    /** Sends the history to the model through exchange and, once a response
        with a first choice is decoded, appends that choice as an assistant turn. */
    method Complete(model: string, config: Option<ChatCompletionConfig>,
                    exchange: ChatCompletionRequest -> Exchange)
      returns (response: ChatCompletionResponse, err: Option<Error>)
      modifies this
      ensures var done := Conclude(old(messages), exchange(RequestBody(old(messages), model, config)));
              response == done.response && err == done.err && messages == done.history
      ensures err.Some? ==> messages == old(messages) && response == ZeroResponse
      ensures err.None? ==>
                |response.choices| > 0 &&
                messages == old(messages) + [AssistantMessage(response.choices[0].message.content)]
      ensures old(Valid()) ==> Valid()
    {
      var requestBody := ZeroRequest;
      requestBody := requestBody.(model := model);
      requestBody := requestBody.(messages := messages);

      if config.Some? {
        var c := config.value;
        requestBody := requestBody.(temperature := c.temperature);
        requestBody := requestBody.(topP := c.topP);
        requestBody := requestBody.(stream := c.stream);
        requestBody := requestBody.(stop := c.stop);
        requestBody := requestBody.(maxTokens := c.maxTokens);
        requestBody := requestBody.(presencePenalty := c.presencePenalty);
        requestBody := requestBody.(frequencyPenalty := c.frequencyPenalty);
        requestBody := requestBody.(user := c.user);
      } else {
        requestBody := requestBody.(responseFormat := ResponseFormat("text"));
      }
      assert requestBody == RequestBody(messages, model, config);

      var outcome := exchange(requestBody);
      if outcome.MarshalFailed? {
        return ZeroResponse, Some(MarshalError);
      }
      if outcome.RequestFailed? {
        return ZeroResponse, Some(RequestError);
      }
      if outcome.TransportFailed? {
        return ZeroResponse, Some(TransportError);
      }
      if outcome.statusCode != 200 {
        return ZeroResponse, Some(StatusError(StatusErrorMessage(outcome.status)));
      }
      if outcome.body.Undecodable? {
        return ZeroResponse, Some(DecodeError);
      }
      var chatResponse := outcome.body.response;
      if |chatResponse.choices| == 0 {
        return ZeroResponse, Some(EmptyChoices);
      }
      AddMessages([Message(RoleAssistant, chatResponse.choices[0].message.content)]);
      return chatResponse, None;
    }
  }

  /** The library's chat-completion test as a scenario against a stubbed
      exchange that answers "banana" only to a two-message, text-format request. */
  method BananaScenario() returns (reply: string, history: seq<Message>)
    ensures reply == "banana"
    ensures history == [Message(RoleSystem, ""),
                        Message(RoleUser, "say the word banana in lowercase with no punctuation"),
                        Message(RoleAssistant, "banana")]
  {
    var conversation := new Conversation("");
    conversation.AddMessages([Message(RoleUser, "say the word banana in lowercase with no punctuation")]);
    var stubbed := ZeroResponse.(choices := [Choice(0, Message(RoleAssistant, "banana"), "stop")]);
    var exchange := (req: ChatCompletionRequest) =>
      if req.responseFormat.formatType == "text" && |req.messages| == 2
      then Responded(200, "200 OK", Decoded(stubbed))
      else Responded(400, "400 Bad Request", Undecodable);
    var response, err := conversation.Complete("llama3-8b-8192", None, exchange);
    reply := response.choices[0].message.content;
    history := conversation.messages;
  }
}
