# Chat conversations for the Groq client, in Dafny

This project models the conversation core of the Go client library for the
GroqCloud chat-completion API. A `Conversation` holds an ordered message history,
seeded with one system message, and the system prompt it was created with. The
library offers four operations on it:

- `NewConversation` seeds the history.
- `AddMessages` appends messages in the order given.
- `ClearHistory` resets the history to the seed.
- `Complete` builds a request body from the history, the model name and an
  optional configuration. It then performs the HTTP exchange. On success it
  appends the first returned choice as an assistant message.

Files:

- `types.dfy` (module `ChatTypes`): messages, role strings, the configuration,
  the request body and the decoded response, with their Go zero values.
- `chat_completions.dfy` (module `ChatCompletions`): the `Conversation` class.
  It also holds the request assembly (`RequestBody`), the handling of the
  exchange's outcome (`Conclude`) and the test scenario.
- `conversation_trace.dfy` (module `ConversationTrace`): sequences of calls as
  values, and what they do to the history.

The HTTP exchange is a parameter of `Complete`: a function from the request body
to an `Exchange`. An `Exchange` is one of these:

- the body could not be encoded;
- the HTTP request could not be built;
- the transport failed;
- a response arrived, with its status code, its status line and the result of
  decoding its body.

Go's `(response, error)` pair is kept as is. On every error the response is the
Go zero value.

The declared invariant is `Conversation.Valid()`: the history is non-empty and
starts with `{system, systemPrompt}`. The constructor and `ClearHistory`
establish it. `AddMessages` and `Complete` preserve it. `systemPrompt` is a
`const` field, so no operation can change it.

Three facts about the code shape the model:

- `Complete` does not check that `model` is non-empty, so it has no
  precondition on it.
- Appended roles are not checked. So only the head of the history is guaranteed
  to be the system message, and `RolesNotValidated` shows a second system
  message being accepted.
- The merge copies no seed, so the request has none.

## Model

| member | source | states |
|---|---|---|
| `ChatCompletions.Conversation.constructor` | chat_completions.go:11-23 | The history is exactly `[{system, p}]` and `p` is stored as the system prompt; the invariant holds. |
| `ChatCompletions.Conversation.AddMessages` | chat_completions.go:26-28 | The new history is the old history followed by the given messages, in argument order (no messages: unchanged); the invariant is preserved. |
| `ChatCompletions.Conversation.ClearHistory` | chat_completions.go:31-38 | Whatever its prior length, the history becomes `[{system, systemPrompt}]`; the invariant holds. |
| `ChatCompletions.Conversation.Complete` | chat_completions.go:41-94 | The exchange receives the request for the current history, model and config. Every failure path returns an error and the zero response, and leaves the history unchanged. On success the history gains exactly `{assistant, Choices[0].Message.Content}` and the decoded response is returned. |
| `ChatCompletions.RequestBody` | chat_completions.go:42-58 | The request's messages are the history and its model is the argument. With a config, the eight parameters read back equal the config's and the response format stays empty. Without one, the format is `"text"` and the eight parameters are zero. |
| `ChatCompletions.RequestBodyInjective` | chat_completions.go:47-58 | The request determines the history, the model, whether a config was given, and the eight fields copied from it. In particular, no config and a zero-valued config give different requests. A config field the merge does not copy (a seed) does not show in the request. |
| `ChatCompletions.Conclude` | chat_completions.go:60-93 | There is no error if and only if the exchange is status 200, decoded, with at least one choice. Each failure maps to its own error, and the history is kept. On success the response is returned and the history gets `{assistant, Choices[0].Message.Content}` appended. |
| `ChatCompletions.StatusErrorSurfacesStatus` | chat_completions.go:77-79 | The error for a non-200 status ends with the status line. |
| `ChatCompletions.ConcludeAsWritten` | chat_completions.go:81-93 | As written, the code faults if and only if a 200 response decodes with an empty choice list. |
| `ChatCompletions.EmptyChoicesFaultAsWritten` | chat_completions.go:88-91 | A 200 response with no choices faults as written. The corrected code reports `EmptyChoices` and keeps the history. |
| `ChatCompletions.ConcludeCorrectsAsWritten` | chat_completions.go:83-93 | Wherever the written code returns, the corrected outcome is the same. The two differ exactly where the written code faults. |
| `ChatCompletions.BananaScenario` | chat_completions_test.go:24-33 | Start from an empty prompt, add one user message, then complete with no config. The stub answers only a two-message, text-format request. The reply is "banana" and the history is system, user, assistant "banana". |
| `ConversationTrace.Apply` | chat_completions.go:26-94 | A conversation performing an `AddMessages`, `ClearHistory` or `Complete` call ends with exactly the history `After` gives, so the trace lemmas hold of the object. |
| `ConversationTrace.AfterKeepsSeeded` | chat_completions.go:26-91 | Adding, clearing and completing each keep `{system, systemPrompt}` at the head of the history. |
| `ConversationTrace.ReplayKeepsSeeded` | chat_completions.go:11-91 | Any sequence of calls keeps the history non-empty with `{system, systemPrompt}` first. |
| `ConversationTrace.ClearAfterAnything` | chat_completions.go:31-38 | A clear after any sequence of calls gives `[{system, p}]`, and clearing twice is the same as clearing once. |
| `ConversationTrace.AddsAppendInOrder` | chat_completions.go:26-28 | Successive `AddMessages` calls append their messages in call order. |
| `ConversationTrace.ReplayAppendOnly` | chat_completions.go:26-91 | Without a clear, the history only grows: the earlier history remains a prefix. |
| `ConversationTrace.FailuresLeaveHistory` | chat_completions.go:60-86 | A sequence of failed completions leaves the history exactly as it was. |
| `ConversationTrace.RolesNotValidated` | chat_completions.go:26-28 | A second system-role message is accepted after the seed, so the system message is not unique. |

## Left out

- HTTP transport: `createGroqRequest`, the API key, the resource URL, the headers and `http.DefaultClient` are modelled only as the `exchange` parameter of `Complete`.
- JSON encoding and decoding: the request is a record, not bytes. "Omit if zero" wire encoding is not modelled. Whether encoding fails (for example on a NaN float) is up to the exchange.
- Floating-point parameters are `real` values. They are only copied.
- Configuration fields that `Complete` does not read are not modelled. This covers the seed and any response-format selector the declaration may have.
- The Go declarations of `Conversation`, `Message`, `ChatCompletionConfig`, `ChatCompletionRequest` and `ChatCompletionResponse` are rebuilt from the fields the code reads and writes. The response fields come from the API's documented response.
- `Complete` never closes `resp.Body`. The model has no resources, so that leak is not captured.
- Slice aliasing: the request's `Messages` shares the history's backing array in Go. The model has values only. Nothing in the library writes through that alias.
- `NewGroqClient`, `GetModels`, `GetModel` and `TranscribeAudio`: HTTP and multipart plumbing outside the conversation core.
- Concurrency: the library has none, and concurrent use of one conversation is not modelled.

## Findings

| source | as written | input that shows it | evidently intended | confidence | as-written member | corrected member |
|---|---|---|---|---|---|---|
| chat_completions.go:88-91 | `Choices[0]` is indexed with no check on the length of `Choices` | status 200, a body that decodes to a response with an empty choice list | report an error and leave the history unchanged | medium, not executed | `ChatCompletions.ConcludeAsWritten`, shown by `ChatCompletions.EmptyChoicesFaultAsWritten` | `ChatCompletions.Conclude` (error `EmptyChoices`), used by `Conversation.Complete` |
