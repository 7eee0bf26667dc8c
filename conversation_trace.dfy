/** Sequences of calls on one conversation, as values. After gives each call's
    effect on the history, and Apply proves that a Conversation object performing
    the call ends with exactly that history. */
module ConversationTrace {
  import opened ChatTypes
  import opened ChatCompletions

  datatype Call =
    | Add(ms: seq<Message>)
    | Clear
    | Ask(model: string, config: Option<ChatCompletionConfig>, exchange: ChatCompletionRequest -> Exchange)

  /** The history after one call on a conversation with system prompt prompt. */
  function After(prompt: string, history: seq<Message>, call: Call): seq<Message>
  {
    match call
    case Add(ms) => history + ms
    case Clear => Seed(prompt)
    case Ask(model, config, exchange) =>
      Conclude(history, exchange(RequestBody(history, model, config))).history
  }

  /** Performs one call on a conversation object: its history afterwards is the
      one After gives, so the lemmas below hold of the object itself. */
  method Apply(c: Conversation, call: Call)
    modifies c
    ensures c.messages == After(c.systemPrompt, old(c.messages), call)
  {
    match call
    case Add(ms) =>
      c.AddMessages(ms);
    case Clear =>
      c.ClearHistory();
    case Ask(model, config, exchange) =>
      var _, _ := c.Complete(model, config, exchange);
  }

  /** The history after a sequence of calls, first to last. */
  function Replay(prompt: string, history: seq<Message>, calls: seq<Call>): seq<Message>
    decreases |calls|
  {
    if calls == [] then history else Replay(prompt, After(prompt, history, calls[0]), calls[1..])
  }

  /** Every call keeps the system prompt at the head of the history. */
  lemma AfterKeepsSeeded(prompt: string, history: seq<Message>, call: Call)
    requires SeededBy(history, prompt)
    ensures SeededBy(After(prompt, history, call), prompt)
  {
  }

  lemma {:induction false} ReplayKeepsSeeded(prompt: string, history: seq<Message>, calls: seq<Call>)
    requires SeededBy(history, prompt)
    ensures SeededBy(Replay(prompt, history, calls), prompt)
    decreases |calls|
  {
    if calls != [] {
      AfterKeepsSeeded(prompt, history, calls[0]);
      ReplayKeepsSeeded(prompt, After(prompt, history, calls[0]), calls[1..]);
    }
  }

  /** Replaying two sequences one after the other is replaying their concatenation. */
  lemma {:induction false} ReplayConcat(prompt: string, history: seq<Message>, first: seq<Call>, second: seq<Call>)
    ensures Replay(prompt, history, first + second) == Replay(prompt, Replay(prompt, history, first), second)
    decreases |first|
  {
    if first != [] {
      assert (first + second)[0] == first[0];
      assert (first + second)[1..] == first[1..] + second;
      ReplayConcat(prompt, After(prompt, history, first[0]), first[1..], second);
    } else {
      assert first + second == second;
    }
  }

  /** Clearing after any sequence of calls leaves the system prompt alone, and a
      second clear changes nothing. */
  lemma ClearAfterAnything(prompt: string, history: seq<Message>, calls: seq<Call>)
    ensures Replay(prompt, history, calls + [Clear]) == Seed(prompt)
    ensures Replay(prompt, history, calls + [Clear, Clear]) == Seed(prompt)
  {
    ReplayConcat(prompt, history, calls, [Clear]);
    ReplayConcat(prompt, history, calls, [Clear, Clear]);
  }

  /** The messages of a sequence of batches, in order. */
  function Flatten(batches: seq<seq<Message>>): seq<Message>
    decreases |batches|
  {
    if batches == [] then [] else batches[0] + Flatten(batches[1..])
  }

  /** One AddMessages call per batch. */
  function AddCalls(batches: seq<seq<Message>>): seq<Call>
  {
    seq(|batches|, i requires 0 <= i < |batches| => Add(batches[i]))
  }

  /** Successive AddMessages calls append all their messages in call order. */
  lemma {:induction false} AddsAppendInOrder(prompt: string, history: seq<Message>, batches: seq<seq<Message>>)
    ensures Replay(prompt, history, AddCalls(batches)) == history + Flatten(batches)
    decreases |batches|
  {
    if batches != [] {
      var calls := AddCalls(batches);
      assert calls[1..] == AddCalls(batches[1..]);
      AddsAppendInOrder(prompt, history + batches[0], batches[1..]);
      assert history + batches[0] + Flatten(batches[1..]) == history + Flatten(batches);
    }
  }

  predicate NoClear(calls: seq<Call>)
  {
    forall i :: 0 <= i < |calls| ==> !calls[i].Clear?
  }

  /** Without a clear, the history only grows: the earlier history stays a prefix. */
  lemma {:induction false} ReplayAppendOnly(prompt: string, history: seq<Message>, calls: seq<Call>)
    requires NoClear(calls)
    ensures history <= Replay(prompt, history, calls)
    decreases |calls|
  {
    if calls != [] {
      var next := After(prompt, history, calls[0]);
      assert history <= next;
      assert NoClear(calls[1..]) by {
        forall i | 0 <= i < |calls| - 1 ensures !calls[1..][i].Clear? {
          assert calls[1..][i] == calls[i + 1];
        }
      }
      ReplayAppendOnly(prompt, next, calls[1..]);
    }
  }

  /** A failed completion changes nothing; a sequence of failed completions
      leaves the history exactly as it was. */
  predicate AllFail(calls: seq<Call>, history: seq<Message>)
  {
    forall i :: 0 <= i < |calls| ==> calls[i].Ask? && !Accepted(calls[i].exchange(
      RequestBody(history, calls[i].model, calls[i].config)))
  }

  lemma {:induction false} FailuresLeaveHistory(prompt: string, history: seq<Message>, calls: seq<Call>)
    requires AllFail(calls, history)
    ensures Replay(prompt, history, calls) == history
    decreases |calls|
  {
    if calls != [] {
      assert After(prompt, history, calls[0]) == history;
      assert AllFail(calls[1..], history) by {
        forall i | 0 <= i < |calls| - 1
          ensures calls[1..][i].Ask? && !Accepted(calls[1..][i].exchange(
                    RequestBody(history, calls[1..][i].model, calls[1..][i].config)))
        {
          assert calls[1..][i] == calls[i + 1];
        }
      }
      FailuresLeaveHistory(prompt, history, calls[1..]);
    }
  }

  /** Roles are not checked: a second system message can be added after the seed. */
  lemma RolesNotValidated(prompt: string, other: string)
    ensures var h := After(prompt, Seed(prompt), Add([SystemMessage(other)]));
            SeededBy(h, prompt) && |h| == 2 && h[0].role == RoleSystem && h[1].role == RoleSystem
  {
  }
}
