/** The chat panel: a guarded `sendMessage` that appends the user's message, asks
    the language model with a prompt built from a sliding window of earlier
    exchanges, appends the reply and slides the window. The React state hooks
    become the fields of class `ChatSession`; the model call is a parameter. */
module Chat {
  import opened Text
  import opened Optional

  datatype Role = User | Assistant

  datatype Message = Message(
    id: string,
    role: Role,
    content: string,
    timestamp: Timestamp,
    context: Option<seq<string>>)

  /** Entries of the previous window carried into the next one. */
  const ContextKept: nat := 8
  /** Entries of the window stored on an assistant message. */
  const ContextShown: nat := 5
  /** Characters of a reply kept in the window. */
  const ReplySummaryLength: nat := 200

  const Preamble: string :=
    "Você é um assistente IA especializado e inteligente. Responda de forma útil, precisa e contextualizada. \n      "

  /** `contextPrompt`: the window joined by spaces under a heading, or nothing at
      all when the window is empty. */
  function ContextPrompt(ctx: seq<string>): (p: string)
    ensures p == "" <==> ctx == []
  {
    if |ctx| > 0 then "Contexto da conversa anterior: " + Join(ctx) + "\n\n" else ""
  }

  /** `systemPrompt` */
  function Prompt(ctx: seq<string>, question: string): string {
    Preamble + ContextPrompt(ctx) + "Pergunta do usuário: " + question
  }

  function UserEntry(question: string): string {
    "User: " + question
  }

  function AssistantEntry(reply: string): string {
    "Assistant: " + Prefix(reply, ReplySummaryLength) + "..."
  }

  /** The window after an answered question: the last 8 earlier entries, then
      the question, then the first 200 characters of the reply. */
  function NextContext(ctx: seq<string>, question: string, reply: string): seq<string> {
    TakeLast(ctx, ContextKept) + [UserEntry(question), AssistantEntry(reply)]
  }

  /** The window is made of whole exchanges, a "User: " entry followed by an
      "Assistant: " entry, and holds at most five of them. */
  predicate ContextOk(ctx: seq<string>) {
    |ctx| <= 10 && Exchanges(ctx)
  }

  /** ctx is a run of question/answer pairs. */
  predicate Exchanges(ctx: seq<string>) {
    ctx == [] || (|ctx| >= 2 && "User: " <= ctx[0] && "Assistant: " <= ctx[1] && Exchanges(ctx[2..]))
  }

  /** A run of exchanges has even length, and every even entry is a question and
      every odd one an answer. */
  lemma {:induction false} ExchangesAlternate(ctx: seq<string>)
    requires Exchanges(ctx)
    ensures |ctx| % 2 == 0
    ensures forall k :: 0 <= k < |ctx| ==> if k % 2 == 0 then "User: " <= ctx[k] else "Assistant: " <= ctx[k]
  {
    if ctx != [] {
      ExchangesAlternate(ctx[2..]);
      forall k | 2 <= k < |ctx|
        ensures if k % 2 == 0 then "User: " <= ctx[k] else "Assistant: " <= ctx[k]
      {
        assert ctx[k] == ctx[2..][k - 2];
      }
    }
  }

  lemma {:induction false} ExchangesAppend(ctx: seq<string>, question: string, answer: string)
    requires Exchanges(ctx) && "User: " <= question && "Assistant: " <= answer
    ensures Exchanges(ctx + [question, answer])
  {
    if ctx == [] {
      assert [question, answer][2..] == [];
    } else {
      ExchangesAppend(ctx[2..], question, answer);
      assert (ctx + [question, answer])[2..] == ctx[2..] + [question, answer];
    }
  }

  /** Sliding the window keeps the last entries of the old one in order and
      appends exactly the new exchange; it never grows beyond ten entries. */
  lemma NextContextShape(ctx: seq<string>, question: string, reply: string)
    ensures var next := NextContext(ctx, question, reply);
            && |next| == Min(ContextKept, |ctx|) + 2 <= 10
            && ctx == ctx[..|ctx| - (|next| - 2)] + next[..|next| - 2]
            && next[|next| - 2] == "User: " + question
            && next[|next| - 1] == "Assistant: " + Prefix(reply, ReplySummaryLength) + "..."
            && |next[|next| - 1]| <= |"Assistant: "| + ReplySummaryLength + 3
  {
    var kept := TakeLast(ctx, ContextKept);
    assert NextContext(ctx, question, reply)[..|kept|] == kept;
  }

  /** An exchange preserves the shape of the window: a window of at most ten
      entries loses nothing or exactly its first exchange when cut to eight. */
  lemma NextContextOk(ctx: seq<string>, question: string, reply: string)
    requires ContextOk(ctx)
    ensures ContextOk(NextContext(ctx, question, reply))
  {
    var kept := TakeLast(ctx, ContextKept);
    ExchangesAlternate(ctx);
    if |ctx| > ContextKept {
      assert kept == ctx[2..];
    }
    ExchangesAppend(kept, UserEntry(question), AssistantEntry(reply));
  }

  /** The snapshot an assistant message stores is the last five entries, not the
      last five exchanges: when the window is full it begins with the answer
      half of an exchange and ends with a complete one. */
  lemma FullWindowSnapshot(ctx: seq<string>)
    requires ContextOk(ctx) && |ctx| == 10
    ensures var shown := TakeLast(ctx, ContextShown);
            && |shown| == 5
            && "Assistant: " <= shown[0]
            && "User: " <= shown[3] && "Assistant: " <= shown[4]
  {
    ExchangesAlternate(ctx);
    var shown := TakeLast(ctx, ContextShown);
    assert shown[0] == ctx[5] && shown[3] == ctx[8] && shown[4] == ctx[9];
  }

  /** The window after a run of answered exchanges, starting from `ctx`. */
  function Converse(ctx: seq<string>, exchanges: seq<(string, string)>): seq<string>
    decreases |exchanges|
  {
    if exchanges == [] then ctx
    else
      var last := exchanges[|exchanges| - 1];
      NextContext(Converse(ctx, exchanges[..|exchanges| - 1]), last.0, last.1)
  }

  /** From an empty window, any conversation keeps at most ten entries, in
      alternating "User: " / "Assistant: " order. */
  lemma {:induction false} ConverseFromEmpty(exchanges: seq<(string, string)>)
    ensures ContextOk(Converse([], exchanges))
  {
    if exchanges != [] {
      var last := exchanges[|exchanges| - 1];
      ConverseFromEmpty(exchanges[..|exchanges| - 1]);
      NextContextOk(Converse([], exchanges[..|exchanges| - 1]), last.0, last.1);
    }
  }

  /** The panel's state as seen while `sendMessage` waits for the model. */
  datatype View = View(messages: seq<Message>, input: string, isLoading: bool, conversationContext: seq<string>)

  class ChatSession {
    var messages: seq<Message>
    var input: string
    var isLoading: bool
    var apiKey: string
    var isConfigured: bool
    var conversationContext: seq<string>
    /** The state at every point where `sendMessage` waits, oldest first. */
    ghost var observed: seq<View>

    /** Between handlers nothing is loading and the window has its shape. */
    predicate Valid()
      reads this
    {
      !isLoading && ContextOk(conversationContext)
    }

    constructor ()
      ensures Valid()
      ensures messages == [] && input == "" && apiKey == "" && !isConfigured
      ensures conversationContext == [] && observed == []
    {
      messages, input, isLoading := [], "", false;
      apiKey, isConfigured := "", false;
      conversationContext := [];
      observed := [];
    }

    /** `configureGemini`, with `initOk` telling whether `initializeGemini` returned
        normally. A blank key, or an init that throws, leaves the flag as it was. */
    method ConfigureGemini(initOk: bool)
      modifies this
      ensures IsBlank(apiKey) ==> isConfigured == old(isConfigured)
      ensures !IsBlank(apiKey) ==> isConfigured == (old(isConfigured) || initOk)
      ensures messages == old(messages) && input == old(input) && isLoading == old(isLoading)
      ensures apiKey == old(apiKey) && conversationContext == old(conversationContext)
      ensures observed == old(observed)
    {
      if IsBlank(apiKey) {
        return;
      }
      if initOk {
        isConfigured := true;
      }
    }

    /** `sendMessage`, with `generate` standing for the model call (None when it
        throws) and the ids and times the handler reads from the clock. The send
        controls are disabled while a reply is loading. */
    method SendMessage(generate: string -> Option<string>, userId: string, assistantId: string,
                       sentAt: Timestamp, repliedAt: Timestamp)
      requires Valid()
      modifies this
      ensures Valid()
      ensures apiKey == old(apiKey) && isConfigured == old(isConfigured)
      ensures IsBlank(old(input)) || !old(isConfigured) ==>
                && messages == old(messages) && input == old(input)
                && conversationContext == old(conversationContext) && observed == old(observed)
      ensures !(IsBlank(old(input)) || !old(isConfigured)) ==>
                var sent := Message(userId, User, old(input), sentAt, None);
                var reply := generate(Prompt(old(conversationContext), old(input)));
                && input == ""
                && observed == old(observed) + [View(old(messages) + [sent], "", true, old(conversationContext))]
                && (reply.None? ==>
                      messages == old(messages) + [sent] && conversationContext == old(conversationContext))
                && (reply.Some? ==>
                      && messages == old(messages) + [sent, Message(assistantId, Assistant, reply.value, repliedAt,
                                                                    Some(TakeLast(old(conversationContext), ContextShown)))]
                      && conversationContext == NextContext(old(conversationContext), old(input), reply.value))
    {
      if IsBlank(input) || !isConfigured {
        return;
      }
      var question, window := input, conversationContext;
      Post(userId, sentAt);
      var reply := generate(Prompt(window, question));
      Receive(reply, question, window, assistantId, repliedAt);
    }

    /** The first half of `sendMessage`: the question is appended, the input
        cleared and the loading flag raised before the model is called. */
    method Post(userId: string, sentAt: Timestamp)
      requires Valid()
      modifies this
      ensures messages == old(messages) + [Message(userId, User, old(input), sentAt, None)]
      ensures input == "" && isLoading
      ensures observed == old(observed) + [View(messages, "", true, conversationContext)]
      ensures conversationContext == old(conversationContext) && ContextOk(conversationContext)
      ensures apiKey == old(apiKey) && isConfigured == old(isConfigured)
    {
      messages := messages + [Message(userId, User, input, sentAt, None)];
      input := "";
      isLoading := true;
      observed := observed + [View(messages, input, isLoading, conversationContext)];
    }

    /** The second half of `sendMessage`: on a reply the answer, carrying the last
        five entries of the window the question was asked with, is appended and
        the window slides; on a failure nothing changes but the loading flag,
        which is lowered either way. */
    method Receive(reply: Option<string>, question: string, window: seq<string>,
                   assistantId: string, repliedAt: Timestamp)
      requires isLoading && conversationContext == window && ContextOk(window)
      modifies this
      ensures Valid()
      ensures reply.None? ==> messages == old(messages) && conversationContext == window
      ensures reply.Some? ==>
                && messages == old(messages) + [Message(assistantId, Assistant, reply.value, repliedAt,
                                                        Some(TakeLast(window, ContextShown)))]
                && conversationContext == NextContext(window, question, reply.value)
      ensures input == old(input) && observed == old(observed)
      ensures apiKey == old(apiKey) && isConfigured == old(isConfigured)
    {
      if reply.Some? {
        var text := reply.value;
        messages := messages + [Message(assistantId, Assistant, text, repliedAt, Some(TakeLast(window, ContextShown)))];
        NextContextOk(window, question, text);
        conversationContext := NextContext(window, question, text);
      }
      isLoading := false;
    }
  }
}
