/** src/components/chat/ChatWindow.tsx: the side panel's conversation. The
    context list receives ADD_CONTEXT pushes; a sent message runs one turn:
    the user message is appended, tab contents are fetched, the conversation
    is handed to the selected provider and the streamed reply is assembled
    into one assistant message. The tab fetch, the provider clients and the
    stream are inputs of the turn; the clock readings that become message ids
    and timestamps are inputs too. */
module ChatWindow {
  import opened Wrappers
  import opened Text
  import opened AiMessages

  /** A chat message. Its id is the `Date.now()` reading it was made from (the
      source keeps its decimal string, which is equal exactly when the numbers
      are); the optional `isStreaming` is false when absent. */
  datatype Message = Message(id: int, text: string, isUser: bool, timestamp: int, isStreaming: bool)

  /** A browser tab attached as context. */
  datatype Context = Context(tabId: int, url: string, title: string)

  /** The selected model; per-token costs are floating-point numbers carried along. */
  datatype ProviderModel = ProviderModel(provider: string, modelId: string, inputCostPerToken: real, outputCostPerToken: real)

  const DefaultProviderModel: ProviderModel := ProviderModel("openai", "gpt-4o-mini", 0.00015, 0.0006)

  const ErrorText: string := "Error: Failed to generate response. Please try again."

  // ----- ADD_CONTEXT ---------------------------------------------------------------

  /** `findIndex` on the tab id: the first index holding it, or -1. */
  function FindTab(contexts: seq<Context>, tabId: int): (i: int)
    ensures -1 <= i < |contexts|
    ensures i >= 0 ==> contexts[i].tabId == tabId
    ensures forall j :: 0 <= j < |contexts| && (i == -1 || j < i) ==> contexts[j].tabId != tabId
  {
    if contexts == [] then -1
    else if contexts[0].tabId == tabId then 0
    else
      var k := FindTab(contexts[1..], tabId);
      if k == -1 then -1 else k + 1
  }

  /** The ADD_CONTEXT state update: an unseen tab is appended; a seen tab is
      replaced only when its URL changed. */
  function AddContext(prev: seq<Context>, incoming: Context): (next: seq<Context>)
    ensures (forall j :: 0 <= j < |prev| ==> prev[j].tabId != incoming.tabId) ==> next == prev + [incoming]
    ensures |next| == |prev| || |next| == |prev| + 1
  {
    var i := FindTab(prev, incoming.tabId);
    if i != -1 then
      if prev[i].url != incoming.url then prev[i := incoming] else prev
    else prev + [incoming]
  }

  /** At most one context per tab id. */
  predicate UniqueTabs(contexts: seq<Context>) {
    forall i, j :: 0 <= i < j < |contexts| ==> contexts[i].tabId != contexts[j].tabId
  }

  // ----- provider dispatch --------------------------------------------------------

  datatype Provider = OpenAi | Anthropic | Google

  /** `getProviderClient`'s switch on the lowercased provider tag. */
  function ProviderFor(tag: string): Provider {
    match ToLower(tag)
    case "openai" => OpenAi
    case "anthropic" => Anthropic
    case "gemini" => Google
    case _ => OpenAi
  }

  // ----- conversation history -------------------------------------------------------

  /** The history handed to the model: one entry per message, in order. */
  function History(msgs: seq<Message>): (h: seq<ModelMessage>)
    ensures |h| == |msgs|
    ensures forall i :: 0 <= i < |msgs| ==>
      && (h[i].role == User <==> msgs[i].isUser)
      && h[i].content == msgs[i].text
  {
    if msgs == [] then []
    else [ModelMessage(if msgs[0].isUser then User else Assistant, msgs[0].text)] + History(msgs[1..])
  }

  /** One `streamText` call. The system prompt (base instruction with the
      current date and the rendered tab contents) is not modelled. */
  datatype ModelCall = ModelCall(provider: Provider, modelId: string, history: seq<ModelMessage>)

  // ----- the streaming assembler ------------------------------------------------------

  /** One delta: every message carrying `id` gets `delta` appended to its text. */
  function AppendDelta(msgs: seq<Message>, id: int, delta: string): (r: seq<Message>)
    ensures |r| == |msgs|
  {
    seq(|msgs|, i requires 0 <= i < |msgs| =>
      if msgs[i].id == id then msgs[i].(text := msgs[i].text + delta) else msgs[i])
  }

  /** The deltas applied one after another, in arrival order. */
  function FoldDeltas(msgs: seq<Message>, id: int, deltas: seq<string>): (r: seq<Message>)
    ensures |r| == |msgs|
    decreases |deltas|
  {
    if deltas == [] then msgs
    else AppendDelta(FoldDeltas(msgs, id, deltas[..|deltas| - 1]), id, deltas[|deltas| - 1])
  }

  /** The in-order concatenation of the deltas. */
  function Concat(deltas: seq<string>): string
    decreases |deltas|
  {
    if deltas == [] then "" else Concat(deltas[..|deltas| - 1]) + deltas[|deltas| - 1]
  }

  /** Stream completion: the messages carrying `id` stop streaming. */
  function SealStream(msgs: seq<Message>, id: int): (r: seq<Message>)
    ensures |r| == |msgs|
    ensures forall i :: 0 <= i < |msgs| ==>
      r[i] == if msgs[i].id == id then msgs[i].(isStreaming := false) else msgs[i]
  {
    seq(|msgs|, i requires 0 <= i < |msgs| =>
      if msgs[i].id == id then msgs[i].(isStreaming := false) else msgs[i])
  }

  /** The error path: every streaming message stops streaming. */
  function SealAll(msgs: seq<Message>): (r: seq<Message>)
    ensures |r| == |msgs|
    ensures forall i :: 0 <= i < |msgs| ==> r[i] == msgs[i].(isStreaming := false)
  {
    seq(|msgs|, i requires 0 <= i < |msgs| =>
      if msgs[i].isStreaming then msgs[i].(isStreaming := false) else msgs[i])
  }

  predicate NoneStreaming(msgs: seq<Message>) {
    forall i :: 0 <= i < |msgs| ==> !msgs[i].isStreaming
  }

  // ----- one turn -----------------------------------------------------------------------

  /** How the model call goes: it fails before yielding a stream, or yields
      `deltas` and then ends normally or throws. */
  datatype StreamOutcome = SetupFailed | Streamed(deltas: seq<string>, failsAfter: bool)

  /** Everything a turn depends on besides the window's state: whether
      `getContextFromTabs` resolved, which provider clients exist, how the model
      call goes, and the `Date.now()` readings for the user message, the
      assistant message and the error message. */
  datatype TurnInputs = TurnInputs(
    contextsFetched: bool,
    available: set<Provider>,
    stream: StreamOutcome,
    sentAt: int,
    answerAt: int,
    failedAt: int)

  /** The send guard: nothing happens for an all-whitespace text or while a
      reply is being generated. (`providerModel` is never null: it starts at the
      default and is only ever set to a model.) */
  predicate SendRejected(text: string, isGenerating: bool) {
    Trim(text) == [] || isGenerating
  }

  /** The user message for the trimmed text `trimmed`, stamped `at`. */
  function UserMessage(trimmed: string, at: int): Message {
    Message(at, trimmed, true, at, false)
  }

  function AssistantMessage(at: int): Message {
    Message(at + 1, "", false, at, true)
  }

  function ErrorMessage(at: int): Message {
    Message(at + 1, ErrorText, false, at, false)
  }

  /** The error path run on `msgs`. */
  function Failed(msgs: seq<Message>, at: int): seq<Message> {
    SealAll(msgs) + [ErrorMessage(at)]
  }

  /** The tab contents arrived and the selected provider has a client. */
  predicate CallMade(provider: Provider, inputs: TurnInputs) {
    inputs.contextsFetched && provider in inputs.available
  }

  /** The messages when the `try` block of a turn ends or throws, starting from
      the list with the user message, and whether the `catch` runs. */
  function Reached(updated: seq<Message>, provider: Provider, inputs: TurnInputs): (r: (seq<Message>, bool))
    ensures r.1 <==> !CallMade(provider, inputs) || inputs.stream.SetupFailed? || inputs.stream.failsAfter
  {
    if !CallMade(provider, inputs) || inputs.stream.SetupFailed? then (updated, true)
    else
      var id := inputs.answerAt + 1;
      var streamed := FoldDeltas(updated + [AssistantMessage(inputs.answerAt)], id, inputs.stream.deltas);
      if inputs.stream.failsAfter then (streamed, true) else (SealStream(streamed, id), false)
  }

  /** The message list after an accepted turn that appended `user` (the
      trimmed user message) and called the selected provider. */
  function TurnMessages(msgs: seq<Message>, user: Message, provider: Provider, inputs: TurnInputs): seq<Message> {
    var (reached, failed) := Reached(msgs + [user], provider, inputs);
    if failed then Failed(reached, inputs.failedAt) else reached
  }

  /** The model call an accepted turn makes, if it gets that far. */
  function TurnCall(msgs: seq<Message>, user: Message, provider: Provider, modelId: string, inputs: TurnInputs): Option<ModelCall> {
    if CallMade(provider, inputs) then Some(ModelCall(provider, modelId, History(msgs + [user]))) else None
  }

  // ----- the component ---------------------------------------------------------------------

  class Window {
    var messages: seq<Message>
    var isGenerating: bool
    var isFetchingContext: bool
    var contexts: seq<Context>
    var providerModel: ProviderModel

    constructor ()
      ensures messages == [] && !isGenerating && !isFetchingContext
      ensures contexts == [] && providerModel == DefaultProviderModel
    {
      messages, isGenerating, isFetchingContext := [], false, false;
      contexts, providerModel := [], DefaultProviderModel;
    }

    /** The side-panel port's ADD_CONTEXT listener. */
    method OnAddContext(incoming: Context)
      modifies this
      ensures contexts == AddContext(old(contexts), incoming)
      ensures messages == old(messages) && isGenerating == old(isGenerating)
      ensures isFetchingContext == old(isFetchingContext) && providerModel == old(providerModel)
    {
      contexts := AddContext(contexts, incoming);
    }

    /** `setProviderModel`, called by the model picker. */
    method SelectModel(model: ProviderModel)
      modifies this
      ensures providerModel == model
      ensures messages == old(messages) && contexts == old(contexts)
      ensures isGenerating == old(isGenerating) && isFetchingContext == old(isFetchingContext)
    {
      providerModel := model;
    }

    /** The `for await` loop over the text stream: each delta is appended, in
        arrival order, to the messages carrying the assistant message's id. */
    method AssembleStream(assistantId: int, deltas: seq<string>)
      modifies this
      ensures messages == FoldDeltas(old(messages), assistantId, deltas)
      ensures isGenerating == old(isGenerating) && isFetchingContext == old(isFetchingContext)
      ensures contexts == old(contexts) && providerModel == old(providerModel)
    {
      ghost var start := messages;
      for i := 0 to |deltas|
        invariant messages == FoldDeltas(start, assistantId, deltas[..i])
        invariant isGenerating == old(isGenerating) && isFetchingContext == old(isFetchingContext)
        invariant contexts == old(contexts) && providerModel == old(providerModel)
      {
        assert deltas[..i + 1][..i] == deltas[..i];
        messages := AppendDelta(messages, assistantId, deltas[i]);
      }
      assert deltas[..|deltas|] == deltas;
    }

    /** The part of `handleSendMessage` after the tab contents arrived: pick
        the provider's client, make the call and assemble the stream. `failed`
        says whether the `catch` runs. */
    method CallModel(updated: seq<Message>, provider: Provider, inputs: TurnInputs) returns (call: Option<ModelCall>, failed: bool)
      requires messages == updated && inputs.contextsFetched
      modifies this
      ensures contexts == old(contexts) && providerModel == old(providerModel)
      ensures isGenerating == old(isGenerating) && isFetchingContext == old(isFetchingContext)
      ensures call == if CallMade(provider, inputs) then Some(ModelCall(provider, providerModel.modelId, History(updated))) else None
      ensures (messages, failed) == Reached(updated, provider, inputs)
    {
      call, failed := None, true;
      var history := History(updated);
      if provider in inputs.available {
        call := Some(ModelCall(provider, providerModel.modelId, history));
        if inputs.stream.Streamed? {
          var assistantId := inputs.answerAt + 1;
          messages := messages + [Message(assistantId, "", false, inputs.answerAt, true)];
          AssembleStream(assistantId, inputs.stream.deltas);
          if !inputs.stream.failsAfter {
            messages := SealStream(messages, assistantId);
            failed := false;
          }
        }
      }
    }

    /** The `catch` block: every streaming message is sealed, then the error
        message is appended. */
    method ShowError(at: int)
      modifies this
      ensures messages == Failed(old(messages), at)
      ensures isGenerating == old(isGenerating) && isFetchingContext == old(isFetchingContext)
      ensures contexts == old(contexts) && providerModel == old(providerModel)
    {
      messages := SealAll(messages);
      messages := messages + [Message(at + 1, ErrorText, false, at, false)];
    }

    /** An accepted turn: the user message is appended, the tab contents are
        fetched, the model is called through `provider` (what
        `getProviderClient` picks for the selected model), and `finally`
        clears both flags. */
    method RunTurn(trimmed: string, provider: Provider, inputs: TurnInputs) returns (call: Option<ModelCall>)
      modifies this
      ensures contexts == old(contexts) && providerModel == old(providerModel)
      ensures messages == TurnMessages(old(messages), UserMessage(trimmed, inputs.sentAt), provider, inputs)
      ensures call == TurnCall(old(messages), UserMessage(trimmed, inputs.sentAt), provider, providerModel.modelId, inputs)
      ensures !isGenerating && !isFetchingContext
    {
      call := None;
      var userMessage := Message(inputs.sentAt, trimmed, true, inputs.sentAt, false);
      var updatedMessages := messages + [userMessage];
      ghost var reached := Reached(updatedMessages, provider, inputs);
      messages := updatedMessages;
      isFetchingContext := true;
      var failed := true;
      if inputs.contextsFetched {
        isFetchingContext := false;
        isGenerating := true;
        call, failed := CallModel(updatedMessages, provider, inputs);
      }
      assert (messages, failed) == reached;
      if failed {
        ShowError(inputs.failedAt);
      }
      isFetchingContext := false;
      isGenerating := false;
    }

    /** `handleSendMessage`: the send guard, then one turn. */
    method SendMessage(text: string, inputs: TurnInputs) returns (call: Option<ModelCall>)
      modifies this
      ensures contexts == old(contexts) && providerModel == old(providerModel)
      ensures SendRejected(text, old(isGenerating)) ==>
        && call == None && messages == old(messages)
        && isGenerating == old(isGenerating) && isFetchingContext == old(isFetchingContext)
      ensures !SendRejected(text, old(isGenerating)) ==>
        && messages == TurnMessages(old(messages), UserMessage(Trim(text), inputs.sentAt), ProviderFor(providerModel.provider), inputs)
        && call == TurnCall(old(messages), UserMessage(Trim(text), inputs.sentAt), ProviderFor(providerModel.provider), providerModel.modelId, inputs)
        && !isGenerating && !isFetchingContext
    {
      if Trim(text) == [] || isGenerating {
        return None;
      }
      call := RunTurn(Trim(text), ProviderFor(providerModel.provider), inputs);
    }
  }
}

/** What the side panel's turn and context updates guarantee. */
module ChatWindowProofs {
  import opened Text
  import opened AiMessages
  import opened ChatWindow

  /** A tab already in the list: the same URL leaves the list as it is, a new
      URL replaces that entry and no other. */
  lemma AddContextSeen(prev: seq<Context>, incoming: Context, i: nat)
    requires i < |prev| && prev[i].tabId == incoming.tabId
    requires forall j :: 0 <= j < i ==> prev[j].tabId != incoming.tabId
    ensures prev[i].url == incoming.url ==> AddContext(prev, incoming) == prev
    ensures prev[i].url != incoming.url ==> AddContext(prev, incoming) == prev[i := incoming]
  {
    assert FindTab(prev, incoming.tabId) == i;
  }

  /** ADD_CONTEXT keeps at most one entry per tab id. */
  lemma AddContextKeepsUnique(prev: seq<Context>, incoming: Context)
    requires UniqueTabs(prev)
    ensures UniqueTabs(AddContext(prev, incoming))
  {
    var i := FindTab(prev, incoming.tabId);
    if i != -1 && prev[i].url != incoming.url {
      var next := prev[i := incoming];
      forall a, b | 0 <= a < b < |next| ensures next[a].tabId != next[b].tabId {
        if a == i { assert next[b] == prev[b]; }
        else if b == i { assert next[a] == prev[a]; }
        else { assert next[a] == prev[a] && next[b] == prev[b]; }
      }
    }
  }

  /** Two pushes for tab 5 with the same URL give one entry. */
  lemma SameTabTwice(first: Context, second: Context)
    requires first.tabId == 5 && second.tabId == 5 && first.url == second.url
    ensures AddContext(AddContext([], first), second) == [first]
  {
    AddContextSeen([first], second, 0);
  }

  /** The dispatch is total: the lowercased tag "anthropic" selects Anthropic,
      "gemini" selects Google, and every other tag silently selects OpenAI. */
  lemma ProviderDispatch(tag: string)
    ensures ProviderFor(tag) == Anthropic <==> ToLower(tag) == "anthropic"
    ensures ProviderFor(tag) == Google <==> ToLower(tag) == "gemini"
    ensures ProviderFor(tag) == OpenAi <==> ToLower(tag) != "anthropic" && ToLower(tag) != "gemini"
  {
  }

  /** Case is ignored: "OpenAI", "Anthropic" and "Gemini" select their providers. */
  lemma ProviderTagsIgnoreCase()
    ensures ProviderFor("OpenAI") == OpenAi
    ensures ProviderFor("Anthropic") == Anthropic
    ensures ProviderFor("Gemini") == Google
  {
    OpenAiTag();
    AnthropicTag();
    GeminiTag();
  }

  lemma OpenAiTag()
    ensures ProviderFor("OpenAI") == OpenAi
  {
    LowerLiteral("OpenAI", "openai");
  }

  lemma AnthropicTag()
    ensures ProviderFor("Anthropic") == Anthropic
  {
    LowerLiteral("Anthropic", "anthropic");
  }

  lemma GeminiTag()
    ensures ProviderFor("Gemini") == Google
  {
    LowerLiteral("Gemini", "gemini");
  }

  /** The tag "google" is not recognised and falls back to OpenAI. */
  lemma GoogleTagFallsBack()
    ensures ProviderFor("google") == OpenAi
  {
    LowerLiteral("google", "google");
  }

  /** Lowercasing a literal, character by character. */
  lemma LowerLiteral(s: string, t: string)
    requires |s| == |t| && forall i :: 0 <= i < |s| ==> LowerAscii(s[i]) == t[i]
    ensures ToLower(s) == t
  {
    ToLowerAt(s);
  }

  /** The history of a concatenation is the concatenation of the histories. */
  lemma {:induction false} HistoryAppend(a: seq<Message>, b: seq<Message>)
    ensures History(a + b) == History(a) + History(b)
    decreases |a|
  {
    if a != [] {
      assert (a + b)[1..] == a[1..] + b;
      HistoryAppend(a[1..], b);
    }
  }

  /** Folding the deltas appends their in-order concatenation to every message
      carrying the id and changes nothing else. */
  lemma {:induction false} FoldDeltasAt(msgs: seq<Message>, id: int, deltas: seq<string>)
    ensures forall i :: 0 <= i < |msgs| ==>
      FoldDeltas(msgs, id, deltas)[i]
        == if msgs[i].id == id then msgs[i].(text := msgs[i].text + Concat(deltas)) else msgs[i]
    decreases |deltas|
  {
    if deltas != [] {
      FoldDeltasAt(msgs, id, deltas[..|deltas| - 1]);
    }
  }

  /** An id no earlier message carries. */
  predicate FreshId(msgs: seq<Message>, id: int) {
    forall j :: 0 <= j < |msgs| ==> msgs[j].id != id
  }

  /** While the reply streams, the assistant message is the only streaming one,
      it is last, and its text is the concatenation of the deltas so far;
      nothing before it has changed. */
  lemma WhileStreaming(updated: seq<Message>, at: int, deltas: seq<string>)
    requires NoneStreaming(updated) && FreshId(updated, at + 1)
    ensures var r := FoldDeltas(updated + [AssistantMessage(at)], at + 1, deltas);
      && r == updated + [Message(at + 1, Concat(deltas), false, at, true)]
      && forall i :: 0 <= i < |r| ==> (r[i].isStreaming <==> i == |r| - 1)
  {
    var ms := updated + [AssistantMessage(at)];
    FoldDeltasAt(ms, at + 1, deltas);
    var r := FoldDeltas(ms, at + 1, deltas);
    assert forall i :: 0 <= i < |updated| ==> r[i] == updated[i];
    assert r[|updated|] == Message(at + 1, Concat(deltas), false, at, true);
    assert r == updated + [Message(at + 1, Concat(deltas), false, at, true)];
  }

  /** Sealing the last message's id when no earlier message shares it. */
  lemma SealOnly(front: seq<Message>, last: Message)
    requires FreshId(front, last.id)
    ensures SealStream(front + [last], last.id) == front + [last.(isStreaming := false)]
  {
    var r := SealStream(front + [last], last.id);
    assert forall i :: 0 <= i < |front| ==> r[i] == front[i];
  }

  /** A stream that was made: the assistant message holds every delta, and
      it is sealed when the stream ended normally. */
  lemma StreamOutcomeReached(updated: seq<Message>, provider: Provider, inputs: TurnInputs)
    requires CallMade(provider, inputs) && inputs.stream.Streamed?
    requires NoneStreaming(updated) && FreshId(updated, inputs.answerAt + 1)
    ensures var last := Message(inputs.answerAt + 1, Concat(inputs.stream.deltas), false, inputs.answerAt, true);
      Reached(updated, provider, inputs)
        == if inputs.stream.failsAfter then (updated + [last], true) else (updated + [last.(isStreaming := false)], false)
  {
    var id := inputs.answerAt + 1;
    WhileStreaming(updated, inputs.answerAt, inputs.stream.deltas);
    var last := Message(id, Concat(inputs.stream.deltas), false, inputs.answerAt, true);
    SealOnly(updated, last);
  }

  /** A successful turn appends the trimmed user message and, after it, one
      assistant message holding all deltas in order, no longer streaming. */
  lemma TurnSucceeds(msgs: seq<Message>, user: Message, provider: Provider, inputs: TurnInputs)
    requires CallMade(provider, inputs) && inputs.stream.Streamed? && !inputs.stream.failsAfter
    requires NoneStreaming(msgs) && !user.isStreaming
    requires FreshId(msgs, inputs.answerAt + 1) && user.id != inputs.answerAt + 1
    ensures TurnMessages(msgs, user, provider, inputs)
      == msgs + [user, Message(inputs.answerAt + 1, Concat(inputs.stream.deltas), false, inputs.answerAt, false)]
  {
    var updated := msgs + [user];
    StreamOutcomeReached(updated, provider, inputs);
  }

  /** A turn that fails before a stream exists (no tab contents, no client for
      the provider, or a failing call) keeps the user message and appends the
      error message after it. */
  lemma TurnFailsBeforeStream(msgs: seq<Message>, user: Message, provider: Provider, inputs: TurnInputs)
    requires !CallMade(provider, inputs) || inputs.stream.SetupFailed?
    requires !user.isStreaming
    ensures TurnMessages(msgs, user, provider, inputs)
      == SealAll(msgs) + [user, ErrorMessage(inputs.failedAt)]
  {
    var updated := msgs + [user];
    assert Reached(updated, provider, inputs) == (updated, true);
    assert SealAll(updated) == SealAll(msgs) + [user];
  }

  /** A stream that throws midway keeps the partial text in the assistant
      message, now sealed, and appends the error message last. */
  lemma TurnFailsMidStream(msgs: seq<Message>, user: Message, provider: Provider, inputs: TurnInputs)
    requires CallMade(provider, inputs) && inputs.stream.Streamed? && inputs.stream.failsAfter
    requires NoneStreaming(msgs) && !user.isStreaming
    requires FreshId(msgs, inputs.answerAt + 1) && user.id != inputs.answerAt + 1
    ensures TurnMessages(msgs, user, provider, inputs)
      == msgs + [user,
                 Message(inputs.answerAt + 1, Concat(inputs.stream.deltas), false, inputs.answerAt, false),
                 ErrorMessage(inputs.failedAt)]
  {
    var updated := msgs + [user];
    StreamOutcomeReached(updated, provider, inputs);
    var last := Message(inputs.answerAt + 1, Concat(inputs.stream.deltas), false, inputs.answerAt, true);
    assert SealAll(updated + [last]) == updated + [last.(isStreaming := false)];
  }

  /** Every failing turn ends with the error message, and afterwards no message
      is left streaming, whatever streamed before. */
  lemma TurnErrorComesLast(msgs: seq<Message>, user: Message, provider: Provider, inputs: TurnInputs)
    requires !CallMade(provider, inputs) || inputs.stream.SetupFailed? || inputs.stream.failsAfter
    ensures var r := TurnMessages(msgs, user, provider, inputs);
      && |r| >= |msgs| + 2
      && r[|r| - 1] == ErrorMessage(inputs.failedAt)
      && NoneStreaming(r)
  {
    var (reached, failed) := Reached(msgs + [user], provider, inputs);
    assert |reached| >= |msgs| + 1;
    FailedShape(reached, inputs.failedAt);
  }

  /** The error path seals everything and puts the error message last. */
  lemma FailedShape(msgs: seq<Message>, at: int)
    ensures var r := Failed(msgs, at);
      |r| == |msgs| + 1 && r[|msgs|] == ErrorMessage(at) && NoneStreaming(r)
  {
  }

  /** If nothing was streaming before a turn, nothing is streaming after it,
      whatever the outcome and whatever ids earlier messages carry. */
  lemma NoStreamingAfterTurn(msgs: seq<Message>, user: Message, provider: Provider, inputs: TurnInputs)
    requires NoneStreaming(msgs) && !user.isStreaming
    ensures NoneStreaming(TurnMessages(msgs, user, provider, inputs))
  {
    var updated := msgs + [user];
    var (reached, failed) := Reached(updated, provider, inputs);
    if failed {
      FailedShape(reached, inputs.failedAt);
    } else {
      var id := inputs.answerAt + 1;
      var ms := updated + [AssistantMessage(inputs.answerAt)];
      FoldDeltasAt(ms, id, inputs.stream.deltas);
      var streamed := FoldDeltas(ms, id, inputs.stream.deltas);
      assert forall i :: 0 <= i < |streamed| && streamed[i].isStreaming ==> streamed[i].id == id;
      assert reached == SealStream(streamed, id);
    }
  }

  /** The history handed to the model lists every message of the updated
      conversation, the new user message last. */
  lemma TurnCallHistory(msgs: seq<Message>, text: string, model: ProviderModel, inputs: TurnInputs)
    requires CallMade(ProviderFor(model.provider), inputs)
    ensures var call := TurnCall(msgs, UserMessage(Trim(text), inputs.sentAt), ProviderFor(model.provider), model.modelId, inputs);
      && call.Some? && call.value.modelId == model.modelId
      && call.value.history == History(msgs) + [ModelMessage(User, Trim(text))]
  {
    var user := UserMessage(Trim(text), inputs.sentAt);
    HistoryAppend(msgs, [user]);
    assert History([user]) == [ModelMessage(User, user.text)];
  }

  /** "Hello" sent at time `now` and answered by "Hi" and " there" gives the
      user's "Hello" followed by the assistant's "Hi there". */
  lemma HelloScenario(now: int)
    ensures TurnMessages([], UserMessage(Trim("Hello"), now), ProviderFor(DefaultProviderModel.provider),
                         TurnInputs(true, {OpenAi}, Streamed(["Hi", " there"], false), now, now, now))
      == [Message(now, "Hello", true, now, false), Message(now + 1, "Hi there", false, now, false)]
  {
    DefaultProviderIsOpenAi();
    HelloUserMessage(now);
    HelloTurn(now);
    ConcatHiThere();
  }

  lemma DefaultProviderIsOpenAi()
    ensures ProviderFor(DefaultProviderModel.provider) == OpenAi
  {
    LowerLiteral("openai", "openai");
  }

  lemma HelloUserMessage(now: int)
    ensures UserMessage(Trim("Hello"), now) == Message(now, "Hello", true, now, false)
  {
    TrimHello();
  }

  lemma HelloTurn(now: int)
    ensures TurnMessages([], Message(now, "Hello", true, now, false), OpenAi,
                         TurnInputs(true, {OpenAi}, Streamed(["Hi", " there"], false), now, now, now))
      == [Message(now, "Hello", true, now, false), Message(now + 1, Concat(["Hi", " there"]), false, now, false)]
  {
    TurnSucceeds([], Message(now, "Hello", true, now, false), OpenAi,
                 TurnInputs(true, {OpenAi}, Streamed(["Hi", " there"], false), now, now, now));
  }

  lemma TrimHello()
    ensures Trim("Hello") == "Hello"
  {
    assert TrimStart("Hello") == "Hello";
    assert TrimEnd("Hello") == "Hello";
  }

  lemma ConcatHiThere()
    ensures Concat(["Hi", " there"]) == "Hi there"
  {
    var ds := ["Hi", " there"];
    assert ds[..1] == ["Hi"] && ds[..1][..0] == [];
  }
}
