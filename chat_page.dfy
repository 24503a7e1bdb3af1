/** src/pages/chat.tsx: the older single-shot chat page. A send appends the
    user message, empties the box and asks the model for one answer to that
    message alone; the answer is appended when it arrives. The clock readings,
    whether a provider is available and how the generation goes are inputs. */
module ChatPage {
  import opened Wrappers
  import opened Text
  import opened AiMessages

  /** A page message; its id and timestamp are `Date.now()` readings. */
  datatype PageMessage = PageMessage(id: int, text: string, isUser: bool, timestamp: int)

  /** The model the page asks. */
  const PageModel: string := "gpt-4"

  /** One `generateText` call. */
  datatype PageCall = PageCall(modelId: string, messages: seq<ModelMessage>)

  /** How `generateText` settles: with a text, or by throwing (the rejection is
      not caught). */
  datatype Generation = Generated(text: string) | GenerationThrew

  /** The page's state: `messages`, `input`, `isGenerating`. */
  datatype PageState = PageState(messages: seq<PageMessage>, input: string, isGenerating: bool)

  /** The send guard `!openai || !input.trim() || isGenerating`. */
  predicate PageSendRejected(s: PageState, openaiAvailable: bool) {
    !openaiAvailable || Trim(s.input) == [] || s.isGenerating
  }

  /** `handleSendMessage` from start to end: the new state and the call made. */
  function PageSend(s: PageState, openaiAvailable: bool, sentAt: int, answerAt: int, outcome: Generation): (r: (PageState, Option<PageCall>))
    ensures PageSendRejected(s, openaiAvailable) ==> r == (s, None)
    ensures !PageSendRejected(s, openaiAvailable) ==>
      var user := PageMessage(sentAt, Trim(s.input), true, sentAt);
      && r.1 == Some(PageCall(PageModel, [ModelMessage(User, Trim(s.input))]))
      && r.0.input == ""
      && (outcome.Generated? ==>
            r.0.messages == s.messages + [user, PageMessage(answerAt, outcome.text, false, answerAt)]
            && !r.0.isGenerating)
      && (outcome.GenerationThrew? ==> r.0.messages == s.messages + [user] && r.0.isGenerating)
  {
    if PageSendRejected(s, openaiAvailable) then (s, None)
    else
      var user := PageMessage(sentAt, Trim(s.input), true, sentAt);
      var call := PageCall(PageModel, [ModelMessage(User, user.text)]);
      match outcome
      case Generated(text) =>
        (PageState(s.messages + [user] + [PageMessage(answerAt, text, false, answerAt)], "", false), Some(call))
      case GenerationThrew => (PageState(s.messages + [user], "", true), Some(call))
  }

  class Page {
    var messages: seq<PageMessage>
    var input: string
    var isGenerating: bool

    function State(): PageState
      reads this
    {
      PageState(messages, input, isGenerating)
    }

    constructor ()
      ensures State() == PageState([], "", false)
    {
      messages, input, isGenerating := [], "", false;
    }

    /** The textarea's `onChange`. */
    method Change(value: string)
      modifies this
      ensures State() == old(State()).(input := value)
    {
      input := value;
    }

    method SendMessage(openaiAvailable: bool, sentAt: int, answerAt: int, outcome: Generation) returns (call: Option<PageCall>)
      modifies this
      ensures (State(), call) == PageSend(old(State()), openaiAvailable, sentAt, answerAt, outcome)
    {
      if !openaiAvailable || Trim(input) == [] || isGenerating {
        return None;
      }
      var userMessage := PageMessage(sentAt, Trim(input), true, sentAt);
      messages := messages + [userMessage];
      input := "";
      isGenerating := true;
      call := Some(PageCall(PageModel, [ModelMessage(User, userMessage.text)]));
      if outcome.Generated? {
        messages := messages + [PageMessage(answerAt, outcome.text, false, answerAt)];
        isGenerating := false;
      }
    }

    /** `handleKeyPress`: Enter without Shift sends. */
    method KeyPress(key: string, shiftKey: bool, openaiAvailable: bool, sentAt: int, answerAt: int, outcome: Generation)
      returns (preventDefault: bool, call: Option<PageCall>)
      modifies this
      ensures preventDefault <==> key == "Enter" && !shiftKey
      ensures preventDefault ==> (State(), call) == PageSend(old(State()), openaiAvailable, sentAt, answerAt, outcome)
      ensures !preventDefault ==> State() == old(State()) && call == None
    {
      preventDefault, call := false, None;
      if key == "Enter" && !shiftKey {
        preventDefault := true;
        call := SendMessage(openaiAvailable, sentAt, answerAt, outcome);
      }
    }
  }
}

/** What the single-shot page does over several sends. */
module ChatPageProofs {
  import opened Wrappers
  import opened AiMessages
  import opened ChatPage

  /** Each call carries only the latest user message, however long the
      conversation already is. */
  lemma OnlyLatestMessageSent(s: PageState, openaiAvailable: bool, sentAt: int, answerAt: int, outcome: Generation)
    requires !PageSendRejected(s, openaiAvailable)
    ensures var call := PageSend(s, openaiAvailable, sentAt, answerAt, outcome).1;
      call.Some? && |call.value.messages| == 1 && call.value.messages[0].role == User
  {
  }

  /** A generation that throws leaves the page generating for good: every later
      send is refused, whatever is typed. */
  lemma StuckAfterThrow(s: PageState, openaiAvailable: bool, sentAt: int, answerAt: int,
                         later: seq<(string, int, int, Generation)>)
    requires !PageSendRejected(s, openaiAvailable)
    ensures var stuck := PageSend(s, openaiAvailable, sentAt, answerAt, GenerationThrew).0;
      && stuck.isGenerating
      && Replay(stuck, openaiAvailable, later).messages == stuck.messages
  {
    var stuck := PageSend(s, openaiAvailable, sentAt, answerAt, GenerationThrew).0;
    ReplayWhileGenerating(stuck, openaiAvailable, later);
  }

  /** Typing a text and sending it, for each element of `later` in turn. */
  function Replay(s: PageState, openaiAvailable: bool, later: seq<(string, int, int, Generation)>): PageState
    decreases |later|
  {
    if later == [] then s
    else
      var (text, sentAt, answerAt, outcome) := later[0];
      Replay(PageSend(s.(input := text), openaiAvailable, sentAt, answerAt, outcome).0, openaiAvailable, later[1..])
  }

  lemma {:induction false} ReplayWhileGenerating(s: PageState, openaiAvailable: bool, later: seq<(string, int, int, Generation)>)
    requires s.isGenerating
    ensures Replay(s, openaiAvailable, later).messages == s.messages
    ensures Replay(s, openaiAvailable, later).isGenerating
    decreases |later|
  {
    if later != [] {
      var (text, sentAt, answerAt, outcome) := later[0];
      var next := PageSend(s.(input := text), openaiAvailable, sentAt, answerAt, outcome).0;
      assert next == s.(input := text);
      ReplayWhileGenerating(next, openaiAvailable, later[1..]);
    }
  }

  /** A successful exchange appends the user message and the answer after it,
      and leaves the page ready for the next send. */
  lemma ExchangeAppendsPair(s: PageState, openaiAvailable: bool, sentAt: int, answerAt: int, text: string)
    requires !PageSendRejected(s, openaiAvailable)
    ensures var r := PageSend(s, openaiAvailable, sentAt, answerAt, Generated(text)).0;
      && |r.messages| == |s.messages| + 2
      && r.messages[..|s.messages|] == s.messages
      && r.messages[|s.messages|].isUser && !r.messages[|s.messages| + 1].isUser
      && r.messages[|s.messages| + 1].text == text
      && !r.isGenerating && r.input == ""
  {
    var r := PageSend(s, openaiAvailable, sentAt, answerAt, Generated(text)).0;
    assert r.messages[..|s.messages|] == s.messages;
  }
}
