/** The chat transcript of the application's root component: the `input`,
    `messages` and `isLoading` state, the submit handler and the send-button guard.
    The POST to the backend is not modelled; its settled result is an `Outcome`
    that the caller supplies. */
module Chat {
  import opened JsStrings

  datatype Sender = User | Ai

  datatype Message = Message(sender: Sender, text: string)

  /** How the request to the backend settles: a response body carrying the
      answer text, or any thrown error (network failure, non-2xx status). */
  datatype Outcome = Success(response: string) | Failure

  /** The fixed text of the message shown when the request fails. */
  const Apology: string := "Sorry, I couldn't connect to the AI. Please try again."

  /** The component's three pieces of state. */
  datatype ChatState = ChatState(input: string, messages: seq<Message>, isLoading: bool)

  /** The state when the component mounts: empty input, no messages, not loading. */
  const Initial: ChatState := ChatState("", [], false)

  /** The AI message appended once the request settles. */
  function Reply(outcome: Outcome): (m: Message)
    ensures m.sender == Ai
    ensures outcome.Success? ==> m.text == outcome.response
    ensures outcome.Failure? ==> m.text == Apology
  {
    match outcome
    case Success(text) => Message(Ai, text)
    case Failure => Message(Ai, Apology)
  }

  /** The textarea's change handler replaces the input and nothing else. */
  function Typed(s: ChatState, text: string): (r: ChatState)
    ensures r.input == text && r.messages == s.messages && r.isLoading == s.isLoading
  {
    s.(input := text)
  }

  /** The synchronous part of the submit handler, up to the awaited request:
      a blank input leaves the state as it is; otherwise the untrimmed input is
      appended as a user message, the input is cleared and loading starts. */
  function Begin(s: ChatState): (r: ChatState)
    ensures IsBlank(s.input) ==> r == s
    ensures !IsBlank(s.input) ==> r.messages == s.messages + [Message(User, s.input)]
    ensures !IsBlank(s.input) ==> r.input == "" && r.isLoading
  {
    if IsBlank(s.input) then s
    else ChatState("", s.messages + [Message(User, s.input)], true)
  }

  /** The part of the submit handler after the request settles: exactly one AI
      message is appended to the messages as they are now, and loading stops.
      The input, which the user may have edited meanwhile, is left alone. */
  function Finish(s: ChatState, outcome: Outcome): (r: ChatState)
    ensures r.messages == s.messages + [Reply(outcome)]
    ensures r.input == s.input && !r.isLoading
  {
    ChatState(s.input, s.messages + [Reply(outcome)], false)
  }

  /** A whole submit with nothing interleaved between its two halves. */
  function Submit(s: ChatState, outcome: Outcome): (r: ChatState)
    ensures IsBlank(s.input) ==> r == s
    ensures !IsBlank(s.input) ==>
      && |r.messages| == |s.messages| + 2
      && r.messages[..|s.messages|] == s.messages
      && r.messages[|s.messages|] == Message(User, s.input)
      && r.messages[|s.messages| + 1] == Reply(outcome)
      && r.input == ""
      && !r.isLoading
  {
    if IsBlank(s.input) then s else Finish(Begin(s), outcome)
  }

  /** The send button is disabled while a request is outstanding, which is
      exactly while the typing indicator is shown. */
  predicate SendEnabled(s: ChatState)
    ensures SendEnabled(s) <==> TypingIndicator !in MessagesArea(s)
  {
    !s.isLoading
  }

  /** One entry of the rendered messages area. */
  datatype Bubble = MessageBubble(message: Message) | TypingIndicator

  /** The messages area: one bubble per message, in order, followed by the
      "AI is thinking..." indicator exactly while loading. */
  function MessagesArea(s: ChatState): (r: seq<Bubble>)
    ensures |r| == |s.messages| + (if s.isLoading then 1 else 0)
    ensures forall i :: 0 <= i < |s.messages| ==> r[i] == MessageBubble(s.messages[i])
    ensures TypingIndicator in r <==> s.isLoading
  {
    seq(|s.messages|, i requires 0 <= i < |s.messages| => MessageBubble(s.messages[i]))
      + (if s.isLoading then [TypingIndicator] else [])
  }

  /** What can happen to the component: the user edits the textarea, the user
      presses Send, or the outstanding request settles. */
  datatype Event = InputChanged(text: string) | SendPressed | Settled(outcome: Outcome)

  function Step(s: ChatState, e: Event): ChatState
  {
    match e
    case InputChanged(text) => Typed(s, text)
    case SendPressed => Begin(s)
    case Settled(outcome) => Finish(s, outcome)
  }

  /** Events the page can deliver: Send only while the button is enabled, and a
      settlement only while a request is outstanding. */
  predicate Possible(s: ChatState, e: Event)
    ensures e.InputChanged? ==> Possible(s, e)
    ensures e.SendPressed? ==> (Possible(s, e) <==> TypingIndicator !in MessagesArea(s))
    ensures e.Settled? ==> (Possible(s, e) <==> TypingIndicator in MessagesArea(s))
  {
    match e
    case InputChanged(_) => true
    case SendPressed => SendEnabled(s)
    case Settled(_) => s.isLoading
  }

  function Run(s: ChatState, events: seq<Event>): ChatState
    decreases |events|
  {
    if events == [] then s else Run(Step(s, events[0]), events[1..])
  }

  predicate PossibleRun(s: ChatState, events: seq<Event>)
    decreases |events|
  {
    events == [] || (Possible(s, events[0]) && PossibleRun(Step(s, events[0]), events[1..]))
  }

  /** Every step appends to the transcript it was given: earlier messages are
      never removed, replaced or reordered. */
  lemma {:induction false} RunAppendOnly(s: ChatState, events: seq<Event>)
    ensures |s.messages| <= |Run(s, events).messages|
    ensures Run(s, events).messages[..|s.messages|] == s.messages
    decreases |events|
  {
    if events != [] {
      var t := Step(s, events[0]);
      RunAppendOnly(t, events[1..]);
      assert t.messages[..|s.messages|] == s.messages;
    }
  }

  /** The transcript reads user, ai, user, ai, ...; it has an odd length exactly
      while a request is outstanding. */
  predicate Turns(s: ChatState)
  {
    && (forall i :: 0 <= i < |s.messages| ==> s.messages[i].sender == TurnAt(i))
    && (|s.messages| % 2 == 1 <==> s.isLoading)
  }

  /** Whose turn position `i` of a well-formed transcript is. */
  function TurnAt(i: int): Sender
  {
    if i % 2 == 0 then User else Ai
  }

  /** Appending the message of the next sender in turn keeps the alternation. */
  lemma AppendTurn(ms: seq<Message>, m: Message)
    requires forall i :: 0 <= i < |ms| ==> ms[i].sender == TurnAt(i)
    requires m.sender == TurnAt(|ms|)
    ensures forall i :: 0 <= i < |ms + [m]| ==> (ms + [m])[i].sender == TurnAt(i)
  {
  }

  /** A user message is appended only while no request is outstanding, an AI
      message only while one is. */
  lemma SendTurn(s: ChatState, m: Message)
    requires Turns(s) && !s.isLoading && m.sender == User
    ensures Turns(ChatState("", s.messages + [m], true))
  {
    AppendTurn(s.messages, m);
  }

  lemma BeginKeepsTurns(s: ChatState)
    requires Turns(s) && !s.isLoading
    ensures Turns(Begin(s))
  {
    if !IsBlank(s.input) {
      SendTurn(s, Message(User, s.input));
    }
  }

  lemma FinishKeepsTurns(s: ChatState, outcome: Outcome)
    requires Turns(s) && s.isLoading
    ensures Turns(Finish(s, outcome))
  {
    AppendTurn(s.messages, Reply(outcome));
  }

  lemma StepKeepsTurns(s: ChatState, e: Event)
    requires Turns(s) && Possible(s, e)
    ensures Turns(Step(s, e))
  {
    match e
    case InputChanged(_) =>
    case SendPressed => BeginKeepsTurns(s);
    case Settled(outcome) => FinishKeepsTurns(s, outcome);
  }

  /** Because Send is disabled while loading, no second request is dispatched
      before the first settles, and user and AI messages strictly alternate. */
  lemma {:induction false} RunKeepsTurns(s: ChatState, events: seq<Event>)
    requires Turns(s) && PossibleRun(s, events)
    ensures Turns(Run(s, events))
    decreases |events|
  {
    if events != [] {
      StepKeepsTurns(s, events[0]);
      RunKeepsTurns(Step(s, events[0]), events[1..]);
    }
  }

  lemma InitialTurns()
    ensures Turns(Initial) && SendEnabled(Initial) && MessagesArea(Initial) == []
  {
  }

  /** The component itself, with the state React keeps for it. */
  class ChatApp {
    var input: string
    var messages: seq<Message>
    var isLoading: bool

    function State(): ChatState
      reads this
    {
      ChatState(input, messages, isLoading)
    }

    constructor ()
      ensures State() == Initial
    {
      input := "";
      messages := [];
      isLoading := false;
    }

    method OnInputChange(text: string)
      modifies this
      ensures State() == Typed(old(State()), text)
    {
      input := text;
    }

    /** The handler up to the awaited request; `started` says whether a
        request is now outstanding. */
    method BeginSubmit() returns (started: bool)
      modifies this
      ensures started <==> !IsBlank(old(input))
      ensures State() == Begin(old(State()))
    {
      if IsBlank(input) {
        return false;
      }
      var userMessage := Message(User, input);
      messages := messages + [userMessage];
      input := "";
      isLoading := true;
      started := true;
    }

    /** The handler after the request settles, in its success or catch branch. */
    method CompleteSubmit(outcome: Outcome)
      modifies this
      ensures State() == Finish(old(State()), outcome)
    {
      match outcome {
        case Success(text) =>
          var aiMessage := Message(Ai, text);
          messages := messages + [aiMessage];
        case Failure =>
          var errorMessage := Message(Ai, Apology);
          messages := messages + [errorMessage];
      }
      isLoading := false;
    }

    /** The whole handler when nothing else happens while the request is outstanding. */
    method HandleSubmit(outcome: Outcome) returns (started: bool)
      modifies this
      ensures started <==> !IsBlank(old(input))
      ensures State() == Submit(old(State()), outcome)
    {
      started := BeginSubmit();
      if started {
        CompleteSubmit(outcome);
      }
    }
  }
}
