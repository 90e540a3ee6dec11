/** The chatbot screen: a newest-first message list, an input box and a
    send action that asks a hosted text-generation endpoint for a reply.
    Message IDs (`Date.now()`, `Math.random()`) and the endpoint's answer
    are parameters. */
module JarvisPage {
  import opened Wrappers
  import opened Effects
  import opened Text

  datatype Sender = User | Bot

  datatype Message = Message(id: string, text: string, sender: Sender)

  /** `messages` is newest first; `isLoading` holds while a reply is awaited. */
  datatype ChatState = ChatState(messages: seq<Message>, input: string, isLoading: bool)

  const Greeting := Message("1", "Hello! I am JARVIS. How can I assist you today?", Bot)
  const Initial := ChatState([Greeting], "", false)

  const Apology := "I apologize, but I am unable to respond at the moment."
  const Warning := "\U{26A0}\U{FE0F} Huh, well that's weird. Give me a minute."

  /** The send button is enabled, and the handler proceeds, exactly when
      the trimmed input is non-empty and no reply is pending; that is, when
      the input holds a character other than white space. */
  function CanSend(s: ChatState): (b: bool)
    ensures b <==> !Blank(s.input) && !s.isLoading
  {
    TrimEmptyIffBlank(s.input);
    Trim(s.input) != "" && !s.isLoading
  }

  /** Typing in the input box. */
  function SetInput(s: ChatState, text: string): (r: ChatState)
    ensures r.messages == s.messages && r.isLoading == s.isLoading && r.input == text
  {
    s.(input := text)
  }

  /** `handleSend` up to the request: a no-op unless `CanSend`; otherwise
      exactly one user message holding the trimmed input goes on top, the
      input is cleared, loading is set and the request is issued. */
  function Send(s: ChatState, id: string): (r: (ChatState, Reaction))
    ensures !CanSend(s) ==> r == (s, Quiet)
    ensures CanSend(s) ==> r.0.input == "" && r.0.isLoading
    ensures CanSend(s) ==> r.0.messages == [Message(id, Trim(s.input), User)] + s.messages
    ensures CanSend(s) ==> r.1 == Reaction([GenerateContent(Trim(s.input))], [], [])
  {
    var text := Trim(s.input);
    if text == "" || s.isLoading then (s, Quiet)
    else
      (ChatState([Message(id, text, User)] + s.messages, "", true),
       Reaction([GenerateContent(text)], [], []))
  }

  /** The bot's reply text: the first candidate's first text part with
      surrounding white space removed, or the apology when that is blank.
      `candidate` is `None` when any level of the response is missing. */
  function BotText(candidate: Option<string>): (t: string)
    ensures t != ""
    ensures candidate.Some? && Trim(candidate.value) != "" ==> t == Trim(candidate.value)
    ensures candidate.None? || Trim(candidate.value) == "" ==> t == Apology
  {
    match candidate
    case Some(text) => if Trim(text) != "" then Trim(text) else Apology
    case None => Apology
  }

  /** The rest of `handleSend`: exactly one bot message goes on top (the
      reply text, or the warning when the request failed), the older
      messages stay as they were, and loading is cleared. */
  function Receive(s: ChatState, reply: Result<Option<string>>, id: string): (r: ChatState)
    ensures !r.isLoading && r.input == s.input
    ensures |r.messages| == |s.messages| + 1 && r.messages[1..] == s.messages
    ensures r.messages[0].sender == Bot && r.messages[0].id == id
    ensures reply.Ok? ==> r.messages[0].text == BotText(reply.value)
    ensures reply.Err? ==> r.messages[0].text == Warning
  {
    var text := match reply
      case Ok(candidate) => BotText(candidate)
      case Err(_) => Warning;
    ChatState([Message(id, text, Bot)] + s.messages, s.input, false)
  }

  /** The send guard is exactly "blank input or a reply pending". */
  lemma SendIsNoOpIff(s: ChatState, id: string)
    ensures Send(s, id).0 == s <==> Blank(s.input) || s.isLoading
  {
    TrimEmptyIffBlank(s.input);
    if CanSend(s) {
      assert |Send(s, id).0.messages| == |s.messages| + 1;
    }
  }

  /** Adjacent messages come from different senders. */
  ghost predicate Alternating(ms: seq<Message>) {
    forall i :: 0 <= i < |ms| - 1 ==> ms[i].sender != ms[i + 1].sender
  }

  /** A user message holds non-empty text with no white space at either end. */
  ghost predicate CleanText(m: Message) {
    m.sender == User ==> m.text != "" && Trimmed(m.text)
  }

  ghost predicate AllClean(ms: seq<Message>) {
    forall i :: 0 <= i < |ms| ==> CleanText(ms[i])
  }

  /** The state every reachable chat is in: the greeting at the bottom,
      senders alternating, a user message on top exactly while a reply is
      pending, and every user message trimmed and non-empty. */
  ghost predicate Wellformed(s: ChatState) {
    && |s.messages| > 0
    && s.messages[|s.messages| - 1] == Greeting
    && Alternating(s.messages)
    && (s.isLoading <==> s.messages[0].sender == User)
    && AllClean(s.messages)
  }

  /** The chat starts as the bot greeting alone, not loading, and that
      state is well-formed. */
  lemma InitialWellformed()
    ensures Initial.messages == [Greeting] && !Initial.isLoading && Initial.input == ""
    ensures Wellformed(Initial)
  {
  }

  /** Putting a clean message from the other sender on top of a
      well-formed list keeps it alternating and clean. */
  lemma {:induction false} PushKeepsShape(m: Message, ms: seq<Message>)
    requires Alternating(ms) && AllClean(ms) && ms != [] && m.sender != ms[0].sender && CleanText(m)
    ensures Alternating([m] + ms) && AllClean([m] + ms)
  {
    var r := [m] + ms;
    forall i | 0 <= i < |r| - 1
      ensures r[i].sender != r[i + 1].sender
    {
      if i > 0 { assert r[i] == ms[i - 1]; }
    }
    forall i | 0 <= i < |r|
      ensures CleanText(r[i])
    {
      if i > 0 { assert r[i] == ms[i - 1]; }
    }
  }

  lemma {:induction false} SendPreservesWellformed(s: ChatState, id: string)
    requires Wellformed(s)
    ensures Wellformed(Send(s, id).0)
  {
    if CanSend(s) {
      var m := Message(id, Trim(s.input), User);
      PushKeepsShape(m, s.messages);
      assert Send(s, id).0.messages == [m] + s.messages;
    }
  }

  lemma {:induction false} ReceivePreservesWellformed(s: ChatState, reply: Result<Option<string>>, id: string)
    requires Wellformed(s) && s.isLoading
    ensures Wellformed(Receive(s, reply, id))
  {
    var r := Receive(s, reply, id);
    PushKeepsShape(r.messages[0], s.messages);
    assert r.messages == [r.messages[0]] + s.messages;
  }

  lemma SetInputPreservesWellformed(s: ChatState, text: string)
    requires Wellformed(s)
    ensures Wellformed(SetInput(s, text))
  {
  }

  /** The list only grows at the front: after any send or reply, the old
      list is an unchanged suffix of the new one. */
  lemma MessagesOnlyGrow(s: ChatState, id: string, reply: Result<Option<string>>)
    ensures var m := Send(s, id).0.messages;
      |m| >= |s.messages| && m[|m| - |s.messages|..] == s.messages
    ensures var m := Receive(s, reply, id).messages;
      |m| == |s.messages| + 1 && m[1..] == s.messages
  {
  }
}
