/**
 * The chat side of the main window: the message history shown in the
 * chat pane, the input box and send button, and the send workflow that
 * posts a trimmed message to the Ollama client and replaces the
 * "Thinking..." placeholder with what comes back.
 */
module Chat {
  import opened Wrappers
  import opened Strings
  import Ollama

  /** One bubble of the chat pane. */
  datatype ChatMessage = ChatMessage(
    sender: string,
    messageText: string,
    foregroundColor: string,
    backgroundColor: string)

  /** A message the user sent (gold bubble). */
  function UserEntry(text: string): ChatMessage
  {
    ChatMessage("You", text, "Gold", "#FFB300")
  }

  /** A reply of the model (green bubble). */
  function ReplyEntry(text: string): ChatMessage
  {
    ChatMessage("AI", text, "LimeGreen", "#4CAF50")
  }

  /** The placeholder shown while the request is in flight. */
  const ThinkingEntry: ChatMessage := ChatMessage("AI", "Thinking...", "LimeGreen", "#4CAF50")

  /** The entry shown when awaiting the reply threw (red bubble). */
  const ConnectionErrorEntry: ChatMessage := ChatMessage("AI", "Error connecting to Ollama", "Red", "#D32F2F")

  /** The two entries the window opens with. */
  const Seed: seq<ChatMessage> := [
    ChatMessage("AI", "Welcome to CreateForge!", "LimeGreen", "#2E7D32"),
    UserEntry("Ready to build apps?")
  ]

  /** How the awaited `SendMessageAsync` task completed. */
  datatype Completion = Reply(text: string) | Threw

  /** The entry that takes the placeholder's slot. */
  function CompletionEntry(c: Completion): ChatMessage
  {
    match c
    case Reply(s) => ReplyEntry(s)
    case Threw => ConnectionErrorEntry
  }

  /** The task `SendMessageAsync` returns, for a given course of the call:
      it always completes with a string, since the method catches every
      exception itself. */
  function ServiceTask(o: Ollama.ServiceOutcome): (c: Completion)
    ensures c.Reply? && c.text == Ollama.ReplyText(o)
    ensures Ollama.Faulted(o) ==> c != Threw && c.text[..|Ollama.ErrorPrefix|] == Ollama.ErrorPrefix
  {
    Reply(Ollama.ReplyText(o))
  }

  // The history, as a value: what each step of the workflow does to it.

  /** The history after a message with trimmed text `t` was sent. */
  function Submitted(h: seq<ChatMessage>, t: string): seq<ChatMessage>
  {
    h + [UserEntry(t), ThinkingEntry]
  }

  /** The history after the last slot was overwritten with the outcome. */
  function Resolved(h: seq<ChatMessage>, c: Completion): seq<ChatMessage>
    requires h != []
  {
    h[|h| - 1 := CompletionEntry(c)]
  }

  /** What `SendMessage` hands to the client for the text in the input
      box: nothing when the text is blank, otherwise the text trimmed. */
  function Submission(input: string): (sent: Option<string>)
    ensures sent.None? <==> AllWhiteSpace(input)
    ensures sent.Some? ==> sent.value != [] && IsTrimOf(input, sent.value)
  {
    var t := Trim(input);
    if t == [] then None else Some(t)
  }

  /** One press of Enter or of the send button: what was handed to the
      client, and how the call completed (ignored when nothing was). */
  datatype Turn = Turn(sent: Option<string>, completion: Completion)

  /** The whole send workflow on the history: nothing for blank input,
      otherwise submit and resolve. */
  function Step(h: seq<ChatMessage>, turn: Turn): seq<ChatMessage>
  {
    match turn.sent
    case None => h
    case Some(t) => Resolved(Submitted(h, t), turn.completion)
  }

  /** The history after a series of turns, one after the other. */
  function Run(h: seq<ChatMessage>, turns: seq<Turn>): seq<ChatMessage>
    decreases |turns|
  {
    if turns == [] then h else Run(Step(h, turns[0]), turns[1..])
  }

  /** The entries one turn leaves: none for blank input, otherwise the
      user's trimmed text and the entry for how the call completed. */
  function TurnEntries(turn: Turn): seq<ChatMessage>
  {
    match turn.sent
    case None => []
    case Some(t) => [UserEntry(t), CompletionEntry(turn.completion)]
  }

  /** What a series of turns leaves in the pane, read off the turns
      alone rather than from the updates of the history. */
  function Transcript(turns: seq<Turn>): seq<ChatMessage>
    decreases |turns|
  {
    if turns == [] then [] else TurnEntries(turns[0]) + Transcript(turns[1..])
  }

  /** A complete send cycle appends exactly two entries, the user's and
      the outcome's, and leaves all earlier entries as they were. */
  lemma CycleAppendsTwo(h: seq<ChatMessage>, t: string, c: Completion)
    ensures Resolved(Submitted(h, t), c) == h + [UserEntry(t), CompletionEntry(c)]
  {
  }

  /** One turn appends exactly the entries it leaves. */
  lemma StepAppendsEntries(h: seq<ChatMessage>, turn: Turn)
    ensures Step(h, turn) == h + TurnEntries(turn)
  {
    if turn.sent.Some? { CycleAppendsTwo(h, turn.sent.value, turn.completion); }
  }

  /** Running the turns one after the other only ever appends: the result
      is the history before followed by the transcript of the turns. */
  lemma {:induction false} RunAppendsTranscript(h: seq<ChatMessage>, turns: seq<Turn>)
    ensures Run(h, turns) == h + Transcript(turns)
    decreases |turns|
  {
    if turns != [] {
      StepAppendsEntries(h, turns[0]);
      RunAppendsTranscript(Step(h, turns[0]), turns[1..]);
    }
  }

  /** When every call completes with a string, no red connection-error
      entry is among the entries the turns leave. */
  lemma {:induction false} RepliesLeaveNoConnectionError(turns: seq<Turn>)
    requires forall i :: 0 <= i < |turns| ==> turns[i].completion.Reply?
    ensures forall e :: e in Transcript(turns) ==> e.foregroundColor != ConnectionErrorEntry.foregroundColor
    decreases |turns|
  {
    if turns != [] {
      RepliesLeaveNoConnectionError(turns[1..]);
    }
  }

  /** The client never faults, so however its calls go, a series of
      turns driven by it adds no red connection-error entry. */
  lemma ServiceNeverShowsConnectionError(h: seq<ChatMessage>, turns: seq<Turn>, outcomes: seq<Ollama.ServiceOutcome>)
    requires |outcomes| == |turns|
    requires forall i :: 0 <= i < |turns| ==> turns[i].completion == ServiceTask(outcomes[i])
    ensures |h| <= |Run(h, turns)|
    ensures forall e :: e in Run(h, turns)[|h|..] ==> e.foregroundColor != ConnectionErrorEntry.foregroundColor
  {
    RunAppendsTranscript(h, turns);
    assert Run(h, turns)[|h|..] == Transcript(turns);
    RepliesLeaveNoConnectionError(turns);
  }

  /** A call that fails inside the client ends the history with an
      ordinary green reply whose text is "Error: " and the message. */
  lemma FailedCallEndsWithErrorReply(h: seq<ChatMessage>, t: string, o: Ollama.ServiceOutcome)
    requires Ollama.Faulted(o)
    ensures var h' := Resolved(Submitted(h, t), ServiceTask(o));
      && |h'| == |h| + 2
      && h'[|h'| - 1] == ReplyEntry(Ollama.ErrorPrefix + Ollama.FaultMessage(o))
      && h'[|h'| - 1].foregroundColor == "LimeGreen"
  {
  }

  /** The window: its message history, the input box's text and the
      enabled state of the input box and of the send button. */
  class MainWindow {
    var messages: seq<ChatMessage>
    var inputText: string
    var inputEnabled: bool
    var sendEnabled: bool

    /** The input box and send button are toggled together; the history
        starts with the seed; while they are disabled a request is in
        flight, the input box is empty, and the placeholder is the last
        entry, after the user's. */
    ghost predicate Valid()
      reads this
    {
      && inputEnabled == sendEnabled
      && |messages| >= |Seed|
      && messages[..|Seed|] == Seed
      && (!inputEnabled ==> Awaiting(messages) && inputText == "")
    }

    /** The last two entries are a user message and the placeholder. */
    static ghost predicate Awaiting(h: seq<ChatMessage>)
    {
      |h| >= |Seed| + 2 && h[|h| - 2].sender == "You" && h[|h| - 1] == ThinkingEntry
    }

    constructor ()
      ensures Valid()
      ensures messages == Seed && inputText == "" && inputEnabled && sendEnabled
    {
      messages := [];
      messages := messages + [Seed[0]];
      messages := messages + [Seed[1]];
      inputText := "";
      inputEnabled, sendEnabled := true, true;
    }

    /** The user edits the input box, which takes no typing while disabled. */
    method SetInputText(text: string)
      requires Valid() && inputEnabled
      modifies this`inputText
      ensures Valid() && inputText == text
    {
      inputText := text;
    }

    /** `SendMessage` up to the `await`. Blank input changes nothing.
        Otherwise the user's trimmed text and the placeholder are appended,
        the input box is cleared, both controls are disabled, and the
        trimmed text is what is handed to the client. */
    method Submit() returns (sent: Option<string>)
      requires Valid() && inputEnabled
      modifies this
      ensures Valid()
      ensures sent == Submission(old(inputText))
      ensures var t := Trim(old(inputText));
        if t == [] then
          && sent == None
          && messages == old(messages) && inputText == old(inputText)
          && inputEnabled && sendEnabled
        else
          && sent == Some(t) && !AllWhiteSpace(old(inputText))
          && messages == Submitted(old(messages), t)
          && messages[..|old(messages)|] == old(messages)
          && messages[|messages| - 2] == UserEntry(t) && messages[|messages| - 1] == ThinkingEntry
          && inputText == ""
          && !inputEnabled && !sendEnabled
    {
      var userMessage := Trim(inputText);
      if userMessage == [] {
        return None;
      }
      inputEnabled := false;
      sendEnabled := false;
      messages := messages + [UserEntry(userMessage)];
      messages := messages + [ThinkingEntry];
      inputText := "";
      sent := Some(userMessage);
    }

    /** `SendMessage` after the `await`: the last slot, the placeholder,
        is overwritten with the reply or with the connection error, and
        both controls are enabled again. */
    method Resolve(c: Completion)
      requires Valid() && !inputEnabled
      modifies this
      ensures Valid()
      ensures messages == Resolved(old(messages), c)
      ensures |messages| == |old(messages)|
      ensures messages[..|messages| - 1] == old(messages)[..|messages| - 1]
      ensures messages[|messages| - 1] == CompletionEntry(c)
      ensures inputText == old(inputText) == "" && inputEnabled && sendEnabled
    {
      var lastIndex := |messages| - 1;
      messages := messages[lastIndex := CompletionEntry(c)];
      inputEnabled := true;
      sendEnabled := true;
    }

    /** The whole of `SendMessage`, with the Ollama call taking the course
        `o`: the history moves on by one turn whose call completes as
        `ServiceTask(o)`, and the controls end enabled. */
    method SendMessage(o: Ollama.ServiceOutcome) returns (request: Option<Ollama.ChatRequest>)
      requires Valid() && inputEnabled
      modifies this
      ensures Valid() && inputEnabled && sendEnabled
      ensures messages == Run(old(messages), [Turn(Submission(old(inputText)), ServiceTask(o))])
      ensures inputText == if Trim(old(inputText)) == [] then old(inputText) else ""
      ensures request.None? <==> AllWhiteSpace(old(inputText))
      ensures request.Some? ==>
        && Ollama.PromptOf(request.value) == Some(messages[|messages| - 2].messageText)
        && request.value.model == Ollama.DefaultModel
    {
      ghost var turn := Turn(Submission(inputText), ServiceTask(o));
      var userMessage := Submit();
      request := None;
      if userMessage.Some? {
        request := Some(Ollama.BuildRequest(userMessage.value));
        Resolve(ServiceTask(o));
      }
      assert [turn][1..] == [];
    }
  }
}
