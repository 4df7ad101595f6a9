// The chat widget's interaction state (app/page.tsx:36-49) and what each
// event handler does to it, as functions from the state before the event
// to the state after it. The class in widget.dfy performs these updates
// field by field, as the React handlers do, and is proved against them.
//
// Timers are an explicit list of pending events. Whichever pending timer
// fires next is chosen by the environment (an index into the list), so the
// model admits every order in which the 1000 ms reply timers and the
// 2000 ms generation timers could fire.

module Session {
  import opened Strings
  import opened Artifacts

  datatype Sender = User | Ai

  /** A chat message (app/page.tsx:13-19). Ids and timestamps are left out;
      an assistant message carries `hasArtifact == false` (the field is unset there). */
  datatype Message = Message(content: string, sender: Sender, hasArtifact: bool)

  /** A timer that has been started and has not fired yet. */
  datatype TimerEvent =
    | ReplyDue(content: string, hasArtifact: bool)  // the reply timer of one send (app/page.tsx:240-253)
    | ArtifactDue(content: string)                  // the generation timer (app/page.tsx:121-217)

  /** The static slash-command catalog (app/page.tsx:54-88). */
  datatype SlashCommand = HelpCommand | ClearCommand | CodeCommand | ImageCommand | DocumentCommand

  function CommandName(cmd: SlashCommand): string
  {
    match cmd
    case HelpCommand => "/help"
    case ClearCommand => "/clear"
    case CodeCommand => "/code"
    case ImageCommand => "/image"
    case DocumentCommand => "/document"
  }

  /** What a command's action does: send a fixed message, or clear the history. */
  datatype CommandAction = SendText(text: string) | ClearHistory

  function ActionOf(cmd: SlashCommand): CommandAction
  {
    match cmd
    case HelpCommand => SendText("Show me all available commands")
    case ClearCommand => ClearHistory
    case CodeCommand => SendText("Generate a React component")
    case ImageCommand => SendText("Generate an image of a landscape")
    case DocumentCommand => SendText("Create a document about AI")
  }

  /** The whole interaction state: the six `useState` fields and the pending timers. */
  datatype State = State(
    messages: seq<Message>,
    inputValue: string,
    showCommands: bool,
    showRightPanel: bool,
    currentArtifact: Option<Artifact>,
    isGenerating: bool,
    pending: seq<TimerEvent>)

  const Greeting: string := "Hello! Type / to see available commands."

  function Initial(): State
  {
    State([Message(Greeting, Ai, false)], "", false, false, None, false, [])
  }

  /** The assistant's reply to `content`. */
  function ReplyText(content: string): string
  {
    "I've processed your request: \"" + content + "\""
  }

  /** `s` with the element at `i` removed: a timer leaves the list when it fires. */
  function Without<T>(s: seq<T>, i: nat): (r: seq<T>)
    requires i < |s|
    ensures multiset(r) == multiset(s) - multiset{s[i]}
  {
    assert s == s[..i] + [s[i]] + s[i + 1..];
    s[..i] + s[i + 1..]
  }

  // ---------------------------------------------------------------------
  // The event handlers

  /** handleInputChange (app/page.tsx:104-114). */
  function InputChanged(s: State, value: string): State
  {
    var menu :=
      if value == "/" then true
      else if |value| == 0 || value[0] != '/' || ' ' in value then false
      else s.showCommands;
    s.(inputValue := value, showCommands := menu)
  }

  /** handleSendMessage (app/page.tsx:220-257): a blank message is ignored; otherwise the
      user message is appended, its reply timer started, and the input cleared. */
  function MessageSent(s: State, content: string): State
  {
    if Trim(content) == [] then s
    else
      var flagged := HasArtifact(content);
      s.(messages := s.messages + [Message(content, User, flagged)],
         pending := s.pending + [ReplyDue(content, flagged)],
         inputValue := "",
         showCommands := false)
  }

  /** handleKeyDown (app/page.tsx:259-264): Enter sends the input unless the menu is open. */
  function KeyPressed(s: State, key: string): State
  {
    if key == "Enter" && !s.showCommands then MessageSent(s, s.inputValue) else s
  }

  /** The Send button (app/page.tsx:340): disabled while the input is blank, otherwise sends it. */
  function SendClicked(s: State): State
  {
    if Trim(s.inputValue) == [] then s else MessageSent(s, s.inputValue)
  }

  /** handleClickOutside (app/page.tsx:92-96), for a press outside the input and menu. */
  function ClickedOutside(s: State): State
  {
    s.(showCommands := false)
  }

  /** executeCommand (app/page.tsx:266-270): the command's action, then input and menu are cleared. */
  function CommandExecuted(s: State, cmd: SlashCommand): State
  {
    var acted :=
      match ActionOf(cmd)
      case SendText(text) => MessageSent(s, text)
      case ClearHistory => s.(messages := [], showRightPanel := false);
    acted.(inputValue := "", showCommands := false)
  }

  /** The panel's Close button (app/page.tsx:353). */
  function PanelClosed(s: State): State
  {
    s.(showRightPanel := false)
  }

  /** generateArtifact's synchronous part (app/page.tsx:117-121): the spinner flag and the timer. */
  function GenerationStarted(s: State, content: string): State
  {
    s.(isGenerating := true, pending := s.pending + [ArtifactDue(content)])
  }

  /** The reply timer of a send fires (app/page.tsx:240-253). */
  function ReplyFired(s: State, i: nat): State
    requires i < |s.pending| && s.pending[i].ReplyDue?
  {
    var due := s.pending[i];
    var replied := s.(messages := s.messages + [Message(ReplyText(due.content), Ai, false)],
                      pending := Without(s.pending, i));
    if due.hasArtifact then GenerationStarted(replied, due.content) else replied
  }

  /** The generation timer fires (app/page.tsx:121-217): the classified artifact, possibly none. */
  function ArtifactFired(s: State, i: nat): State
    requires i < |s.pending| && s.pending[i].ArtifactDue?
  {
    s.(pending := Without(s.pending, i),
       currentArtifact := Classify(s.pending[i].content),
       isGenerating := false,
       showRightPanel := true)
  }

  // ---------------------------------------------------------------------
  // Events and runs

  datatype Event =
    | InputChange(value: string)
    | KeyDown(key: string)
    | SendClick
    | ClickOutside
    | SelectCommand(cmd: SlashCommand)
    | ClosePanel
    | ReplyTimer(index: nat)
    | ArtifactTimer(index: nat)

  /** Only a pending timer can fire; a command can be selected only while the menu is shown
      (app/page.tsx:316-337) and Close clicked only while the panel is shown (app/page.tsx:347-356);
      typing, keys and clicks can happen at any time. */
  predicate Enabled(s: State, e: Event)
  {
    match e
    case SelectCommand(_) => s.showCommands
    case ClosePanel => s.showRightPanel
    case ReplyTimer(i) => i < |s.pending| && s.pending[i].ReplyDue?
    case ArtifactTimer(i) => i < |s.pending| && s.pending[i].ArtifactDue?
    case _ => true
  }

  function Step(s: State, e: Event): State
    requires Enabled(s, e)
  {
    match e
    case InputChange(value) => InputChanged(s, value)
    case KeyDown(key) => KeyPressed(s, key)
    case SendClick => SendClicked(s)
    case ClickOutside => ClickedOutside(s)
    case SelectCommand(cmd) => CommandExecuted(s, cmd)
    case ClosePanel => PanelClosed(s)
    case ReplyTimer(i) => ReplyFired(s, i)
    case ArtifactTimer(i) => ArtifactFired(s, i)
  }

  /** Every event of `events` can happen in turn, starting from `s`. */
  predicate Feasible(s: State, events: seq<Event>)
    decreases |events|
  {
    events == [] || (Enabled(s, events[0]) && Feasible(Step(s, events[0]), events[1..]))
  }

  function Run(s: State, events: seq<Event>): State
    requires Feasible(s, events)
    decreases |events|
  {
    if events == [] then s else Run(Step(s, events[0]), events[1..])
  }

  // ---------------------------------------------------------------------
  // The session invariant

  /** Input text for which the command menu may be open. */
  predicate MenuText(text: string)
  {
    |text| > 0 && text[0] == '/' && ' ' !in text
  }

  /** A pending timer as a send or a reply creates it. */
  predicate WellFormedTimer(e: TimerEvent)
  {
    match e
    case ReplyDue(content, flagged) => !IsBlank(content) && flagged == HasArtifact(content)
    case ArtifactDue(content) => HasArtifact(content)
  }

  /** The menu is open only over "/"-text without a space; the spinner shows only while a
      generation timer is pending; every pending timer came from a non-blank send. */
  predicate Inv(s: State)
  {
    (s.showCommands ==> MenuText(s.inputValue))
    && (s.isGenerating ==> exists e | e in s.pending :: e.ArtifactDue?)
    && (forall e | e in s.pending :: WellFormedTimer(e))
  }

  lemma InitialInv()
    ensures Inv(Initial())
    ensures !Initial().showCommands && Initial().inputValue == ""
  {
  }

  /** After an input change the menu is open only over menu text, whatever the state before. */
  lemma InputChangeOpensMenuOnlyOnMenuText(s: State, value: string)
    ensures InputChanged(s, value).showCommands ==> MenuText(value)
  {
  }

  lemma {:induction false} StepPreservesInv(s: State, e: Event)
    requires Inv(s) && Enabled(s, e)
    ensures Inv(Step(s, e))
  {
    var t := Step(s, e);
    match e
    case InputChange(value) =>
      InputChangeOpensMenuOnlyOnMenuText(s, value);
    case KeyDown(key) =>
      SendKeepsInv(s, s.inputValue);
    case SendClick =>
      SendKeepsInv(s, s.inputValue);
    case ClickOutside =>
    case SelectCommand(cmd) =>
      if ActionOf(cmd).SendText? {
        SendKeepsInv(s, ActionOf(cmd).text);
      }
    case ClosePanel =>
    case ReplyTimer(i) =>
      ReplyKeepsInv(s, i);
    case ArtifactTimer(i) =>
      forall e | e in t.pending ensures WellFormedTimer(e) {
        assert e in multiset(Without(s.pending, i));
      }
  }

  lemma SendKeepsInv(s: State, content: string)
    requires Inv(s)
    ensures Inv(MessageSent(s, content))
  {
    if Trim(content) != [] {
      TrimEmptyIffBlank(content);
      var t := MessageSent(s, content);
      if t.isGenerating {
        var e :| e in s.pending && e.ArtifactDue?;
        assert e in t.pending;
      }
    }
  }

  lemma ReplyKeepsInv(s: State, i: nat)
    requires Inv(s) && i < |s.pending| && s.pending[i].ReplyDue?
    ensures Inv(ReplyFired(s, i))
  {
    var rest := Without(s.pending, i);
    var t := ReplyFired(s, i);
    assert forall e | e in rest :: e in s.pending by {
      forall e | e in rest ensures e in s.pending { assert e in multiset(rest); }
    }
    if !s.pending[i].hasArtifact && t.isGenerating {
      var e :| e in s.pending && e.ArtifactDue?;
      assert e in multiset(rest);
    }
    if s.pending[i].hasArtifact {
      assert s.pending[i] in s.pending;
      assert ArtifactDue(s.pending[i].content) in t.pending;
    }
  }

  lemma {:induction false} RunPreservesInv(s: State, events: seq<Event>)
    requires Inv(s) && Feasible(s, events)
    ensures Inv(Run(s, events))
    decreases |events|
  {
    if events != [] {
      StepPreservesInv(s, events[0]);
      RunPreservesInv(Step(s, events[0]), events[1..]);
    }
  }

  /** Over every run from the initial state, an open command menu means the input
      starts with "/" and contains no space. */
  lemma MenuOpenOnlyOverCommandText(events: seq<Event>)
    requires Feasible(Initial(), events)
    ensures Run(Initial(), events).showCommands ==> MenuText(Run(Initial(), events).inputValue)
  {
    InitialInv();
    RunPreservesInv(Initial(), events);
  }
}
