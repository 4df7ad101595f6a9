// What each event handler of the chat widget promises, one lemma per
// handler, and the append-only discipline of the message history.

module SessionProperties {
  import opened Strings
  import opened Artifacts
  import opened Session

  /** Typing: "/" opens the menu; text that does not start with "/" (the empty text
      included) or that contains a space closes it; any other "/"-text leaves it as it
      was. Only the input and the menu change. */
  lemma InputChangeMenu(s: State, value: string)
    ensures InputChanged(s, value).inputValue == value
    ensures value == "/" ==> InputChanged(s, value).showCommands
    ensures |value| == 0 || value[0] != '/' || ' ' in value ==> !InputChanged(s, value).showCommands
    ensures value != "/" && MenuText(value) ==> InputChanged(s, value).showCommands == s.showCommands
    ensures InputChanged(s, value).(inputValue := s.inputValue, showCommands := s.showCommands) == s
  {
  }

  /** Every command name is "/"-text without a space, so while the menu is open, typing
      the name one character at a time keeps it open at every prefix. */
  lemma TypingCommandNameKeepsMenu(s: State, cmd: SlashCommand, j: nat)
    requires s.showCommands && 1 <= j <= |CommandName(cmd)|
    ensures MenuText(CommandName(cmd))
    ensures InputChanged(s, CommandName(cmd)[..j]).showCommands
  {
  }

  /** Sending empty or whitespace-only text changes nothing and starts no timer. */
  lemma BlankSendChangesNothing(s: State, content: string)
    requires IsBlank(content)
    ensures MessageSent(s, content) == s
  {
    TrimEmptyIffBlank(content);
  }

  /** Sending other text appends exactly one user message, with that content and its
      `hasArtifact` flag, after the unchanged earlier messages; it clears the input,
      closes the menu, starts exactly one reply timer, and touches nothing else. */
  lemma SendAppendsOneUserMessage(s: State, content: string)
    requires !IsBlank(content)
    ensures |MessageSent(s, content).messages| == |s.messages| + 1
    ensures MessageSent(s, content).messages[..|s.messages|] == s.messages
    ensures MessageSent(s, content).messages[|s.messages|] == Message(content, User, HasArtifact(content))
    ensures MessageSent(s, content).pending == s.pending + [ReplyDue(content, HasArtifact(content))]
    ensures MessageSent(s, content).inputValue == "" && !MessageSent(s, content).showCommands
    ensures MessageSent(s, content).showRightPanel == s.showRightPanel
    ensures MessageSent(s, content).currentArtifact == s.currentArtifact
    ensures MessageSent(s, content).isGenerating == s.isGenerating
  {
    TrimEmptyIffBlank(content);
  }

  /** Enter sends the current input when the menu is closed (so a blank input is a no-op and
      any other input is appended with its reply timer); with the menu open, or for any other
      key, nothing happens. */
  lemma EnterSendsOnlyWithMenuClosed(s: State, key: string)
    ensures s.showCommands || key != "Enter" ==> KeyPressed(s, key) == s
    ensures key == "Enter" && !s.showCommands ==> KeyPressed(s, key) == MessageSent(s, s.inputValue)
  {
  }

  /** Disabling the Send button on blank input hides only a no-op: a click does exactly
      what handleSendMessage does on the input. */
  lemma SendButtonSendsInput(s: State)
    ensures SendClicked(s) == MessageSent(s, s.inputValue)
  {
  }

  /** A mouse press on Send also counts as a click outside the menu. Under the invariant that
      changes nothing: an open menu means the input starts with "/", so it is not blank and the
      send closes the menu anyway. */
  lemma SendPressClosesMenuAnyway(s: State)
    requires Inv(s)
    ensures SendClicked(ClickedOutside(s)) == SendClicked(s)
  {
    if s.showCommands {
      TrimEmptyIffBlank(s.inputValue);
    }
  }

  /** A click outside the input and menu closes the menu and keeps the input text. */
  lemma ClickOutsideClosesMenu(s: State)
    ensures !ClickedOutside(s).showCommands
    ensures ClickedOutside(s).(showCommands := s.showCommands) == s
  {
  }

  /** `/clear` empties the history and hides the panel; it leaves the artifact, the
      spinner flag and the pending timers as they were. */
  lemma ClearCommandEffect(s: State)
    ensures CommandExecuted(s, ClearCommand).messages == []
    ensures !CommandExecuted(s, ClearCommand).showRightPanel
    ensures CommandExecuted(s, ClearCommand).inputValue == ""
    ensures !CommandExecuted(s, ClearCommand).showCommands
    ensures CommandExecuted(s, ClearCommand).currentArtifact == s.currentArtifact
    ensures CommandExecuted(s, ClearCommand).isGenerating == s.isGenerating
    ensures CommandExecuted(s, ClearCommand).pending == s.pending
  {
  }

  /** Each sending command is exactly a send of its fixed text: its text is never blank,
      so the input and menu are already cleared by the send itself. */
  lemma SendingCommandIsASend(s: State, cmd: SlashCommand)
    requires ActionOf(cmd).SendText?
    ensures !IsBlank(ActionOf(cmd).text)
    ensures CommandExecuted(s, cmd) == MessageSent(s, ActionOf(cmd).text)
  {
    var text := ActionOf(cmd).text;
    assert !IsWhitespace(text[0]);
    TrimEmptyIffBlank(text);
  }

  /** Close only hides the panel, so closing twice is closing once. */
  lemma ClosePanelIdempotent(s: State)
    ensures PanelClosed(s) == s.(showRightPanel := false)
    ensures PanelClosed(PanelClosed(s)) == PanelClosed(s)
  {
  }

  /** When a reply timer fires, exactly one assistant message quoting the request is
      appended; a generation timer is started, and the spinner flag set, exactly when the
      request mentioned an artifact keyword. Starting a generation neither opens the panel
      nor clears the artifact shown. */
  lemma ReplyAppendsOneAnswer(s: State, i: nat)
    requires Inv(s) && i < |s.pending| && s.pending[i].ReplyDue?
    ensures ReplyFired(s, i).messages == s.messages + [Message(ReplyText(s.pending[i].content), Ai, false)]
    ensures ReplyFired(s, i).pending ==
      Without(s.pending, i) + (if HasArtifact(s.pending[i].content) then [ArtifactDue(s.pending[i].content)] else [])
    ensures ReplyFired(s, i).isGenerating == (HasArtifact(s.pending[i].content) || s.isGenerating)
    ensures ReplyFired(s, i).showRightPanel == s.showRightPanel
    ensures ReplyFired(s, i).currentArtifact == s.currentArtifact
  {
    assert s.pending[i] in s.pending;
  }

  /** When a generation timer fires, the panel opens on the classified artifact and the
      spinner stops. The panel opens empty exactly when the request was flagged only by
      "generate" or "create". */
  lemma GenerationCompletes(s: State, i: nat)
    requires Inv(s) && i < |s.pending| && s.pending[i].ArtifactDue?
    ensures ArtifactFired(s, i).currentArtifact == Classify(s.pending[i].content)
    ensures ArtifactFired(s, i).showRightPanel && !ArtifactFired(s, i).isGenerating
    ensures ArtifactFired(s, i).messages == s.messages
    ensures ArtifactFired(s, i).pending == Without(s.pending, i)
    ensures ArtifactFired(s, i).currentArtifact == None <==>
      (Mentions(s.pending[i].content, "generate") || Mentions(s.pending[i].content, "create"))
      && !Mentions(s.pending[i].content, "code") && !Mentions(s.pending[i].content, "component")
      && !Mentions(s.pending[i].content, "image") && !Mentions(s.pending[i].content, "document")
  {
    assert s.pending[i] in s.pending;
    FlaggedButNotClassified(s.pending[i].content);
  }

  // ---------------------------------------------------------------------
  // The history is append-only, except for `/clear`

  /** Every event other than `/clear` keeps the history as a prefix and adds at most one message. */
  lemma StepOnlyAppends(s: State, e: Event)
    requires Enabled(s, e) && e != SelectCommand(ClearCommand)
    ensures s.messages <= Step(s, e).messages
    ensures |Step(s, e).messages| <= |s.messages| + 1
  {
    match e
    case KeyDown(key) =>
    case SendClick =>
    case SelectCommand(cmd) =>
      if ActionOf(cmd).SendText? {
        SendingCommandIsASend(s, cmd);
      }
    case _ =>
  }

  lemma {:induction false} RunOnlyAppends(s: State, events: seq<Event>)
    requires Feasible(s, events) && SelectCommand(ClearCommand) !in events
    ensures s.messages <= Run(s, events).messages
    ensures |Run(s, events).messages| <= |s.messages| + |events|
    decreases |events|
  {
    if events != [] {
      StepOnlyAppends(s, events[0]);
      assert SelectCommand(ClearCommand) !in events[1..] by {
        forall e | e in events[1..] ensures e != SelectCommand(ClearCommand) { assert e in events; }
      }
      RunOnlyAppends(Step(s, events[0]), events[1..]);
    }
  }
}
