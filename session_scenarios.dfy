// Concrete runs of the chat widget from its initial state.

module SessionScenarios {
  import opened Strings
  import opened Artifacts
  import opened ArtifactExamples
  import opened Session
  import opened SessionProperties

  /** A text whose first character is not whitespace survives `trim`. */
  lemma NonBlank(text: string)
    requires |text| > 0 && !IsWhitespace(text[0])
    ensures Trim(text) != [] && !IsBlank(text)
  {
    TrimEmptyIffBlank(text);
  }

  const CodeRequest: string := "Generate a React component"

  /** Typing the `/code` prompt and pressing Enter: one user message, flagged, and its reply timer. */
  lemma SendStep()
    ensures Step(Initial(), InputChange(CodeRequest)) == Initial().(inputValue := CodeRequest)
    ensures Step(Initial().(inputValue := CodeRequest), KeyDown("Enter")) == Sent()
  {
    CodePrompt();
    NonBlank(CodeRequest);
  }

  /** The state after the send: the request is in the history and its reply timer runs. */
  function Sent(): State
  {
    Initial().(messages := [Message(Greeting, Ai, false), Message(CodeRequest, User, true)],
               pending := [ReplyDue(CodeRequest, true)])
  }

  /** The reply is in and the generation timer runs, the panel still closed. */
  function Replied(): State
  {
    Sent().(messages := Sent().messages + [Message(ReplyText(CodeRequest), Ai, false)],
            pending := [ArtifactDue(CodeRequest)],
            isGenerating := true)
  }

  lemma ReplyStep()
    ensures Enabled(Sent(), ReplyTimer(0)) && Step(Sent(), ReplyTimer(0)) == Replied()
  {
    assert Without(Sent().pending, 0) == [];
  }

  lemma ArtifactStep()
    ensures Enabled(Replied(), ArtifactTimer(0))
    ensures Step(Replied(), ArtifactTimer(0))
      == Replied().(pending := [], currentArtifact := Some(CodeArtifact), isGenerating := false, showRightPanel := true)
  {
    CodePrompt();
    assert Without(Replied().pending, 0) == [];
  }

  /** Sending "Generate a React component", then letting both timers fire: the user message,
      the assistant reply, and the panel open on the React Button Component. Between the two
      timers the spinner flag is set while the panel is still closed and shows no artifact. */
  lemma CodeRequestWalkthrough()
    ensures
      var typed := Step(Initial(), InputChange(CodeRequest));
      var sent := Step(typed, KeyDown("Enter"));
      Enabled(sent, ReplyTimer(0)) &&
      var replied := Step(sent, ReplyTimer(0));
      replied.isGenerating && !replied.showRightPanel && replied.currentArtifact == None &&
      Enabled(replied, ArtifactTimer(0)) &&
      Step(replied, ArtifactTimer(0))
        == State([Message(Greeting, Ai, false), Message(CodeRequest, User, true),
                  Message(ReplyText(CodeRequest), Ai, false)],
                 "", false, true, Some(CodeArtifact), false, [])
  {
    SendStep();
    ReplyStep();
    ArtifactStep();
  }

  const ImageRequest: string := "Generate an image of a landscape"
  const HelpRequest: string := "Show me all available commands"

  /** The panel shows the React Button Component and nothing is pending. */
  function CodeShown(): State
  {
    Replied().(pending := [], currentArtifact := Some(CodeArtifact), isGenerating := false, showRightPanel := true)
  }

  /** Selecting `/image` is sending its fixed request. */
  lemma ImageCommandIsSend(s: State)
    requires s.showCommands
    ensures Step(s, SelectCommand(ImageCommand)) == MessageSent(s, ImageRequest)
  {
    NonBlank(ImageRequest);
    ImagePrompt();
  }

  /** Sending the `/image` request: it is flagged, so its reply timer carries the flag. */
  lemma ImageRequestSent(s: State)
    ensures MessageSent(s, ImageRequest)
      == s.(messages := s.messages + [Message(ImageRequest, User, true)],
            pending := s.pending + [ReplyDue(ImageRequest, true)],
            inputValue := "", showCommands := false)
  {
    NonBlank(ImageRequest);
    ImagePrompt();
  }

  /** `/image` is selected: its request is appended after the history of `s` and its reply timer started. */
  lemma ImageCommandSends(s: State)
    requires s.showCommands
    ensures Step(s, SelectCommand(ImageCommand))
      == s.(messages := s.messages + [Message(ImageRequest, User, true)],
            pending := s.pending + [ReplyDue(ImageRequest, true)],
            inputValue := "", showCommands := false)
  {
    ImageCommandIsSend(s);
    ImageRequestSent(s);
  }

  /** Typing "/" shows the menu, whatever the state. */
  lemma SlashOpensMenu(s: State)
    ensures Step(s, InputChange("/")) == s.(inputValue := "/", showCommands := true)
  {
  }

  /** Typing "/" and picking `/image` from the menu: only the history and the timers change,
      and the input and the menu end up cleared. */
  lemma ImagePicked(s: State)
    ensures
      var withMenu := Step(s, InputChange("/"));
      Enabled(withMenu, SelectCommand(ImageCommand)) &&
      Step(withMenu, SelectCommand(ImageCommand))
        == s.(messages := s.messages + [Message(ImageRequest, User, true)],
              pending := s.pending + [ReplyDue(ImageRequest, true)],
              inputValue := "", showCommands := false)
  {
    SlashOpensMenu(s);
    ImageCommandSends(s.(inputValue := "/", showCommands := true));
  }

  /** A second request while an artifact is shown: once its reply is in, the spinner flag is set
      while the panel stays open on the previous artifact, which is not cleared. */
  lemma SecondRequestKeepsOldArtifact()
    ensures
      var withMenu := Step(CodeShown(), InputChange("/"));
      Enabled(withMenu, SelectCommand(ImageCommand)) &&
      var sent := Step(withMenu, SelectCommand(ImageCommand));
      Enabled(sent, ReplyTimer(0)) &&
      var replied := Step(sent, ReplyTimer(0));
      replied.isGenerating && replied.showRightPanel
      && replied.currentArtifact == Some(CodeArtifact)
      && replied.pending == [ArtifactDue(ImageRequest)]
  {
    ImagePicked(CodeShown());
    var sent := Step(Step(CodeShown(), InputChange("/")), SelectCommand(ImageCommand));
    assert Without(sent.pending, 0) == [];
  }

  /** Both generation timers pending: the code one first, then the image one. */
  function BothPending(): State
  {
    Replied().(messages := Replied().messages
                 + [Message(ImageRequest, User, true), Message(ReplyText(ImageRequest), Ai, false)],
               pending := [ArtifactDue(CodeRequest), ArtifactDue(ImageRequest)])
  }

  /** The code generation has completed; the image one is still pending. */
  function FirstCompleted(): State
  {
    BothPending().(pending := [ArtifactDue(ImageRequest)], currentArtifact := Some(CodeArtifact),
                   isGenerating := false, showRightPanel := true)
  }

  /** `/image` has been sent while the code generation is pending. */
  function ImageSent(): State
  {
    Replied().(messages := Replied().messages + [Message(ImageRequest, User, true)],
               pending := [ArtifactDue(CodeRequest), ReplyDue(ImageRequest, true)])
  }

  lemma ImageSentStep()
    ensures
      var withMenu := Step(Replied(), InputChange("/"));
      Enabled(withMenu, SelectCommand(ImageCommand)) &&
      Step(withMenu, SelectCommand(ImageCommand)) == ImageSent()
  {
    ImagePicked(Replied());
  }

  lemma SecondGenerationStarts()
    ensures Enabled(ImageSent(), ReplyTimer(1)) && Step(ImageSent(), ReplyTimer(1)) == BothPending()
  {
    assert Without(ImageSent().pending, 1) == [ArtifactDue(CodeRequest)];
  }

  lemma FirstGenerationCompletes()
    ensures Enabled(BothPending(), ArtifactTimer(0))
    ensures Step(BothPending(), ArtifactTimer(0)) == FirstCompleted()
  {
    CodePrompt();
    assert Without(BothPending().pending, 0) == [ArtifactDue(ImageRequest)];
  }

  lemma SecondGenerationCompletes()
    ensures Enabled(FirstCompleted(), ArtifactTimer(0))
    ensures Step(FirstCompleted(), ArtifactTimer(0)).currentArtifact == Some(ImageArtifact)
  {
    ImagePrompt();
  }

  /** Two generations in flight: the first to complete clears the spinner flag although the
      other is still pending, and each completion overwrites the artifact shown. */
  lemma OverlappingGenerations()
    ensures
      var withMenu := Step(Replied(), InputChange("/"));
      Enabled(withMenu, SelectCommand(ImageCommand)) &&
      var sent := Step(withMenu, SelectCommand(ImageCommand));
      Enabled(sent, ReplyTimer(1)) &&
      var both := Step(sent, ReplyTimer(1));
      both.isGenerating && both.pending == [ArtifactDue(CodeRequest), ArtifactDue(ImageRequest)] &&
      Enabled(both, ArtifactTimer(0)) &&
      var first := Step(both, ArtifactTimer(0));
      !first.isGenerating && first.currentArtifact == Some(CodeArtifact)
      && first.pending == [ArtifactDue(ImageRequest)] &&
      Enabled(first, ArtifactTimer(0)) &&
      Step(first, ArtifactTimer(0)).currentArtifact == Some(ImageArtifact)
  {
    ImageSentStep();
    SecondGenerationStarts();
    FirstGenerationCompletes();
    SecondGenerationCompletes();
  }

  /** Selecting `/help` is sending its fixed request. */
  lemma HelpCommandIsSend(s: State)
    requires s.showCommands
    ensures Step(s, SelectCommand(HelpCommand)) == MessageSent(s, HelpRequest)
  {
    NonBlank(HelpRequest);
    HelpPrompt();
  }

  /** Sending the `/help` request: it is not flagged, so its reply timer carries no flag. */
  lemma HelpRequestSent(s: State)
    ensures MessageSent(s, HelpRequest)
      == s.(messages := s.messages + [Message(HelpRequest, User, false)],
            pending := s.pending + [ReplyDue(HelpRequest, false)],
            inputValue := "", showCommands := false)
  {
    NonBlank(HelpRequest);
    HelpPrompt();
  }

  /** Typing "/" and picking `/help` from the menu. */
  lemma HelpPicked(s: State)
    ensures
      var withMenu := Step(s, InputChange("/"));
      Enabled(withMenu, SelectCommand(HelpCommand)) &&
      Step(withMenu, SelectCommand(HelpCommand))
        == s.(messages := s.messages + [Message(HelpRequest, User, false)],
              pending := s.pending + [ReplyDue(HelpRequest, false)],
              inputValue := "", showCommands := false)
  {
    SlashOpensMenu(s);
    var withMenu := s.(inputValue := "/", showCommands := true);
    HelpCommandIsSend(withMenu);
    HelpRequestSent(withMenu);
  }

  /** Typing "/" and picking `/clear` from the menu. */
  lemma ClearPicked(s: State)
    ensures
      var withMenu := Step(s, InputChange("/"));
      Enabled(withMenu, SelectCommand(ClearCommand)) &&
      Step(withMenu, SelectCommand(ClearCommand))
        == s.(messages := [], showRightPanel := false, inputValue := "", showCommands := false)
  {
    SlashOpensMenu(s);
  }

  /** `/clear` does not cancel a pending reply: the reply to `/help` still arrives and becomes
      the only message of the cleared history; `/help` starts no generation. */
  lemma ClearKeepsPendingReply()
    ensures
      var helpMenu := Step(Initial(), InputChange("/"));
      Enabled(helpMenu, SelectCommand(HelpCommand)) &&
      var helped := Step(helpMenu, SelectCommand(HelpCommand));
      var clearMenu := Step(helped, InputChange("/"));
      Enabled(clearMenu, SelectCommand(ClearCommand)) &&
      var cleared := Step(clearMenu, SelectCommand(ClearCommand));
      cleared.messages == [] && Enabled(cleared, ReplyTimer(0)) &&
      var replied := Step(cleared, ReplyTimer(0));
      replied.messages == [Message(ReplyText(HelpRequest), Ai, false)]
      && replied.pending == [] && !replied.isGenerating
  {
    HelpPicked(Initial());
    var helped := Step(Step(Initial(), InputChange("/")), SelectCommand(HelpCommand));
    assert helped.pending == [ReplyDue(HelpRequest, false)];
    ClearPicked(helped);
    var cleared := Step(Step(helped, InputChange("/")), SelectCommand(ClearCommand));
    assert Without(cleared.pending, 0) == [];
  }
}
