// The chat widget's handlers (app/page.tsx:35-270) as a class whose fields
// are the component's `useState` fields plus the pending timers. Each method
// updates the fields one at a time, as the handler does, and is proved to
// reach the state given by the matching transition of module Session while
// keeping the session invariant.

module Widget {
  import opened Strings
  import opened Artifacts
  import opened Session

  class ChatSession {
    var messages: seq<Message>
    var inputValue: string
    var showCommands: bool
    var showRightPanel: bool
    var currentArtifact: Option<Artifact>
    var isGenerating: bool
    var pending: seq<TimerEvent>

    /** The fields as one value. */
    function Snapshot(): State
      reads this
    {
      State(messages, inputValue, showCommands, showRightPanel, currentArtifact, isGenerating, pending)
    }

    ghost predicate Valid()
      reads this
    {
      Inv(Snapshot())
    }

    /** The widget as first rendered: the greeting, empty input, menu and panel closed. */
    constructor ()
      ensures Valid() && Snapshot() == Initial()
    {
      messages := [Message(Greeting, Ai, false)];
      inputValue := "";
      showCommands := false;
      showRightPanel := false;
      currentArtifact := None;
      isGenerating := false;
      pending := [];
    }

    /** The Send button's `disabled` flag (app/page.tsx:340). */
    function SendDisabled(): (disabled: bool)
      reads this
      ensures disabled <==> IsBlank(inputValue)
    {
      TrimEmptyIffBlank(inputValue);
      Trim(inputValue) == []
    }

    method HandleInputChange(value: string)
      requires Valid()
      modifies this
      ensures Valid() && Snapshot() == InputChanged(old(Snapshot()), value)
    {
      ghost var before := Snapshot();
      inputValue := value;
      if value == "/" {
        showCommands := true;
      } else if |value| == 0 || value[0] != '/' || ' ' in value {
        showCommands := false;
      }
      StepPreservesInv(before, InputChange(value));
    }

    method HandleSendMessage(content: string)
      requires Valid()
      modifies this
      ensures Valid() && Snapshot() == MessageSent(old(Snapshot()), content)
    {
      ghost var before := Snapshot();
      SendKeepsInv(before, content);
      if Trim(content) == [] {
        return;
      }
      var flagged := HasArtifact(content);
      messages := messages + [Message(content, User, flagged)];
      pending := pending + [ReplyDue(content, flagged)];
      inputValue := "";
      showCommands := false;
      assert Snapshot() == MessageSent(before, content);
    }

    method HandleKeyDown(key: string)
      requires Valid()
      modifies this
      ensures Valid() && Snapshot() == KeyPressed(old(Snapshot()), key)
    {
      if key == "Enter" && !showCommands {
        HandleSendMessage(inputValue);
      }
    }

    method ClickSend()
      requires Valid()
      modifies this
      ensures Valid() && Snapshot() == SendClicked(old(Snapshot()))
    {
      if !SendDisabled() {
        HandleSendMessage(inputValue);
      }
    }

    method HandleClickOutside()
      requires Valid()
      modifies this
      ensures Valid() && Snapshot() == ClickedOutside(old(Snapshot()))
    {
      showCommands := false;
    }

    /** A menu item is selected; items are rendered only while the menu is shown. */
    method ExecuteCommand(cmd: SlashCommand)
      requires Valid() && showCommands
      modifies this
      ensures Valid() && Snapshot() == CommandExecuted(old(Snapshot()), cmd)
    {
      ghost var before := Snapshot();
      match ActionOf(cmd) {
        case SendText(text) =>
          HandleSendMessage(text);
        case ClearHistory =>
          messages := [];
          showRightPanel := false;
      }
      inputValue := "";
      showCommands := false;
      assert Snapshot() == CommandExecuted(before, cmd);
      StepPreservesInv(before, SelectCommand(cmd));
    }

    /** The panel's Close button, rendered only while the panel is shown. */
    method ClosePanel()
      requires Valid() && showRightPanel
      modifies this
      ensures Valid() && Snapshot() == PanelClosed(old(Snapshot()))
    {
      showRightPanel := false;
    }

    /** generateArtifact up to its timer: the spinner flag is set and the timer started. */
    method GenerateArtifact(content: string)
      modifies this
      ensures Snapshot() == GenerationStarted(old(Snapshot()), content)
    {
      isGenerating := true;
      pending := pending + [ArtifactDue(content)];
    }

    /** The pending reply timer at `i` fires. */
    method FireReply(i: nat)
      requires Valid() && i < |pending| && pending[i].ReplyDue?
      modifies this
      ensures Valid() && Snapshot() == ReplyFired(old(Snapshot()), i)
    {
      ghost var before := Snapshot();
      var due := pending[i];
      pending := Without(pending, i);
      messages := messages + [Message(ReplyText(due.content), Ai, false)];
      if due.hasArtifact {
        GenerateArtifact(due.content);
      }
      ReplyKeepsInv(before, i);
    }

    /** The pending generation timer at `i` fires. */
    method FireArtifact(i: nat)
      requires Valid() && i < |pending| && pending[i].ArtifactDue?
      modifies this
      ensures Valid() && Snapshot() == ArtifactFired(old(Snapshot()), i)
    {
      ghost var before := Snapshot();
      var due := pending[i];
      pending := Without(pending, i);
      currentArtifact := Classify(due.content);
      isGenerating := false;
      showRightPanel := true;
      StepPreservesInv(before, ArtifactTimer(i));
    }
  }
}
