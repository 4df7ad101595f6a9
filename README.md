# Chat widget with slash commands and an artifact panel — Dafny model

This project models the interaction logic of the chat page in `app/page.tsx`.
The page is a chat widget with these parts:

- a message history that starts with an assistant greeting;
- an input line that opens a slash-command menu when the user types "/";
- a Send button that is disabled while the input is blank;
- a simulated assistant that replies after a delay;
- for requests that mention an artifact keyword, a second delayed step that classifies the request and opens a side panel on a code, image or document artifact.

The model is split into these modules:

- `Strings`: the three JavaScript string operations the page relies on. These are `trim` (ECMAScript whitespace and line terminators), `toLowerCase` and `includes`.
- `Artifacts`: the `hasArtifact` keyword test and the first-match classifier. The classifier is proved equal to an ordered rule table, a second and independent definition of the same behaviour.
- `Session`: the state of the page as a value, with one transition function per event handler. Events and runs are defined here too. The session invariant is proved over every run from the initial state.
- `Widget`: the class `ChatSession`. Its fields are the page's `useState` fields plus the pending timers. Each handler is a method that updates the fields one at a time, as the React handler does. Each method is proved to reach the state the matching transition function gives, and to keep the invariant.
- `SessionProperties` and `SessionScenarios`: what each handler promises, for every state. Then concrete runs from the first render.
- `ArtifactExamples`: the keyword tests on the four prompts that the slash commands send, and on the edge cases.

The page uses two kinds of timers:

- a 1000 ms reply timer for each send;
- a 2000 ms generation timer for each request that asks for an artifact.

Both are modelled as a list of pending events. The environment picks which pending timer fires next, by its index. Every order in which real timers can fire is therefore one of the runs the model covers.

A few behaviours of the code are worth stating outright, because the model keeps them as written:

- Starting a generation only sets the spinner flag (`app/page.tsx:118`). It neither opens the panel nor clears the artifact shown. So the flag can be set while the panel is closed (`SessionScenarios.CodeRequestWalkthrough`), and during a new generation the old artifact stays current: it is not cleared, its title and its type-and-Download footer stay in the panel, and only the content area shows the spinner (`app/page.tsx:352`, `app/page.tsx:360-364`, `app/page.tsx:390-401`; `SessionScenarios.SecondRequestKeepsOldArtifact`).
- `/clear` empties the history and hides the panel (`app/page.tsx:65-68`). It cancels no pending timer and leaves the artifact and the spinner flag as they were (`SessionScenarios.ClearKeepsPendingReply`).
- The first generation to finish turns the spinner off even when another generation is still pending (`SessionScenarios.OverlappingGenerations`).
- A command can be selected only while the menu is shown, and Close clicked only while the panel is shown, because those elements are rendered only then (`app/page.tsx:316-337`, `app/page.tsx:348-356`). The model's events respect this: no run selects a menu item or clicks Close while it is not on screen.

## Model

| member | source | states |
|---|---|---|
| Strings.Trim | app/page.tsx:221 | JavaScript `trim`: strips the longest whitespace prefix, then the longest whitespace suffix |
| Strings.ToLower | app/page.tsx:124 | JavaScript `toLowerCase` on ASCII letters: each `A`-`Z` becomes its lower-case letter, every other character is kept |
| Strings.Contains | app/page.tsx:124 | JavaScript `includes`: the word occurs as a contiguous piece of the text at some index |
| Artifacts.HasArtifact | app/page.tsx:229-234 | the `hasArtifact` flag: the lower-cased message contains code, image, document, generate or create |
| Artifacts.Classify | app/page.tsx:122-212 | the generated artifact: code or component gives the React Button Component, else image the landscape image, else document the AI document, else none |
| Session.InputChanged | app/page.tsx:104-114 | the input becomes the typed value; "/" opens the menu, empty text, text not starting with "/" or containing a space closes it, otherwise the menu stays |
| Session.MessageSent | app/page.tsx:220-257 | blank content leaves the state as it is; otherwise the flagged user message and its reply timer are appended, and input and menu are cleared |
| Session.KeyPressed | app/page.tsx:259-264 | Enter with the menu closed sends the input; anything else leaves the state as it is |
| Session.SendClicked | app/page.tsx:340 | with blank input the disabled button does nothing; otherwise the input is sent |
| Session.ClickedOutside | app/page.tsx:92-96 | the menu closes |
| Session.CommandExecuted | app/page.tsx:266-270 | the command's action (send its text, or empty the history and hide the panel), then input and menu are cleared |
| Session.PanelClosed | app/page.tsx:353 | the panel is hidden |
| Session.GenerationStarted | app/page.tsx:117-121 | the spinner flag is set and a generation timer is appended |
| Session.ReplyFired | app/page.tsx:240-253 | the timer is removed, the quoting assistant reply is appended, and a generation starts when the request was flagged |
| Session.ArtifactFired | app/page.tsx:121-217 | the timer is removed, the artifact becomes the classification of the request, the spinner flag is cleared and the panel is shown |
| Strings.TrimStart | app/page.tsx:221 | the result is a suffix of the input; everything dropped is whitespace; the result does not start with whitespace |
| Strings.TrimEnd | app/page.tsx:221 | the result is a prefix of the input; everything dropped is whitespace; the result does not end with whitespace |
| Strings.TrimEmptyIffBlank | app/page.tsx:221 | `trim` yields the empty string exactly for strings made only of whitespace, the empty one included |
| Strings.ToLowerProperties | app/page.tsx:124 | lower-casing keeps the length, leaves no upper-case ASCII letter, and is idempotent |
| Artifacts.FirstMatchIsEarliest | app/page.tsx:124-212 | the rule table yields nothing exactly when no rule fires; otherwise it yields the artifact of the earliest rule that fires |
| Artifacts.ClassifyFollowsRules | app/page.tsx:124-212 | the classifier's if/else chain is the ordered rule table: code or component, then image, then document |
| Artifacts.HasArtifactIffKeyword | app/page.tsx:229-234 | a message is flagged exactly when its lower-cased text contains one of the five keywords code, image, document, generate, create |
| Artifacts.CaseInsensitive | app/page.tsx:124-234 | the flag and the classification depend only on the lower-cased text |
| Artifacts.ClassifiedButNotFlagged | app/page.tsx:122-234 | a message that is classified but not flagged mentions "component" and not "code", and classifies as code |
| Artifacts.FlaggedButNotClassified | app/page.tsx:122-234 | a flagged message classifies to no artifact exactly when it is flagged only by "generate" or "create" |
| ArtifactExamples.CodePrompt | app/page.tsx:72-75 | the `/code` prompt is flagged and classifies as the React Button Component |
| ArtifactExamples.ImagePrompt | app/page.tsx:78-81 | the `/image` prompt is flagged and classifies as the landscape image |
| ArtifactExamples.DocumentPrompt | app/page.tsx:84-87 | the `/document` prompt is flagged and classifies as the AI document |
| ArtifactExamples.HelpPrompt | app/page.tsx:56-60 | the `/help` prompt is not flagged and would classify to nothing |
| ArtifactExamples.ComponentAlone | app/page.tsx:122-234 | "Component" is not flagged, so it starts no generation, yet it would classify as code |
| ArtifactExamples.NoKeyword | app/page.tsx:122-234 | every message that mentions none of code, component, image, document, generate, create is neither flagged nor classified |
| ArtifactExamples.NoKeywordExample | app/page.tsx:122-234 | the literal "xyz" is neither flagged nor classified |
| Session.Without | app/page.tsx:240-253 | a fired timer leaves the pending list and nothing else does |
| Session.InitialInv | app/page.tsx:36-49 | the first render satisfies the session invariant, with the menu closed over an empty input |
| Session.InputChangeOpensMenuOnlyOnMenuText | app/page.tsx:104-114 | after any input change the menu is open only if the text starts with "/" and has no space |
| Session.StepPreservesInv | app/page.tsx:92-270 | every enabled event (a command only while the menu is shown, Close only while the panel is shown, a timer only while pending) keeps the session invariant: menu over command text, spinner only while a generation is pending, every pending timer from a non-blank send |
| Session.SendKeepsInv | app/page.tsx:220-257 | a send keeps the session invariant |
| Session.ReplyKeepsInv | app/page.tsx:240-253 | a reply timer firing keeps the session invariant |
| Session.RunPreservesInv | app/page.tsx:92-270 | every feasible run of events keeps the session invariant |
| Session.MenuOpenOnlyOverCommandText | app/page.tsx:104-114 | over every run from the first render, an open command menu means the input starts with "/" and contains no space |
| SessionProperties.InputChangeMenu | app/page.tsx:104-114 | "/" opens the menu; empty text, text not starting with "/", or text with a space closes it; other "/"-text leaves it as it was; only input and menu change |
| SessionProperties.TypingCommandNameKeepsMenu | app/page.tsx:54-88 | every command name is "/"-text without a space, so while the menu is open every prefix of the name typed keeps it open |
| SessionProperties.BlankSendChangesNothing | app/page.tsx:221 | sending empty or whitespace-only text changes nothing and starts no timer |
| SessionProperties.SendAppendsOneUserMessage | app/page.tsx:224-256 | a non-blank send appends exactly one flagged user message after the unchanged history, starts exactly one reply timer, clears the input, closes the menu, and leaves panel, artifact and spinner alone |
| SessionProperties.EnterSendsOnlyWithMenuClosed | app/page.tsx:259-264 | Enter with the menu closed is exactly a send of the input (so blank input is a no-op and other input is appended with its reply timer); any other key, or Enter with the menu open, changes nothing |
| SessionProperties.SendButtonSendsInput | app/page.tsx:340-341 | a click on Send does exactly what sending the input does, so disabling the button on blank input hides only a no-op |
| SessionProperties.SendPressClosesMenuAnyway | app/page.tsx:92-98 | in any state satisfying the invariant, closing the menu before a Send click (as a mouse press on the button does) gives the same state as the click alone |
| SessionProperties.ClickOutsideClosesMenu | app/page.tsx:92-96 | a click outside closes the menu and changes nothing else |
| SessionProperties.ClearCommandEffect | app/page.tsx:62-69 | `/clear` empties the history, hides the panel, clears input and menu, and keeps the artifact, the spinner flag and the pending timers |
| SessionProperties.SendingCommandIsASend | app/page.tsx:266-270 | every sending command's text is non-blank, and running the command is exactly sending that text |
| SessionProperties.ClosePanelIdempotent | app/page.tsx:353 | Close only hides the panel, so closing twice is the same as closing once |
| SessionProperties.ReplyAppendsOneAnswer | app/page.tsx:240-253 | a reply timer appends exactly one assistant message quoting the request; a generation timer starts, and the spinner flag is set, exactly when the request was flagged; panel and artifact stay as they were |
| SessionProperties.GenerationCompletes | app/page.tsx:121-217 | a generation timer shows the classified artifact, stops the spinner and opens the panel; the panel is empty exactly when the request was flagged only by "generate" or "create" |
| SessionProperties.StepOnlyAppends | app/page.tsx:224-253 | every event other than `/clear` keeps the history as a prefix and adds at most one message |
| SessionProperties.RunOnlyAppends | app/page.tsx:224-253 | over a run without `/clear`, the history only grows, by at most one message per event |
| SessionScenarios.CodeRequestWalkthrough | app/page.tsx:104-264 | typing the `/code` prompt and pressing Enter, then both timers: after the reply the spinner is on while the panel is closed and shows nothing; at the end the history holds greeting, request and reply and the panel shows the React Button Component |
| SessionScenarios.SecondRequestKeepsOldArtifact | app/page.tsx:117-121 | typing "/" and picking `/image` while the code artifact is shown: once its reply is in, the spinner flag is set, the panel stays open and the code artifact stays current (not cleared) |
| SessionScenarios.OverlappingGenerations | app/page.tsx:117-217 | after "/" and `/image` while the code generation runs, two generations are pending; the first to finish turns the spinner off although the second is pending, and each completion replaces the artifact shown |
| SessionScenarios.ClearKeepsPendingReply | app/page.tsx:62-69 | typing "/" and picking `/help`, then "/" and `/clear`: the pending reply is not cancelled, arrives, and is the only message of the cleared history |
| Widget.ChatSession.constructor | app/page.tsx:36-49 | the first render: greeting only, empty input, menu and panel closed, no artifact, not generating, no timers |
| Widget.ChatSession.SendDisabled | app/page.tsx:340 | the Send button is disabled exactly when the input is blank |
| Widget.ChatSession.HandleInputChange | app/page.tsx:104-114 | the fields become the input-change transition of the old state; the invariant is kept |
| Widget.ChatSession.HandleSendMessage | app/page.tsx:220-257 | the fields become the send transition of the old state; the invariant is kept |
| Widget.ChatSession.HandleKeyDown | app/page.tsx:259-264 | the fields become the key-press transition of the old state; the invariant is kept |
| Widget.ChatSession.ClickSend | app/page.tsx:340-341 | the fields become the Send-click transition of the old state; the invariant is kept |
| Widget.ChatSession.HandleClickOutside | app/page.tsx:92-96 | the menu closes and nothing else changes; the invariant is kept |
| Widget.ChatSession.ExecuteCommand | app/page.tsx:266-270 | called only while the menu is shown; the fields become the command transition of the old state; the invariant is kept |
| Widget.ChatSession.ClosePanel | app/page.tsx:353 | called only while the panel is shown; the panel closes and nothing else changes; the invariant is kept |
| Widget.ChatSession.GenerateArtifact | app/page.tsx:117-121 | the spinner flag is set and one generation timer is added |
| Widget.ChatSession.FireReply | app/page.tsx:240-253 | the fields become the reply-timer transition of the old state; the invariant is kept |
| Widget.ChatSession.FireArtifact | app/page.tsx:121-217 | the fields become the generation-timer transition of the old state; the invariant is kept |

## Left out

- Rendering: the JSX layout, avatars, icons, the Download button, and the loading and "No content to display" views. These read the state and do not change it.
- DOM plumbing: the mousedown listener's registration and removal, and the refs. A click outside the input and menu is one event, `ClickOutside`. A click inside changes nothing. With a mouse, a press on the Send or Close button lands outside the input-and-menu box (`app/page.tsx:306`), so the page also closes the menu first; the model treats that close as a separate `ClickOutside` event, so its `ClosePanel` alone leaves the menu as it was (for Send it makes no difference, `SessionProperties.SendPressClosesMenuAnyway`).
- Clocks: the real 1000 ms and 2000 ms delays. Timers are a list of pending events, and any pending timer may fire next, so the model admits every real firing order and more.
- Ids and timestamps (`Date.now()`, `new Date()`) are dropped from messages and artifacts. Nothing in the logic reads them.
- Artifact payloads: the Button source text, the image markup and the AI document text are fixtures. An artifact is modelled by its type and title.
- React batching and re-render timing: each handler's state updates are applied at once, in order. The updates that use `prev` are modelled as appending to the current history.
- Strings.ToLower: only ASCII letters are lower-cased. JavaScript's `toLowerCase` also maps non-ASCII letters, and none of the keywords contain them. Because of this, a message whose only keyword is spelled with non-ASCII capitals is not modelled.
