/**
 * The Grok chat session: the controller's read-dispatch loop over user input and the menu of
 * session actions (tool toggle, uploads, saved points in time).
 */
module ChatSession {
  import opened Wrappers
  import opened Text
  import opened Services
  import opened GrokTool
  import FileTool
  import opened GrokStreamer
  import opened Uploads
  import opened GrokState
  import opened Workspace
  import Commands

  /** The input that ends the session. */
  const QuitInput := "\\q"
  /** The input that opens the menu; other inputs starting with it are commands. */
  const MenuInput := ":"

  /** What the loop does with one line of user input. */
  datatype Dispatch = Quit | OpenMenu | RunCommand(line: string) | SendChat(message: string)

  /**
   * The decision is taken on the trimmed input; a command receives the trimmed line, while a chat
   * message is sent exactly as typed.
   */
  function DispatchOf(userInput: string): (d: Dispatch)
    ensures d.Quit? <==> Trim(userInput) == QuitInput
    ensures d.OpenMenu? <==> Trim(userInput) == MenuInput
    ensures d.RunCommand? <==> Trim(userInput) != MenuInput && StartsWith(Trim(userInput), MenuInput)
    ensures d.SendChat? <==> Trim(userInput) != QuitInput && !StartsWith(Trim(userInput), MenuInput)
    ensures d.RunCommand? ==> d.line == Trim(userInput)
    ensures d.SendChat? ==> d.message == userInput
  {
    var t := Trim(userInput);
    if t == QuitInput then Quit
    else if t == MenuInput then OpenMenu
    else if StartsWith(t, MenuInput) then RunCommand(t)
    else SendChat(userInput)
  }

  /** The answers the user gives to the prompts of one menu visit. */
  datatype MenuAnswer = MenuAnswer(
    /** The index of the chosen option. */
    choice: nat,
    /** The value picked in the tool list. */
    selectedTool: string,
    /** The glob pattern typed for an upload. */
    pattern: string,
    /** The answers of the file selector, in order. */
    picks: seq<Pick>,
    /** The name typed for a saved point. */
    pointName: string,
    /** The key picked in the list of saved points. */
    pointKey: string,
    /** The `crypto.randomUUID()` a load draws. */
    newConversationId: string)

  /** One iteration of the loop: the typed line, the menu answers and the page's events for a chat. */
  datatype Turn = Turn(userInput: string, menu: MenuAnswer, events: seq<Event>)

  /** What a menu option does; a registered option's action is outside this model. */
  datatype MenuAction =
    | ToggleToolAction
    | UploadGlobAction
    | UploadBrowseAction
    | SavePointAction
    | LoadPointAction
    | CustomAction(id: nat)

  datatype MenuOption = MenuOption(name: string, description: string, action: MenuAction)

  /** The five options every menu starts with, in order. */
  function BuiltInOptions(): seq<MenuOption> {
    [ MenuOption("Toggle Tool", "Enable or disable a tool", ToggleToolAction),
      MenuOption("Upload Files (Glob Pattern)", "Upload files using a glob pattern", UploadGlobAction),
      MenuOption("Upload Files (Browse)", "Interactively browse and select files to upload", UploadBrowseAction),
      MenuOption("Save Point in Time", "Save the current conversation state", SavePointAction),
      MenuOption("Load Point in Time", "Load a previously saved conversation state", LoadPointAction) ]
  }

  /** The names a menu offers, one per option, in order. */
  function OptionNames(options: seq<MenuOption>): (names: seq<string>)
    ensures |names| == |options|
    ensures forall k :: 0 <= k < |names| ==> names[k] == options[k].name
  {
    seq(|options|, k requires 0 <= k < |options| => options[k].name)
  }

  /** The tool a selection enables: `"none"`, or a name the registry does not know, enables none. */
  function ToolFor(selected: string): (tool: Option<Tool>)
    ensures tool.Some? <==> selected != "none" && selected in FileTool.Registry()
    ensures tool.Some? ==> FileTool.ToolName(tool.value) == selected
  {
    if selected == "none" then None
    else if selected in FileTool.Registry() then Some(FileTool.Registry()[selected])
    else None
  }

  /** The key and label of a saved point: the streamer's conversation id, a dash, and the name. */
  function PointLabel(conversationId: string, name: string): string {
    conversationId + "-" + name
  }

  /**
   * The saved points after a save: nothing is saved without a name or without a response to
   * continue from; otherwise the map is created when missing and the label's entry is written.
   */
  function SavedAfter(points: Option<map<string, SavedPoint>>, conversationId: string, lastResponseId: string, name: string)
    : Option<map<string, SavedPoint>>
  {
    if name == "" || lastResponseId == "" then points
    else
      var pointLabel := PointLabel(conversationId, name);
      Some(points.GetOr(map[])[pointLabel := SavedPoint(pointLabel, lastResponseId)])
  }

  /** A save writes exactly one entry, the point to continue from, and keeps every other entry. */
  lemma SaveWritesOnePoint(points: Option<map<string, SavedPoint>>, conversationId: string, lastResponseId: string, name: string)
    requires name != "" && lastResponseId != ""
    ensures var after := SavedAfter(points, conversationId, lastResponseId, name);
            var pointLabel := PointLabel(conversationId, name);
            && after.Some?
            && after.value.Keys == points.GetOr(map[]).Keys + {pointLabel}
            && after.value[pointLabel] == SavedPoint(pointLabel, lastResponseId)
            && (forall k :: k in points.GetOr(map[]) && k != pointLabel ==> after.value[k] == points.GetOr(map[])[k])
  {
  }

  /** An empty name or a missing response leaves the saved points as they were. */
  lemma SaveSkipped(points: Option<map<string, SavedPoint>>, conversationId: string, lastResponseId: string, name: string)
    requires name == "" || lastResponseId == ""
    ensures SavedAfter(points, conversationId, lastResponseId, name) == points
  {
  }

  /** The ids a glob upload adds: none for an empty pattern. */
  function GlobUpload(pattern: string, cwd: string, host: Host): seq<string> {
    if pattern != "" then UploadedIds(GlobPaths(pattern, cwd, host.resolve), host.uploadId) else []
  }

  /** The ids a browse upload adds: none when nothing was selected. */
  function BrowseUpload(picks: seq<Pick>, host: Host): seq<string> {
    var selected := SelectFrom(picks, []);
    if |selected| > 0 then UploadedIds(UploadRequest(selected), host.uploadId) else []
  }

  /** A browse upload adds at most ten ids. */
  lemma BrowseUploadBounded(picks: seq<Pick>, host: Host)
    ensures |BrowseUpload(picks, host)| <= MaxFiles
  {
    SelectionBounded(picks, []);
    var selected := SelectFrom(picks, []);
    if |selected| > 0 {
      UploadedIdsMembers(UploadRequest(selected), host.uploadId);
    }
  }

  /** Whether a turn ends the session. */
  predicate Quits(t: Turn) {
    DispatchOf(t.userInput).Quit?
  }

  /** Whether a turn sends a chat message. */
  predicate Chats(t: Turn) {
    DispatchOf(t.userInput).SendChat?
  }

  /** The index of the first element satisfying `p`, or the length when none does. */
  function FirstWhere<T>(xs: seq<T>, p: T -> bool): (k: nat)
    ensures k <= |xs|
    decreases |xs|
  {
    if xs == [] then 0
    else if p(xs[0]) then 0
    else 1 + FirstWhere(xs[1..], p)
  }

  /** The element found satisfies `p`, and none before it does. */
  lemma {:induction false} FirstWhereIsFirst<T>(xs: seq<T>, p: T -> bool)
    ensures FirstWhere(xs, p) < |xs| ==> p(xs[FirstWhere(xs, p)])
    ensures forall j :: 0 <= j < FirstWhere(xs, p) ==> !p(xs[j])
    decreases |xs|
  {
    if xs != [] && !p(xs[0]) {
      FirstWhereIsFirst(xs[1..], p);
      assert forall j :: 1 <= j < |xs| ==> xs[j] == xs[1..][j - 1];
    }
  }

  /** The index of the first turn that quits, or the number of turns when none does. */
  function FirstQuit(turns: seq<Turn>): (k: nat)
    ensures k <= |turns|
  {
    FirstWhere(turns, Quits)
  }

  /** The first quitting turn is the one found, and no turn before it quits. */
  lemma FirstQuitIsFirst(turns: seq<Turn>)
    ensures FirstQuit(turns) < |turns| ==> Quits(turns[FirstQuit(turns)])
    ensures forall j :: 0 <= j < FirstQuit(turns) ==> !Quits(turns[j])
  {
    FirstWhereIsFirst(turns, Quits);
  }

  /** The messages the turns send to the model, exactly as typed, in order. */
  function ChatMessages(turns: seq<Turn>): (messages: seq<string>)
    ensures |messages| <= |turns|
  {
    if turns == [] then []
    else
      var last := turns[|turns| - 1];
      ChatMessages(turns[..|turns| - 1]) + (if Chats(last) then [last.userInput] else [])
  }

  /** One more turn adds its message when it chats, and nothing otherwise. */
  lemma ChatMessagesStep(turns: seq<Turn>, i: nat)
    requires i < |turns|
    ensures ChatMessages(turns[..i + 1]) == ChatMessages(turns[..i]) + (if Chats(turns[i]) then [turns[i].userInput] else [])
  {
    assert turns[..i + 1][..i] == turns[..i];
  }

  /** Each exchange's request begins with the message at the same position. */
  predicate SendsInOrder(reports: seq<ExchangeReport>, messages: seq<string>) {
    |reports| == |messages| && forall k :: 0 <= k < |reports| ==> StartsWith(reports[k].request.message, messages[k])
  }

  lemma SendsInOrderAppend(reports: seq<ExchangeReport>, messages: seq<string>, report: ExchangeReport, message: string)
    requires SendsInOrder(reports, messages) && StartsWith(report.request.message, message)
    ensures SendsInOrder(reports + [report], messages + [message])
  {
    var rs, ms := reports + [report], messages + [message];
    forall k | 0 <= k < |rs|
      ensures StartsWith(rs[k].request.message, ms[k])
    {
      if k < |reports| {
        assert rs[k] == reports[k] && ms[k] == messages[k];
      }
    }
  }

  /** Controls the lifecycle of a Grok chat session and the state its actions share. */
  class ChatController {
    var chatActive: bool
    var cwd: string
    var fileIds: IdList
    var conversationId: string
    var enabledTool: Option<Tool>
    var chatStreamer: ChatStreamer
    var grokConfig: GrokConfig
    var initialParentResponseId: string
    const fileUploader: FileUploader
    const commandRegistry: Commands.CommandRegistry
    const menuHandler: MenuHandler

    /** The uploader pushes into the very list the next chat attaches. */
    ghost predicate Valid()
      reads this
    {
      fileUploader.fileIds == fileIds
    }

    /** The configuration is the one loaded before the session starts. */
    constructor(commandRegistry: Commands.CommandRegistry, menuHandler: MenuHandler, initialConversationId: string,
                cwd: string, grokConfig: GrokConfig)
      ensures Valid()
      ensures !chatActive && this.cwd == cwd && fileIds.ids == [] && enabledTool == None
      ensures conversationId == initialConversationId && initialParentResponseId == ""
      ensures chatStreamer.conversationId == initialConversationId && chatStreamer.lastResponseId == ""
      ensures this.commandRegistry == commandRegistry && this.menuHandler == menuHandler && this.grokConfig == grokConfig
      ensures fresh(fileIds) && fresh(chatStreamer)
    {
      chatActive := false;
      this.cwd := cwd;
      var ids := new IdList();
      fileIds := ids;
      conversationId := initialConversationId;
      enabledTool := None;
      initialParentResponseId := "";
      fileUploader := new FileUploader(ids);
      chatStreamer := new ChatStreamer(initialConversationId, "");
      this.grokConfig := grokConfig;
      this.commandRegistry := commandRegistry;
      this.menuHandler := menuHandler;
    }

    /**
     * `--new` starts without an id; otherwise the flag, then the active id, is continued, and a
     * non-empty id becomes the active one.
     */
    method InitializeConversation(newFlag: bool, conversationFlag: Option<string>)
      modifies this, grokConfig
      ensures newFlag ==> conversationId == "" && grokConfig.activeConversationId == old(grokConfig.activeConversationId)
      ensures !newFlag ==> conversationId == ResolveConversationId(conversationFlag, old(grokConfig.activeConversationId))
      ensures !newFlag && conversationId != "" ==> grokConfig.activeConversationId == Some(conversationId)
      ensures conversationId == "" ==> grokConfig.activeConversationId == old(grokConfig.activeConversationId)
      ensures grokConfig.savedPoints == old(grokConfig.savedPoints) && grokConfig.grokCookie == old(grokConfig.grokCookie)
      ensures fileIds == old(fileIds) && chatStreamer == old(chatStreamer) && grokConfig == old(grokConfig)
      ensures cwd == old(cwd) && enabledTool == old(enabledTool) && chatActive == old(chatActive)
      ensures initialParentResponseId == old(initialParentResponseId)
    {
      if newFlag {
        conversationId := "";
      } else {
        conversationId := ResolveConversationId(conversationFlag, grokConfig.activeConversationId);
        var _ := grokConfig.AdoptActive(conversationId);
      }
    }

    /**
     * Opens the conversation's page; `uiReady` is whether the input box appeared in time and
     * `history` what loading the conversation returned (`Err` when it threw). A known conversation
     * resumes from its last assistant response when one is found; a new one gets a fresh streamer.
     */
    method SetupChatPage(uiReady: bool, history: Result<Option<string>, string>) returns (url: string, failure: Option<string>)
      modifies this
      ensures url == NavigationUrl(conversationId)
      ensures failure.Some? <==> !uiReady
      ensures failure.Some? ==> failure.value == "Failed to load chat UI"
      ensures conversationId == old(conversationId) && fileIds == old(fileIds) && grokConfig == old(grokConfig)
      ensures cwd == old(cwd) && enabledTool == old(enabledTool) && chatActive == old(chatActive)
      ensures uiReady && conversationId != "" && history.Ok? ==> initialParentResponseId == history.value.GetOr("")
      ensures !(uiReady && conversationId != "" && history.Ok?) ==> initialParentResponseId == old(initialParentResponseId)
      ensures uiReady && (conversationId == "" || (history.Ok? && history.value.GetOr("") != "")) ==>
                fresh(chatStreamer)
                && chatStreamer.conversationId == conversationId
                && chatStreamer.lastResponseId == initialParentResponseId
      ensures !(uiReady && (conversationId == "" || (history.Ok? && history.value.GetOr("") != ""))) ==>
                chatStreamer == old(chatStreamer)
    {
      url := NavigationUrl(conversationId);
      if !uiReady {
        failure := Some("Failed to load chat UI");
        return;
      }
      failure := None;
      if conversationId != "" {
        if history.Ok? {
          initialParentResponseId := history.value.GetOr("");
          if initialParentResponseId != "" {
            chatStreamer := new ChatStreamer(conversationId, initialParentResponseId);
          }
        }
      } else {
        chatStreamer := new ChatStreamer(conversationId, initialParentResponseId);
      }
    }

    /** A session without an id adopts the one the streamer learned and makes it the active one. */
    method UpdateConversationId()
      modifies this, grokConfig
      ensures var adopt := old(conversationId) == "" && chatStreamer.conversationId != "";
              && conversationId == (if adopt then chatStreamer.conversationId else old(conversationId))
              && grokConfig.activeConversationId == (if adopt then Some(conversationId) else old(grokConfig.activeConversationId))
      ensures old(conversationId) != "" ==> conversationId == old(conversationId)
      ensures grokConfig.savedPoints == old(grokConfig.savedPoints) && grokConfig.grokCookie == old(grokConfig.grokCookie)
      ensures fileIds == old(fileIds) && chatStreamer == old(chatStreamer) && grokConfig == old(grokConfig)
      ensures cwd == old(cwd) && enabledTool == old(enabledTool) && chatActive == old(chatActive)
      ensures initialParentResponseId == old(initialParentResponseId)
    {
      if conversationId == "" && chatStreamer.conversationId != "" {
        conversationId := chatStreamer.conversationId;
        grokConfig.activeConversationId := Some(conversationId);
      }
    }

    /** Streams one message with the current attachments and tool, then adopts a learned conversation id. */
    method Exchange(message: string, events: seq<Event>, host: Host) returns (report: ExchangeReport)
      modifies this, chatStreamer, grokConfig
      ensures report.request == BuildRequest(FileTool.ProcessedPrompt(message, enabledTool), fileIds.ids, old(chatStreamer.lastResponseId))
      ensures var r := Run(old(chatStreamer.State("", None)), events);
              && chatStreamer.conversationId == r.state.conversationId
              && chatStreamer.lastResponseId == r.state.lastResponseId
              && report.outcome == r.outcome
      ensures var adopt := old(conversationId) == "" && chatStreamer.conversationId != "";
              && conversationId == (if adopt then chatStreamer.conversationId else old(conversationId))
              && grokConfig.activeConversationId == (if adopt then Some(conversationId) else old(grokConfig.activeConversationId))
      ensures grokConfig.savedPoints == old(grokConfig.savedPoints)
      ensures fileIds == old(fileIds) && chatStreamer == old(chatStreamer) && grokConfig == old(grokConfig)
      ensures cwd == old(cwd) && enabledTool == old(enabledTool) && chatActive == old(chatActive)
      ensures initialParentResponseId == old(initialParentResponseId)
    {
      report := chatStreamer.StreamChat(message, fileIds.ids, enabledTool, events, cwd, host);
      UpdateConversationId();
    }

    /**
     * The chat branch of the loop with the attachments cleared in place, so that the uploader and
     * the next chat keep sharing one list.
     */
    method SendMessage(message: string, events: seq<Event>, host: Host) returns (report: ExchangeReport)
      requires Valid()
      modifies this, chatStreamer, fileIds, grokConfig
      ensures Valid()
      ensures report.request == BuildRequest(FileTool.ProcessedPrompt(message, old(enabledTool)), old(fileIds.ids), old(chatStreamer.lastResponseId))
      ensures var r := Run(old(chatStreamer.State("", None)), events);
              && chatStreamer.conversationId == r.state.conversationId
              && chatStreamer.lastResponseId == r.state.lastResponseId
              && report.outcome == r.outcome
      ensures old(conversationId) != "" ==> conversationId == old(conversationId)
      ensures old(conversationId) == "" ==> conversationId == chatStreamer.conversationId
      ensures fileIds == old(fileIds) && fileIds.ids == []
      ensures grokConfig.savedPoints == old(grokConfig.savedPoints)
      ensures chatStreamer == old(chatStreamer) && grokConfig == old(grokConfig)
      ensures cwd == old(cwd) && enabledTool == old(enabledTool) && chatActive == old(chatActive)
    {
      report := Exchange(message, events, host);
      fileIds.ids := [];
    }

    /**
     * The chat branch of the loop as written: a fresh empty list replaces the attachments, while
     * the uploader keeps the list it was given at construction.
     */
    method SendMessageAsWritten(message: string, events: seq<Event>, host: Host) returns (report: ExchangeReport)
      modifies this, chatStreamer, grokConfig
      ensures report.request == BuildRequest(FileTool.ProcessedPrompt(message, old(enabledTool)), old(fileIds.ids), old(chatStreamer.lastResponseId))
      ensures fresh(fileIds) && fileIds.ids == []
      ensures fileUploader.fileIds != fileIds
      ensures chatStreamer == old(chatStreamer) && grokConfig == old(grokConfig)
      ensures cwd == old(cwd) && enabledTool == old(enabledTool) && chatActive == old(chatActive)
    {
      report := Exchange(message, events, host);
      fileIds := new IdList();
    }

    /** `uploadFiles`: the comma-separated paths, resolved against the working directory, go to the uploader. */
    method UploadFiles(globPattern: string, host: Host)
      modifies fileUploader.fileIds
      ensures fileUploader.fileIds.ids
           == old(fileUploader.fileIds.ids) + UploadedIds(GlobPaths(globPattern, cwd, host.resolve), host.uploadId)
    {
      fileUploader.UploadFiles(GlobPaths(globPattern, cwd, host.resolve), host);
    }

    method SetCwd(cwd: string)
      modifies this
      ensures this.cwd == cwd
      ensures chatActive == old(chatActive) && fileIds == old(fileIds) && chatStreamer == old(chatStreamer)
      ensures conversationId == old(conversationId) && enabledTool == old(enabledTool) && grokConfig == old(grokConfig)
    {
      this.cwd := cwd;
    }

    method SetEnabledTool(tool: Option<Tool>)
      modifies this
      ensures enabledTool == tool
      ensures chatActive == old(chatActive) && fileIds == old(fileIds) && chatStreamer == old(chatStreamer)
      ensures conversationId == old(conversationId) && cwd == old(cwd) && grokConfig == old(grokConfig)
    {
      enabledTool := tool;
    }

    /** Carries out one dispatch decision; a chat returns its exchange. */
    method Perform(d: Dispatch, menu: MenuAnswer, events: seq<Event>, host: Host) returns (report: Option<ExchangeReport>)
      requires Valid()
      modifies this, chatStreamer, fileIds, grokConfig
      ensures Valid()
      ensures fileIds == old(fileIds) && grokConfig == old(grokConfig)
      ensures chatStreamer == old(chatStreamer) || fresh(chatStreamer)
      ensures chatActive == (old(chatActive) && !d.Quit?)
      ensures report.Some? <==> d.SendChat?
      ensures report.Some? ==>
                report.value.request == BuildRequest(FileTool.ProcessedPrompt(d.message, old(enabledTool)), old(fileIds.ids), old(chatStreamer.lastResponseId))
                && fileIds.ids == []
      ensures d.RunCommand? ==> cwd == Commands.CwdAfter(old(cwd), commandRegistry.Execute(d.line, old(cwd), host))
      ensures d.Quit? ==> fileIds.ids == old(fileIds.ids) && chatStreamer == old(chatStreamer)
    {
      report := None;
      match d {
        case Quit =>
          chatActive := false;
        case OpenMenu =>
          menuHandler.ShowMenu(this, menu, host);
        case RunCommand(line) =>
          var o := commandRegistry.Execute(line, cwd, host);
          if o.ChangedDir? {
            SetCwd(o.dir);
          }
        case SendChat(message) =>
          var r := SendMessage(message, events, host);
          report := Some(r);
      }
    }

    /** One iteration of the loop: the typed line is dispatched and carried out. */
    method ChatTurn(turn: Turn, host: Host) returns (report: Option<ExchangeReport>)
      requires Valid()
      modifies this, chatStreamer, fileIds, grokConfig
      ensures Valid()
      ensures fileIds == old(fileIds) && grokConfig == old(grokConfig)
      ensures chatStreamer == old(chatStreamer) || fresh(chatStreamer)
      ensures chatActive == (old(chatActive) && !Quits(turn))
      ensures report.Some? <==> Chats(turn)
      ensures report.Some? ==> fileIds.ids == [] && StartsWith(report.value.request.message, turn.userInput)
      ensures DispatchOf(turn.userInput).RunCommand? ==>
                cwd == Commands.CwdAfter(old(cwd), commandRegistry.Execute(Trim(turn.userInput), old(cwd), host))
    {
      report := Perform(DispatchOf(turn.userInput), turn.menu, turn.events, host);
    }

    /**
     * The loop runs the turns in order until the first one that quits (or until the input runs
     * out) and returns how many it consumed and the exchanges the chats made: one per chat turn,
     * in order, each request beginning with that turn's message as typed.
     */
    method ChatLoop(turns: seq<Turn>, host: Host) returns (consumed: nat, reports: seq<ExchangeReport>)
      requires Valid()
      modifies this, chatStreamer, fileIds, grokConfig
      ensures Valid()
      ensures consumed == if FirstQuit(turns) < |turns| then FirstQuit(turns) + 1 else |turns|
      ensures chatActive <==> FirstQuit(turns) == |turns|
      ensures SendsInOrder(reports, ChatMessages(turns[..consumed]))
    {
      chatActive := true;
      consumed := 0;
      reports := [];
      ghost var messages: seq<string> := [];
      FirstQuitIsFirst(turns);
      while chatActive && consumed < |turns|
        invariant 0 <= consumed <= |turns|
        invariant Valid()
        invariant fileIds == old(fileIds) && grokConfig == old(grokConfig)
        invariant chatStreamer == old(chatStreamer) || fresh(chatStreamer)
        invariant chatActive ==> consumed <= FirstQuit(turns)
        invariant !chatActive ==> FirstQuit(turns) < |turns| && consumed == FirstQuit(turns) + 1
        invariant messages == ChatMessages(turns[..consumed])
        invariant SendsInOrder(reports, messages)
      {
        var turn := turns[consumed];
        ghost var next := messages + (if Chats(turn) then [turn.userInput] else []);
        ChatMessagesStep(turns, consumed);
        assert !Quits(turn) ==> consumed + 1 <= FirstQuit(turns);
        assert Quits(turn) ==> consumed == FirstQuit(turns);
        var report := ChatTurn(turn, host);
        if report.Some? {
          SendsInOrderAppend(reports, messages, report.value, turn.userInput);
          reports := reports + [report.value];
          messages := messages + [turn.userInput];
        } else {
          assert next == messages + [];
        }
        assert messages == next;
        consumed := consumed + 1;
      }
    }
  }

  /** The chat menu: an ordered list of options, five built in and more registered later. */
  class MenuHandler {
    var options: seq<MenuOption>

    constructor()
      ensures options == BuiltInOptions()
    {
      options := BuiltInOptions();
    }

    function Choices(): seq<string>
      reads this
    {
      OptionNames(options)
    }

    method RegisterOption(option: MenuOption)
      modifies this
      ensures options == old(options) + [option]
    {
      options := options + [option];
    }

    /** Enables the selected tool, or none. */
    method ToggleTool(controller: ChatController, selected: string)
      modifies controller
      ensures controller.enabledTool == ToolFor(selected)
      ensures controller.cwd == old(controller.cwd) && controller.chatActive == old(controller.chatActive)
      ensures controller.fileIds == old(controller.fileIds) && controller.chatStreamer == old(controller.chatStreamer)
      ensures controller.conversationId == old(controller.conversationId) && controller.grokConfig == old(controller.grokConfig)
    {
      controller.SetEnabledTool(ToolFor(selected));
    }

    /** Uploads the comma-separated paths typed, resolved against the controller's directory. */
    method UploadGlob(controller: ChatController, pattern: string, host: Host)
      modifies controller.fileUploader.fileIds
      ensures controller.fileUploader.fileIds.ids == old(controller.fileUploader.fileIds.ids) + GlobUpload(pattern, controller.cwd, host)
    {
      if pattern != "" {
        controller.fileUploader.UploadFiles(GlobPaths(pattern, controller.cwd, host.resolve), host);
      }
    }

    /** Uploads the files picked in the selector, at most ten and each once. */
    method UploadBrowse(controller: ChatController, picks: seq<Pick>, host: Host)
      modifies controller.fileUploader.fileIds
      ensures controller.fileUploader.fileIds.ids == old(controller.fileUploader.fileIds.ids) + BrowseUpload(picks, host)
    {
      var selected := BrowseSelection(picks);
      if |selected| > 0 {
        controller.fileUploader.UploadFiles(UploadRequest(selected), host);
      }
    }

    /** Saves the streamer's last response under the streamer's conversation id and the typed name. */
    method SavePoint(controller: ChatController, name: string)
      modifies controller.grokConfig
      ensures controller.grokConfig.savedPoints
           == SavedAfter(old(controller.grokConfig.savedPoints), controller.chatStreamer.conversationId,
                         controller.chatStreamer.lastResponseId, name)
      ensures controller.grokConfig.activeConversationId == old(controller.grokConfig.activeConversationId)
      ensures controller.grokConfig.grokCookie == old(controller.grokConfig.grokCookie)
    {
      if name != "" {
        var lastResponseId := controller.chatStreamer.GetLastResponseId();
        if lastResponseId != "" {
          var pointLabel := PointLabel(controller.chatStreamer.GetConversationId(), name);
          if controller.grokConfig.savedPoints.None? {
            controller.grokConfig.savedPoints := Some(map[]);
          }
          controller.grokConfig.savedPoints := Some(controller.grokConfig.savedPoints.value[pointLabel := SavedPoint(pointLabel, lastResponseId)]);
        }
      }
    }

    /**
     * Continues from a saved point in a new conversation: a fresh streamer starts from the point's
     * response, the attachments are cleared in place and the new id becomes the active one.
     */
    method LoadPoint(controller: ChatController, selectedKey: string, newConversationId: string)
      requires controller.Valid()
      modifies controller, controller.fileIds, controller.grokConfig
      ensures controller.Valid()
      ensures controller.fileIds == old(controller.fileIds) && controller.grokConfig == old(controller.grokConfig)
      ensures controller.grokConfig.savedPoints == old(controller.grokConfig.savedPoints)
      ensures controller.cwd == old(controller.cwd) && controller.chatActive == old(controller.chatActive)
      ensures controller.enabledTool == old(controller.enabledTool)
      ensures var points := old(controller.grokConfig.savedPoints).GetOr(map[]);
              if selectedKey in points then
                && controller.conversationId == newConversationId
                && fresh(controller.chatStreamer)
                && controller.chatStreamer.conversationId == newConversationId
                && controller.chatStreamer.lastResponseId == points[selectedKey].previousResponseId
                && controller.fileIds.ids == []
                && controller.grokConfig.activeConversationId == Some(newConversationId)
              else
                && controller.conversationId == old(controller.conversationId)
                && controller.chatStreamer == old(controller.chatStreamer)
                && controller.fileIds.ids == old(controller.fileIds.ids)
                && controller.grokConfig.activeConversationId == old(controller.grokConfig.activeConversationId)
    {
      var points := controller.grokConfig.savedPoints.GetOr(map[]);
      if |points| == 0 {
        return;
      }
      if selectedKey !in points {
        return;
      }
      var point := points[selectedKey];
      controller.conversationId := newConversationId;
      controller.chatStreamer := new ChatStreamer(newConversationId, point.previousResponseId);
      controller.fileIds.ids := [];
      controller.grokConfig.activeConversationId := Some(newConversationId);
    }

    /** The load as written: a fresh empty list replaces the attachments, leaving the uploader on the old one. */
    method LoadPointAsWritten(controller: ChatController, selectedKey: string, newConversationId: string)
      modifies controller, controller.grokConfig
      ensures selectedKey in old(controller.grokConfig.savedPoints).GetOr(map[]) ==>
                fresh(controller.fileIds) && controller.fileIds.ids == [] && controller.fileUploader.fileIds != controller.fileIds
      ensures selectedKey !in old(controller.grokConfig.savedPoints).GetOr(map[]) ==> controller.fileIds == old(controller.fileIds)
    {
      var points := controller.grokConfig.savedPoints.GetOr(map[]);
      if |points| == 0 {
        return;
      }
      if selectedKey !in points {
        return;
      }
      var point := points[selectedKey];
      controller.conversationId := newConversationId;
      controller.chatStreamer := new ChatStreamer(newConversationId, point.previousResponseId);
      controller.fileIds := new IdList();
      controller.grokConfig.activeConversationId := Some(newConversationId);
    }

    /** Runs the chosen option's action; a choice outside the list does nothing. */
    method ShowMenu(controller: ChatController, answer: MenuAnswer, host: Host)
      requires controller.Valid()
      modifies controller, controller.fileIds, controller.grokConfig
      ensures controller.Valid()
      ensures controller.fileIds == old(controller.fileIds) && controller.grokConfig == old(controller.grokConfig)
      ensures controller.chatStreamer == old(controller.chatStreamer) || fresh(controller.chatStreamer)
      ensures controller.chatActive == old(controller.chatActive)
      ensures answer.choice >= |options| ==>
                && controller.fileIds.ids == old(controller.fileIds.ids)
                && controller.enabledTool == old(controller.enabledTool)
                && controller.grokConfig.savedPoints == old(controller.grokConfig.savedPoints)
                && controller.chatStreamer == old(controller.chatStreamer)
      ensures answer.choice < |options| && options[answer.choice].action == ToggleToolAction ==>
                controller.enabledTool == ToolFor(answer.selectedTool)
      ensures answer.choice < |options| && options[answer.choice].action == UploadGlobAction ==>
                controller.fileIds.ids == old(controller.fileIds.ids) + GlobUpload(answer.pattern, controller.cwd, host)
      ensures answer.choice < |options| && options[answer.choice].action == UploadBrowseAction ==>
                controller.fileIds.ids == old(controller.fileIds.ids) + BrowseUpload(answer.picks, host)
      ensures answer.choice < |options| && options[answer.choice].action == SavePointAction ==>
                controller.grokConfig.savedPoints
                == SavedAfter(old(controller.grokConfig.savedPoints), old(controller.chatStreamer.conversationId),
                              old(controller.chatStreamer.lastResponseId), answer.pointName)
      ensures answer.choice < |options| && options[answer.choice].action == LoadPointAction
              && answer.pointKey in old(controller.grokConfig.savedPoints).GetOr(map[]) ==>
                && controller.conversationId == answer.newConversationId
                && controller.chatStreamer.lastResponseId
                   == old(controller.grokConfig.savedPoints).GetOr(map[])[answer.pointKey].previousResponseId
                && controller.fileIds.ids == []
    {
      if answer.choice >= |options| {
        return;
      }
      match options[answer.choice].action {
        case ToggleToolAction =>
          ToggleTool(controller, answer.selectedTool);
        case UploadGlobAction =>
          UploadGlob(controller, answer.pattern, host);
        case UploadBrowseAction =>
          UploadBrowse(controller, answer.picks, host);
        case SavePointAction =>
          SavePoint(controller, answer.pointName);
        case LoadPointAction =>
          LoadPoint(controller, answer.pointKey, answer.newConversationId);
        case CustomAction(_) =>
      }
    }
  }

  /**
   * As written, a file uploaded after the first chat never reaches a request: the chat that
   * follows attaches nothing.
   */
  method UploadAfterFirstChatAsWritten(host: Host) returns (attached: seq<string>)
    requires host.uploadId("/work/notes.txt") == "file-1"
    ensures attached == []
  {
    var config := new GrokConfig(None, None, None);
    var registry := new Commands.CommandRegistry();
    var menu := new MenuHandler();
    var c := new ChatController(registry, menu, "", "/work", config);
    var _ := c.SendMessageAsWritten("hello", [], host);
    c.fileUploader.UploadFiles(["/work/notes.txt"], host);
    var second := c.SendMessageAsWritten("what is in notes.txt?", [], host);
    attached := second.request.fileAttachments;
  }

  /** With the list cleared in place, the same session attaches the uploaded file to the next chat. */
  method UploadAfterFirstChat(host: Host) returns (attached: seq<string>)
    requires host.uploadId("/work/notes.txt") == "file-1"
    ensures attached == ["file-1"]
  {
    var config := new GrokConfig(None, None, None);
    var registry := new Commands.CommandRegistry();
    var menu := new MenuHandler();
    var c := new ChatController(registry, menu, "", "/work", config);
    var _ := c.SendMessage("hello", [], host);
    c.fileUploader.UploadFiles(["/work/notes.txt"], host);
    assert UploadedIds(["/work/notes.txt"], host.uploadId) == ["file-1"] + UploadedIds([], host.uploadId);
    var second := c.SendMessage("what is in notes.txt?", [], host);
    attached := second.request.fileAttachments;
  }
}
