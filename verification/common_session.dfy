/**
 * The shared chat session used by the `grok chat` and `webui chat` commands: a controller written
 * against a streamer, a command registry and an uploader it does not know, and a three-option menu.
 */
module CommonSession {
  import opened Wrappers
  import opened Text
  import opened Services
  import opened GrokTool
  import opened Uploads
  import opened Workspace
  import opened ChatSession

  /** This controller trims the input once and uses the trimmed text for every branch. */
  function DispatchTrimmed(userInput: string): (d: Dispatch)
    ensures d.Quit? <==> DispatchOf(userInput).Quit?
    ensures d.OpenMenu? <==> DispatchOf(userInput).OpenMenu?
    ensures d.RunCommand? <==> DispatchOf(userInput).RunCommand?
    ensures d.RunCommand? ==> d.line == DispatchOf(userInput).line
    ensures d.SendChat? <==> DispatchOf(userInput).SendChat?
    ensures d.SendChat? ==> d.message == Trim(userInput)
  {
    TrimTwice(userInput);
    DispatchOf(Trim(userInput))
  }

  /** What the controller hands to the collaborators it knows only by interface, in order. */
  datatype Call =
    | StreamCall(message: string, fileIds: seq<string>, tool: Option<Tool>)
    | CommandCall(line: string)

  /** What a call hands over, leaving out the attachments and the tool of a stream call. */
  datatype Handed = Streamed(message: string) | Commanded(line: string)

  function HandedOf(c: Call): Handed {
    match c
    case StreamCall(message, _, _) => Streamed(message)
    case CommandCall(line) => Commanded(line)
  }

  /** What one turn hands over: a command its trimmed line, a chat its trimmed message, the rest nothing. */
  function TurnHands(t: Turn): (h: seq<Handed>)
    ensures |h| <= 1
  {
    match DispatchTrimmed(t.userInput)
    case RunCommand(line) => [Commanded(line)]
    case SendChat(message) => [Streamed(message)]
    case _ => []
  }

  /** What the turns hand over, in order. */
  function TurnsHand(turns: seq<Turn>): seq<Handed> {
    if turns == [] then [] else TurnsHand(turns[..|turns| - 1]) + TurnHands(turns[|turns| - 1])
  }

  lemma TurnsHandStep(turns: seq<Turn>, i: nat)
    requires i < |turns|
    ensures TurnsHand(turns[..i + 1]) == TurnsHand(turns[..i]) + TurnHands(turns[i])
  {
    assert turns[..i + 1][..i] == turns[..i];
  }

  /** What a sequence of calls hands over, call by call. */
  function HandedAll(calls: seq<Call>): (handed: seq<Handed>)
    ensures |handed| == |calls|
  {
    if calls == [] then [] else HandedAll(calls[..|calls| - 1]) + [HandedOf(calls[|calls| - 1])]
  }

  lemma {:induction false} HandedAllAppend(a: seq<Call>, b: seq<Call>)
    ensures HandedAll(a + b) == HandedAll(a) + HandedAll(b)
    decreases |b|
  {
    if b == [] {
      assert a + b == a;
    } else {
      assert (a + b)[..|a + b| - 1] == a + b[..|b| - 1];
      HandedAllAppend(a, b[..|b| - 1]);
      AppendAssoc(HandedAll(a), HandedAll(b[..|b| - 1]), [HandedOf(b[|b| - 1])]);
    }
  }

  /** The chat loop over an opaque streamer and command registry. */
  class CommonController {
    var chatActive: bool
    var cwd: string
    const fileIds: IdList
    var enabledTool: Option<Tool>
    const menuHandler: CommonMenuHandler
    const fileUploader: FileUploader
    /** The streamer and command calls made so far. */
    var calls: seq<Call>

    constructor(menuHandler: CommonMenuHandler, fileUploader: FileUploader, cwd: string)
      ensures !chatActive && this.cwd == cwd && fileIds.ids == [] && enabledTool == None && calls == []
      ensures this.menuHandler == menuHandler && this.fileUploader == fileUploader
      ensures fresh(fileIds)
    {
      chatActive := false;
      this.cwd := cwd;
      fileIds := new IdList();
      enabledTool := None;
      this.menuHandler := menuHandler;
      this.fileUploader := fileUploader;
      calls := [];
    }

    function GetCwd(): string
      reads this
    {
      cwd
    }

    function GetEnabledTool(): Option<Tool>
      reads this
    {
      enabledTool
    }

    method SetCwd(cwd: string)
      modifies this
      ensures GetCwd() == cwd
      ensures GetEnabledTool() == old(GetEnabledTool()) && chatActive == old(chatActive) && calls == old(calls)
    {
      this.cwd := cwd;
    }

    method SetEnabledTool(tool: Option<Tool>)
      modifies this
      ensures GetEnabledTool() == tool
      ensures GetCwd() == old(GetCwd()) && chatActive == old(chatActive) && calls == old(calls)
    {
      enabledTool := tool;
    }

    /** `uploadFiles`: the comma-separated paths, resolved against the working directory, go to the uploader. */
    method UploadFiles(globPattern: string, host: Host)
      modifies fileUploader.fileIds
      ensures fileUploader.fileIds.ids
           == old(fileUploader.fileIds.ids) + UploadedIds(GlobPaths(globPattern, cwd, host.resolve), host.uploadId)
    {
      fileUploader.UploadFiles(GlobPaths(globPattern, cwd, host.resolve), host);
    }

    /**
     * The chat branch as written: the controller's own list is attached and then truncated in
     * place; nothing ever adds to that list.
     */
    method SendMessageAsWritten(message: string)
      modifies this, fileIds
      ensures calls == old(calls) + [StreamCall(message, old(fileIds.ids), enabledTool)]
      ensures fileIds.ids == []
      ensures cwd == old(cwd) && enabledTool == old(enabledTool) && chatActive == old(chatActive)
    {
      calls := calls + [StreamCall(message, fileIds.ids, enabledTool)];
      fileIds.ids := [];
    }

    /**
     * The chat branch as the uploader interface intends it: the ids the uploader collected are
     * attached, and its list is then truncated in place.
     */
    method SendMessage(message: string)
      modifies this, fileUploader.fileIds
      ensures calls == old(calls) + [StreamCall(message, old(fileUploader.fileIds.ids), enabledTool)]
      ensures fileUploader.fileIds.ids == []
      ensures cwd == old(cwd) && enabledTool == old(enabledTool) && chatActive == old(chatActive)
    {
      calls := calls + [StreamCall(message, fileUploader.fileIds.ids, enabledTool)];
      fileUploader.fileIds.ids := [];
    }

    /** Carries out one dispatch decision. */
    method Perform(d: Dispatch, menu: MenuAnswer, host: Host)
      modifies this, fileUploader.fileIds
      ensures chatActive == (old(chatActive) && !d.Quit?)
      ensures d.RunCommand? ==> calls == old(calls) + [CommandCall(d.line)] && fileUploader.fileIds.ids == old(fileUploader.fileIds.ids)
      ensures d.SendChat? ==>
                && calls == old(calls) + [StreamCall(d.message, old(fileUploader.fileIds.ids), old(enabledTool))]
                && fileUploader.fileIds.ids == []
      ensures d.Quit? || d.OpenMenu? ==> calls == old(calls)
      ensures d.Quit? ==> fileUploader.fileIds.ids == old(fileUploader.fileIds.ids)
    {
      match d {
        case Quit =>
          chatActive := false;
        case OpenMenu =>
          menuHandler.ShowMenu(this, menu, host);
        case RunCommand(line) =>
          calls := calls + [CommandCall(line)];
        case SendChat(message) =>
          SendMessage(message);
      }
    }

    /**
     * One iteration of the loop, dispatched on the trimmed input, which is also what a chat sends;
     * `made` is the calls it adds.
     */
    method ChatTurn(turn: Turn, host: Host) returns (ghost made: seq<Call>)
      modifies this, fileUploader.fileIds
      ensures chatActive == (old(chatActive) && !Quits(turn))
      ensures calls == old(calls) + made && HandedAll(made) == TurnHands(turn)
      ensures HandedAll(calls) == HandedAll(old(calls)) + TurnHands(turn)
      ensures var d := DispatchTrimmed(turn.userInput);
              d.SendChat? ==> made == [StreamCall(d.message, old(fileUploader.fileIds.ids), old(enabledTool))] && fileUploader.fileIds.ids == []
    {
      var d := DispatchTrimmed(turn.userInput);
      Perform(d, turn.menu, host);
      match d {
        case RunCommand(line) =>
          made := [CommandCall(line)];
          assert made[..0] == [];
        case SendChat(message) =>
          made := [StreamCall(message, old(fileUploader.fileIds.ids), old(enabledTool))];
          assert made[..0] == [];
        case _ =>
          made := [];
          assert calls == old(calls);
          AppendSlices(calls, made);
      }
      HandedAllAppend(old(calls), made);
    }

    /**
     * The loop runs the turns in order until the first one that quits, or until the input runs out;
     * the calls it adds hand over each command line and chat message of the consumed turns, in
     * turn order.
     */
    method ChatLoop(turns: seq<Turn>, host: Host) returns (consumed: nat)
      modifies this, fileUploader.fileIds
      ensures consumed == if FirstQuit(turns) < |turns| then FirstQuit(turns) + 1 else |turns|
      ensures chatActive <==> FirstQuit(turns) == |turns|
      ensures HandedAll(calls) == HandedAll(old(calls)) + TurnsHand(turns[..consumed])
    {
      chatActive := true;
      consumed := 0;
      FirstQuitIsFirst(turns);
      while chatActive && consumed < |turns|
        invariant 0 <= consumed <= |turns|
        invariant chatActive ==> consumed <= FirstQuit(turns)
        invariant !chatActive ==> FirstQuit(turns) < |turns| && consumed == FirstQuit(turns) + 1
        invariant HandedAll(calls) == HandedAll(old(calls)) + TurnsHand(turns[..consumed])
      {
        var turn := turns[consumed];
        assert !Quits(turn) ==> consumed + 1 <= FirstQuit(turns);
        assert Quits(turn) ==> consumed == FirstQuit(turns);
        ghost var made := ChatTurn(turn, host);
        TurnsHandStep(turns, consumed);
        AppendAssoc(HandedAll(old(calls)), TurnsHand(turns[..consumed]), TurnHands(turn));
        consumed := consumed + 1;
      }
    }
  }

  /** The three options every shared menu starts with, in order. */
  function CommonOptions(): seq<MenuOption> {
    BuiltInOptions()[..3]
  }

  /** The shared chat menu: tool toggle and the two upload actions, plus registered options. */
  class CommonMenuHandler {
    var options: seq<MenuOption>

    constructor()
      ensures options == CommonOptions()
    {
      options := CommonOptions();
    }

    function Choices(): seq<string>
      reads this
    {
      OptionNames(options)
    }

    method RegisterOption(option: MenuOption)
      modifies this
      ensures options == old(options) + [option]
    {
      options := options + [option];
    }

    /** Runs the chosen option's action; a choice outside the list, or a registered action, does nothing here. */
    method ShowMenu(controller: CommonController, answer: MenuAnswer, host: Host)
      modifies controller, controller.fileUploader.fileIds
      ensures controller.chatActive == old(controller.chatActive) && controller.calls == old(controller.calls)
      ensures controller.cwd == old(controller.cwd)
      ensures answer.choice < |options| && options[answer.choice].action == ToggleToolAction ==>
                controller.enabledTool == ToolFor(answer.selectedTool)
      ensures !(answer.choice < |options| && options[answer.choice].action == ToggleToolAction) ==>
                controller.enabledTool == old(controller.enabledTool)
      ensures answer.choice < |options| && options[answer.choice].action == UploadGlobAction ==>
                controller.fileUploader.fileIds.ids
                == old(controller.fileUploader.fileIds.ids) + GlobUpload(answer.pattern, controller.cwd, host)
      ensures answer.choice < |options| && options[answer.choice].action == UploadBrowseAction ==>
                controller.fileUploader.fileIds.ids == old(controller.fileUploader.fileIds.ids) + BrowseUpload(answer.picks, host)
      ensures !(answer.choice < |options| && options[answer.choice].action in {UploadGlobAction, UploadBrowseAction}) ==>
                controller.fileUploader.fileIds.ids == old(controller.fileUploader.fileIds.ids)
    {
      if answer.choice >= |options| {
        return;
      }
      match options[answer.choice].action {
        case ToggleToolAction =>
          controller.SetEnabledTool(ToolFor(answer.selectedTool));
        case UploadGlobAction =>
          if answer.pattern != "" {
            controller.fileUploader.UploadFiles(GlobPaths(answer.pattern, controller.GetCwd(), host.resolve), host);
          }
        case UploadBrowseAction =>
          var selected := BrowseSelection(answer.picks);
          if |selected| > 0 {
            controller.fileUploader.UploadFiles(UploadRequest(selected), host);
          }
        case _ =>
      }
    }
  }
}
