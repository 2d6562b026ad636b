/**
 * The `grok chat` command: which conversation to continue, how its streamer is set up, and how the
 * shared controller is wired to the Grok uploader.
 */
module GrokChatCommand {
  import opened Wrappers
  import opened Services
  import opened GrokStreamer
  import opened Uploads
  import opened GrokState
  import opened ChatSession
  import opened CommonSession

  const NoConfiguration := "No Grok configuration found. Run `zapai grok config` first."
  const UiTimeoutPrefix := "Timed out waiting for chat UI\n Page content after timeout: "
  const NoHistoryPrefix := "No history found for conversation "

  /**
   * `--new` yields `""` whatever the configuration; otherwise a configuration is required, and the
   * flag, then the active id, is continued and made the active one when it is new.
   */
  method InitializeConversation(newFlag: bool, conversationFlag: Option<string>, config: GrokConfig?)
    returns (result: Result<string, string>)
    modifies config
    ensures newFlag ==> result == Ok("")
    ensures !newFlag && config == null ==> result == Err(NoConfiguration)
    ensures !newFlag && config != null ==> result == Ok(ResolveConversationId(conversationFlag, old(config.activeConversationId)))
    ensures !newFlag && config != null && result.value != "" ==> config.activeConversationId == Some(result.value)
    ensures config != null && (newFlag || result.value == "") ==> config.activeConversationId == old(config.activeConversationId)
    ensures config != null ==> config.savedPoints == old(config.savedPoints) && config.grokCookie == old(config.grokCookie)
  {
    if newFlag {
      return Ok("");
    }
    if config == null {
      return Err(NoConfiguration);
    }
    var id := ResolveConversationId(conversationFlag, config.activeConversationId);
    var _ := config.AdoptActive(id);
    result := Ok(id);
  }

  /**
   * Opens the conversation's page and builds its streamer. `uiReady` is whether the input box
   * appeared in time, `pageContent` what the page held otherwise, and `history` what loading the
   * conversation returned (`Err` when it threw, which is not caught here). A known conversation must
   * have an assistant response to continue from; a new one starts without ids.
   */
  method SetupChatStreamer(conversationId: string, uiReady: bool, pageContent: string, history: Result<Option<string>, string>)
    returns (url: string, result: Result<ChatStreamer, string>)
    ensures url == NavigationUrl(conversationId)
    ensures !uiReady ==> result == Err(UiTimeoutPrefix + pageContent)
    ensures uiReady && conversationId != "" && history.Err? ==> result == Err(history.error)
    ensures uiReady && conversationId != "" && history.Ok? && history.value.GetOr("") == "" ==>
              result == Err(NoHistoryPrefix + conversationId)
    ensures result.Ok? <==> uiReady && (conversationId == "" || (history.Ok? && history.value.GetOr("") != ""))
    ensures result.Ok? ==>
              && fresh(result.value)
              && result.value.conversationId == conversationId
              && result.value.lastResponseId == (if conversationId == "" then "" else history.value.GetOr(""))
  {
    url := NavigationUrl(conversationId);
    if !uiReady {
      return url, Err(UiTimeoutPrefix + pageContent);
    }
    if conversationId != "" {
      if history.Err? {
        return url, Err(history.error);
      }
      var initialParentResponseId := history.value.GetOr("");
      if initialParentResponseId != "" {
        var streamer := new ChatStreamer(conversationId, initialParentResponseId);
        result := Ok(streamer);
      } else {
        result := Err(NoHistoryPrefix + conversationId);
      }
    } else {
      var streamer := new ChatStreamer("", "");
      result := Ok(streamer);
    }
  }

  /** The wiring as written: the uploader gets a fresh list of its own, apart from the controller's. */
  method WireController(cwd: string) returns (controller: CommonController)
    ensures fresh(controller) && fresh(controller.fileIds) && fresh(controller.fileUploader)
    ensures fresh(controller.fileUploader.fileIds) && controller.fileUploader.fileIds != controller.fileIds
    ensures controller.fileIds.ids == [] && controller.fileUploader.fileIds.ids == [] && controller.calls == []
    ensures controller.cwd == cwd && controller.menuHandler.options == CommonOptions()
  {
    var menuHandler := new CommonMenuHandler();
    var uploaded := new IdList();
    var fileUploader := new FileUploader(uploaded);
    controller := new CommonController(menuHandler, fileUploader, cwd);
  }

  /** As written, a file uploaded in this session never reaches the streamer: the chat attaches nothing. */
  method UploadThenChatAsWritten(host: Host) returns (attached: seq<string>)
    requires host.uploadId("/work/notes.txt") == "file-1"
    ensures attached == []
  {
    var c := WireController("/work");
    c.fileUploader.UploadFiles(["/work/notes.txt"], host);
    c.SendMessageAsWritten("what is in notes.txt?");
    attached := c.calls[0].fileIds;
  }

  /** Attaching what the uploader collected, the same session sends the uploaded file's id. */
  method UploadThenChat(host: Host) returns (attached: seq<string>)
    requires host.uploadId("/work/notes.txt") == "file-1"
    ensures attached == ["file-1"]
  {
    var c := WireController("/work");
    c.fileUploader.UploadFiles(["/work/notes.txt"], host);
    assert UploadedIds(["/work/notes.txt"], host.uploadId) == ["file-1"] + UploadedIds([], host.uploadId);
    c.SendMessage("what is in notes.txt?");
    attached := c.calls[0].fileIds;
  }
}
