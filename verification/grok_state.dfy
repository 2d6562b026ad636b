/** The persisted Grok configuration and the choice of the conversation to continue. */
module GrokState {
  import opened Wrappers

  /** A saved point in time: its label (`label` in the source) and the response to continue from. */
  datatype SavedPoint = SavedPoint(labelText: string, previousResponseId: string)

  /** The configuration object; writing it to disk is not part of this model. */
  class GrokConfig {
    var grokCookie: Option<string>
    var activeConversationId: Option<string>
    var savedPoints: Option<map<string, SavedPoint>>

    constructor(grokCookie: Option<string>, activeConversationId: Option<string>, savedPoints: Option<map<string, SavedPoint>>)
      ensures this.grokCookie == grokCookie && this.activeConversationId == activeConversationId
      ensures this.savedPoints == savedPoints
    {
      this.grokCookie := grokCookie;
      this.activeConversationId := activeConversationId;
      this.savedPoints := savedPoints;
    }

    /**
     * Makes a resolved conversation the active one: only a non-empty id that differs from the
     * active one is written (and saved); reports whether it was.
     */
    method AdoptActive(conversationId: string) returns (saved: bool)
      modifies this
      ensures saved <==> conversationId != "" && old(activeConversationId) != Some(conversationId)
      ensures activeConversationId == if saved then Some(conversationId) else old(activeConversationId)
      ensures conversationId != "" ==> activeConversationId == Some(conversationId)
      ensures grokCookie == old(grokCookie) && savedPoints == old(savedPoints)
    {
      saved := conversationId != "" && activeConversationId != Some(conversationId);
      if saved {
        activeConversationId := Some(conversationId);
      }
    }
  }

  /** A flag or configured id counts only when it is a non-empty string (JavaScript truthiness on a string). */
  predicate Given(s: Option<string>) {
    s.Some? && s.value != ""
  }

  /** `flags.conversation || activeConversationId || ''`. */
  function ResolveConversationId(conversationFlag: Option<string>, active: Option<string>): (id: string)
    ensures Given(conversationFlag) ==> id == conversationFlag.value
    ensures !Given(conversationFlag) && Given(active) ==> id == active.value
    ensures !Given(conversationFlag) && !Given(active) ==> id == ""
  {
    if Given(conversationFlag) then conversationFlag.value
    else if Given(active) then active.value
    else ""
  }

  /** The page opened for a conversation: its chat page, or the site root for a new one. */
  function NavigationUrl(conversationId: string): (url: string)
    ensures conversationId != "" ==> url == "https://grok.com/chat/" + conversationId
    ensures conversationId == "" ==> url == "https://grok.com"
  {
    if conversationId != "" then "https://grok.com/chat/" + conversationId else "https://grok.com"
  }
}
