/** Choosing the parent response when an existing Grok conversation is resumed. */
module ConversationManager {
  import opened Wrappers
  import opened Text

  const Assistant := "ASSISTANT"

  /** One entry of the history's `responseNodes`. */
  datatype ResponseNode = ResponseNode(responseId: string, sender: string)

  const ConversationsUrl := "https://grok.com/rest/app-chat/conversations/"
  const ResponseNodeSuffix := "/response-node"

  /** The history endpoint of a conversation: the id sits between the collection and `/response-node`. */
  function HistoryUrl(conversationId: string): (url: string)
    ensures StartsWith(url, ConversationsUrl)
    ensures |url| == |ConversationsUrl| + |conversationId| + |ResponseNodeSuffix|
    ensures url[|ConversationsUrl|..|ConversationsUrl| + |conversationId|] == conversationId
    ensures url[|ConversationsUrl| + |conversationId|..] == ResponseNodeSuffix
  {
    ConversationsUrl + conversationId + ResponseNodeSuffix
  }

  /** `responseNodes.filter(node => node.sender === 'ASSISTANT')`. */
  function AssistantNodes(nodes: seq<ResponseNode>): (r: seq<ResponseNode>)
    ensures forall n :: n in r <==> n in nodes && n.sender == Assistant
  {
    if nodes == [] then []
    else
      assert forall n :: n in nodes <==> n == nodes[0] || n in nodes[1..];
      (if nodes[0].sender == Assistant then [nodes[0]] else []) + AssistantNodes(nodes[1..])
  }

  lemma {:induction false} AssistantNodesAppend(a: seq<ResponseNode>, b: seq<ResponseNode>)
    ensures AssistantNodes(a + b) == AssistantNodes(a) + AssistantNodes(b)
  {
    if a == [] {
      assert a + b == b;
    } else {
      assert (a + b)[1..] == a[1..] + b;
      AssistantNodesAppend(a[1..], b);
    }
  }

  /** `loadConversationHistory`: the response id of the last assistant node, if there is one. */
  function LoadConversationHistory(responseNodes: Option<seq<ResponseNode>>): (parent: Option<string>)
    ensures parent.None? <==> responseNodes.None? || forall n :: n in responseNodes.value ==> n.sender != Assistant
  {
    if responseNodes.Some? && |responseNodes.value| > 0 then
      var assistantResponses := AssistantNodes(responseNodes.value);
      if |assistantResponses| > 0 then
        assert assistantResponses[|assistantResponses| - 1] in assistantResponses;
        Some(assistantResponses[|assistantResponses| - 1].responseId)
      else None
    else None
  }

  /** A reference definition: the position of the last assistant node, scanning from the end. */
  function LastAssistantIndex(nodes: seq<ResponseNode>): (i: Option<nat>)
    ensures i.Some? ==> i.value < |nodes| && nodes[i.value].sender == Assistant
    ensures i.Some? ==> forall j :: i.value < j < |nodes| ==> nodes[j].sender != Assistant
    ensures i.None? ==> forall j :: 0 <= j < |nodes| ==> nodes[j].sender != Assistant
  {
    if nodes == [] then None
    else if nodes[|nodes| - 1].sender == Assistant then Some(|nodes| - 1)
    else LastAssistantIndex(nodes[..|nodes| - 1])
  }

  /** The chosen parent is the response id of the last assistant node in list order. */
  lemma {:induction false} LoadPicksLastAssistant(nodes: seq<ResponseNode>)
    ensures LastAssistantIndex(nodes).None? ==> LoadConversationHistory(Some(nodes)).None?
    ensures LastAssistantIndex(nodes).Some? ==>
              LoadConversationHistory(Some(nodes)) == Some(nodes[LastAssistantIndex(nodes).value].responseId)
  {
    if nodes != [] {
      var init := nodes[..|nodes| - 1];
      var last := nodes[|nodes| - 1];
      assert nodes == init + [last];
      AssistantNodesAppend(init, [last]);
      assert AssistantNodes([last]) == (if last.sender == Assistant then [last] else []) + AssistantNodes([]);
      if last.sender != Assistant {
        LoadPicksLastAssistant(init);
        assert AssistantNodes(nodes) == AssistantNodes(init) + [];
      }
    }
  }

  /** A node that is not from the assistant never influences the result, wherever it appears. */
  lemma NonAssistantIgnored(before: seq<ResponseNode>, node: ResponseNode, after: seq<ResponseNode>)
    requires node.sender != Assistant
    ensures LoadConversationHistory(Some(before + [node] + after)) == LoadConversationHistory(Some(before + after))
  {
    AssistantNodesAppend(before + [node], after);
    AssistantNodesAppend(before, [node]);
    AssistantNodesAppend(before, after);
    assert AssistantNodes([node]) == [] + AssistantNodes([]);
    assert AssistantNodes(before) + [] == AssistantNodes(before);
  }
}
