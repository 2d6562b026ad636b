/**
 * The Grok transport: the request is issued inside the browser page, which relays the response
 * body back through console messages framed as `STREAM_CHUNK:`, `STREAM_END` and `STREAM_ERROR:`.
 * The host decodes the frames, feeds chunk payloads to an incremental JSON parser, and reduces the
 * values the parser emits into the conversation id, the last response id and the response text.
 *
 * The JSON parser is not modelled: an exchange is given as the interleaving of console messages
 * and of the values the parser emitted (`Event`).
 */
module GrokStreamer {
  import opened Wrappers
  import opened Text
  import opened Services
  import opened GrokTool
  import FileTool

  // ---------------------------------------------------------------------------------------------
  // Side-channel framing

  const ChunkPrefix := "STREAM_CHUNK:"
  const EndFrame := "STREAM_END"
  const ErrorPrefix := "STREAM_ERROR:"

  /** How the host reads one console message. */
  datatype Frame =
    | Chunk(payload: string)     // written to the parser
    | End                        // ends the parser
    | Failure(message: string)   // resolves the exchange with an empty result
    | Ignored                    // any other console output

  /** The decoder strips exactly the 13-character prefix; the four kinds are exhaustive and exclusive. */
  function Classify(text: string): (f: Frame)
    ensures f.Chunk? <==> StartsWith(text, ChunkPrefix)
    ensures f.End? <==> text == EndFrame
    ensures f.Failure? <==> StartsWith(text, ErrorPrefix)
    ensures f.Ignored? <==> !StartsWith(text, ChunkPrefix) && text != EndFrame && !StartsWith(text, ErrorPrefix)
    ensures f.Chunk? ==> text == ChunkPrefix + f.payload
    ensures f.Failure? ==> text == ErrorPrefix + f.message
  {
    if StartsWith(text, ChunkPrefix) then
      assert text == text[..13] + text[13..];
      Chunk(text[13..])
    else if text == EndFrame then End
    else if StartsWith(text, ErrorPrefix) then
      assert text == text[..13] + text[13..];
      Failure(text[13..])
    else Ignored
  }

  /** What the in-page code logs for one decoded chunk of the response body. */
  function EncodeChunk(chunk: string): string {
    ChunkPrefix + chunk
  }

  /** The parser receives exactly the chunk the page relayed. */
  lemma ChunkRoundTrip(chunk: string)
    ensures Classify(EncodeChunk(chunk)) == Chunk(chunk)
  {
    assert EncodeChunk(chunk)[..13] == ChunkPrefix;
  }

  /**
   * The in-page relay: with no response body it logs one error frame; otherwise it logs one chunk
   * frame per decoded chunk, in order, and the end frame when the reader is done.
   */
  method RelayInPage(body: Option<seq<string>>) returns (logged: seq<string>)
    ensures body.None? ==> logged == [ErrorPrefix + " No response body"]
    ensures body.Some? ==> |logged| == |body.value| + 1 && logged[|body.value|] == EndFrame
    ensures body.Some? ==> forall k :: 0 <= k < |body.value| ==> logged[k] == EncodeChunk(body.value[k])
  {
    if body.None? {
      return [ErrorPrefix + " No response body"];
    }
    var chunks := body.value;
    logged := [];
    var i := 0;
    while i < |chunks|
      invariant 0 <= i <= |chunks|
      invariant |logged| == i
      invariant forall k :: 0 <= k < i ==> logged[k] == EncodeChunk(chunks[k])
    {
      logged := logged + [EncodeChunk(chunks[i])];
      i := i + 1;
    }
    logged := logged + [EndFrame];
  }

  /** What the host does with a console message, as seen by the parser. */
  datatype ParserCall = WriteParser(payload: string) | EndParser | ResolveEmpty

  function Decode(lines: seq<string>): seq<ParserCall> {
    if lines == [] then []
    else
      var rest := Decode(lines[1..]);
      match Classify(lines[0])
      case Chunk(p) => [WriteParser(p)] + rest
      case End => [EndParser] + rest
      case Failure(_) => [ResolveEmpty] + rest
      case Ignored => rest
  }

  function Writes(chunks: seq<string>): seq<ParserCall> {
    if chunks == [] then [] else [WriteParser(chunks[0])] + Writes(chunks[1..])
  }

  /** Round trip through the side channel: every relayed chunk reaches the parser unchanged, then the end. */
  lemma {:induction false} RelayRoundTrip(chunks: seq<string>, logged: seq<string>)
    requires |logged| == |chunks| + 1 && logged[|chunks|] == EndFrame
    requires forall k :: 0 <= k < |chunks| ==> logged[k] == EncodeChunk(chunks[k])
    ensures Decode(logged) == Writes(chunks) + [EndParser]
  {
    if chunks == [] {
      assert logged == [EndFrame];
      assert Decode(logged[1..]) == [];
    } else {
      ChunkRoundTrip(chunks[0]);
      RelayRoundTrip(chunks[1..], logged[1..]);
    }
  }

  // ---------------------------------------------------------------------------------------------
  // The values the parser emits, and the data handler

  /** A `token` field seen through JavaScript truthiness: a non-empty string, a truthy non-string, or neither. */
  datatype TokenField = Missing | Str(s: string) | NonString

  predicate TruthyToken(f: TokenField) {
    f.NonString? || (f.Str? && f.s != "")
  }

  /**
   * A value emitted by the parser at `$.result` or `$.error`: whether it has `code` and `message`
   * keys, its `conversation.conversationId` (`""` when absent or falsy), `token`, `response.token`,
   * `modelResponse` and `response.modelResponse`.
   */
  datatype GrokValue = GrokValue(
    hasCode: bool,
    hasMessage: bool,
    conversationId: string,
    token: TokenField,
    responseToken: TokenField,
    modelResponse: Option<ModelResponse>,
    responseModelResponse: Option<ModelResponse>)

  /** An explicit provider error object. */
  predicate IsErrorValue(v: GrokValue) {
    v.hasCode && v.hasMessage
  }

  /** The token appended to the response: `token`, else `response.token`, and only a non-empty string. */
  function AppendedToken(v: GrokValue): (t: Option<string>)
    ensures t.Some? ==> t.value != ""
    ensures TruthyToken(v.token) ==> t == (if v.token.Str? then Some(v.token.s) else None)
    ensures !TruthyToken(v.token) && v.responseToken.Str? && v.responseToken.s != "" ==> t == Some(v.responseToken.s)
    // no token is appended otherwise: a truthy non-string `token` hides `response.token`
    ensures t.Some? <==>
              || (TruthyToken(v.token) && v.token.Str?)
              || (!TruthyToken(v.token) && v.responseToken.Str? && v.responseToken.s != "")
  {
    var token := if TruthyToken(v.token) then v.token else v.responseToken;
    if token.Str? && token.s != "" then Some(token.s) else None
  }

  /** `modelResponse`, else `response.modelResponse`. */
  function ModelResponseOf(v: GrokValue): Option<ModelResponse> {
    if v.modelResponse.Some? then v.modelResponse else v.responseModelResponse
  }

  /** The streamer's fields and the exchange's locals that the data handler updates. */
  datatype StreamState = StreamState(
    conversationId: string,
    lastResponseId: string,
    fullResponse: string,
    modelResponse: Option<ModelResponse>)

  /** The data handler applied to one value that is not an error object. */
  function Step(s: StreamState, v: GrokValue): (t: StreamState)
    requires !IsErrorValue(v)
    // the conversation id is captured only while empty: first writer wins
    ensures s.conversationId != "" ==> t.conversationId == s.conversationId
    ensures s.conversationId == "" ==> t.conversationId == v.conversationId
    // a token is appended and nothing else changes
    ensures AppendedToken(v).Some? ==>
              t == s.(conversationId := t.conversationId, fullResponse := s.fullResponse + AppendedToken(v).value)
    // the model response, when the value carries no token, replaces the text and the response id
    ensures AppendedToken(v).None? && ModelResponseOf(v).Some? ==>
              var mr := ModelResponseOf(v).value;
              t.lastResponseId == mr.responseId && t.fullResponse == mr.message && t.modelResponse == Some(mr)
    ensures AppendedToken(v).None? && ModelResponseOf(v).None? ==> t == s.(conversationId := t.conversationId)
  {
    var conversationId := if s.conversationId == "" && v.conversationId != "" then v.conversationId else s.conversationId;
    match AppendedToken(v)
    case Some(token) => s.(conversationId := conversationId, fullResponse := s.fullResponse + token)
    case None =>
      match ModelResponseOf(v)
      case Some(mr) =>
        StreamState(conversationId, mr.responseId, mr.message, Some(mr))
      case None => s.(conversationId := conversationId)
  }

  /** A console message, or a value the parser emitted. */
  datatype Event = Console(text: string) | Data(value: GrokValue)

  /** How the exchange's promise settled. */
  datatype Outcome =
    | Ended                       // the parser ended after `STREAM_END`: resolves with the response text
    | StreamError(message: string) // a `STREAM_ERROR:` frame: resolves with ""
    | ValueError                  // an error object from the parser: resolves with ""
    | TimedOut                    // nothing settled the exchange: the 30-minute timer does

  datatype RunResult = RunResult(state: StreamState, outcome: Outcome, written: seq<string>)

  /** The exchange as a value: events are handled in order until the first one that settles it. */
  function Run(s: StreamState, events: seq<Event>): RunResult
    decreases |events|
  {
    if events == [] then RunResult(s, TimedOut, [])
    else
      match events[0]
      case Console(text) =>
        (match Classify(text)
         case Chunk(p) =>
           var r := Run(s, events[1..]);
           r.(written := [p] + r.written)
         case End => RunResult(s, Ended, [])
         case Failure(m) => RunResult(s, StreamError(m), [])
         case Ignored => Run(s, events[1..]))
      case Data(v) =>
        if IsErrorValue(v) then RunResult(s, ValueError, [])
        else Run(Step(s, v), events[1..])
  }

  /** How the run from event `i` follows from the event there and the run after it. */
  lemma RunStep(s: StreamState, events: seq<Event>, i: nat)
    requires i < |events|
    ensures var e := events[i];
            var tail := events[i + 1..];
            && (e.Console? && Classify(e.text).Chunk? ==>
                  Run(s, events[i..]) == Run(s, tail).(written := [Classify(e.text).payload] + Run(s, tail).written))
            && (e.Console? && Classify(e.text).Ignored? ==> Run(s, events[i..]) == Run(s, tail))
            && (e.Console? && Classify(e.text).End? ==> Run(s, events[i..]) == RunResult(s, Ended, []))
            && (e.Console? && Classify(e.text).Failure? ==>
                  Run(s, events[i..]) == RunResult(s, StreamError(Classify(e.text).message), []))
            && (e.Data? && IsErrorValue(e.value) ==> Run(s, events[i..]) == RunResult(s, ValueError, []))
            && (e.Data? && !IsErrorValue(e.value) ==> Run(s, events[i..]) == Run(Step(s, e.value), tail))
  {
    assert events[i..][0] == events[i] && events[i..][1..] == events[i + 1..];
  }

  /** Once set, the conversation id never changes within an exchange. */
  lemma {:induction false} RunKeepsConversationId(s: StreamState, events: seq<Event>)
    decreases |events|
    requires s.conversationId != ""
    ensures Run(s, events).state.conversationId == s.conversationId
  {
    if events != [] {
      match events[0]
      case Console(_) => RunKeepsConversationId(s, events[1..]);
      case Data(v) =>
        if !IsErrorValue(v) {
          RunKeepsConversationId(Step(s, v), events[1..]);
        }
    }
  }

  /** Values without a model response leave the last response id and the model response alone. */
  predicate NoModelResponse(events: seq<Event>) {
    forall k :: 0 <= k < |events| && events[k].Data? ==> ModelResponseOf(events[k].value).None?
  }

  lemma {:induction false} RunWithoutModelResponse(s: StreamState, events: seq<Event>)
    decreases |events|
    requires NoModelResponse(events)
    ensures Run(s, events).state.lastResponseId == s.lastResponseId
    ensures Run(s, events).state.modelResponse == s.modelResponse
  {
    if events != [] {
      assert NoModelResponse(events[1..]) by {
        forall k | 0 <= k < |events[1..]| && events[1..][k].Data?
          ensures ModelResponseOf(events[1..][k].value).None?
        {
          assert events[1..][k] == events[k + 1];
        }
      }
      match events[0]
      case Console(_) => RunWithoutModelResponse(s, events[1..]);
      case Data(v) =>
        if !IsErrorValue(v) {
          RunWithoutModelResponse(Step(s, v), events[1..]);
        }
    }
  }

  /** The last response id always names the model response seen, when there is one. */
  predicate Consistent(s: StreamState) {
    s.modelResponse.Some? ==> s.lastResponseId == s.modelResponse.value.responseId
  }

  lemma {:induction false} RunKeepsConsistent(s: StreamState, events: seq<Event>)
    decreases |events|
    requires Consistent(s)
    ensures Consistent(Run(s, events).state)
  {
    if events != [] {
      match events[0]
      case Console(_) => RunKeepsConsistent(s, events[1..]);
      case Data(v) =>
        if !IsErrorValue(v) {
          RunKeepsConsistent(Step(s, v), events[1..]);
        }
    }
  }

  function TokenEvents(tokens: seq<string>): seq<Event> {
    if tokens == [] then []
    else [Data(GrokValue(false, false, "", Str(tokens[0]), Missing, None, None))] + TokenEvents(tokens[1..])
  }

  /** Tokens are appended in arrival order, and nothing settles the exchange. */
  lemma {:induction false} RunAppendsTokens(s: StreamState, tokens: seq<string>)
    decreases |tokens|
    requires forall k :: 0 <= k < |tokens| ==> tokens[k] != ""
    ensures Run(s, TokenEvents(tokens)) == RunResult(s.(fullResponse := s.fullResponse + Concat(tokens)), TimedOut, [])
  {
    if tokens == [] {
      assert s.fullResponse + "" == s.fullResponse;
    } else {
      var v := GrokValue(false, false, "", Str(tokens[0]), Missing, None, None);
      var events := TokenEvents(tokens);
      assert events[0] == Data(v) && events[1..] == TokenEvents(tokens[1..]);
      assert AppendedToken(v) == Some(tokens[0]);
      var t := Step(s, v);
      assert t == s.(fullResponse := s.fullResponse + tokens[0]);
      RunStep(s, events, 0);
      assert events[0..] == events;
      assert forall k :: 0 <= k < |tokens[1..]| ==> tokens[1..][k] == tokens[k + 1];
      RunAppendsTokens(t, tokens[1..]);
      assert Concat(tokens) == tokens[0] + Concat(tokens[1..]);
      assert t.fullResponse + Concat(tokens[1..]) == s.fullResponse + Concat(tokens);
    }
  }

  function ChunkEvents(chunks: seq<string>): seq<Event> {
    if chunks == [] then [] else [Console(EncodeChunk(chunks[0]))] + ChunkEvents(chunks[1..])
  }

  /** A relayed body reaches the parser chunk by chunk, and the end frame settles the exchange. */
  lemma {:induction false} RunWritesRelayedChunks(s: StreamState, chunks: seq<string>)
    ensures Run(s, ChunkEvents(chunks) + [Console(EndFrame)]) == RunResult(s, Ended, chunks)
  {
    if chunks == [] {
      assert ChunkEvents(chunks) + [Console(EndFrame)] == [Console(EndFrame)];
    } else {
      var events := ChunkEvents(chunks) + [Console(EndFrame)];
      ChunkRoundTrip(chunks[0]);
      assert events[0] == Console(EncodeChunk(chunks[0]));
      assert events[1..] == ChunkEvents(chunks[1..]) + [Console(EndFrame)];
      RunStep(s, events, 0);
      assert events[0..] == events;
      RunWritesRelayedChunks(s, chunks[1..]);
      assert [chunks[0]] + chunks[1..] == chunks;
    }
  }

  // ---------------------------------------------------------------------------------------------
  // Request construction

  const ApiBase := "https://grok.com/rest/app-chat/conversations/"
  const MaxAttachments := 10

  /** The request body of one exchange. */
  datatype GrokRequest = GrokRequest(
    temporary: bool,
    modelName: string,
    message: string,
    fileAttachments: seq<string>,
    imageAttachments: seq<string>,
    disableSearch: bool,
    enableImageGeneration: bool,
    returnImageBytes: bool,
    enableImageStreaming: bool,
    imageGenerationCount: nat,
    forceConcise: bool,
    enableSideBySide: bool,
    sendFinalMetadata: bool,
    isReasoning: bool,
    webpageUrls: seq<string>,
    disableTextFollowUps: bool,
    parentResponseId: string)

  /** The payload carries the prompt, at most the first ten file ids in order, and the parent response id. */
  function BuildRequest(prompt: string, fileIds: seq<string>, parentResponseId: string): (r: GrokRequest)
    ensures r.message == prompt && r.parentResponseId == parentResponseId && r.modelName == "grok-3"
    ensures |r.fileAttachments| <= MaxAttachments && |r.fileAttachments| <= |fileIds| && r.fileAttachments == fileIds[..|r.fileAttachments|]
    ensures |fileIds| <= MaxAttachments ==> r.fileAttachments == fileIds
    ensures |fileIds| > MaxAttachments ==> |r.fileAttachments| == MaxAttachments
  {
    var n := if |fileIds| < MaxAttachments then |fileIds| else MaxAttachments;
    GrokRequest(false, "grok-3", prompt, fileIds[..n], [], false, true, false, true, 2, false, true, true, false, [], true,
                parentResponseId)
  }

  /** A known conversation is continued; an empty id asks for a new one. */
  function Endpoint(conversationId: string): (url: string)
    ensures StartsWith(url, ApiBase)
    ensures conversationId == "" ==> url[|ApiBase|..] == "new"
    ensures conversationId != "" ==> url[|ApiBase|..] == conversationId + "/responses"
  {
    if conversationId != "" then ApiBase + conversationId + "/responses" else ApiBase + "new"
  }

  // ---------------------------------------------------------------------------------------------
  // The streamer

  /** What happened after the stream settled: the tool's postprocess step, if a tool is active. */
  datatype ToolRun = NoTool | Postprocessed(report: FileTool.Report) | MissingModelResponse

  datatype ExchangeReport = ExchangeReport(
    endpoint: string,
    request: GrokRequest,
    written: seq<string>,
    outcome: Outcome,
    fullResponse: string,
    modelResponse: Option<ModelResponse>,
    listenerReleased: bool,
    toolRun: ToolRun)

  class ChatStreamer {
    var lastResponseId: string
    var conversationId: string

    constructor(conversationId: string, initialParentResponseId: string)
      ensures this.conversationId == conversationId && lastResponseId == initialParentResponseId
    {
      this.conversationId := conversationId;
      lastResponseId := initialParentResponseId;
    }

    function GetLastResponseId(): string
      reads this
    {
      lastResponseId
    }

    function GetConversationId(): string
      reads this
    {
      conversationId
    }

    function State(fullResponse: string, modelResponse: Option<ModelResponse>): StreamState
      reads this
    {
      StreamState(conversationId, lastResponseId, fullResponse, modelResponse)
    }

    /** The parser's data handler: updates the fields in place and returns the exchange's locals. */
    method HandleValue(v: GrokValue, fullResponse: string, modelResponse: Option<ModelResponse>)
      returns (fullResponse': string, modelResponse': Option<ModelResponse>)
      requires !IsErrorValue(v)
      modifies this
      ensures State(fullResponse', modelResponse') == Step(old(State(fullResponse, modelResponse)), v)
    {
      if conversationId == "" && v.conversationId != "" {
        conversationId := v.conversationId;
      }
      fullResponse', modelResponse' := fullResponse, modelResponse;
      var token := AppendedToken(v);
      if token.Some? {
        fullResponse' := fullResponse + token.value;
      } else {
        var mr := ModelResponseOf(v);
        if mr.Some? {
          fullResponse' := mr.value.message;
          lastResponseId := mr.value.responseId;
          modelResponse' := mr;
        }
      }
    }

    /**
     * One exchange: build the request from the current state, handle the events until the first one
     * that settles the exchange, then run the active tool's postprocess step on the model response.
     */
    method StreamChat(userInput: string, fileIds: seq<string>, tool: Option<Tool>, events: seq<Event>, cwd: string, host: Host)
      returns (report: ExchangeReport)
      modifies this
      ensures report.request == BuildRequest(FileTool.ProcessedPrompt(userInput, tool), fileIds, old(lastResponseId))
      ensures report.endpoint == Endpoint(old(conversationId))
      ensures var r := Run(StreamState(old(conversationId), old(lastResponseId), "", None), events);
              && conversationId == r.state.conversationId
              && lastResponseId == r.state.lastResponseId
              && report.fullResponse == r.state.fullResponse
              && report.modelResponse == r.state.modelResponse
              && report.outcome == r.outcome
              && report.written == r.written
      ensures report.listenerReleased <==> report.outcome.Ended?
      ensures tool.None? ==> report.toolRun == NoTool
      ensures tool.Some? && report.modelResponse.None? ==> report.toolRun == MissingModelResponse
      ensures tool.Some? && report.modelResponse.Some? ==>
                report.toolRun == Postprocessed(FileTool.PostprocessSpec(report.modelResponse.value.message, cwd, host))
    {
      var prompt := FileTool.ProcessedPrompt(userInput, tool);
      var request := BuildRequest(prompt, fileIds, lastResponseId);
      var endpoint := Endpoint(conversationId);
      ghost var init := State("", None);
      var fullResponse := "";
      var modelResponse: Option<ModelResponse> := None;
      var written: seq<string> := [];
      var outcome := TimedOut;
      var settled := false;
      var i := 0;
      while i < |events| && !settled
        invariant 0 <= i <= |events|
        invariant !settled ==>
          var r := Run(State(fullResponse, modelResponse), events[i..]);
          Run(init, events) == RunResult(r.state, r.outcome, written + r.written)
        invariant settled ==> Run(init, events) == RunResult(State(fullResponse, modelResponse), outcome, written)
        invariant !settled ==> outcome == TimedOut
      {
        RunStep(State(fullResponse, modelResponse), events, i);
        match events[i] {
          case Console(text) =>
            match Classify(text) {
              case Chunk(p) =>
                ghost var rest := Run(State(fullResponse, modelResponse), events[i + 1..]).written;
                AppendAssoc(written, [p], rest);
                written := written + [p];
              case End =>
                outcome, settled := Ended, true;
              case Failure(m) =>
                outcome, settled := StreamError(m), true;
              case Ignored =>
            }
          case Data(v) =>
            if IsErrorValue(v) {
              outcome, settled := ValueError, true;
            } else {
              fullResponse, modelResponse := HandleValue(v, fullResponse, modelResponse);
            }
        }
        i := i + 1;
      }
      if !settled {
        assert events[i..] == [];
        assert written + [] == written;
      }
      var toolRun := NoTool;
      if tool.Some? {
        if modelResponse.Some? {
          match tool.value {
            case File =>
              var post := FileTool.PostprocessResponse(modelResponse.value, cwd, host);
              toolRun := Postprocessed(post);
          }
        } else {
          toolRun := MissingModelResponse;
        }
      }
      report := ExchangeReport(endpoint, request, written, outcome, fullResponse, modelResponse, outcome.Ended?, toolRun);
    }
  }
}
