/**
 * The Open WebUI transport: an OpenAI-style chat-completions request carrying the whole message
 * history, answered by a stream of `data: ` lines (a reduced form of the Server-Sent Events
 * convention of the WHATWG HTML Living Standard, section 9.2) that ends with `data: [DONE]`.
 */
module WebUiStreamer {
  import opened Wrappers
  import opened Text
  import opened Json
  import opened Services
  import opened GrokTool
  import FileTool

  datatype Message = Message(role: string, content: string)

  /** One entry of the request's `files` list: `{type: 'file', id}`. */
  datatype FileRef = FileRef(kind: string, id: string)

  datatype WebUiOptions = WebUiOptions(serverUrl: string, apiKey: string, model: string)

  // ---------------------------------------------------------------------------------------------
  // Errors

  const UnknownErrorFormat := "Failed to fetch response: Unknown error format"
  const NoResponseBody := "No response body"

  /** `isChatErrorResponse`: an object whose truthy `error` has a string `message`. */
  function IsChatErrorResponse(obj: JsValue): (r: bool)
    ensures r <==>
      && obj.Some? && obj.value.JObj? && "error" in obj.value.fields
      && obj.value.fields["error"].JObj? && "message" in obj.value.fields["error"].fields
      && obj.value.fields["error"].fields["message"].JStr?
  {
    var error := Prop(obj, "error");
    var message := Prop(error, "message");
    Truthy(obj) && obj.value.JObj? && "error" in obj.value.fields && Truthy(error) && message.Some? && message.value.JStr?
  }

  /** The message thrown for a non-ok response whose body is JSON. */
  function NonOkMessage(errorJson: Json): (m: string)
    ensures m != ""
    ensures IsChatErrorResponse(Some(errorJson)) && errorJson.fields["error"].fields["message"].s != "" ==>
              m == errorJson.fields["error"].fields["message"].s
    ensures !IsChatErrorResponse(Some(errorJson)) ==> m == UnknownErrorFormat
    ensures IsChatErrorResponse(Some(errorJson)) && errorJson.fields["error"].fields["message"].s == "" ==> m == UnknownErrorFormat
  {
    if IsChatErrorResponse(Some(errorJson)) && Truthy(Prop(Prop(Some(errorJson), "error"), "message")) then
      errorJson.fields["error"].fields["message"].s
    else UnknownErrorFormat
  }

  // ---------------------------------------------------------------------------------------------
  // Line decoding

  const DataPrefix := "data: "
  const DoneSentinel := "[DONE]"

  /** Whether `line.trim()` is falsy. */
  predicate Blank(line: string) {
    Trim(line) == ""
  }

  /** The lines of a chunk that are not blank, in order. */
  function NonBlank(parts: seq<string>): (lines: seq<string>)
    ensures |lines| <= |parts|
    ensures forall l :: l in lines <==> l in parts && !Blank(l)
    ensures (forall l :: l in parts ==> !Blank(l)) ==> lines == parts
  {
    if parts == [] then []
    else
      var rest := NonBlank(parts[1..]);
      assert forall l :: l in parts <==> l == parts[0] || l in parts[1..];
      if !Blank(parts[0]) then [parts[0]] + rest else rest
  }

  /** Filtering keeps line order: the kept lines of a concatenation are those of each part, in turn. */
  lemma {:induction false} NonBlankAppend(a: seq<string>, b: seq<string>)
    ensures NonBlank(a + b) == NonBlank(a) + NonBlank(b)
  {
    if a == [] {
      assert a + b == b;
    } else {
      assert (a + b)[1..] == a[1..] + b;
      NonBlankAppend(a[1..], b);
    }
  }

  /** `text.split('\n').filter(line => line.trim())`. */
  function DataLines(text: string): (lines: seq<string>)
    ensures forall l :: l in lines ==> '\n' !in l && !Blank(l)
  {
    NonBlank(Split(text, '\n'))
  }

  /** `parsed.choices[0]?.delta?.content`; `None` when reading it throws. */
  function ContentOf(parsed: Json): Option<JsValue> {
    if parsed.JNull? then None
    else
      var choices := Prop(Some(parsed), "choices");
      if Nullish(choices) then None
      else Some(Prop(Prop(First(choices), "delta"), "content"))
  }

  /** What one line does to the response text. */
  datatype LineEffect =
    | NotData           // not a `data: ` line
    | Done              // the `[DONE]` sentinel: the rest of the chunk is dropped
    | ParseError        // the payload did not parse, or reading the content threw: logged
    | NoToken           // no truthy string content
    | Token(text: string)

  function LineEffectOf(line: string, host: Host): (e: LineEffect)
    ensures e.NotData? <==> !StartsWith(line, DataPrefix)
    ensures e.Done? <==> line == DataPrefix + DoneSentinel
    ensures e.Token? ==> e.text != "" && host.parseJson(line[|DataPrefix|..]).Some?
  {
    if !StartsWith(line, DataPrefix) then NotData
    else
      var data := line[6..];
      assert line == DataPrefix + data by { assert line[..6] == DataPrefix; }
      if data == DoneSentinel then Done
      else
        match host.parseJson(data)
        case None => ParseError
        case Some(parsed) =>
          match ContentOf(parsed)
          case None => ParseError
          case Some(content) =>
            if content.Some? && content.value.JStr? && content.value.s != "" then Token(content.value.s) else NoToken
  }

  /**
   * A line yields a token exactly when it is a `data: ` line other than the sentinel whose payload
   * parses and carries a truthy string `choices[0].delta.content`; the token's text is that string.
   */
  lemma TokenLine(line: string, host: Host)
    ensures LineEffectOf(line, host).Token? <==>
              && StartsWith(line, DataPrefix) && line != DataPrefix + DoneSentinel
              && var parsed := host.parseJson(line[|DataPrefix|..]);
                 && parsed.Some?
                 && var content := ContentOf(parsed.value);
                    content.Some? && content.value.Some? && content.value.value.JStr? && content.value.value.s != ""
    ensures LineEffectOf(line, host).Token? ==> Some(Some(JStr(LineEffectOf(line, host).text))) == ContentOf(host.parseJson(line[|DataPrefix|..]).value)
  {
    if StartsWith(line, DataPrefix) {
      assert line == DataPrefix + line[|DataPrefix|..] by { assert line[..|DataPrefix|] == DataPrefix; }
    }
  }

  /** A `data: ` line whose payload is `{choices: [{delta: {content: text}}]}` appends `text`. */
  lemma ContentLineAppends(payload: string, text: string, host: Host)
    requires payload != DoneSentinel && text != ""
    requires host.parseJson(payload) ==
               Some(JObj(map["choices" := JArr([JObj(map["delta" := JObj(map["content" := JStr(text)])])])]))
    ensures LineEffectOf(DataPrefix + payload, host) == Token(text)
  {
    assert (DataPrefix + payload)[|DataPrefix|..] == payload;
  }

  /** The tokens a run of lines appends, up to a `[DONE]`. */
  function ChunkTokens(lines: seq<string>, host: Host): (tokens: seq<string>)
    ensures forall k :: 0 <= k < |tokens| ==> tokens[k] != ""
  {
    if lines == [] then []
    else
      match LineEffectOf(lines[0], host)
      case Done => []
      case Token(t) => [t] + ChunkTokens(lines[1..], host)
      case _ => ChunkTokens(lines[1..], host)
  }

  predicate NoDone(lines: seq<string>) {
    forall k :: 0 <= k < |lines| ==> lines[k] != DataPrefix + DoneSentinel
  }

  /** Before any `[DONE]`, lines contribute independently of each other. */
  lemma {:induction false} ChunkTokensAppend(a: seq<string>, b: seq<string>, host: Host)
    requires NoDone(a)
    ensures ChunkTokens(a + b, host) == ChunkTokens(a, host) + ChunkTokens(b, host)
  {
    if a == [] {
      assert a + b == b;
    } else {
      assert (a + b)[0] == a[0];
      assert (a + b)[1..] == a[1..] + b;
      assert NoDone(a[1..]) by {
        forall k | 0 <= k < |a[1..]| ensures a[1..][k] != DataPrefix + DoneSentinel {
          assert a[1..][k] == a[k + 1];
        }
      }
      ChunkTokensAppend(a[1..], b, host);
    }
  }

  /** `[DONE]` drops every later line of its chunk. */
  lemma DoneStopsChunk(before: seq<string>, after: seq<string>, host: Host)
    requires NoDone(before)
    ensures ChunkTokens(before + [DataPrefix + DoneSentinel] + after, host) == ChunkTokens(before, host)
  {
    assert before + [DataPrefix + DoneSentinel] + after == before + ([DataPrefix + DoneSentinel] + after);
    ChunkTokensAppend(before, [DataPrefix + DoneSentinel] + after, host);
    assert ChunkTokens([DataPrefix + DoneSentinel] + after, host) == [];
  }

  /** A line that fails to parse contributes nothing, and the lines around it are unaffected. */
  lemma ParseErrorSkipped(before: seq<string>, line: string, after: seq<string>, host: Host)
    requires NoDone(before)
    requires LineEffectOf(line, host).ParseError?
    ensures ChunkTokens(before + [line] + after, host) == ChunkTokens(before, host) + ChunkTokens(after, host)
  {
    assert before + [line] + after == before + ([line] + after);
    ChunkTokensAppend(before, [line] + after, host);
    assert ([line] + after)[1..] == after;
  }

  /** The text of a chunk's remaining lines, after looking at the first of them. */
  lemma ChunkTextStep(lines: seq<string>, i: nat, host: Host)
    requires i < |lines|
    ensures LineEffectOf(lines[i], host).Done? ==> Concat(ChunkTokens(lines[i..], host)) == ""
    ensures LineEffectOf(lines[i], host).Token? ==>
              Concat(ChunkTokens(lines[i..], host)) == LineEffectOf(lines[i], host).text + Concat(ChunkTokens(lines[i + 1..], host))
    ensures !LineEffectOf(lines[i], host).Done? && !LineEffectOf(lines[i], host).Token? ==>
              Concat(ChunkTokens(lines[i..], host)) == Concat(ChunkTokens(lines[i + 1..], host))
  {
    assert lines[i..][1..] == lines[i + 1..];
    assert lines[i..][0] == lines[i];
    var rest := ChunkTokens(lines[i + 1..], host);
    if LineEffectOf(lines[i], host).Token? {
      var t := LineEffectOf(lines[i], host).text;
      assert ChunkTokens(lines[i..], host) == [t] + rest;
      assert ([t] + rest)[1..] == rest;
    }
  }

  /** The chunk writer: returns the response text with this chunk's tokens appended. */
  method WriteChunk(text: string, fullResponse: string, host: Host) returns (fullResponse': string)
    ensures fullResponse' == fullResponse + Concat(ChunkTokens(DataLines(text), host))
  {
    var lines := DataLines(text);
    fullResponse' := fullResponse;
    for i := 0 to |lines|
      invariant fullResponse + Concat(ChunkTokens(lines, host))
             == fullResponse' + Concat(ChunkTokens(lines[i..], host))
    {
      ghost var rest := Concat(ChunkTokens(lines[i + 1..], host));
      ChunkTextStep(lines, i, host);
      match LineEffectOf(lines[i], host) {
        case Done =>
          assert fullResponse' + "" == fullResponse';
          return;
        case Token(t) =>
          AppendAssoc(fullResponse', t, rest);
          fullResponse' := fullResponse' + t;
        case _ =>
      }
    }
    assert lines[|lines|..] == [];
    assert fullResponse' + "" == fullResponse';
  }

  /** The response text of a whole stream: each chunk is decoded on its own. */
  function StreamText(chunks: seq<string>, host: Host): string {
    if chunks == [] then "" else Concat(ChunkTokens(DataLines(chunks[0]), host)) + StreamText(chunks[1..], host)
  }

  /** A `[DONE]` ends only its chunk: the text of a stream is the text of its parts. */
  lemma {:induction false} StreamTextAppend(a: seq<string>, b: seq<string>, host: Host)
    ensures StreamText(a + b, host) == StreamText(a, host) + StreamText(b, host)
  {
    if a == [] {
      assert a + b == b;
    } else {
      assert (a + b)[1..] == a[1..] + b;
      StreamTextAppend(a[1..], b, host);
    }
  }

  /** The text of a stream's suffix is its first chunk's text followed by the rest. */
  lemma StreamTextStep(chunks: seq<string>, i: nat, host: Host)
    requires i < |chunks|
    ensures StreamText(chunks[i..], host) == Concat(ChunkTokens(DataLines(chunks[i]), host)) + StreamText(chunks[i + 1..], host)
  {
    assert chunks[i..][1..] == chunks[i + 1..];
  }

  /** The reader loop: every decoded chunk goes through the chunk writer, in order. */
  method ReadAll(chunks: seq<string>, host: Host) returns (fullResponse: string)
    ensures fullResponse == StreamText(chunks, host)
  {
    fullResponse := "";
    var i := 0;
    while i < |chunks|
      invariant 0 <= i <= |chunks|
      invariant StreamText(chunks, host) == fullResponse + StreamText(chunks[i..], host)
    {
      ghost var text := Concat(ChunkTokens(DataLines(chunks[i]), host));
      ghost var rest := StreamText(chunks[i + 1..], host);
      StreamTextStep(chunks, i, host);
      AppendAssoc(fullResponse, text, rest);
      fullResponse := WriteChunk(chunks[i], fullResponse, host);
      i := i + 1;
    }
    assert chunks[i..] == [];
    assert fullResponse + "" == fullResponse;
  }

  // ---------------------------------------------------------------------------------------------
  // Request and synthetic response

  /** `files` is omitted without ids, and otherwise holds one file reference per id, in order. */
  function FilesField(fileIds: seq<string>): (files: Option<seq<FileRef>>)
    ensures files.None? <==> fileIds == []
    ensures files.Some? ==> |files.value| == |fileIds|
    ensures files.Some? ==> forall k :: 0 <= k < |fileIds| ==> files.value[k] == FileRef("file", fileIds[k])
  {
    if |fileIds| > 0 then Some(seq(|fileIds|, k requires 0 <= k < |fileIds| => FileRef("file", fileIds[k]))) else None
  }

  datatype WebUiRequest = WebUiRequest(
    url: string,
    authorization: string,
    model: string,
    messages: seq<Message>,
    stream: bool,
    files: Option<seq<FileRef>>)

  /** The structured response a tool receives, built from the streamed text. */
  function SyntheticResponse(now: string, fullResponse: string, userInput: string, fileIds: seq<string>): (mr: ModelResponse)
    ensures mr.message == fullResponse && mr.sender == "ASSISTANT" && mr.query == userInput
    ensures mr.fileAttachments == fileIds && mr.responseId == now
  {
    ModelResponse(now, fullResponse, "ASSISTANT", "", userInput, fileIds)
  }

  /** What the server answered: the status, the error body (`None` if it is not JSON), and the decoded body chunks. */
  datatype HttpResponse = HttpResponse(ok: bool, errorBody: Option<Json>, body: Option<seq<string>>)

  datatype WebUiOutcome =
    | Answered(fullResponse: string, modelResponse: ModelResponse, toolReport: Option<FileTool.Report>)
    | ChatError(message: string)   // reported by the outer handler
    | UnreadableErrorBody          // reading the error body as JSON threw

  /** The outcome of an exchange given the server's answer, the clock's reading and the active tool. */
  function ExchangeOutcome(response: HttpResponse, userInput: string, fileIds: seq<string>, tool: Option<Tool>,
                           now: string, cwd: string, host: Host): (o: WebUiOutcome)
    ensures !response.ok && response.errorBody.None? ==> o == UnreadableErrorBody
    ensures !response.ok && response.errorBody.Some? ==> o == ChatError(NonOkMessage(response.errorBody.value))
    ensures response.ok && response.body.None? ==> o == ChatError(NoResponseBody)
    ensures o.Answered? <==> response.ok && response.body.Some?
    ensures o.Answered? ==> o.fullResponse == StreamText(response.body.value, host)
    ensures o.Answered? ==> o.modelResponse == SyntheticResponse(now, o.fullResponse, userInput, fileIds)
    ensures o.Answered? ==> (o.toolReport.Some? <==> tool.Some?)
    // the tool postprocesses the streamed answer
    ensures o.Answered? && tool.Some? ==> o.toolReport == Some(FileTool.PostprocessSpec(o.fullResponse, cwd, host))
  {
    if !response.ok then
      if response.errorBody.None? then UnreadableErrorBody else ChatError(NonOkMessage(response.errorBody.value))
    else if response.body.None? then ChatError(NoResponseBody)
    else
      var full := StreamText(response.body.value, host);
      var mr := SyntheticResponse(now, full, userInput, fileIds);
      Answered(full, mr, if tool.Some? then Some(FileTool.PostprocessSpec(full, cwd, host)) else None)
  }

  class WebUiChatStreamer {
    const options: WebUiOptions
    var messageHistory: seq<Message>

    constructor(options: WebUiOptions)
      ensures this.options == options && messageHistory == []
    {
      this.options := options;
      messageHistory := [];
    }

    /**
     * One exchange. The user message is appended before the request, so the request carries it;
     * the assistant message is appended only when the stream was read. Nothing is rolled back.
     */
    method StreamChat(userInput: string, fileIds: seq<string>, tool: Option<Tool>, response: HttpResponse,
                      now: string, cwd: string, host: Host)
      returns (request: WebUiRequest, outcome: WebUiOutcome)
      modifies this
      ensures request.messages == old(messageHistory) + [Message("user", FileTool.ProcessedPrompt(userInput, tool))]
      ensures request.url == options.serverUrl + "/api/chat/completions"
      ensures request.authorization == "Bearer " + options.apiKey
      ensures request.model == options.model && request.stream
      ensures request.files == FilesField(fileIds)
      ensures outcome == ExchangeOutcome(response, userInput, fileIds, tool, now, cwd, host)
      ensures outcome.Answered? ==> messageHistory == request.messages + [Message("assistant", outcome.fullResponse)]
      ensures !outcome.Answered? ==> messageHistory == request.messages
    {
      var prompt := userInput;
      if tool.Some? {
        prompt := FileTool.Preprocess(tool.value, prompt);
      }
      messageHistory := messageHistory + [Message("user", prompt)];
      request := WebUiRequest(options.serverUrl + "/api/chat/completions", "Bearer " + options.apiKey, options.model,
                              messageHistory, true, FilesField(fileIds));
      if !response.ok {
        if response.errorBody.None? {
          return request, UnreadableErrorBody;
        }
        return request, ChatError(NonOkMessage(response.errorBody.value));
      }
      if response.body.None? {
        return request, ChatError(NoResponseBody);
      }
      var fullResponse := ReadAll(response.body.value, host);
      messageHistory := messageHistory + [Message("assistant", fullResponse)];
      var modelResponse := SyntheticResponse(now, fullResponse, userInput, fileIds);
      var toolReport: Option<FileTool.Report> := None;
      if tool.Some? {
        match tool.value {
          case File =>
            var r := FileTool.PostprocessResponse(modelResponse, cwd, host);
            toolReport := Some(r);
        }
      }
      outcome := Answered(fullResponse, modelResponse, toolReport);
    }
  }
}
