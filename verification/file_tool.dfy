/**
 * The file tool: it asks the model for a JSON answer listing files, then writes the listed
 * files below the process's working directory. It is registered under the name "file".
 */
module FileTool {
  import opened Wrappers
  import opened Text
  import opened Json
  import opened Services
  import opened GrokTool

  const Name := "file"
  const Description :=
    "Requests responses as JSON with a summary and files array, then writes them to the filesystem within the current directory"

  /** The instruction text appended to every prompt, line breaks and indentation included. */
  const Instructions :=
    "For this response and this response only. Return *only* a JSON object with no additional text before or after. \n"
    + "        Do not include any code blocks or any other characters only JSON. \n"
    + "        The JSON must contain:\n"
    + "- A 'summary' field with a brief summary of your response as a string.\n"
    + "- A 'files' array where each entry is an object with:\n"
    + "  - 'name': a descriptive file name (e.g., 'script.js' or 'readme.md'),\n"
    + "  - 'path': a relative path (e.g., './src' or './docs'),\n"
    + "  - 'body': the file content as a string.\n"
    + "Ensure the files are relevant to the request and use appropriate extensions for the content type. "
    + "Example: {\"summary\":\"Summary text\",\"files\":[{\"name\":\"example.md\",\"path\":\"./docs\",\"body\":\"Content\"}]}"

  /** What every rewritten prompt ends with: a blank line, then the instructions. */
  const Suffix := "\n\n" + Instructions

  /** The prompt is kept as a prefix; what follows it is the same for every prompt. */
  function PreprocessPrompt(prompt: string): (r: string)
    ensures |r| == |prompt| + |Suffix|
    ensures r[..|prompt|] == prompt && r[|prompt|..] == Suffix
  {
    prompt + Suffix
  }

  /** The table of tools by name, as filled in when the file tool's module is loaded. */
  function Registry(): (registry: map<string, Tool>)
    ensures registry.Keys == {Name} && registry[Name] == File
  {
    map[Name := File]
  }

  /** A tool's name as offered in the tool menu. */
  function ToolName(tool: Tool): string {
    match tool
    case File => Name
  }

  /** A tool's prompt rewrite. */
  function Preprocess(tool: Tool, prompt: string): string {
    match tool
    case File => PreprocessPrompt(prompt)
  }

  /** The prompt a streamer sends: the active tool's rewrite of the user input, or the input itself. */
  function ProcessedPrompt(userInput: string, tool: Option<Tool>): (prompt: string)
    ensures StartsWith(prompt, userInput)
    ensures tool.None? ==> prompt == userInput
  {
    if tool.Some? then Preprocess(tool.value, userInput) else userInput
  }

  datatype FileWrite = FileWrite(target: string, body: string)

  /** What one entry of the `files` array leads to. */
  datatype EntryStep =
    | Write(write: FileWrite)
    | Skip                        // a falsy name, path or body
    | Reject(target: string)      // the resolved target lies outside the working directory
    | Abort                       // the entry makes the loop throw; the handler ends the postprocess step

  /** The containment guard of `writeFile` as written: the resolved target starts with the working directory, as text. */
  predicate StartsWithCwd(target: string, cwd: string) {
    StartsWith(target, cwd)
  }

  /** What a path strictly below `cwd` starts with: `cwd` followed by exactly one separator. */
  function DirPrefix(cwd: string): (prefix: string)
    ensures |prefix| >= 1 && StartsWith(prefix, cwd) && prefix[|prefix| - 1] == '/'
    ensures |prefix| <= |cwd| + 1
  {
    if cwd != [] && cwd[|cwd| - 1] == '/' then cwd else cwd + "/"
  }

  /** The guard as intended: the target is the working directory itself or lies below it. */
  predicate Within(target: string, cwd: string) {
    target == cwd || StartsWith(target, DirPrefix(cwd))
  }

  /** The intended guard is stricter than the text test: whatever it admits, the text test admits too. */
  lemma WithinStartsWithCwd(target: string, cwd: string)
    requires Within(target, cwd)
    ensures StartsWithCwd(target, cwd)
  {
    if target != cwd {
      var prefix := DirPrefix(cwd);
      assert target[..|cwd|] == target[..|prefix|][..|cwd|] == prefix[..|cwd|];
    }
  }

  /** An entry of `files` that the write loop accepts: `name`, `path` and `body` are non-empty strings. */
  predicate StringField(file: Json, key: string) {
    var v := Prop(Some(file), key);
    v.Some? && v.value.JStr? && v.value.s != ""
  }

  predicate WellFormedEntry(file: Json) {
    StringField(file, "name") && StringField(file, "path") && StringField(file, "body")
  }

  /** The write a well-formed entry asks for: its body at `path.resolve(cwd, path, name)`. */
  function RequestedWrite(file: Json, cwd: string, resolve: seq<string> -> string): (w: FileWrite)
    requires WellFormedEntry(file)
    ensures w.body == file.fields["body"].s && w.body != ""
    ensures w.target == resolve([cwd, file.fields["path"].s, file.fields["name"].s])
  {
    FileWrite(resolve([cwd, file.fields["path"].s, file.fields["name"].s]), file.fields["body"].s)
  }

  /**
   * One entry of the write loop: a falsy name, path or body is skipped; otherwise the target is
   * resolved and written when it lies within the working directory, and rejected when it does not.
   */
  function StepFor(file: Json, cwd: string, resolve: seq<string> -> string): (step: EntryStep)
    ensures file.JNull? ==> step.Abort?
    ensures step.Skip? <==>
              && !file.JNull?
              && !(Truthy(Prop(Some(file), "name")) && Truthy(Prop(Some(file), "path")) && Truthy(Prop(Some(file), "body")))
    ensures WellFormedEntry(file) ==>
              var w := RequestedWrite(file, cwd, resolve);
              step == if Within(w.target, cwd) then Write(w) else Reject(w.target)
    // a truthy name or path that is not a string makes `path.resolve` throw
    ensures var name := Prop(Some(file), "name");
            var path := Prop(Some(file), "path");
            (!file.JNull? && Truthy(name) && Truthy(path) && Truthy(Prop(Some(file), "body"))
             && !(name.value.JStr? && path.value.JStr?)) ==> step.Abort?
    // a contained target with a truthy body that is not a string makes the write throw
    ensures var name := Prop(Some(file), "name");
            var path := Prop(Some(file), "path");
            var body := Prop(Some(file), "body");
            (!file.JNull? && Truthy(name) && Truthy(path) && Truthy(body) && name.value.JStr? && path.value.JStr?
             && Within(resolve([cwd, path.value.s, name.value.s]), cwd) && !body.value.JStr?) ==> step.Abort?
    ensures step.Write? ==> Within(step.write.target, cwd) && step.write.body != ""
    ensures step.Reject? ==> !Within(step.target, cwd)
  {
    if file.JNull? then Abort
    else
      var name := Prop(Some(file), "name");
      var path := Prop(Some(file), "path");
      var body := Prop(Some(file), "body");
      if !Truthy(name) || !Truthy(path) || !Truthy(body) then Skip
      else if !name.value.JStr? || !path.value.JStr? then Abort   // path.resolve throws on a non-string
      else
        var target := resolve([cwd, path.value.s, name.value.s]);
        if !Within(target, cwd) then Reject(target)
        else if !body.value.JStr? then Abort                      // fs.writeFile throws on a non-string
        else Write(FileWrite(target, body.value.s))
  }

  /** One entry of the write loop with the guard as written: the text test of `startsWith`. */
  function StepForAsWritten(file: Json, cwd: string, resolve: seq<string> -> string): (step: EntryStep)
    ensures step.Write? ==> StartsWithCwd(step.write.target, cwd) && step.write.body != ""
    ensures step.Reject? ==> !StartsWithCwd(step.target, cwd)
  {
    if file.JNull? then Abort
    else
      var name := Prop(Some(file), "name");
      var path := Prop(Some(file), "path");
      var body := Prop(Some(file), "body");
      if !Truthy(name) || !Truthy(path) || !Truthy(body) then Skip
      else if !name.value.JStr? || !path.value.JStr? then Abort
      else
        var target := resolve([cwd, path.value.s, name.value.s]);
        if !StartsWithCwd(target, cwd) then Reject(target)
        else if !body.value.JStr? then Abort
        else Write(FileWrite(target, body.value.s))
  }

  /**
   * The two guards disagree only on a target that starts with the working directory as text but
   * not at a directory boundary, such as a sibling directory whose name extends it.
   */
  lemma StepGuardsDiffer(file: Json, cwd: string, resolve: seq<string> -> string)
    requires StepFor(file, cwd, resolve) != StepForAsWritten(file, cwd, resolve)
    ensures StepFor(file, cwd, resolve).Reject?
    ensures var t := StepFor(file, cwd, resolve).target; StartsWithCwd(t, cwd) && !Within(t, cwd)
  {
    var name := Prop(Some(file), "name");
    var path := Prop(Some(file), "path");
    var target := resolve([cwd, path.value.s, name.value.s]);
    if Within(target, cwd) {
      WithinStartsWithCwd(target, cwd);
    }
  }

  /** With the working directory `/work`, an entry asking for `../work-evil/x` passes the guard as written. */
  lemma SiblingDirectoryAsWritten()
    ensures var entry := JObj(map["name" := JStr("x"), "path" := JStr("../work-evil"), "body" := JStr("hi")]);
            var resolve := (parts: seq<string>) => if parts == ["/work", "../work-evil", "x"] then "/work-evil/x" else "/work";
            && StepForAsWritten(entry, "/work", resolve) == Write(FileWrite("/work-evil/x", "hi"))
            && StepFor(entry, "/work", resolve) == Reject("/work-evil/x")
  {
    var entry := JObj(map["name" := JStr("x"), "path" := JStr("../work-evil"), "body" := JStr("hi")]);
    var resolve := (parts: seq<string>) => if parts == ["/work", "../work-evil", "x"] then "/work-evil/x" else "/work";
    assert Prop(Some(entry), "name") == Some(JStr("x"));
    assert Prop(Some(entry), "path") == Some(JStr("../work-evil"));
    assert Prop(Some(entry), "body") == Some(JStr("hi"));
    assert resolve(["/work", "../work-evil", "x"]) == "/work-evil/x";
    assert "/work-evil/x"[..5] == "/work";
    assert "/work-evil/x"[5] == '-';
    assert !Within("/work-evil/x", "/work");
  }

  /** The writes, rejections and abort that a `files` array leads to, in array order. */
  datatype Plan = Plan(writes: seq<FileWrite>, rejected: seq<string>, aborted: bool)

  /** One entry's step put in front of the plan for the entries after it; an abort ends the plan. */
  function Prepend(step: EntryStep, rest: Plan): Plan {
    match step
    case Abort => Plan([], [], true)
    case Skip => rest
    case Reject(t) => rest.(rejected := [t] + rest.rejected)
    case Write(w) => rest.(writes := [w] + rest.writes)
  }

  function PlanFor(files: seq<Json>, cwd: string, resolve: seq<string> -> string): Plan
  {
    if files == [] then Plan([], [], false)
    else Prepend(StepFor(files[0], cwd, resolve), PlanFor(files[1..], cwd, resolve))
  }

  /** The plan for one array followed by another: an abort in the first hides the second. */
  function Sequenced(first: Plan, second: Plan): Plan {
    if first.aborted then first else Plan(first.writes + second.writes, first.rejected + second.rejected, second.aborted)
  }

  lemma PrependSequenced(step: EntryStep, p: Plan, q: Plan)
    ensures Prepend(step, Sequenced(p, q)) == Sequenced(Prepend(step, p), q)
  {
    match step
    case Abort =>
    case Skip =>
    case Reject(t) =>
      assert [t] + (p.rejected + q.rejected) == ([t] + p.rejected) + q.rejected;
    case Write(w) =>
      assert [w] + (p.writes + q.writes) == ([w] + p.writes) + q.writes;
  }

  /** Every file written lies within the working directory and has a non-empty body. */
  lemma {:induction false} PlanContained(files: seq<Json>, cwd: string, resolve: seq<string> -> string)
    ensures forall w :: w in PlanFor(files, cwd, resolve).writes ==> Within(w.target, cwd) && w.body != ""
  {
    if files != [] {
      PlanContained(files[1..], cwd, resolve);
    }
  }

  const NoEntries := Plan([], [], false)

  /** Sequencing plans is associative, which lets a loop fold the entries one at a time. */
  lemma SequencedAssoc(p: Plan, q: Plan, r: Plan)
    ensures Sequenced(Sequenced(p, q), r) == Sequenced(p, Sequenced(q, r))
  {
    if !p.aborted && !q.aborted {
      assert (p.writes + q.writes) + r.writes == p.writes + (q.writes + r.writes);
      assert (p.rejected + q.rejected) + r.rejected == p.rejected + (q.rejected + r.rejected);
    }
  }

  /** The plan so far, followed by the rest of the array, is the plan so far with the next entry's step added. */
  lemma PlanFold(items: seq<Json>, i: nat, acc: Plan, cwd: string, resolve: seq<string> -> string)
    requires i < |items|
    ensures var step := Prepend(StepFor(items[i], cwd, resolve), NoEntries);
            Sequenced(acc, PlanFor(items[i..], cwd, resolve))
            == Sequenced(Sequenced(acc, step), PlanFor(items[i + 1..], cwd, resolve))
  {
    var step := Prepend(StepFor(items[i], cwd, resolve), NoEntries);
    var rest := PlanFor(items[i + 1..], cwd, resolve);
    assert items[i..][0] == items[i] && items[i..][1..] == items[i + 1..];
    assert PlanFor(items[i..], cwd, resolve) == Prepend(StepFor(items[i], cwd, resolve), rest);
    PrependSequenced(StepFor(items[i], cwd, resolve), NoEntries, rest);
    assert Sequenced(NoEntries, rest) == rest by {
      assert [] + rest.writes == rest.writes && [] + rest.rejected == rest.rejected;
    }
    SequencedAssoc(acc, step, rest);
  }

  /** Adding one entry's step to a plan that has not aborted. */
  lemma FoldStep(acc: Plan, step: EntryStep)
    requires !acc.aborted
    ensures Sequenced(acc, Prepend(step, NoEntries))
         == match step
            case Abort => acc.(aborted := true)
            case Skip => acc
            case Reject(t) => acc.(rejected := acc.rejected + [t])
            case Write(w) => acc.(writes := acc.writes + [w])
  {
    assert acc.writes + [] == acc.writes && acc.rejected + [] == acc.rejected;
  }

  /** Entries are handled in array order: a prefix that does not abort contributes its writes first. */
  lemma {:induction false} PlanAppend(a: seq<Json>, b: seq<Json>, cwd: string, resolve: seq<string> -> string)
    ensures PlanFor(a + b, cwd, resolve) == Sequenced(PlanFor(a, cwd, resolve), PlanFor(b, cwd, resolve))
  {
    if a == [] {
      assert a + b == b;
    } else {
      assert (a + b)[0] == a[0];
      assert (a + b)[1..] == a[1..] + b;
      PlanAppend(a[1..], b, cwd, resolve);
      PrependSequenced(StepFor(a[0], cwd, resolve), PlanFor(a[1..], cwd, resolve), PlanFor(b, cwd, resolve));
    }
  }

  /** The writes an array of well-formed entries asks for, in array order. */
  function Requested(files: seq<Json>, cwd: string, resolve: seq<string> -> string): (ws: seq<FileWrite>)
    requires forall i :: 0 <= i < |files| ==> WellFormedEntry(files[i])
    ensures |ws| == |files|
    ensures forall i :: 0 <= i < |files| ==> ws[i] == RequestedWrite(files[i], cwd, resolve)
  {
    seq(|files|, i requires 0 <= i < |files| => RequestedWrite(files[i], cwd, resolve))
  }

  /** The requested writes that lie within the working directory, in order. */
  function Admitted(ws: seq<FileWrite>, cwd: string): (r: seq<FileWrite>)
    ensures forall w :: w in r <==> w in ws && Within(w.target, cwd)
  {
    if ws == [] then []
    else (if Within(ws[0].target, cwd) then [ws[0]] else []) + Admitted(ws[1..], cwd)
  }

  /** The targets of the requested writes that lie outside the working directory, in order. */
  function Refused(ws: seq<FileWrite>, cwd: string): (r: seq<string>)
    ensures forall t :: t in r ==> !Within(t, cwd)
    ensures forall w :: w in ws && !Within(w.target, cwd) ==> w.target in r
    ensures |Admitted(ws, cwd)| + |r| == |ws|
  {
    if ws == [] then []
    else (if Within(ws[0].target, cwd) then [] else [ws[0].target]) + Refused(ws[1..], cwd)
  }

  /**
   * For entries that all name a file with a body, nothing is skipped or aborted: the writes are the
   * requested writes that lie within the working directory and the rejections the others, both in
   * array order.
   */
  lemma {:induction false} PlanOfWellFormed(files: seq<Json>, cwd: string, resolve: seq<string> -> string)
    requires forall i :: 0 <= i < |files| ==> WellFormedEntry(files[i])
    ensures var ws := Requested(files, cwd, resolve);
            PlanFor(files, cwd, resolve) == Plan(Admitted(ws, cwd), Refused(ws, cwd), false)
  {
    if files != [] {
      var ws := Requested(files, cwd, resolve);
      PlanOfWellFormed(files[1..], cwd, resolve);
      assert ws[1..] == Requested(files[1..], cwd, resolve);
    }
  }

  /** How the postprocess step ended. */
  datatype Status =
    | NotJson      // the message did not parse: nothing is written
    | Completed    // the loop ran to its end
    | Failed       // an exception was caught by the outer handler

  datatype Report = Report(status: Status, formatWarning: bool, writes: seq<FileWrite>, rejected: seq<string>)

  /** Whether the parsed answer lacks a truthy `summary` or an array `files`: this is only reported. */
  predicate FormatWarning(json: Json) {
    !Truthy(Prop(Some(json), "summary")) || !(Prop(Some(json), "files").Some? && Prop(Some(json), "files").value.JArr?)
  }

  /**
   * The whole postprocess step as a value: it never throws. A `files` string is iterated character by
   * character, and every character is skipped; any other non-array `files` throws in the loop header.
   */
  function PostprocessSpec(message: string, cwd: string, host: Host): (r: Report)
    ensures r.status == NotJson <==> host.parseJson(message).None?
    ensures r.status == NotJson ==> r.writes == [] && r.rejected == []
    ensures forall w :: w in r.writes ==> Within(w.target, cwd) && w.body != ""
  {
    match host.parseJson(message)
    case None => Report(NotJson, false, [], [])
    case Some(json) =>
      if json.JNull? then Report(Failed, false, [], [])
      else
        var files := Prop(Some(json), "files");
        if files.Some? && files.value.JArr? then
          var p := PlanFor(files.value.items, cwd, host.resolve);
          PlanContained(files.value.items, cwd, host.resolve);
          Report(if p.aborted then Failed else Completed, FormatWarning(json), p.writes, p.rejected)
        else if files.Some? && files.value.JStr? then Report(Completed, FormatWarning(json), [], [])
        else Report(Failed, FormatWarning(json), [], [])
  }

  /**
   * A JSON answer whose `files` entries all name a file with a body completes, writes exactly the
   * requested files that lie within the working directory and rejects the others, in array order.
   */
  lemma PostprocessWellFormed(message: string, cwd: string, host: Host)
    requires var files := Prop(host.parseJson(message), "files");
             files.Some? && files.value.JArr? && forall i :: 0 <= i < |files.value.items| ==> WellFormedEntry(files.value.items[i])
    ensures var json := host.parseJson(message).value;
            var ws := Requested(json.fields["files"].items, cwd, host.resolve);
            PostprocessSpec(message, cwd, host) == Report(Completed, FormatWarning(json), Admitted(ws, cwd), Refused(ws, cwd))
  {
    PlanOfWellFormed(Prop(host.parseJson(message), "files").value.items, cwd, host.resolve);
  }

  /** `postprocessResponse`: parse the message, then write the listed files one by one. */
  method PostprocessResponse(response: ModelResponse, cwd: string, host: Host) returns (report: Report)
    ensures report == PostprocessSpec(response.message, cwd, host)
  {
    var parsed := host.parseJson(response.message);
    if parsed.None? {
      return Report(NotJson, false, [], []);
    }
    var json := parsed.value;
    if json.JNull? {
      return Report(Failed, false, [], []);
    }
    var warning := FormatWarning(json);
    var files := Prop(Some(json), "files");
    if files.Some? && files.value.JStr? {
      return Report(Completed, warning, [], []);
    } else if !(files.Some? && files.value.JArr?) {
      return Report(Failed, warning, [], []);
    }
    var items := files.value.items;
    var writes: seq<FileWrite> := [];
    var rejected: seq<string> := [];
    var aborted := false;
    var i := 0;
    assert Sequenced(NoEntries, PlanFor(items, cwd, host.resolve)) == PlanFor(items, cwd, host.resolve) by {
      var p := PlanFor(items, cwd, host.resolve);
      assert [] + p.writes == p.writes && [] + p.rejected == p.rejected;
    }
    assert items[0..] == items;
    while i < |items| && !aborted
      invariant 0 <= i <= |items|
      invariant PlanFor(items, cwd, host.resolve) == Sequenced(Plan(writes, rejected, aborted), PlanFor(items[i..], cwd, host.resolve))
    {
      var step := StepFor(items[i], cwd, host.resolve);
      PlanFold(items, i, Plan(writes, rejected, aborted), cwd, host.resolve);
      FoldStep(Plan(writes, rejected, aborted), step);
      match step {
        case Abort =>
          aborted := true;
        case Skip =>
        case Reject(t) =>
          rejected := rejected + [t];
        case Write(w) =>
          writes := writes + [w];
      }
      i := i + 1;
    }
    if !aborted {
      assert items[i..] == [];
      assert writes + [] == writes && rejected + [] == rejected;
    }
    report := Report(if aborted then Failed else Completed, warning, writes, rejected);
  }
}
