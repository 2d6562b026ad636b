/** What a tool plugin sees: the final response of an exchange and the kinds of tool there are. */
module GrokTool {

  /** The terminal structured response of an exchange, as handed to a tool's postprocess step. */
  datatype ModelResponse = ModelResponse(
    responseId: string,
    message: string,
    sender: string,
    parentResponseId: string,
    query: string,
    fileAttachments: seq<string>)

  /** The tools that register themselves; the file tool is the only one. */
  datatype Tool = File
}
