/** Normalised events between a generator and the message renderer (bot/render_event.go). */
module RenderEvents {
  import opened Text

  datatype ToolKind = Start | Update | Finish | Error

  /** The fields of a tool event that only the summary line reads. */
  datatype ToolDetail = ToolDetail(
    title: string, command: string, path: string, pattern: string, query: string,
    exitCode: Option<int>, errText: string)

  datatype RenderEvent =
    | TextDelta(messageID: string, partID: string, text: string)
    | TextSet(messageID: string, partID: string, text: string)
    | Tool(kind: ToolKind, messageID: string, partID: string, callID: string,
           toolName: string, status: string, detail: ToolDetail)
    | Done
}
