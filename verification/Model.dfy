/** The vocabulary shared by the parsers, the assemblers and the kernel. */
module Model {
  import opened Wrappers
  import opened Json

  datatype StopReason = EndTurn | ToolUse | MaxTokens | Refusal | ContextWindowExceeded | Unrecognized

  datatype WireMeta = WireMeta(format: string, fields: Json)

  datatype MediaRef = MediaRef(mediaType: string, reference: string, name: Option<string>)

  datatype ContentPart =
    | Text(text: string)
    | Media(media: MediaRef)
    | Sealed(format: string, item: Json)

  datatype ToolCallDraft = ToolCallDraft(toolName: string, arguments: Json, providerCallId: Option<string>)

  datatype ItemContent = Parts(parts: seq<ContentPart>) | ToolCall(call: ToolCallDraft)

  datatype ModelItem = ModelItem(content: ItemContent, wire: Option<WireMeta>)

  /** `usage` is the provider's usage object; its mapping to counters is not modelled. */
  datatype ModelOutput = ModelOutput(items: seq<ModelItem>, stopReason: StopReason, rawStopReason: string,
                                     usage: Option<Json>, reasoning: Option<string>)

  datatype StreamDelta =
    | TextDelta(text: string)
    | ReasoningDelta(reasoning: string)
    | ToolCallDelta(callIndex: nat, providerCallId: Option<string>, name: Option<string>, arguments: Option<string>)
    | Usage(usage: Json)
    | Done(output: ModelOutput)

  const ANTHROPIC := "anthropic_messages"
  const CHAT := "openai_chat_completions"
  const RESPONSES := "openai_responses"

  function SealedItem(format: string, item: Json): ModelItem {
    ModelItem(Parts([Sealed(format, item)]), None)
  }
}
