/** The steps of a trajectory and the tool calls they report. */
module Steps {
  import opened Options

  datatype StepType = TextResponse | ToolCallStep | SystemMessage | Compaction | Finish | Thinking | UnknownType

  datatype StepSource = FromSystem | FromUser | FromModel | FromUnknown

  datatype StepTarget = ToUser | ToEnvironment | ToUnspecified | ToUnknown

  datatype Call = Call(id: string, name: string, args: string)

  /** The fields of a step that history and the chunk stream read. JSON is opaque text. */
  datatype Step = Step(
    kind: StepType, source: StepSource, target: StepTarget, index: int, content: string,
    contentDelta: string, thinkingDelta: string, toolCalls: seq<Call>, complete: bool,
    structuredOutput: Option<string>)
}
