/** The events the chat stream sends to the browser, and the tool calls a model turn asks for. */
module StreamEvents {
  import opened Json

  datatype StreamEvent =
    | TextDelta(text: string)
    | ThinkingDelta(text: string)
    | ToolCall(id: string, name: string, input: Json)
    | ToolResult(id: string, name: string, output: string)
    | TextReplace(text: string)
    | MessageStop(stopReason: string)
    | Error(message: string)
  {
    predicate IsDelta() {
      (TextDelta? || ThinkingDelta?) && text != ""
    }
  }

  datatype ParsedToolCall = ParsedToolCall(id: string, name: string, arguments: Json)

  function Delta(thinking: bool, text: string): StreamEvent {
    if thinking then ThinkingDelta(text) else TextDelta(text)
  }

  /** A delta, or nothing when there is no text to send. */
  function Emit(thinking: bool, text: string): (events: seq<StreamEvent>)
    ensures AllDeltas(events)
  {
    if text == "" then [] else [Delta(thinking, text)]
  }

  ghost predicate AllDeltas(events: seq<StreamEvent>) {
    forall i :: 0 <= i < |events| ==> events[i].IsDelta()
  }
}
