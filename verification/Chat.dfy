/** Chat messages as the model endpoint and the run loop exchange them. */
module Chat {
  import opened Common

  datatype Role = System | User | Assistant | Tool

  /** An id of "" is what a call without an id reads as. */
  datatype ToolCall = ToolCall(id: string, name: string, arguments: string)

  datatype Message = Message(
    role: Role,
    content: Option<string>,
    name: Option<string>,
    callId: Option<string>,
    calls: Option<seq<ToolCall>>)

  function Text(m: Message): string {
    if m.content.Some? then m.content.value else ""
  }

  /** An assistant message that asks for at least one tool call. */
  predicate Asks(m: Message) {
    m.role.Assistant? && m.calls.Some? && m.calls.value != []
  }

  predicate HasCallId(m: Message) {
    m.callId.Some? && m.callId.value != ""
  }
}
