/** The messages an agent sends back over a session, as far as the hub tells them apart. */
module Protocol {
  import opened Wrappers

  type Bytes = seq<bv8>

  /** Failure kinds of an agent-side command. */
  datatype AgentErrorKind = Unspecified | StartFailed | CommandFailed | Unavailable

  datatype CommandResult = CommandOk | CommandError(kind: AgentErrorKind, message: string)

  datatype Chunk = Chunk(data: Bytes, isFinal: bool)

  /** One item of a streamed command's output; `Nothing` and `EmptyResult` are the unset oneofs of the wire format. */
  datatype CommandOutput =
    | Log(chunk: Chunk)
    | Result(result: CommandResult)
    | EmptyResult
    | Nothing

  /** What an agent can send back under a request id. */
  datatype Reply =
    | StartRunContainerResult(output: CommandOutput)
    | RunBuildCommandResult(output: CommandOutput)
    | StreamContainerLogsChunk(logs: Chunk)
    | StopAndRemoveContainerResult(result: CommandResult)
    | UploadZipAndExtractResult(size: Result<nat, string>)
    | OtherReply(tag: nat)
}
