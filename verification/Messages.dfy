/** The model's message history, as the history processors read it. */
module Messages {
  /** One item of a prompt's content. `Words` is the wire's own text item, which is not a plain string. */
  datatype Item = Str(text: string) | Words(text: string) | File(mediaType: string) | CachePoint

  /** A prompt's content: a string, or items beside the JSON they render as. */
  datatype Content = Text(text: string) | Items(items: seq<Item>, json: string)

  /** A tool's returned content: a string, or an object beside what it renders as. */
  datatype Body = Plain(text: string) | Object(rendering: string)

  function Rendered(body: Body): string {
    match body
    case Plain(text) => text
    case Object(rendering) => rendering
  }

  datatype ReqPart =
    | SystemPrompt(content: Content)
    | UserPrompt(content: Content)
    | Return(id: string, tool: string, body: Body, retried: bool, exact: bool, files: bool)
    | RetryFeedback(text: string)
    | OtherRequestPart

  datatype RespPart =
    | Call(id: string, tool: string, args: string)
    | NativeCall(id: string, tool: string, args: string)
    | Said(text: string)
    | Thinking(text: string)
    | NativeReturn(rendering: string)
    | Summary(text: string)
    | OtherResponsePart

  datatype Message = Request(req: seq<ReqPart>) | Response(resp: seq<RespPart>)
}
