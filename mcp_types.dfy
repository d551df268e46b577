/** The protocol values the dispatcher only threads through: JSON-like argument
    values, content items returned by handlers, and tool descriptors. */
module McpTypes {

  /** A JSON-like value as delivered in `arguments` (floats are not modelled). */
  datatype Value =
    | Null
    | Bool(b: bool)
    | Int(i: int)
    | Str(s: string)
    | Array(items: seq<Value>)
    | Object(fields: map<string, Value>)

  /** One item of a tool result: text, image or embedded resource. */
  datatype Content =
    | TextContent(text: string)
    | ImageContent(data: string, mimeType: string)
    | EmbeddedResource(uri: string)

  /** The descriptor a handler publishes for listing. */
  datatype Tool = Tool(name: string, description: string, inputSchema: map<string, Value>)
}
