/** The values that callbacks carry: tool uses and the JSON inside them. */
module Wire {

  /** A decoded JSON value; `Null` is also what a nil map marshals to and from. */
  datatype Json =
    | Null
    | Flag(b: bool)
    | Number(n: int)
    | Text(s: string)
    | List(items: seq<Json>)
    | Object(fields: map<string, Json>)

  /** A completed tool call as the upstream callback delivers it. */
  datatype ToolUse = ToolUse(id: string, name: string, input: Json)

  /** The content callbacks of one upstream stream. */
  datatype Callback =
    | OnText(text: string, isThinking: bool)
    | OnToolUse(tool: ToolUse)

  /** Marshalling, validity and unmarshalling of JSON, as the standard library supplies them. */
  datatype Codec = Codec(marshal: Json -> string, valid: string -> bool, unmarshal: string -> Json)
  {
    /** Everything marshalled is non-empty, valid, and unmarshals to what it was. */
    ghost predicate Inverse() {
      forall j :: marshal(j) != "" && valid(marshal(j)) && unmarshal(marshal(j)) == j
    }
  }
}
