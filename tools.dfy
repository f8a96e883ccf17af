/** The values every component passes around: JSON values and generated tool definitions. */
module Tools {

  /** A JSON value: what `JSON.parse` yields and what a handler may return. */
  datatype Json =
    | Null
    | Bool(b: bool)
    | Num(n: real)
    | Str(s: string)
    | Arr(items: seq<Json>)
    | Obj(fields: map<string, Json>)

  /** JavaScript truthiness of a JSON value (JSON has no NaN, so 0 is the only falsy number). */
  predicate Truthy(v: Json)
    ensures v == Null || v == Bool(false) || v == Num(0.0) || v == Str("") ==> !Truthy(v)
    ensures v.Arr? || v.Obj? || v == Bool(true) ==> Truthy(v)
    ensures v.Num? && v.n != 0.0 ==> Truthy(v)
    ensures v.Str? && v.s != "" ==> Truthy(v)
  {
    match v
    case Null => false
    case Bool(b) => b
    case Num(n) => n != 0.0
    case Str(s) => s != ""
    case Arr(_) => true
    case Obj(_) => true
  }

  /** `GeneratedTool`: a synthesized tool definition. */
  datatype Tool = Tool(name: string, description: string, inputSchema: Json, handlerCode: string)

  /** The tool as the JSON object `JSON.stringify` would print. */
  function ToolJson(t: Tool): (j: Json)
    ensures j.Obj? && j.fields.Keys == {"name", "description", "inputSchema", "handlerCode"}
    ensures j.fields["name"] == Str(t.name) && j.fields["handlerCode"] == Str(t.handlerCode)
    ensures j.fields["description"] == Str(t.description) && j.fields["inputSchema"] == t.inputSchema
  {
    Obj(map["name" := Str(t.name), "description" := Str(t.description),
            "inputSchema" := t.inputSchema, "handlerCode" := Str(t.handlerCode)])
  }
}
