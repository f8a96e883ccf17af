/**
 * The handler bodies of the server's tools, as transitions on the pending
 * set and the store. Each handler's reply is either a message, the JSON value
 * the handler prints with `JSON.stringify`, or an error the handler lets
 * escape to the transport.
 */
module Server {
  import opened Wrappers
  import opened Tools
  import opened Approval
  import opened Registry
  import opened Sandbox
  import opened Synthesizer

  /** An error a handler does not catch. */
  datatype HandlerError = GenerationFailed(synthesis: SynthesisError) | ReadFailed(read: ReadError)

  datatype Reply = Message(text: string) | Data(value: Json) | Raised(error: HandlerError)

  function Quoted(name: string): string { "\"" + name + "\"" }

  function NoPendingText(name: string): (text: string)
    ensures text == "No pending tool \"" + name + "\" found."
  {
    "No pending tool " + Quoted(name) + " found."
  }
  function NotFoundText(name: string): (text: string)
    ensures text == "Tool \"" + name + "\" not found."
  {
    "Tool " + Quoted(name) + " not found."
  }
  function ApprovedText(name: string): (text: string)
    ensures text == "Tool \"" + name + "\" approved and saved."
  {
    "Tool " + Quoted(name) + " approved and saved."
  }
  function RejectedText(name: string): (text: string)
    ensures text == "Tool \"" + name + "\" rejected."
  {
    "Tool " + Quoted(name) + " rejected."
  }
  function RemovedText(name: string): (text: string)
    ensures text == "Tool \"" + name + "\" removed."
  {
    "Tool " + Quoted(name) + " removed."
  }

  const ErrorPrefix: string := "Error: "

  /** What `synthesize_tool` prints for a newly staged tool. */
  function PendingReport(t: Tool): (j: Json)
    ensures j.Obj? && j.fields.Keys == {"status", "tool", "message"}
    ensures j.fields["status"] == Str("pending_approval")
    ensures j.fields["tool"] == Obj(map["name" := Str(t.name), "description" := Str(t.description), "parameters" := t.inputSchema])
    ensures j.fields["message"] == Str("Tool " + Quoted(t.name) + " generated. Call approve_tool to activate it.")
  {
    Obj(map[
      "status" := Str("pending_approval"),
      "tool" := Obj(map["name" := Str(t.name), "description" := Str(t.description), "parameters" := t.inputSchema]),
      "message" := Str("Tool " + Quoted(t.name) + " generated. Call approve_tool to activate it.")])
  }

  /** `{ name, description }` of a pending tool, as `list_pending` prints it. */
  function Summary(t: Tool): (j: Json)
    ensures j.Obj? && j.fields.Keys == {"name", "description"}
    ensures j.fields["name"] == Str(t.name) && j.fields["description"] == Str(t.description)
  {
    Obj(map["name" := Str(t.name), "description" := Str(t.description)])
  }

  /** `synthesize_tool`: generate a tool and stage it; a generation error escapes and stages nothing. */
  method SynthesizeTool(approvals: ApprovalQueue, complete: string -> Option<string>, parse: Parser, req: Request)
    returns (reply: Reply)
    requires approvals.Valid()
    modifies approvals
    ensures approvals.Valid()
    ensures
      match ReadReply(parse, complete(UserPrompt(req)))
      case Failure(e) =>
        reply == Raised(GenerationFailed(e)) && approvals.pending == old(approvals.pending)
        && approvals.order == old(approvals.order)
      case Success(t) =>
        && reply == Data(PendingReport(t))
        && reply.value.fields["status"] == Str("pending_approval")
        && approvals.pending == old(approvals.pending)[t.name := t]
        && approvals.order == (if t.name in old(approvals.pending) then old(approvals.order) else old(approvals.order) + [t.name])
        && approvals.Get(t.name) == Some(t)
  {
    var generated := Generate(complete, parse, req);
    match generated
    case Failure(e) =>
      reply := Raised(GenerationFailed(e));
    case Success(t) =>
      approvals.Add(t);
      reply := Data(PendingReport(t));
  }

  /** `list_tools`: the names the store lists; nothing changes. */
  method ListTools(registry: ToolRegistry) returns (reply: Reply)
    ensures reply.Data? && reply.value.Obj? && reply.value.fields.Keys == {"tools"}
    ensures var names := registry.List();
      reply.value.fields["tools"] == Arr(seq(|names|, i requires 0 <= i < |names| => Str(names[i])))
  {
    var names := registry.List();
    reply := Data(Obj(map["tools" := Arr(seq(|names|, i requires 0 <= i < |names| => Str(names[i])))]));
  }

  /** `approve_tool`: move a pending tool into the store; otherwise report that it is not pending. */
  method ApproveTool(approvals: ApprovalQueue, registry: ToolRegistry, name: string) returns (reply: Reply)
    requires approvals.Valid() && registry.Valid()
    modifies approvals, registry
    ensures approvals.Valid() && registry.Valid()
    ensures approvals.pending == old(approvals.pending) - {name}
    ensures approvals.order == Without(old(approvals.order), name)
    ensures name !in old(approvals.pending) ==>
      reply == Message(NoPendingText(name)) && registry.dir == old(registry.dir)
    ensures name in old(approvals.pending) ==>
      && reply == Message(ApprovedText(name))
      && registry.dir == Some(old(registry.dir.value)[FileName(name) := registry.codec.encode(old(approvals.pending[name]))])
      && (var t := old(approvals.pending[name]);
          registry.codec.decode(registry.codec.encode(t)) == Some(t) ==> registry.Load(name) == Success(Some(t)))
  {
    var pending := approvals.Approve(name);
    if pending.None? {
      reply := Message(NoPendingText(name));
      return;
    }
    registry.Save(pending.value);
    reply := Message(ApprovedText(name));
  }

  /** `reject_tool`: discard a pending tool; only the pending set changes. */
  method RejectTool(approvals: ApprovalQueue, name: string) returns (reply: Reply)
    requires approvals.Valid()
    modifies approvals
    ensures approvals.Valid()
    ensures approvals.pending == old(approvals.pending) - {name}
    ensures approvals.order == Without(old(approvals.order), name)
    ensures reply == Message(if name in old(approvals.pending) then RejectedText(name) else NoPendingText(name))
  {
    var rejected := approvals.Reject(name);
    reply := Message(if rejected then RejectedText(name) else NoPendingText(name));
  }

  /** `execute_tool`: run a stored tool's handler in the sandbox; nothing changes. */
  method ExecuteTool(registry: ToolRegistry, sb: Sandbox, engine: Engine, name: string, params: Json)
    returns (reply: Reply)
    ensures registry.Load(name) == Success(None) ==> reply == Message(NotFoundText(name))
    ensures registry.Load(name).Failure? ==> reply == Raised(ReadFailed(registry.Load(name).error))
    ensures registry.Load(name).Success? && registry.Load(name).value.Some? ==>
      var r := Execute(sb, engine, registry.Load(name).value.value.handlerCode, params);
      (r.Success? ==> reply == Data(r.value)) && (r.Failure? ==> reply == Message(ErrorPrefix + r.error))
    ensures reply.Message? && reply.text != NotFoundText(name) ==> ErrorPrefix + FailurePrefix <= reply.text
  {
    var loaded := registry.Load(name);
    match loaded
    case Failure(e) =>
      reply := Raised(ReadFailed(e));
    case Success(None) =>
      reply := Message(NotFoundText(name));
    case Success(Some(tool)) =>
      var result := Execute(sb, engine, tool.handlerCode, params);
      match result
      case Success(v) =>
        reply := Data(v);
      case Failure(m) =>
        reply := Message(ErrorPrefix + m);
        assert m[..|FailurePrefix|] == FailurePrefix;
        assert (ErrorPrefix + m)[..|ErrorPrefix + FailurePrefix|] == ErrorPrefix + FailurePrefix;
        assert reply.text != NotFoundText(name) by {
          assert reply.text[0] == 'E' && NotFoundText(name)[0] == 'T';
        }
  }

  /** `get_tool`: the stored record; nothing changes. */
  method GetTool(registry: ToolRegistry, name: string) returns (reply: Reply)
    ensures registry.Load(name) == Success(None) <==> reply == Message(NotFoundText(name))
    ensures registry.Load(name).Failure? <==> reply.Raised?
    ensures registry.Load(name).Failure? ==> reply == Raised(ReadFailed(registry.Load(name).error))
    ensures reply.Data? <==> registry.Load(name).Success? && registry.Load(name).value.Some?
    ensures reply.Data? ==> reply.value == ToolJson(registry.Load(name).value.value)
  {
    var loaded := registry.Load(name);
    match loaded
    case Failure(e) =>
      reply := Raised(ReadFailed(e));
    case Success(None) =>
      reply := Message(NotFoundText(name));
    case Success(Some(tool)) =>
      reply := Data(ToolJson(tool));
  }

  /** `remove_tool`: delete a stored tool; only the store changes. */
  method RemoveTool(registry: ToolRegistry, name: string) returns (reply: Reply)
    requires registry.Valid()
    modifies registry
    ensures registry.Valid()
    ensures registry.dir == Some(old(registry.dir.value) - {FileName(name)})
    ensures reply == Message(if FileName(name) in old(registry.dir.value) then RemovedText(name) else NotFoundText(name))
    ensures registry.Load(name) == Success(None)
  {
    var removed := registry.Remove(name);
    reply := Message(if removed then RemovedText(name) else NotFoundText(name));
  }

  /** `list_pending`: name and description of each pending tool, in insertion order; nothing changes. */
  method ListPending(approvals: ApprovalQueue) returns (reply: Reply)
    requires approvals.Valid()
    ensures reply.Data? && reply.value.Obj? && reply.value.fields.Keys == {"pending"}
    ensures reply.value.fields["pending"].Arr?
    ensures var items := reply.value.fields["pending"].items;
      && |items| == |approvals.pending| == |approvals.order|
      && forall i :: 0 <= i < |items| ==>
           items[i] == Summary(approvals.pending[approvals.order[i]])
  {
    var pending := approvals.ListPending();
    reply := Data(Obj(map["pending" := Arr(seq(|pending|, i requires 0 <= i < |pending| => Summary(pending[i])))]));
  }

  /**
   * A pending tool is consumed by its first approval: on fresh state, approving
   * twice saves it once and then reports that nothing is pending. The store
   * hands the tool back when the codec reads its own record back; otherwise
   * the saved record reads as corrupt.
   */
  method ApproveConsumesOnce(codec: Codec, t: Tool) returns (first: Reply, second: Reply, stored: Result<Option<Tool>, ReadError>)
    ensures first == Message(ApprovedText(t.name))
    ensures second == Message(NoPendingText(t.name))
    ensures codec.decode(codec.encode(t)) == Some(t) ==> stored == Success(Some(t))
    ensures codec.decode(codec.encode(t)).None? ==> stored == Failure(CorruptRecord(FileName(t.name)))
    ensures codec.decode(codec.encode(t)).Some? ==> stored == Success(codec.decode(codec.encode(t)))
  {
    var approvals := new ApprovalQueue();
    var registry := new ToolRegistry(codec, None);
    approvals.Add(t);
    first := ApproveTool(approvals, registry, t.name);
    second := ApproveTool(approvals, registry, t.name);
    stored := registry.Load(t.name);
  }

  /** A rejected tool leaves no artifact: it can no longer be approved and the store never sees it. */
  method RejectLeavesNothing(codec: Codec, t: Tool) returns (rejected: Reply, approved: Reply, stored: Result<Option<Tool>, ReadError>)
    ensures rejected == Message(RejectedText(t.name))
    ensures approved == Message(NoPendingText(t.name))
    ensures stored == Success(None)
  {
    var approvals := new ApprovalQueue();
    var registry := new ToolRegistry(codec, None);
    approvals.Add(t);
    rejected := RejectTool(approvals, t.name);
    approved := ApproveTool(approvals, registry, t.name);
    stored := registry.Load(t.name);
  }
}
