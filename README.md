# jit-tool-synthesis: a Dafny model of the tool lifecycle

This project models the tool-lifecycle core of `jit-tool-synthesis`, an MCP server that asks a language model to write a tool (name, input schema, JavaScript handler body). The server holds the tool for a human to approve or reject. An approved tool is saved to a directory of JSON files and can then be run in a `vm` sandbox.

The model covers five parts:

- **Approval** (`approval.dfy`): class `ApprovalQueue`. The pending map is the field `pending`. A second field, `order`, keeps the insertion order a JavaScript `Map` iterates in. `Valid()` ties the two together and says that each entry is stored under its own name.
- **Registry** (`registry.dfy`): class `ToolRegistry` over a directory. The directory is a map from file name to file content, or `None` when it does not exist. `save`, `remove` and the constructor change it in place. `load`, `list` and `loadAll` are pure functions of the directory (`LoadFrom`, `ListFrom`, `LoadAllFrom`). `JSON.stringify`/`JSON.parse` of a record are a `Codec`, a pair of functions; decoding may fail. Where a property needs the round trip, the hypothesis is stated for the one record concerned: decoding the encoding of that tool gives the tool back. When decoding fails instead, the model says what `load` then reports. A directory listing comes back in ascending character-code order (`Order.SortedElements`), which is the order libuv sorts `readdir` entries in.
- **Sandbox** (`sandbox.dfy`): what `execute` decides around the script engine. The engine is a function argument. It receives the wrapped source, the context and the timeout, and it either throws or yields a handler. The handler is a function from the parameters to a `Behaviour`: it returns a value, throws, or returns a deferred value that settles at a given millisecond or never. The handler takes no timeout argument, because the `vm` timeout bounds only the evaluation of the function expression, not the call.
- **Synthesizer** (`synthesizer.dfy`): the prompt is built by reassignment (`BuildPrompt`, a method) against `UserPrompt`. The reply handling is pure: the `|| ""` default, the greedy `\{[\s\S]*\}` extraction, the parse (a function argument) and the four-field check. `Generate` puts them together around an abstract `complete` function that stands for the model call.
- **Server** (`server.dfy`): the bodies of the handlers `synthesize_tool`, `list_tools`, `approve_tool`, `reject_tool`, `execute_tool`, `get_tool`, `remove_tool` and `list_pending`. Each one is a method on the queue and the registry, whose `modifies` clause names exactly what that handler may change. Two client methods chain handlers on fresh state.

In four places the code does less than its names suggest. The model follows the code:

- Only evaluating the wrapped function expression has a deadline; a synchronous handler call runs with no deadline.
- The pending set keeps insertion order. It does not check fields on `add`; only the synthesizer checks them.
- The context object is new on every call, but it is a shallow copy, so its values are the host's own objects.
- An unparsable record makes `load` and `loadAll` throw the parse error. The model names it `CorruptRecord(file)`.

## Model

| member | source | states |
|---|---|---|
| `Approval.ApprovalQueue.constructor` | src/approval.ts:4 | the queue starts empty and valid |
| `Approval.ApprovalQueue.Add` | src/approval.ts:6 | the entry under `tool.name` becomes `tool` and silently replaces any earlier one; a new name goes to the end of the iteration order, a replaced one keeps its place; `Get(tool.name)` is then `tool` |
| `Approval.ApprovalQueue.Approve` | src/approval.ts:7-11 | returns what `get` returned before; afterwards the name is gone, so `Get` is None and a second approve returns None; every other entry is unchanged; an absent name changes nothing |
| `Approval.ApprovalQueue.Reject` | src/approval.ts:12 | returns true iff the name was pending; afterwards it is absent and every other entry is unchanged |
| `Approval.ApprovalQueue.ListPending` | src/approval.ts:13 | exactly the map's values, one per name (the names are pairwise distinct, length = map size), in insertion order |
| `Approval.ApprovalQueue.Get` | src/approval.ts:14 | Some iff the name is pending, and then the stored entry (a read: it changes nothing) |
| `Approval.Without` | src/approval.ts:9-12 | deleting a key from a duplicate-free iteration order removes exactly its one position: what remains is the order before it followed by the order after it; an absent key changes nothing |
| `Registry.FileName` | src/registry.ts:17 | the file of a tool is its name followed by ".json" |
| `Registry.FileNameInjective` | src/registry.ts:21 | distinct names never share a file, so there is one record per name |
| `Text.ReplaceFirst` | src/registry.ts:43 | `replace` with a string pattern replaces the first occurrence (no occurrence starts earlier) and keeps the text on either side; the text is unchanged when the pattern does not occur |
| `Registry.ListedName` | src/registry.ts:43 | `f.replace(".json", "")`: a name without ".json" is kept as it is; otherwise it loses exactly its first ".json": the text before that occurrence followed by the text after it |
| `Registry.ListedNameOfFileName` | src/registry.ts:43 | a name in which ".json" does not occur is listed as itself |
| `Registry.ListedNameMisnames` | src/registry.ts:43 | the name "x.jsonY" is listed as "xY.json", whose file would be a different one |
| `Registry.ListedNameNotLoadable` | src/registry.ts:39-44 | a store holding only "x.jsonY" lists "xY.json", and loading "xY.json" finds nothing |
| `Registry.LoadFrom` | src/registry.ts:20-23 | null exactly when the directory or the file `name.json` is missing; a corrupt record fails with that file rather than yielding null; otherwise the decoded record |
| `Order.SortedElements` | src/registry.ts:27 | the directory listing: each entry once, in strictly ascending order |
| `Text.EndsWith` | src/registry.ts:28 | `f.endsWith(suffix)`, defined as the source expression itself: `suffix` is no longer than the string and is its tail |
| `Registry.JsonOnly` | src/registry.ts:28 | keeps exactly the names ending in ".json", in listing order |
| `Registry.JsonFiles` | src/registry.ts:41-42 | the `.json` entries of the directory, ascending, each once |
| `Registry.ListFrom` | src/registry.ts:39-44 | [] when the directory is missing; otherwise one name per `.json` file, each with its first ".json" removed |
| `Registry.DecodeAll` | src/registry.ts:29 | succeeds iff every listed record decodes, and then gives one tool per file in order; otherwise fails naming the FIRST file that does not decode: that file does not decode and every file before it does |
| `Registry.LoadAllFrom` | src/registry.ts:25-30 | [] when the directory is missing; fails iff some `.json` file is corrupt; a failure names the first `.json` file, in listing order, whose record does not decode; otherwise decodes exactly the `.json` files, in listing order |
| `Registry.SavedNameListed` | src/registry.ts:39-44 | after saving `t`, `t.name` is listed whenever ".json" does not occur in it |
| `Registry.OtherFilesIgnored` | src/registry.ts:25-44 | adding a file whose name does not end in ".json" changes neither `list` nor `loadAll` |
| `Registry.ToolRegistry.constructor` | src/registry.ts:12-14 | the directory exists afterwards and any files already in it are kept |
| `Registry.ToolRegistry.Save` | src/registry.ts:16-18 | writes or overwrites `name.json` and nothing else; when the codec decodes this record back to the tool, a later `load` gives the tool back; when it cannot decode the record, `load` reports that file as corrupt; otherwise `load` gives what the record decodes to; `load` of every other name is unchanged |
| `Registry.ToolRegistry.Remove` | src/registry.ts:32-37 | returns whether `name.json` existed; afterwards `load(name)` is null and nothing else changed (an absent name changes nothing) |
| `Registry.ToolRegistry.Load` | src/registry.ts:20-23 | `load(name)` is `LoadFrom` on the current directory; the promises of `load` are stated and proved on `LoadFrom` |
| `Registry.ToolRegistry.LoadAll` | src/registry.ts:25-30 | `loadAll()` is `LoadAllFrom` on the current directory; the promises of `loadAll` are stated and proved on `LoadAllFrom` |
| `Registry.ToolRegistry.List` | src/registry.ts:39-44 | `list()` is `ListFrom` on the current directory; the promises of `list` are stated and proved on `ListFrom` |
| `Sandbox.NewContext` | src/sandbox.ts:3-14 | the context binds exactly the allow-listed names: the host global of the same name, or for `console` an object whose `log`, `warn` and `error` discard their arguments |
| `Sandbox.ContextExcludesHostAccess` | src/sandbox.ts:3-7 | none of `process`, `require`, `module`, `Buffer`, `fetch`, `eval`, `Function`, `globalThis`, `setTimeout`, `setInterval`, `queueMicrotask`, `WebAssembly` is a key of `ALLOWED_GLOBALS`, so the context object does not hold the host's bindings of them (the context's realm still has its own built-ins) |
| `Sandbox.NoModuleLoading` | src/sandbox.ts:3-7 | `process`, `require` and `module` are not keys of `ALLOWED_GLOBALS` |
| `Sandbox.NoNewCode` | src/sandbox.ts:3-7 | `eval`, `Function` and `WebAssembly` are not keys of `ALLOWED_GLOBALS` |
| `Sandbox.NoTimers` | src/sandbox.ts:3-7 | `setTimeout`, `setInterval` and `queueMicrotask` are not keys of `ALLOWED_GLOBALS` |
| `Sandbox.NoHostObjects` | src/sandbox.ts:3-7 | `Buffer`, `fetch` and `globalThis` are not keys of `ALLOWED_GLOBALS` |
| `Sandbox.Wrap` | src/sandbox.ts:13 | the evaluated source is `(function(params) { "use strict"; ` + handler body + ` })` |
| `Sandbox.NewSandbox` | src/sandbox.ts:10 | the timeout defaults to 5000 ms, otherwise it is the given one |
| `Sandbox.Reason` | src/sandbox.ts:32 | an `Error` gives its `message` and any other value gives its `String` form (the source expression itself) |
| `Sandbox.Failed` | src/sandbox.ts:31-33 | every execution error reads "Execution failed: " followed by the reason |
| `Sandbox.Execute` | src/sandbox.ts:12-35 | every failure carries the "Execution failed: " prefix; it succeeds iff the handler was evaluated and either returned a value or its deferred value resolved before the timeout |
| `Sandbox.PlainValuePassesThrough` | src/sandbox.ts:19-29 | a value that is not deferred comes back unchanged |
| `Sandbox.ThrowsNormalised` | src/sandbox.ts:16-33 | a throw while evaluating the source or calling the handler becomes "Execution failed: " + its message (or its `String` form) |
| `Sandbox.SettlesInTime` | src/sandbox.ts:22-27 | the race's decision: a value that never settles loses; one settling at `ms` wins iff `ms` is before the timer's clamped delay |
| `Sandbox.SettledInTime` | src/sandbox.ts:21-27 | a deferred value that settles before the timer fires decides the outcome; a rejection is normalised like a throw |
| `Sandbox.TimerDelay` | src/sandbox.ts:25 | the timer fires after the configured timeout when that lies in 1..2^31-1 ms, and after 1 ms otherwise, as `setTimeout` clamps its delay |
| `Sandbox.LongTimeoutFiresAtOnce` | src/sandbox.ts:22-27 | with a timeout beyond 2^31-1 ms, a deferred value settling at 1 ms or later still becomes "Execution failed: Async timeout" |
| `Sandbox.UnsettledTimesOut` | src/sandbox.ts:22-27 | a deferred value that settles when the timer fires or later, or never, becomes "Execution failed: Async timeout" |
| `Sandbox.DefaultTimeoutGovernsBoth` | src/sandbox.ts:10-25 | the default sandbox hands 5000 ms to the engine and races with 5000 ms: settling at 4999 ms wins, at 5000 ms times out |
| `Synthesizer.Given` | src/synthesizer.ts:78-79 | JavaScript truthiness of an optional string: a missing or empty string is falsy, any other string truthy |
| `Synthesizer.Line` | src/synthesizer.ts:78-79 | an optional example adds its labelled line only when it is a non-empty string |
| `Synthesizer.UserPrompt` | src/synthesizer.ts:77-79 | starts with "Generate a tool for: " + description; the input line follows directly; the output line ends the prompt; with neither example given the prompt is the first line alone; its length is exactly the sum of the first line and the lines that are given, so nothing else comes in between |
| `Synthesizer.BuildPrompt` | src/synthesizer.ts:77-79 | the prompt built by reassignment is `UserPrompt(req)` |
| `Synthesizer.EmptyExampleOmitted` | src/synthesizer.ts:78-79 | an empty example string yields the same prompt as a missing one |
| `Synthesizer.InputOnlyLayout` | src/synthesizer.ts:77-78 | with only an example input: the first line, two newlines, the input line, and nothing after |
| `Synthesizer.OutputOnlyLayout` | src/synthesizer.ts:77-79 | with only an expected output: the first line, one newline, the output line |
| `Synthesizer.PromptLayout` | src/synthesizer.ts:77-79 | with both examples: description, two newlines, the input line, one newline, the output line |
| `Synthesizer.ReplyText` | src/synthesizer.ts:92 | missing content is the empty text |
| `Synthesizer.CandidateSpan` | src/synthesizer.ts:93 | the span is the regex's match, the leftmost start with the longest end; there is none iff no '{' is followed by a '}' |
| `Synthesizer.JsonCandidate` | src/synthesizer.ts:93-94 | a candidate exists iff some '{' has a '}' after it, and it is the first-leftmost, greedy match |
| `Synthesizer.UnclosedBraceHasNoJson` | src/synthesizer.ts:93-94 | when no '}' follows the first '{' there is no candidate, whatever '}' came before it |
| `Synthesizer.ErrorMessage` | src/synthesizer.ts:94-98 | the two fixed messages of `generate`, or the parse error's own message |
| `Tools.Truthy` | src/synthesizer.ts:97 | JavaScript truthiness of a JSON value: `null`, `false`, 0 and "" are falsy; `true`, other numbers, other strings, arrays and objects (even empty ones) are truthy |
| `Synthesizer.RequireFields` | src/synthesizer.ts:97-99 | accepts iff `name`, `description` and `handlerCode` are non-empty and `inputSchema` is present and truthy, and then returns exactly those fields; otherwise "missing required fields" |
| `Synthesizer.ReadReply` | src/synthesizer.ts:92-100 | fails with "did not return valid JSON" iff there is no candidate; a success has non-empty name, description and handler and a truthy, non-null schema; once a candidate is found, a parse error fails as `Unparsable` with the parser's message, and a parsed object gives exactly what the four-field check gives for it |
| `Synthesizer.MissingContentHasNoJson` | src/synthesizer.ts:92-94 | missing or empty content fails with "did not return valid JSON" |
| `Synthesizer.Generate` | src/synthesizer.ts:76-101 | the reply the model gives to `UserPrompt(req)` is read by `ReadReply` |
| `Tools.ToolJson` | src/server.ts:175 | the record as `JSON.stringify(tool)` prints it, the shape `save` writes (src/registry.ts:17): exactly the keys `name`, `description`, `inputSchema`, `handlerCode`, holding the tool's own fields |
| `Server.NoPendingText` | src/server.ts:97 | `No pending tool "<name>" found.` (also the reject reply at src/server.ts:123) |
| `Server.NotFoundText` | src/server.ts:143 | `Tool "<name>" not found.` (also src/server.ts:173 and 194) |
| `Server.ApprovedText` | src/server.ts:101 | `Tool "<name>" approved and saved.` |
| `Server.RejectedText` | src/server.ts:122 | `Tool "<name>" rejected.` |
| `Server.RemovedText` | src/server.ts:194 | `Tool "<name>" removed.` |
| `Server.PendingReport` | src/server.ts:50-62 | the printed object has exactly the keys `status` ("pending_approval"), `tool` (name, description, and the schema as `parameters`) and `message` |
| `Server.Summary` | src/server.ts:216 | exactly the keys `name` and `description`, holding the tool's own |
| `Server.SynthesizeTool` | src/server.ts:37-66 | on success the tool is staged under its name (a new name at the end of the pending order, an existing one in its old place) and the reply has status "pending_approval"; a generation error escapes and changes neither the pending set nor its order |
| `Server.ListTools` | src/server.ts:77-82 | the reply holds exactly the store's listed names, and nothing changes |
| `Server.ApproveTool` | src/server.ts:94-103 | not pending: replies `No pending tool "<n>" found.` and the store is unchanged; pending: removed from the pending set and its order, written to its file `name.json` (when the codec reads that record back, a later load returns the tool), replies "approved and saved" |
| `Server.RejectTool` | src/server.ts:115-127 | only the pending set changes: the name leaves the set and its one position in the order; the reply says "rejected" iff something was removed |
| `Server.ExecuteTool` | src/server.ts:140-158 | a missing tool replies `Tool "<n>" not found.` whatever the engine does; a corrupt record escapes as an error; a sandbox failure replies "Error: Execution failed: ..."; success replies with the handler's value; nothing changes |
| `Server.GetTool` | src/server.ts:170-176 | replies not found iff there is no record, raises iff the record is corrupt, and then names that file, gives the stored record; nothing changes |
| `Server.RemoveTool` | src/server.ts:188-198 | only the store changes; the reply says "removed" iff the file existed, and afterwards the name loads as null |
| `Server.ListPending` | src/server.ts:209-223 | the name and description of every pending tool, in insertion order; nothing changes |
| `Server.ApproveConsumesOnce` | src/server.ts:95-102 | on fresh state, approving a staged tool twice first saves it, then replies no pending tool; the store hands the tool back when the codec reads its record back, reports the record corrupt when it cannot decode it, and otherwise gives what it decodes to |
| `Server.RejectLeavesNothing` | src/server.ts:116-124 | after a rejection the tool can no longer be approved and the store has no record of it |

## Left out

- The language-model call and its client (src/synthesizer.ts:63-89) are left out: the reply content is what the `complete` argument returns. Network errors of the call are not modelled.
- `SYSTEM_PROMPT` is left out because it is static text.
- MCP registration, the stdio transport and the zod argument schemas are left out. Only the handler bodies are modelled. A handler error that escapes appears as `Raised`, and its wording there is not modelled.
- `JSON.stringify` of replies is left out: `Data(v)` stands for the JSON text of `v`. Its formatting and key order are left out. So are JavaScript values with no JSON form, such as `undefined` or functions returned by a handler, and numbers beyond JSON's (numbers are reals).
- `JSON.parse` and `JSON.stringify` of records are a codec argument. The parse error's message is not modelled, only which file failed to parse.
- The decoded reply object is typed as `GeneratedTool` declares it. A truthy field of the wrong JSON type (for example a number as `name`) is not modelled, and neither are extra fields, which the source would carry along and save.
- File-system errors are not modelled. The directory exists from construction onward. `Save` and `Remove` require it (`Valid()`), and only the read functions see a missing directory. `path.join` normalisation of names holding `/` or `..` is left out. So are case-insensitive file systems, where two names differing only in case share a file and `Registry.FileNameInjective` does not hold.
- Registry.LoadFrom: a record that parses to JSON other than a tool is not modelled, because the codec's decoder yields a tool or nothing. In the source, a file holding `null` makes `load` return null, so `get_tool` and `execute_tool` reply "not found". A file holding `{}` loads as an object with no fields.
- The listing order of `readdir` is taken to be ascending by character code (libuv sorts entries with `strcmp`). UTF-8 byte order against UTF-16 code-unit order is not distinguished.
- The `vm` engine is left out: parsing, evaluating, the script timeout itself, and whether the context really isolates the handler. The context's values are the host's own objects, shared between calls through the shallow copy, and the model only represents them by name. `console` is one object shared by every call, so a handler could change it for later calls; this is not modelled.
- `result instanceof Promise` and `error instanceof Error` are not decided by the model, because both tests are unreliable across contexts. The `Behaviour` and `Thrown` arguments classify the handler's return and its thrown values.
- Sandbox.Execute: `Deferred` stands only for a promise of the host's realm. The context has no `Promise` key, so a promise the handler creates belongs to the context's realm and fails `result instanceof Promise`. The source returns such a promise un-raced: if it never settles, `execute` never settles; if it rejects, the rejection escapes without the "Execution failed: " prefix. The model covers neither case. Its "every failure carries the prefix" clause, and `Server.ExecuteTool`'s `"Error: Execution failed: "` clause, hold only for host-realm promises.
- Sandbox.Execute: a synchronous handler call that never returns has no `Behaviour`, so `Execute` always yields a result, whereas the source would hang.
- Sandbox.Execute: a thrown value that is not an `Error` and whose `String` form itself throws is not modelled (for example `Object.create(null)`, which has no conversion to a primitive). Neither is an `Error` whose `message` getter throws. In the source, that second exception is raised inside the catch block and escapes `execute` without the "Execution failed: " prefix. `Thrown` assumes the conversion succeeds.
- Server.ExecuteTool: these `Sandbox.Execute` limits carry over. A handler's unprefixed rejection, or a failed conversion of a thrown value, would reach the reply as "Error: " + its message or `String` form.
- Every context also carries its own realm's standard built-ins (`eval`, `Function`, `globalThis`, `Promise` and the rest), whatever the keys of `ALLOWED_GLOBALS` are. `Sandbox.ContextExcludesHostAccess` is a statement about the keys only. Host objects reached through the copied values (the host `Function` as `Object.constructor`, for example) are not modelled.
- Timers and the event loop are left out. The race compares a settle time with the timer's delay, that is, the timeout clamped as `setTimeout` clamps it. A tie counts as a timeout, because a value settling exactly when the timer fires is not before it. The losing side of the race keeps running in the source, and that is not modelled.
- Concurrency and interleaving between handlers are left out, because every handler is one atomic transition.
