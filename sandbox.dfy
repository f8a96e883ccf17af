/**
 * The execution sandbox: what `Sandbox.execute` decides around the script
 * engine. The engine is a parameter: given the wrapped source, the context
 * and the script timeout it either throws or yields a callable handler; the
 * handler, given the parameters, returns a value, throws, or returns a
 * deferred value that settles at some time (or never).
 */
module Sandbox {
  import opened Wrappers
  import opened Tools

  /** `new Sandbox()` without an argument. */
  const DefaultTimeoutMs: nat := 5000

  /** The names `ALLOWED_GLOBALS` binds. */
  const AllowedNames: set<string> := {
    "Math", "Date", "JSON", "Array", "Object", "String", "Number", "Boolean", "RegExp", "Map", "Set",
    "parseInt", "parseFloat", "isNaN", "isFinite", "undefined", "NaN", "Infinity",
    "console"}

  /** The `console` methods the context offers; each one discards what it is given. */
  const ConsoleMethods: set<string> := {"log", "warn", "error"}

  /** A binding in the context: the host's own global of that name, or the silent console. */
  datatype Global = Host(name: string) | SilentConsole(methods: set<string>)

  type Context = map<string, Global>

  /** `{ ...ALLOWED_GLOBALS }`: a new context object, built on every call. */
  function NewContext(): (ctx: Context)
    ensures ctx.Keys == AllowedNames
    ensures forall n :: n in ctx ==> ctx[n] == if n == "console" then SilentConsole(ConsoleMethods) else Host(n)
  {
    map n | n in AllowedNames :: if n == "console" then SilentConsole(ConsoleMethods) else Host(n)
  }

  const WrapPrefix: string := "(function(params) { \"use strict\"; "
  const WrapSuffix: string := " })"

  /** The source handed to the engine: the handler body inside a strict one-parameter function. */
  function Wrap(handlerCode: string): (src: string)
    ensures |src| == |WrapPrefix| + |handlerCode| + |WrapSuffix|
    ensures WrapPrefix <= src
    ensures src[|WrapPrefix|..|src| - |WrapSuffix|] == handlerCode
    ensures src[|src| - |WrapSuffix|..] == WrapSuffix
  {
    WrapPrefix + handlerCode + WrapSuffix
  }

  /**
   * A thrown value. Whether it is an `Error` is decided by the caller of the
   * model (`instanceof Error` is unreliable across contexts); `text` of a
   * non-error is its `String(value)`.
   */
  datatype Thrown = ErrorValue(message: string) | OtherValue(text: string)

  /** `error instanceof Error ? error.message : String(error)`. */
  function Reason(e: Thrown): (reason: string)
    ensures e.ErrorValue? ==> reason == e.message
    ensures e.OtherValue? ==> reason == e.text
  {
    match e
    case ErrorValue(m) => m
    case OtherValue(t) => t
  }

  datatype Settlement = Resolve(value: Json) | Reject(reason: Thrown)

  /** When, in milliseconds after the call, a deferred value settles. */
  datatype Settle = SettlesAt(ms: nat, how: Settlement) | NeverSettles

  /** What a call of the handler does. */
  datatype Behaviour = Returned(value: Json) | Threw(error: Thrown) | Deferred(settle: Settle)

  /**
   * What evaluating the wrapped source does: it throws (a syntax error, the
   * script timeout) or yields the handler. The handler takes no deadline: only
   * the evaluation is bounded by the script timeout.
   */
  datatype Evaluation = EvalThrew(error: Thrown) | Evaluated(call: Json -> Behaviour)

  /** The script engine; it receives the source, the context and the script timeout. */
  type Engine = (string, Context, nat) -> Evaluation

  /** The one failure prefix every execution error carries. */
  const FailurePrefix: string := "Execution failed: "

  const AsyncTimeout: string := "Async timeout"

  /** `new Error("Execution failed: " + reason)`. */
  function Failed(reason: string): (msg: string)
    ensures FailurePrefix <= msg && msg[|FailurePrefix|..] == reason
  {
    FailurePrefix + reason
  }

  /** `Sandbox`: its one timeout, fixed at construction. */
  datatype Sandbox = Sandbox(timeoutMs: nat)

  /** `new Sandbox(timeoutMs?)`. */
  function NewSandbox(timeoutMs: Option<nat>): (sb: Sandbox)
    ensures timeoutMs.None? ==> sb.timeoutMs == 5000
    ensures timeoutMs.Some? ==> sb.timeoutMs == timeoutMs.value
  {
    Sandbox(if timeoutMs.Some? then timeoutMs.value else DefaultTimeoutMs)
  }

  /** The largest delay `setTimeout` honours; a longer one, or one below 1 ms, is set to 1 ms. */
  const MaxTimerDelay: nat := 0x7FFF_FFFF

  /** The delay the race's timer actually fires after. */
  function TimerDelay(timeoutMs: nat): (d: nat)
    ensures 1 <= d <= MaxTimerDelay
    ensures 1 <= timeoutMs <= MaxTimerDelay ==> d == timeoutMs
    ensures timeoutMs < 1 || MaxTimerDelay < timeoutMs ==> d == 1
  {
    if timeoutMs < 1 || MaxTimerDelay < timeoutMs then 1 else timeoutMs
  }

  /** The race of a deferred value against the timer: the value wins only if it settles first. */
  predicate SettlesInTime(s: Settle, timeoutMs: nat)
    ensures s.NeverSettles? ==> !SettlesInTime(s, timeoutMs)
    ensures s.SettlesAt? && s.ms < TimerDelay(timeoutMs) ==> SettlesInTime(s, timeoutMs)
    ensures s.SettlesAt? && s.ms >= TimerDelay(timeoutMs) ==> !SettlesInTime(s, timeoutMs)
  {
    s.SettlesAt? && s.ms < TimerDelay(timeoutMs)
  }

  /** The handler hands back a value: it returns one, or its deferred value resolves before the timer. */
  predicate Delivers(b: Behaviour, timeoutMs: nat)
  {
    b.Returned? || (b.Deferred? && SettlesInTime(b.settle, timeoutMs) && b.settle.how.Resolve?)
  }

  /** `execute(handlerCode, params)`. */
  function Execute(sb: Sandbox, engine: Engine, handlerCode: string, params: Json): (r: Result<Json, string>)
    ensures r.Failure? ==> FailurePrefix <= r.error
    ensures
      var ev := engine(Wrap(handlerCode), NewContext(), sb.timeoutMs);
      r.Success? <==> ev.Evaluated? && Delivers(ev.call(params), sb.timeoutMs)
  {
    match engine(Wrap(handlerCode), NewContext(), sb.timeoutMs)
    case EvalThrew(e) => Failure(Failed(Reason(e)))
    case Evaluated(call) =>
      match call(params)
      case Returned(v) => Success(v)
      case Threw(e) => Failure(Failed(Reason(e)))
      case Deferred(s) =>
        if SettlesInTime(s, sb.timeoutMs) then
          match s.how
          case Resolve(v) => Success(v)
          case Reject(e) => Failure(Failed(Reason(e)))
        else Failure(Failed(AsyncTimeout))
  }

  /** A value that is not deferred is returned unchanged. */
  lemma PlainValuePassesThrough(sb: Sandbox, engine: Engine, code: string, params: Json, call: Json -> Behaviour, v: Json)
    requires engine(Wrap(code), NewContext(), sb.timeoutMs) == Evaluated(call)
    requires call(params) == Returned(v)
    ensures Execute(sb, engine, code, params) == Success(v)
  {
  }

  /** A throw while evaluating the source or while calling the handler becomes "Execution failed: " + its reason. */
  lemma ThrowsNormalised(sb: Sandbox, engine: Engine, code: string, params: Json, e: Thrown)
    requires
      var ev := engine(Wrap(code), NewContext(), sb.timeoutMs);
      ev == EvalThrew(e) || (ev.Evaluated? && ev.call(params) == Threw(e))
    ensures Execute(sb, engine, code, params) == Failure("Execution failed: " + Reason(e))
  {
  }

  /** A deferred value that settles before the timeout decides the outcome; a rejection is normalised. */
  lemma SettledInTime(sb: Sandbox, engine: Engine, code: string, params: Json, call: Json -> Behaviour,
                      ms: nat, how: Settlement)
    requires engine(Wrap(code), NewContext(), sb.timeoutMs) == Evaluated(call)
    requires call(params) == Deferred(SettlesAt(ms, how)) && ms < TimerDelay(sb.timeoutMs)
    ensures how.Resolve? ==> Execute(sb, engine, code, params) == Success(how.value)
    ensures how.Reject? ==> Execute(sb, engine, code, params) == Failure("Execution failed: " + Reason(how.reason))
  {
  }

  /** A deferred value that has not settled when the timer fires (or never settles) times out. */
  lemma UnsettledTimesOut(sb: Sandbox, engine: Engine, code: string, params: Json, call: Json -> Behaviour, s: Settle)
    requires engine(Wrap(code), NewContext(), sb.timeoutMs) == Evaluated(call)
    requires call(params) == Deferred(s)
    requires s.NeverSettles? || s.ms >= TimerDelay(sb.timeoutMs)
    ensures Execute(sb, engine, code, params) == Failure("Execution failed: Async timeout")
  {
    assert Failed(AsyncTimeout) == "Execution failed: Async timeout";
  }

  /**
   * The default sandbox uses 5000 ms both as the script timeout handed to the
   * engine and as the race's timer: a value settling at 4999 ms wins, one at 5000 ms loses.
   */
  lemma DefaultTimeoutGovernsBoth(engine: Engine, code: string, params: Json, call: Json -> Behaviour, v: Json)
    requires engine(Wrap(code), NewContext(), 5000) == Evaluated(call)
    ensures call(params) == Deferred(SettlesAt(4999, Resolve(v))) ==>
      Execute(NewSandbox(None), engine, code, params) == Success(v)
    ensures call(params) == Deferred(SettlesAt(5000, Resolve(v))) ==>
      Execute(NewSandbox(None), engine, code, params) == Failure("Execution failed: Async timeout")
  {
    assert Failed(AsyncTimeout) == "Execution failed: Async timeout";
  }

  /**
   * Host globals that `ALLOWED_GLOBALS` does not copy into the context object.
   * This is a statement about the object's keys only: the context's own realm
   * still provides its standard built-ins, `eval`, `Function`, `globalThis`
   * and `Promise` among them.
   */
  const HostAccessNames: set<string> := {
    "process", "require", "module", "Buffer", "fetch", "eval", "Function", "globalThis",
    "setTimeout", "setInterval", "queueMicrotask", "WebAssembly"}

  /** None of them is a key of the context object: it is built from an allow-list, not a block-list. */
  lemma ContextExcludesHostAccess()
    ensures forall n :: n in HostAccessNames ==> n !in NewContext()
  {
    NoModuleLoading();
    NoNewCode();
    NoTimers();
    NoHostObjects();
  }

  /** The host's `process`, `require` and `module` are not copied in. */
  lemma NoModuleLoading()
    ensures "process" !in AllowedNames && "require" !in AllowedNames && "module" !in AllowedNames
  {
  }

  /** The host's `eval`, `Function` and `WebAssembly` are not copied in (the realm has its own `eval` and `Function`). */
  lemma NoNewCode()
    ensures "eval" !in AllowedNames && "Function" !in AllowedNames && "WebAssembly" !in AllowedNames
  {
  }

  /** The host's timer and job-queue functions are not copied in. */
  lemma NoTimers()
    ensures "setTimeout" !in AllowedNames && "setInterval" !in AllowedNames && "queueMicrotask" !in AllowedNames
  {
  }

  /** The host's `Buffer`, `fetch` and `globalThis` are not copied in (the realm has its own `globalThis`). */
  lemma NoHostObjects()
    ensures "Buffer" !in AllowedNames && "fetch" !in AllowedNames && "globalThis" !in AllowedNames
  {
  }

  /**
   * A timeout beyond what `setTimeout` honours makes the race's timer fire
   * after 1 ms, so a deferred value settling at 1 ms or later loses, however
   * long the configured timeout is.
   */
  lemma LongTimeoutFiresAtOnce(sb: Sandbox, engine: Engine, code: string, params: Json, call: Json -> Behaviour,
                               ms: nat, v: Json)
    requires MaxTimerDelay < sb.timeoutMs && 1 <= ms
    requires engine(Wrap(code), NewContext(), sb.timeoutMs) == Evaluated(call)
    requires call(params) == Deferred(SettlesAt(ms, Resolve(v)))
    ensures Execute(sb, engine, code, params) == Failure("Execution failed: Async timeout")
  {
    UnsettledTimesOut(sb, engine, code, params, call, SettlesAt(ms, Resolve(v)));
  }
}
