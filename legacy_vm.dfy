// The older loader in lib/vm.js: a script gets the strict directive at most
// once, with a line offset of 0 or -1, always runs under fixed run options,
// and `metarequire` answers from the context before it reads a file.

module LegacyVm {
  import opened Text
  import opened JsValues
  import Metavm

  // ---------------------------------------------------------------------
  // Constants (lib/vm.js:6-8)

  const RUN_TIMEOUT: int := 5000

  /** `RUN_OPTIONS` */
  function RunOptions(): seq<Prop> {
    [Prop("timeout", Num(RUN_TIMEOUT)), Prop("displayErrors", Bool(false))]
  }

  /** `CONTEXT_OPTIONS` */
  function ContextOptions(): seq<Prop> {
    [Prop("microtaskMode", Str("afterEvaluate"))]
  }

  /** The names `COMMON_CONTEXT` binds (lib/vm.js:12-28) */
  const COMMON_NAMES: seq<string> := [
    "Buffer", "URL", "URLSearchParams", "TextDecoder", "TextEncoder", "console", "queueMicrotask",
    "setTimeout", "setImmediate", "setInterval", "clearTimeout", "clearImmediate", "clearInterval"]

  // ---------------------------------------------------------------------
  // Contexts (lib/vm.js:10-33)

  /** A `vm` context: one of this file's two singletons, or an object contextified with the given options */
  datatype Context =
    | EmptyContext
    | CommonContext
    | Contextified(sandbox: Value, options: seq<Prop>)

  /** `createContext(context, preventEscape = false)` */
  function CreateContext(context: Value, preventEscape: Value): (r: Context)
    ensures !Truthy(context) <==> r == EmptyContext
    ensures Truthy(context) ==>
      r.Contextified? && r.sandbox == context
      && (HasKey(r.options, "microtaskMode") <==> Truthy(preventEscape))
      && (Truthy(preventEscape) ==> Get(r.options, "microtaskMode") == Str("afterEvaluate"))
      && (!Truthy(preventEscape) ==> r.options == [])
  {
    if !Truthy(context) then EmptyContext
    else Contextified(context, if Truthy(preventEscape) then ContextOptions() else [])
  }

  /** Only the truthiness of `preventEscape` matters, and no falsy context is ever contextified */
  lemma PreventEscapeAlone(context: Value, p: Value, q: Value)
    requires Truthy(p) == Truthy(q)
    ensures CreateContext(context, p) == CreateContext(context, q)
  {
  }

  /** What a script can see of the outside world */
  datatype Host = Host(
    /** `fs.readFileSync(path, 'utf8')` */
    readFile: string -> Metavm.Result<string>,
    /** `new vm.Script(code, scriptOptions).runInContext(context, runOptions)` */
    run: (string, seq<Prop>, Context, seq<Prop>) -> Metavm.Result<Value>,
    /** the global `COMMON_CONTEXT` copies under a name */
    global: string -> Value)

  /** `Reflect.has(context, key)`, own properties only */
  predicate Has(context: Context, key: string) {
    match context
    case EmptyContext => false
    case CommonContext => key in COMMON_NAMES
    case Contextified(sandbox, _) => sandbox.Obj? && HasKey(sandbox.props, key)
  }

  /** `Reflect.get(context, key)` */
  function Lookup(host: Host, context: Context, key: string): (r: Value)
    ensures !Has(context, key) ==> r == Undefined
  {
    match context
    case EmptyContext => Undefined
    case CommonContext => if key in COMMON_NAMES then host.global(key) else Undefined
    case Contextified(sandbox, _) =>
      if sandbox.Obj? then GetFound(sandbox.props, key); Get(sandbox.props, key) else Undefined
  }

  // ---------------------------------------------------------------------
  // The script (lib/vm.js:35-46)

  /** The options argument: its own properties, and the `context` it names, if any */
  datatype ScriptArgs = ScriptArgs(props: seq<Prop>, context: Option<Context>)

  /** The fields of a `MetaScript` */
  datatype Script = Script(name: string, script: Metavm.Code, context: Context, exports: Value)

  /** The code handed to `vm.Script`: the directive is added unless the source starts with it */
  function StrictCode(src: string): string {
    Metavm.UseStrict(src) + src
  }

  /** `strict ? 0 : -1` */
  function LineOffset(src: string): int {
    if StartsWith(src, Metavm.USE_STRICT) then 0 else -1
  }

  /** The fields the constructor sets before it runs the script */
  function Prepare(name: string, src: string, options: ScriptArgs): Script {
    Script(name,
           Metavm.Code(StrictCode(src), Metavm.ScriptOptions(name, options.props, LineOffset(src))),
           if options.context.Some? then options.context.value else EmptyContext,
           Undefined)
  }

  /**
   * `new MetaScript(name, src, options)`: the fields it ends with, or what it
   * throws. The script is built exactly when its run under `RUN_OPTIONS`
   * succeeds, `exports` is the run's value, and a failed run is passed on.
   */
  function NewScript(host: Host, name: string, src: string, options: ScriptArgs): (r: Metavm.Result<Script>)
    ensures r.Ok? ==> r.value == Prepare(name, src, options).(exports := r.value.exports)
    ensures var s := Prepare(name, src, options);
      var ran := host.run(s.script.text, s.script.options, s.context, RunOptions());
      (r.Ok? <==> ran.Ok?)
      && (r.Ok? ==> r.value.exports == ran.value)
      && (ran.Fail? ==> r == Metavm.Fail(ran.error))
  {
    var s := Prepare(name, src, options);
    match host.run(s.script.text, s.script.options, s.context, RunOptions())
    case Fail(e) => Metavm.Fail(e)
    case Ok(v) => Metavm.Ok(s.(exports := v))
  }

  /**
   * The compiled code always starts with the directive; it is the source
   * itself when that already starts with it, and the directive is never
   * doubled by the prefix.
   */
  lemma CodeStrictOnce(src: string)
    ensures StartsWith(StrictCode(src), Metavm.USE_STRICT)
    ensures StartsWith(src, Metavm.USE_STRICT) ==> StrictCode(src) == src
    ensures !StartsWith(src, Metavm.USE_STRICT) ==> StrictCode(src) == Metavm.USE_STRICT + src
    ensures StartsWith(StrictCode(src), Metavm.USE_STRICT + Metavm.USE_STRICT)
        ==> StartsWith(src, Metavm.USE_STRICT + Metavm.USE_STRICT)
  {
  }

  /**
   * The source's first line is reported as line 1: `vm.Script` numbers the
   * compiled text from line 1, the source starts right after the prefix, and
   * `lineOffset` takes off the line the prefix added, if any.
   */
  lemma FirstLineReported(src: string)
    ensures StartsWith(StrictCode(src), Metavm.UseStrict(src))
    ensures 1 + Metavm.Newlines(Metavm.UseStrict(src)) + LineOffset(src) == 1
  {
    var strict := Metavm.UseStrict(src);
    Metavm.PrefixStarts(strict, src);
    if strict == "" {
      Metavm.BreakFree(strict);
    } else {
      Metavm.DirectiveLines(strict);
    }
  }

  /**
   * The file name defaults to the script name and a caller's `filename`
   * overrides it, the line offset is always the computed one, and without a
   * `context` option the script runs in `EMPTY_CONTEXT`.
   */
  lemma ScriptFields(host: Host, name: string, src: string, options: ScriptArgs)
    requires WellFormed(options.props)
    ensures var r := NewScript(host, name, src, options);
      r.Ok? ==>
        r.value.name == name && r.value.script.text == StrictCode(src)
        && Get(r.value.script.options, "lineOffset") == Num(LineOffset(src))
        && Get(r.value.script.options, "filename")
           == (if HasKey(options.props, "filename") then Get(options.props, "filename") else Str(name))
        && r.value.context == (if options.context.Some? then options.context.value else EmptyContext)
  {
    Metavm.ScriptOptionsOverride(name, options.props, LineOffset(src), "lineOffset");
    Metavm.ScriptOptionsOverride(name, options.props, LineOffset(src), "filename");
  }

  /**
   * The run options are always `RUN_OPTIONS`: two runtimes that agree on
   * every run under those options build the same script, whatever the
   * caller's options say.
   */
  lemma RunOptionsFixed(host: Host, other: Host, name: string, src: string, options: ScriptArgs)
    requires forall code, o, c :: other.run(code, o, c, RunOptions()) == host.run(code, o, c, RunOptions())
    ensures NewScript(other, name, src, options) == NewScript(host, name, src, options)
    ensures Get(RunOptions(), "timeout") == Num(5000) && Get(RunOptions(), "displayErrors") == Bool(false)
  {
  }

  /** A `MetaScript` of lib/vm.js */
  class MetaScript {
    var name: string
    var script: Metavm.Code
    var context: Context
    var exports: Value

    constructor (name: string)
      ensures this.name == name && script == Metavm.Code("", []) && context == EmptyContext && exports == Undefined
    {
      this.name := name;
      script := Metavm.Code("", []);
      context := EmptyContext;
      exports := Undefined;
    }

    function Fields(): Script
      reads this
    {
      Script(name, script, context, exports)
    }
  }

  /** The constructor up to the point where it runs the script (lib/vm.js:37-43) */
  method PrepareScript(name: string, src: string, options: ScriptArgs) returns (ms: MetaScript)
    ensures fresh(ms) && ms.Fields() == Prepare(name, src, options)
  {
    var strict := StartsWith(src, Metavm.USE_STRICT);
    var code := if strict then src else Metavm.USE_STRICT + src;
    var lineOffset := if strict then 0 else -1;
    ms := new MetaScript(name);
    var scriptOptions := Metavm.ScriptOptions(name, options.props, lineOffset);
    ms.script := Metavm.Code(code, scriptOptions);
    ms.context := if options.context.Some? then options.context.value else CreateContext(Undefined, Bool(false));
  }

  /** `new MetaScript(name, src, options)` and `createScript` (lib/vm.js:36-48) */
  method CreateScript(host: Host, name: string, src: string, options: ScriptArgs) returns (r: Metavm.Result<MetaScript>)
    ensures r.Fail? <==> NewScript(host, name, src, options).Fail?
    ensures r.Fail? ==> r.error == NewScript(host, name, src, options).error
    ensures r.Ok? ==> fresh(r.value) && r.value.Fields() == NewScript(host, name, src, options).value
  {
    var ms := PrepareScript(name, src, options);
    var ran := host.run(ms.script.text, ms.script.options, ms.context, RunOptions());
    if ran.Fail? {
      return Metavm.Fail(ran.error);
    }
    ms.exports := ran.value;
    return Metavm.Ok(ms);
  }

  // ---------------------------------------------------------------------
  // `metarequire` (lib/vm.js:50-59)

  /** What a call of the function `metarequire(context)` returns */
  datatype Required = Binding(value: Value) | Loaded(script: Script) | NotLoaded

  function MetaRequire(host: Host, context: Context, specifier: string): (r: Required) {
    if Has(context, specifier) then Binding(Lookup(host, context, specifier))
    else
      match host.readFile(specifier)
      case Fail(_) => NotLoaded
      case Ok(src) =>
        match NewScript(host, specifier, src, ScriptArgs([], Some(context)))
        case Fail(_) => NotLoaded
        case Ok(s) => Loaded(s)
  }

  /** A name the context binds is answered from the context, whatever the files and the runtime would do */
  lemma BindingFirst(host: Host, other: Host, context: Context, specifier: string)
    requires Has(context, specifier) && other.global == host.global
    ensures MetaRequire(host, context, specifier) == Binding(Lookup(host, context, specifier))
    ensures MetaRequire(other, context, specifier) == MetaRequire(host, context, specifier)
  {
  }

  /**
   * Otherwise the file named `specifier` is run as a script in the same
   * context, and a failed read or a failed run yields `undefined`.
   */
  lemma LoadedInSameContext(host: Host, context: Context, specifier: string)
    requires !Has(context, specifier)
    ensures var r := MetaRequire(host, context, specifier);
      (host.readFile(specifier).Fail? ==> r == NotLoaded)
      && (host.readFile(specifier).Ok? ==>
            var built := NewScript(host, specifier, host.readFile(specifier).value, ScriptArgs([], Some(context)));
            (built.Fail? ==> r == NotLoaded)
            && (built.Ok? ==> r.Loaded? && r.script.name == specifier && r.script.context == context
                              && r.script.script.text == StrictCode(host.readFile(specifier).value)))
  {
  }

  /** What the method returns: the loaded script is an object */
  datatype Answer = Found(value: Value) | Instance(script: MetaScript) | Missing

  /** The function `metarequire(context)` returns */
  class MetaRequireClosure {
    const host: Host
    const context: Context

    constructor (host: Host, context: Context)
      ensures this.host == host && this.context == context
    {
      this.host := host;
      this.context := context;
    }

    /** `(specifier) => ...` */
    method Call(specifier: string) returns (r: Answer)
      ensures match MetaRequire(host, context, specifier)
        case Binding(v) => r == Found(v)
        case NotLoaded => r == Missing
        case Loaded(s) => r.Instance? && fresh(r.script) && r.script.Fields() == s
    {
      if Has(context, specifier) {
        return Found(Lookup(host, context, specifier));
      }
      var src := host.readFile(specifier);
      if src.Fail? {
        return Missing;
      }
      var script := CreateScript(host, specifier, src.value, ScriptArgs([], Some(context)));
      if script.Fail? {
        return Missing;
      }
      return Instance(script.value);
    }
  }
}
