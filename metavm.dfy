/**
 * The script loader of metavm (metavm.js): how a `MetaScript` shapes its
 * source before compiling it, which defaults its fields take, and the
 * capability-gated `require` it hands to CommonJS modules.
 *
 * Everything the loader asks of Node -- `path.*`, `require.resolve`, the
 * file system, compiling and running code in a context, and calling the
 * CommonJS closure the guest code evaluates to -- is a field of `Host`.
 * Code run inside a context is therefore opaque: a nested `require` made by
 * guest code is the guest's business, and what it throws comes back through
 * `Host.run` or `Host.call`.
 */
module Metavm {
  import opened Text
  import opened JsValues

  // ---------------------------------------------------------------------
  // Constants (metavm.js:8-23, 75-79)

  const USE_STRICT: string := "'use strict';\n"
  const SRC_BEFORE: string := "((exports, require, " + "module, __filename, " + "__dirname) => { "
  const SRC_AFTER: string := "\n});"
  const BLOCK_BEFORE: string := "{\n"
  const BLOCK_AFTER: string := "\n}"
  /** `'.' + path.sep` on a POSIX host */
  const CURDIR: string := "./"
  const RUN_TIMEOUT: int := 1000

  const METARHIA: int := 1
  const COMMONJS: int := 2
  const ECMA: int := 3

  // ---------------------------------------------------------------------
  // Errors, results, contexts

  /** `MetavmError` is the loader's own class; any other error is named by its constructor */
  datatype Error = MetavmError(message: string) | JsError(name: string, message: string)

  datatype Result<T> = Ok(value: T) | Fail(error: Error)

  /**
   * A `vm` context: the three module-level singletons, or an object that
   * `vm.createContext` contextified with the given options.
   */
  datatype Context =
    | EmptyContext
    | CommonContext
    | NodeContext
    | Contextified(sandbox: Value, options: seq<Prop>)

  /** `CONTEXT_OPTIONS`: no code generation from strings, no WebAssembly */
  function ContextOptions(): seq<Prop> {
    [Prop("codeGeneration", Obj([Prop("strings", Bool(false)), Prop("wasm", Bool(false))]))]
  }

  /** `createContext(context, preventEscape = false)` (metavm.js:69-73) */
  function CreateContext(context: Value, preventEscape: Value): (r: Context)
    ensures context.Undefined? <==> r == EmptyContext
    ensures !context.Undefined? ==>
      r.Contextified? && r.sandbox == context
      && Get(r.options, "codeGeneration") == Get(ContextOptions(), "codeGeneration")
      && (HasKey(r.options, "microtaskMode") <==> Truthy(preventEscape))
      && (Truthy(preventEscape) ==> Get(r.options, "microtaskMode") == Str("afterEvaluate"))
  {
    if context.Undefined? then EmptyContext
    else
      var options := if Truthy(preventEscape) then [Prop("microtaskMode", Str("afterEvaluate"))] else [];
      GetSpread(ContextOptions(), options, "codeGeneration");
      GetSpread(ContextOptions(), options, "microtaskMode");
      Contextified(context, Spread(ContextOptions(), options))
  }

  // ---------------------------------------------------------------------
  // What the loader needs from Node

  /** The closure variables of a `require` (metavm.js:133-134) plus the `this.access` it checks against */
  datatype RequireState = RequireState(
    owner: seq<Prop>,
    context: Context,
    moduleType: Value,
    dirname: string,
    relative: string,
    access: seq<Prop>)

  /** `module.exports` and the original `exports` object after the CommonJS closure returned */
  datatype CommonModule = CommonModule(moduleExports: Value, exports: Value)

  datatype Host = Host(
    cwd: string,
    /** `path.join(p)` */
    join: string -> string,
    /** `path.resolve(dirname, relative, file)` */
    resolve: (string, string, string) -> string,
    /** `path.relative(from, to)` */
    relative: (string, string) -> string,
    /** `path.dirname(p)` */
    dirname: string -> string,
    /** `path.basename(p, ext)` */
    basename: (string, string) -> string,
    /** `require.resolve(name)` */
    requireResolve: string -> Result<string>,
    /** `require(name)` of a Node built-in */
    builtin: string -> Result<Value>,
    /** reading a file as UTF-8 */
    readFile: string -> Result<string>,
    /** `new vm.Script(code, scriptOptions).runInContext(context, runOptions)` */
    run: (string, seq<Prop>, Context, seq<Prop>) -> Result<Value>,
    /** `closure(exports, require, module, __filename, __dirname)` with a fresh `exports` */
    call: (Value, RequireState, string, string) -> Result<CommonModule>)

  // ---------------------------------------------------------------------
  // Source shaping (metavm.js:75-85, 99-103)

  /** `useStrict(src)`: the directive to prepend, or nothing when `src` already starts with it */
  function UseStrict(src: string): (r: string)
    ensures r == "" || r == USE_STRICT
    ensures r == "" <==> StartsWith(src, USE_STRICT)
  {
    if StartsWith(src, USE_STRICT) then "" else USE_STRICT
  }

  /** `wrapSource(src)` */
  function WrapSource(src: string): string {
    SRC_BEFORE + src + SRC_AFTER
  }

  /** The code compiled for a module: a function wrapper for CommonJS, a block otherwise */
  function Shape(common: bool, src: string): string {
    if common then WrapSource(src) else BLOCK_BEFORE + src + BLOCK_AFTER
  }

  function Before(common: bool): string {
    if common then SRC_BEFORE else BLOCK_BEFORE
  }

  function After(common: bool): string {
    if common then SRC_AFTER else BLOCK_AFTER
  }

  /** Strips the wrapper `Shape` added, if it is there */
  function Unshape(common: bool, code: string): Option<string> {
    var b, a := Before(common), After(common);
    if |b| + |a| <= |code| && code[..|b|] == b && code[|code| - |a|..] == a
    then Some(code[|b|..|code| - |a|])
    else None
  }

  /** The wrapper is fixed text around the source, so the source comes back out, and only it does */
  lemma ShapeRoundTrip(common: bool, src: string, code: string)
    ensures Unshape(common, Shape(common, src)) == Some(src)
    ensures Unshape(common, code) == Some(src) ==> Shape(common, src) == code
  {
    var b, a := Before(common), After(common);
    var c := Shape(common, src);
    assert c == b + src + a;
    assert c[..|b|] == b && c[|c| - |a|..] == a && c[|b|..|c| - |a|] == src;
    if Unshape(common, code) == Some(src) {
      assert code == code[..|b|] + code[|b|..|code| - |a|] + code[|code| - |a|..];
    }
  }

  /** The text handed to `vm.Script` */
  function Compiled(common: bool, src: string): string {
    UseStrict(src) + Shape(common, src)
  }

  /** The wrappers open with `(` and `{`, never with the directive's quote */
  lemma WrapperStart(before: string)
    requires before == SRC_BEFORE || before == BLOCK_BEFORE
    ensures |before| > 0 && (before[0] == '(' || before[0] == '{')
  {
    if before == SRC_BEFORE {
      assert before[0] == "((exports, require, "[0];
    }
  }

  lemma DirectiveStart(strict: string)
    requires strict == USE_STRICT
    ensures |strict| > 0 && strict[0] == '\''
  {
  }

  /** A shaped source opens with its wrapper, so never with the directive's first character */
  lemma ShapeStart(common: bool, src: string)
    ensures |Shape(common, src)| > 0 && Shape(common, src)[0] != USE_STRICT[0]
  {
    var before := Before(common);
    assert Shape(common, src) == before + (src + After(common));
    WrapperStart(before);
    DirectiveStart(USE_STRICT);
  }

  /** Prepending `p` to a text that does not open like `p` puts `p` there exactly once */
  lemma PrependOnce(p: string, x: string)
    requires |p| > 0 && |x| > 0 && x[0] != p[0]
    ensures !StartsWith(x, p) && !StartsWith(x, p + p)
    ensures StartsWith(p + x, p) && !StartsWith(p + x, p + p)
  {
    assert (p + x)[..|p|] == p;
    assert (p + x)[|p|] == x[0];
    assert (p + p)[0] == p[0] && (p + p)[|p|] == p[0];
  }

  /**
   * The directive is prepended exactly when the source lacks it, so the
   * compiled text starts with it exactly then, and never starts with it
   * twice. A source that already starts with it keeps it inside the
   * wrapper, so the compiled text itself does not start with it.
   */
  lemma StrictAtMostOnce(common: bool, src: string)
    ensures StartsWith(Compiled(common, src), USE_STRICT) <==> !StartsWith(src, USE_STRICT)
    ensures !StartsWith(Compiled(common, src), USE_STRICT + USE_STRICT)
  {
    var shaped := Shape(common, src);
    ShapeStart(common, src);
    PrependOnce(USE_STRICT, shaped);
    if StartsWith(src, USE_STRICT) {
      assert Compiled(common, src) == shaped;
    } else {
      assert Compiled(common, src) == USE_STRICT + shaped;
    }
  }

  /** `lineOffset`: one line less for the directive, whatever the module type */
  function LineOffset(strict: string): int {
    if strict == "" then -1 else -2
  }

  /** The number of line breaks in a text */
  function Newlines(s: string): nat {
    multiset(s)['\n']
  }

  lemma BreakFree(s: string)
    requires '\n' !in s
    ensures Newlines(s) == 0
  {
  }

  lemma OneBreak(s: string)
    requires '\n' !in s
    ensures Newlines(s + "\n") == 1
  {
    assert multiset(s + "\n") == multiset(s) + multiset("\n");
  }

  lemma WrapperLines(before: string)
    requires before == SRC_BEFORE
    ensures Newlines(before) == 0
  {
    assert '\n' !in "((exports, require, " && '\n' !in "module, __filename, " && '\n' !in "__dirname) => { ";
    assert '\n' !in before;
    BreakFree(before);
  }

  lemma BlockLines(before: string)
    requires before == BLOCK_BEFORE
    ensures Newlines(before) == 1
  {
    assert before == "{" + "\n";
    OneBreak("{");
  }

  lemma DirectiveLines(strict: string)
    requires strict == USE_STRICT
    ensures Newlines(strict) == 1
  {
    assert strict == "'use strict';" + "\n";
    OneBreak("'use strict';");
  }

  lemma NewlinesConcat(a: string, b: string)
    ensures Newlines(a + b) == Newlines(a) + Newlines(b)
  {
    assert multiset(a + b) == multiset(a) + multiset(b);
  }

  /**
   * Where the source's first line is reported. `vm.Script` numbers the
   * compiled text from line 1 and adds `lineOffset`; everything in front of
   * the source is the directive and the wrapper's opening, so the source's
   * first line is line `1 + Newlines(prefix)` of the compiled text. The block
   * opens with a line of its own (`BlockLines`), so a METARHIA source's first
   * line is reported as line 1. The CommonJS wrapper opens on the source's own
   * first line (`WrapperLines`), yet the offset takes that line off as well,
   * so a COMMONJS source's first line is reported as line 0.
   */
  lemma FirstLineReported(common: bool, src: string)
    ensures var prefix := UseStrict(src) + Before(common);
      StartsWith(Compiled(common, src), prefix)
      && 1 + Newlines(prefix) + LineOffset(UseStrict(src)) == (if common then 0 else 1)
  {
    var strict, before := UseStrict(src), Before(common);
    CompiledSplit(common, src);
    PrefixStarts(strict + before, src + After(common));
    if strict == "" {
      BreakFree(strict);
    } else {
      DirectiveLines(strict);
    }
    if common {
      WrapperLines(before);
    } else {
      BlockLines(before);
    }
    NewlinesConcat(strict, before);
  }

  lemma CompiledSplit(common: bool, src: string)
    ensures Compiled(common, src) == (UseStrict(src) + Before(common)) + (src + After(common))
  {
    if common {
      Regroup(UseStrict(src), SRC_BEFORE, src, SRC_AFTER);
    } else {
      Regroup(UseStrict(src), BLOCK_BEFORE, src, BLOCK_AFTER);
    }
  }

  lemma Regroup(a: string, b: string, c: string, d: string)
    ensures a + (b + c + d) == (a + b) + (c + d)
  {
  }

  lemma PrefixStarts(prefix: string, rest: string)
    ensures StartsWith(prefix + rest, prefix)
  {
    assert (prefix + rest)[..|prefix|] == prefix;
  }

  /** `addExt(name)`: a name whose lower-cased form ends in `.js` is kept, any other gets `.js` */
  function AddExt(name: string): (r: string)
    ensures EndsWith(Lower(r), ".js")
    ensures r == name <==> EndsWith(Lower(name), ".js")
    ensures r != name ==> r == name + ".js"
  {
    if EndsWith(Lower(name), ".js") then name
    else
      LowerConcat(name, ".js");
      assert Lower(".js") == ".js";
      name + ".js"
  }

  lemma AddExtIdempotent(name: string)
    ensures AddExt(AddExt(name)) == AddExt(name)
  {
  }

  /** `{filename: name, ...options, lineOffset}` */
  function ScriptOptions(name: string, options: seq<Prop>, lineOffset: int): seq<Prop> {
    Put(Spread([Prop("filename", Str(name))], options), "lineOffset", Num(lineOffset))
  }

  /** A caller's `filename` wins over the name; a caller's `lineOffset` never does; the rest is the caller's */
  lemma ScriptOptionsOverride(name: string, options: seq<Prop>, lineOffset: int, k: string)
    requires WellFormed(options)
    ensures Get(ScriptOptions(name, options, lineOffset), k) ==
      if k == "lineOffset" then Num(lineOffset)
      else if HasKey(options, k) then Get(options, k)
      else if k == "filename" then Str(name)
      else Undefined
  {
    var base := [Prop("filename", Str(name))];
    GetPut(Spread(base, options), "lineOffset", Num(lineOffset), k);
    GetSpread(base, options, k);
  }

  /** `{...RUN_OPTIONS, ...options}` */
  function RunOptions(options: seq<Prop>): seq<Prop> {
    Spread([Prop("timeout", Num(RUN_TIMEOUT))], options)
  }

  lemma RunOptionsDefault(options: seq<Prop>, k: string)
    requires WellFormed(options)
    ensures Get(RunOptions(options), k) ==
      if HasKey(options, k) then Get(options, k)
      else if k == "timeout" then Num(RUN_TIMEOUT)
      else Undefined
  {
    GetSpread([Prop("timeout", Num(RUN_TIMEOUT))], options, k);
  }

  // ---------------------------------------------------------------------
  // The constructor (metavm.js:90-109) and `commonExports` (111-119)

  /** The options argument: its own properties, and the `context` it names, if any */
  datatype LoadOptions = LoadOptions(props: seq<Prop>, context: Option<Context>)

  /** What `new vm.Script` receives */
  datatype Code = Code(text: string, options: seq<Prop>)

  /** The fields of a `MetaScript`, in the order the constructor sets them */
  datatype Script = Script(
    name: string,
    dirname: string,
    relative: string,
    moduleType: Value,
    access: seq<Prop>,
    script: Code,
    context: Context,
    exports: Value)

  /** `options.x || fallback` for an option that is a string */
  function StringOr(v: Value, fallback: string): string {
    if v.Str? && v.s != "" then v.s else fallback
  }

  /** `options.type || MODULE_TYPE.METARHIA` */
  function TypeOr(v: Value): (r: Value)
    ensures Truthy(r) && (r == Num(ECMA) ==> v == r)
  {
    if Truthy(v) then v else Num(METARHIA)
  }

  /** `options.access || {}`, read as the list of its keys */
  function AccessOf(v: Value): seq<Prop> {
    if v.Obj? then v.props else []
  }

  /** `module.exports || exports` */
  function CommonExports(m: CommonModule): (r: Value)
    ensures Truthy(m.moduleExports) ==> r == m.moduleExports
    ensures !Truthy(m.moduleExports) ==> r == m.exports
  {
    if Truthy(m.moduleExports) then m.moduleExports else m.exports
  }

  /**
   * The fields the constructor sets before it runs anything: everything but
   * `exports`, which is still `undefined` here
   */
  function Prepare(host: Host, name: string, src: string, options: LoadOptions): Script {
    var o := options.props;
    var moduleType := TypeOr(Get(o, "type"));
    var strict := UseStrict(src);
    Script(
      name,
      StringOr(Get(o, "dirname"), host.cwd),
      StringOr(Get(o, "relative"), "."),
      moduleType,
      AccessOf(Get(o, "access")),
      Code(strict + Shape(moduleType == Num(COMMONJS), src), ScriptOptions(name, o, LineOffset(strict))),
      if options.context.Some? then options.context.value else EmptyContext,
      Undefined)
  }

  /** The `require` state a script's fields give a fresh closure */
  function RequireOf(s: Script): RequireState {
    RequireState(s.access, s.context, s.moduleType, s.dirname, s.relative, s.access)
  }

  /**
   * `new MetaScript(name, src, options)`: the fields it ends with, or what it
   * throws. Past the ECMA check, the script is built exactly when its run
   * succeeds and, for CommonJS, the call of the closure the run gave succeeds
   * too; `exports` is the run's value, or `module.exports || exports` after
   * that call. A failed run or call is passed on as it is.
   */
  function NewScript(host: Host, name: string, src: string, options: LoadOptions): (r: Result<Script>)
    ensures r.Ok? ==> r.value == Prepare(host, name, src, options).(exports := r.value.exports)
    ensures Get(options.props, "type") != Num(ECMA) ==>
      var s := Prepare(host, name, src, options);
      var ran := host.run(s.script.text, s.script.options, s.context, RunOptions(options.props));
      var common := s.moduleType == Num(COMMONJS);
      var called := if ran.Ok? then host.call(ran.value, RequireOf(s), name, host.dirname(name)) else Fail(ran.error);
      (r.Ok? <==> ran.Ok? && (common ==> called.Ok?))
      && (r.Ok? ==> r.value.exports == if common then CommonExports(called.value) else ran.value)
      && (ran.Fail? ==> r == Fail(ran.error))
      && (ran.Ok? && common && called.Fail? ==> r == Fail(called.error))
  {
    if Get(options.props, "type") == Num(ECMA) then
      Fail(JsError("Error", "ECMAScript modules is not supported"))
    else
      var s := Prepare(host, name, src, options);
      match host.run(s.script.text, s.script.options, s.context, RunOptions(options.props))
      case Fail(e) => Fail(e)
      case Ok(v) =>
        if s.moduleType != Num(COMMONJS) then Ok(s.(exports := v))
        else
          match host.call(v, RequireOf(s), name, host.dirname(name))
          case Fail(e) => Fail(e)
          case Ok(m) => Ok(s.(exports := CommonExports(m)))
  }

  /** `type === ECMA` throws before any field is set and before anything is compiled or run */
  lemma EcmaRejected(host: Host, other: Host, name: string, src: string, options: LoadOptions)
    requires Get(options.props, "type") == Num(ECMA)
    ensures NewScript(host, name, src, options) == Fail(JsError("Error", "ECMAScript modules is not supported"))
    ensures NewScript(other, name, src, options) == NewScript(host, name, src, options)
  {
  }

  /** Without options the fields take their defaults, and the context is `EMPTY_CONTEXT` */
  lemma ScriptDefaults(host: Host, name: string, src: string)
    ensures var r := NewScript(host, name, src, LoadOptions([], None));
      r.Ok? ==>
        (r.value.dirname == host.cwd && r.value.relative == "." && r.value.moduleType == Num(METARHIA)
         && r.value.access == [] && r.value.context == EmptyContext
         && r.value.script.text == UseStrict(src) + (BLOCK_BEFORE + src + BLOCK_AFTER)
         && Get(r.value.script.options, "filename") == Str(name)
         && Get(r.value.script.options, "lineOffset") == Num(LineOffset(UseStrict(src))))
  {
    var options := LoadOptions([], None);
    var p := Prepare(host, name, src, options);
    assert Get([], "type") == Undefined && Get([], "dirname") == Undefined;
    assert Get([], "relative") == Undefined && Get([], "access") == Undefined;
    assert p.moduleType == Num(METARHIA) && p.access == [] && p.context == EmptyContext;
    assert p.script.text == UseStrict(src) + Shape(false, src);
    ScriptOptionsOverride(name, [], LineOffset(UseStrict(src)), "filename");
    ScriptOptionsOverride(name, [], LineOffset(UseStrict(src)), "lineOffset");
  }

  /** A script that was built never has type ECMA, and its type is truthy */
  lemma ScriptType(host: Host, name: string, src: string, options: LoadOptions)
    ensures var r := NewScript(host, name, src, options);
      r.Ok? ==> Truthy(r.value.moduleType) && r.value.moduleType != Num(ECMA)
  {
  }

  // ---------------------------------------------------------------------
  // `checkAccess` (metavm.js:121-130)

  /** The access key `key` lets `dir` through: its joined form is a string prefix of `dir` */
  predicate Grants(join: string -> string, key: string, dir: string) {
    StartsWith(dir, join(key))
  }

  /** The index of the first key, in key order, that grants `dir` */
  function FirstGrant(join: string -> string, access: seq<Prop>, dir: string): (r: Option<nat>)
    ensures r.Some? ==> r.value < |access| && Grants(join, access[r.value].key, dir)
    ensures r.Some? ==> forall j :: 0 <= j < r.value ==> !Grants(join, access[j].key, dir)
    ensures r.None? ==> forall j :: 0 <= j < |access| ==> !Grants(join, access[j].key, dir)
  {
    if access == [] then None
    else if Grants(join, access[0].key, dir) then Some(0)
    else
      match FirstGrant(join, access[1..], dir)
      case None => None
      case Some(i) => Some(i + 1)
  }

  /** `checkAccess(name)`: the value of the first granting key, `null` when none grants */
  function CheckAccess(host: Host, access: seq<Prop>, name: string): Value {
    match FirstGrant(host.join, access, host.join(name))
    case None => Null
    case Some(i) => Get(access, access[i].key)
  }

  lemma CheckAccessValue(host: Host, access: seq<Prop>, name: string)
    requires WellFormed(access)
    ensures var dir := host.join(name);
      (forall j :: 0 <= j < |access| ==> !Grants(host.join, access[j].key, dir)) ==> CheckAccess(host, access, name) == Null
    ensures var dir := host.join(name);
      forall i :: 0 <= i < |access| && Grants(host.join, access[i].key, dir)
        && (forall j :: 0 <= j < i ==> !Grants(host.join, access[j].key, dir))
        ==> CheckAccess(host, access, name) == access[i].value
  {
    var dir := host.join(name);
    var f := FirstGrant(host.join, access, dir);
    if f.Some? {
      GetAt(access, f.value);
    }
  }

  /** The match is on text, not on path segments: a key `fs` lets `fsx` through */
  lemma PrefixNotSegment(host: Host, v: Value)
    requires host.join("fs") == "fs" && host.join("fsx") == "fsx"
    ensures CheckAccess(host, [Prop("fs", v)], "fsx") == v
  {
    assert Grants(host.join, "fs", "fsx");
  }

  // ---------------------------------------------------------------------
  // `require` (metavm.js:135-163)

  function AccessDenied(specifier: string): Error {
    MetavmError("Access denied '" + specifier + "'")
  }

  function CannotFind(specifier: string): Error {
    MetavmError("Cannot find module '" + specifier + "'")
  }

  /** The `catch`: a `MetavmError` goes through, anything else becomes "Cannot find module" */
  function Rethrown(e: Error, specifier: string): (r: Error)
    ensures r.MetavmError?
    ensures e.MetavmError? ==> r == e
    ensures !e.MetavmError? ==> r == CannotFind(specifier)
  {
    if e.MetavmError? then e else CannotFind(specifier)
  }

  /** A bare (npm or built-in) specifier has no `.`; any other is a path */
  predicate IsBare(specifier: string) {
    !Contains(specifier, '.')
  }

  /** What is decided before the `try`: a substitute, a refusal, or a name to load */
  datatype Decision = Substitute(value: Value) | Denied | Granted(name: string, npm: bool)

  function Decide(host: Host, st: RequireState, specifier: string): Decision {
    var lib := CheckAccess(host, st.owner, specifier);
    if IsInstanceOfObject(lib) then Substitute(lib)
    else if IsBare(specifier) then
      if Truthy(lib) then Granted(specifier, true) else Denied
    else
      var name := host.resolve(st.dirname, st.relative, AddExt(specifier));
      var lib2 := CheckAccess(host, st.owner, CURDIR + host.relative(st.dirname, name));
      if IsInstanceOfObject(lib2) then Substitute(lib2)
      else if Truthy(lib2) then Granted(name, false)
      else Denied
  }

  /** The options a nested load passes: `{context, type, dirname, relative, access}` */
  function NestedOptions(st: RequireState): LoadOptions {
    LoadOptions(
      [Prop("type", st.moduleType), Prop("dirname", Str(st.dirname)), Prop("relative", Str(st.relative)),
       Prop("access", Obj(st.access))],
      Some(st.context))
  }

  /** The closure variables once `require.resolve` found a file that is not a built-in */
  function Moved(host: Host, st: RequireState, absolute: string, npm: bool): RequireState {
    var relative := host.dirname(absolute);
    if npm then st.(dirname := relative, access := Put(st.access, CURDIR, Bool(true)), relative := ".")
    else st.(relative := relative)
  }

  /** The answer of one `require` call and the closure variables it leaves behind */
  datatype Answer = Answer(result: Result<Value>, state: RequireState)

  /**
   * The closure variables after the `try` block: moved as soon as a file
   * that is not a built-in is resolved, before it is read
   */
  function StateAfter(host: Host, st: RequireState, name: string, npm: bool): RequireState {
    match host.requireResolve(name)
    case Fail(_) => st
    case Ok(absolute) => if npm && absolute == name then st else Moved(host, st, absolute, npm)
  }

  /** The `try` block, for a granted name */
  function Load(host: Host, st: RequireState, specifier: string, name: string, npm: bool): (r: Answer)
    ensures r.state == StateAfter(host, st, name, npm)
  {
    match host.requireResolve(name)
    case Fail(e) => Answer(Fail(Rethrown(e, specifier)), st)
    case Ok(absolute) =>
      if npm && absolute == name then
        match host.builtin(name)
        case Fail(e) => Answer(Fail(Rethrown(e, specifier)), st)
        case Ok(v) => Answer(Ok(v), st)
      else
        var moved := Moved(host, st, absolute, npm);
        match host.readFile(absolute)
        case Fail(e) => Answer(Fail(Rethrown(e, specifier)), moved)
        case Ok(src) =>
          match NewScript(host, name, src, NestedOptions(moved))
          case Fail(e) => Answer(Fail(Rethrown(e, specifier)), moved)
          case Ok(s) => Answer(Ok(s.exports), moved)
  }

  /** `require(module)` */
  function Require(host: Host, st: RequireState, specifier: string): (r: Answer)
    ensures r.state.owner == st.owner && r.state.context == st.context && r.state.moduleType == st.moduleType
    ensures r.result.Fail? ==> r.result.error.MetavmError?
  {
    match Decide(host, st, specifier)
    case Substitute(v) => Answer(Ok(v), st)
    case Denied => Answer(Fail(AccessDenied(specifier)), st)
    case Granted(name, npm) => Load(host, st, specifier, name, npm)
  }

  /** Two hosts that agree on `path.*` but may differ in everything that loads code */
  ghost predicate SamePaths(h1: Host, h2: Host) {
    (forall p :: h1.join(p) == h2.join(p))
    && (forall d, r, f :: h1.resolve(d, r, f) == h2.resolve(d, r, f))
    && (forall d, f :: h1.relative(d, f) == h2.relative(d, f))
  }

  lemma {:induction false} FirstGrantSamePaths(j1: string -> string, j2: string -> string, access: seq<Prop>, dir: string)
    requires forall p :: j1(p) == j2(p)
    ensures FirstGrant(j1, access, dir) == FirstGrant(j2, access, dir)
  {
    if access != [] {
      FirstGrantSamePaths(j1, j2, access[1..], dir);
    }
  }

  lemma CheckAccessSamePaths(host: Host, other: Host, access: seq<Prop>, name: string)
    requires SamePaths(host, other)
    ensures CheckAccess(other, access, name) == CheckAccess(host, access, name)
  {
    FirstGrantSamePaths(host.join, other.join, access, host.join(name));
  }

  /** What is decided before the `try` depends on `path.*` and the access map only */
  lemma DecideSamePaths(host: Host, other: Host, st: RequireState, specifier: string)
    requires SamePaths(host, other)
    ensures Decide(other, st, specifier) == Decide(host, st, specifier)
  {
    CheckAccessSamePaths(host, other, st.owner, specifier);
    var name := host.resolve(st.dirname, st.relative, AddExt(specifier));
    assert other.resolve(st.dirname, st.relative, AddExt(specifier)) == name;
    var key := CURDIR + host.relative(st.dirname, name);
    assert CURDIR + other.relative(st.dirname, name) == key;
    CheckAccessSamePaths(host, other, st.owner, key);
  }

  /**
   * An object or function granted for the verbatim specifier is returned
   * as it is, before the specifier is classified; nothing is resolved or
   * read, so the answer does not depend on how loading would go.
   */
  lemma SubstituteFirst(host: Host, other: Host, st: RequireState, specifier: string)
    requires IsInstanceOfObject(CheckAccess(host, st.owner, specifier))
    requires SamePaths(host, other)
    ensures Require(host, st, specifier) == Answer(Ok(CheckAccess(host, st.owner, specifier)), st)
    ensures Require(other, st, specifier) == Require(host, st, specifier)
  {
    DecideSamePaths(host, other, st, specifier);
  }

  /** A bare specifier is loaded by its own text; any other is resolved with `addExt` and checked again */
  lemma Classification(host: Host, st: RequireState, specifier: string)
    ensures var d := Decide(host, st, specifier);
      d.Granted? ==> (d.npm <==> !Contains(specifier, '.'))
    ensures var d := Decide(host, st, specifier);
      d.Granted? && d.npm ==> d.name == specifier && Truthy(CheckAccess(host, st.owner, specifier))
    ensures var d := Decide(host, st, specifier);
      var name := host.resolve(st.dirname, st.relative, AddExt(specifier));
      d.Granted? && !d.npm ==>
        d.name == name && Truthy(CheckAccess(host, st.owner, CURDIR + host.relative(st.dirname, name)))
  {
  }

  /** A refusal throws "Access denied" with the original specifier, before anything is resolved */
  lemma DeniedBeforeResolution(host: Host, other: Host, st: RequireState, specifier: string)
    requires Decide(host, st, specifier).Denied? && SamePaths(host, other)
    ensures Require(host, st, specifier) == Answer(Fail(MetavmError("Access denied '" + specifier + "'")), st)
    ensures Require(other, st, specifier) == Require(host, st, specifier)
  {
    DecideSamePaths(host, other, st, specifier);
  }

  /**
   * Loading a package moves the closure to the package directory, resets
   * `relative` to `.` and widens a COPY of the access map with `./`. These
   * variables keep their new values whether or not the file can then be
   * read and run.
   */
  lemma PackageWidening(host: Host, st: RequireState, specifier: string, absolute: string, k: string)
    requires Decide(host, st, specifier) == Granted(specifier, true)
    requires host.requireResolve(specifier) == Ok(absolute) && absolute != specifier
    ensures var r := Require(host, st, specifier);
      r.state.dirname == host.dirname(absolute) && r.state.relative == "."
      && Get(r.state.access, k) == (if k == CURDIR then Bool(true) else Get(st.access, k))
      && r.state.owner == st.owner
  {
    assert Require(host, st, specifier).state == StateAfter(host, st, specifier, true);
    GetPut(st.access, CURDIR, Bool(true), k);
  }

  /** A relative load keeps `dirname` and the access map and sets `relative` to the file's directory */
  lemma RelativeMove(host: Host, st: RequireState, specifier: string, name: string, absolute: string)
    requires Decide(host, st, specifier) == Granted(name, false)
    requires host.requireResolve(name) == Ok(absolute)
    ensures Require(host, st, specifier).state == st.(relative := host.dirname(absolute))
  {
  }

  /** The nested script gets the closure's context, type, directory, `relative` and access map */
  lemma NestedScriptFields(host: Host, st: RequireState, name: string, src: string)
    requires Truthy(st.moduleType) && st.moduleType != Num(ECMA) && st.dirname != "" && st.relative != ""
    ensures var r := NewScript(host, name, src, NestedOptions(st));
      r.Ok? ==> RequireOf(r.value) == st.(owner := st.access)
  {
    var o := NestedOptions(st).props;
    assert "type" != "relative" && "dirname" != "relative";
    assert "type" != "access" && "dirname" != "access" && "relative" != "access";
    assert Get(o, "type") == st.moduleType;
    assert Get(o, "dirname") == Str(st.dirname);
    assert Get(o[3..], "access") == Obj(st.access);
    assert Get(o[2..], "access") == Obj(st.access) && Get(o[2..], "relative") == Str(st.relative);
    assert Get(o[1..], "access") == Obj(st.access) && Get(o[1..], "relative") == Str(st.relative);
    assert Get(o, "relative") == Str(st.relative);
    assert Get(o, "access") == Obj(st.access);
  }

  /** What a granted load answers: a nested `MetavmError` as it is, any other failure as "Cannot find module" */
  lemma LoadErrors(host: Host, st: RequireState, specifier: string, name: string, npm: bool, absolute: string, src: string)
    requires Decide(host, st, specifier) == Granted(name, npm)
    requires host.requireResolve(name) == Ok(absolute) && !(npm && absolute == name)
    requires host.readFile(absolute) == Ok(src)
    ensures var nested := NewScript(host, name, src, NestedOptions(Moved(host, st, absolute, npm)));
      var r := Require(host, st, specifier).result;
      (nested.Ok? ==> r == Ok(nested.value.exports))
      && (nested.Fail? && nested.error.MetavmError? ==> r == Fail(nested.error))
      && (nested.Fail? && !nested.error.MetavmError? ==> r == Fail(CannotFind(specifier)))
  {
  }

  /** A name that does not resolve is "Cannot find module" with the original specifier */
  lemma UnresolvedCannotFind(host: Host, st: RequireState, specifier: string, name: string, npm: bool, e: Error)
    requires Decide(host, st, specifier) == Granted(name, npm)
    requires host.requireResolve(name) == Fail(e) && !e.MetavmError?
    ensures Require(host, st, specifier) == Answer(Fail(MetavmError("Cannot find module '" + specifier + "'")), st)
  {
  }

  /** Node's own resolver, built-in loader and file reads never throw the loader's private error class */
  ghost predicate ForeignErrors(host: Host) {
    (forall n :: host.requireResolve(n).Fail? ==> !host.requireResolve(n).error.MetavmError?)
    && (forall n :: host.builtin(n).Fail? ==> !host.builtin(n).error.MetavmError?)
    && (forall n :: host.readFile(n).Fail? ==> !host.readFile(n).error.MetavmError?)
  }

  /**
   * Every failure of `require` is "Access denied" or "Cannot find module"
   * with the original specifier, or the very error a nested load threw
   */
  lemma RequireFailures(host: Host, st: RequireState, specifier: string)
    requires ForeignErrors(host)
    ensures var r := Require(host, st, specifier).result;
      r.Fail? ==>
        r.error == AccessDenied(specifier) || r.error == CannotFind(specifier)
        || exists name, npm, absolute, src ::
             Decide(host, st, specifier) == Granted(name, npm) && host.readFile(absolute) == Ok(src)
             && NewScript(host, name, src, NestedOptions(Moved(host, st, absolute, npm))) == Fail(r.error)
  {
    match Decide(host, st, specifier)
    case Substitute(_) =>
    case Denied =>
    case Granted(name, npm) =>
      var r := Load(host, st, specifier, name, npm).result;
      LoadFailures(host, st, specifier, name, npm);
      if r.Fail? && r.error != CannotFind(specifier) {
        var absolute, src :| host.readFile(absolute) == Ok(src)
          && NewScript(host, name, src, NestedOptions(Moved(host, st, absolute, npm))) == Fail(r.error);
        assert Decide(host, st, specifier) == Granted(name, npm);
      }
  }

  /** The `try` block fails with "Cannot find module" or with the nested load's own error */
  lemma LoadFailures(host: Host, st: RequireState, specifier: string, name: string, npm: bool)
    requires ForeignErrors(host)
    ensures var r := Load(host, st, specifier, name, npm).result;
      r.Fail? ==>
        r.error == CannotFind(specifier)
        || exists absolute, src :: host.readFile(absolute) == Ok(src)
             && NewScript(host, name, src, NestedOptions(Moved(host, st, absolute, npm))) == Fail(r.error)
  {
    var r := Load(host, st, specifier, name, npm).result;
    match host.requireResolve(name)
    case Fail(_) =>
    case Ok(absolute) =>
      if !(npm && absolute == name) {
        match host.readFile(absolute)
        case Fail(_) =>
        case Ok(src) =>
          var nested := NewScript(host, name, src, NestedOptions(Moved(host, st, absolute, npm)));
          if nested.Fail? && nested.error.MetavmError? {
            assert r.error == nested.error;
          }
      }
  }

  // ---------------------------------------------------------------------
  // `readScript` (metavm.js:170-178), past the file read

  /** `options?.filename ? options.filename : path.basename(filePath, '.js')` */
  function ScriptName(host: Host, filePath: string, options: LoadOptions): (r: string)
    ensures StringOr(Get(options.props, "filename"), "") != "" ==> r == Get(options.props, "filename").s
    ensures StringOr(Get(options.props, "filename"), "") == "" ==> r == host.basename(filePath, ".js")
  {
    StringOr(Get(options.props, "filename"), host.basename(filePath, ".js"))
  }

  function ReadScript(host: Host, filePath: string, options: LoadOptions): (r: Result<Script>)
    ensures host.readFile(filePath) == Ok("") ==> r == Fail(JsError("SyntaxError", "File " + filePath + " is empty"))
    ensures host.readFile(filePath).Fail? ==> r == Fail(host.readFile(filePath).error)
    ensures host.readFile(filePath).Ok? && host.readFile(filePath).value != "" ==>
      r == NewScript(host, ScriptName(host, filePath, options), host.readFile(filePath).value, options)
  {
    match host.readFile(filePath)
    case Fail(e) => Fail(e)
    case Ok(src) =>
      if src == "" then Fail(JsError("SyntaxError", "File " + filePath + " is empty"))
      else NewScript(host, ScriptName(host, filePath, options), src, options)
  }

  // ---------------------------------------------------------------------
  // The objects

  /** A loaded script; the constructor sets the first five fields, `CreateScript` the rest */
  class MetaScript {
    var name: string
    var dirname: string
    var relative: string
    var moduleType: Value
    var access: seq<Prop>
    var script: Code
    var context: Context
    var exports: Value

    constructor (name: string, dirname: string, relative: string, moduleType: Value, access: seq<Prop>)
      ensures this.name == name && this.dirname == dirname && this.relative == relative
      ensures this.moduleType == moduleType && this.access == access
      ensures script == Code("", []) && context == EmptyContext && exports == Undefined
    {
      this.name := name;
      this.dirname := dirname;
      this.relative := relative;
      this.moduleType := moduleType;
      this.access := access;
      script := Code("", []);
      context := EmptyContext;
      exports := Undefined;
    }

    function Fields(): Script
      reads this
    {
      Script(name, dirname, relative, moduleType, access, script, context, exports)
    }

    /** `createRequire()`: a closure over the script's current fields */
    method CreateRequire(host: Host) returns (r: RequireClosure)
      ensures fresh(r) && r.host == host && r.script == this
      ensures r.State() == RequireState(access, context, moduleType, dirname, relative, access)
    {
      r := new RequireClosure(host, this);
    }
  }

  /** The function `createRequire` returns, with the `let` variables it reassigns */
  class RequireClosure {
    const host: Host
    const script: MetaScript
    const context: Context
    const moduleType: Value
    var dirname: string
    var relative: string
    var access: seq<Prop>

    constructor (host: Host, script: MetaScript)
      ensures this.host == host && this.script == script
      ensures context == script.context && moduleType == script.moduleType
      ensures dirname == script.dirname && relative == script.relative && access == script.access
    {
      this.host := host;
      this.script := script;
      context := script.context;
      moduleType := script.moduleType;
      dirname := script.dirname;
      relative := script.relative;
      access := script.access;
    }

    function State(): RequireState
      reads this, script
    {
      RequireState(script.access, context, moduleType, dirname, relative, access)
    }

    /** `require(module)`: answers as `Require` does and updates the closure variables to its new state */
    method Call(specifier: string) returns (r: Result<Value>)
      modifies this
      ensures Answer(r, State()) == Require(host, old(State()), specifier)
    {
      var name := specifier;
      var lib := CheckAccess(host, script.access, name);
      if IsInstanceOfObject(lib) {
        return Ok(lib);
      }
      var npm := !Contains(name, '.');
      if !npm {
        name := host.resolve(dirname, relative, AddExt(name));
        lib := CheckAccess(host, script.access, CURDIR + host.relative(dirname, name));
        if IsInstanceOfObject(lib) {
          return Ok(lib);
        }
      }
      if !Truthy(lib) {
        return Fail(AccessDenied(specifier));
      }
      var resolved := host.requireResolve(name);
      if resolved.Fail? {
        return Fail(Rethrown(resolved.error, specifier));
      }
      var absolute := resolved.value;
      if npm && absolute == name {
        var internal := host.builtin(name);
        if internal.Fail? {
          return Fail(Rethrown(internal.error, specifier));
        }
        return Ok(internal.value);
      }
      relative := host.dirname(absolute);
      if npm {
        dirname := relative;
        access := Put(access, CURDIR, Bool(true));
        relative := ".";
      }
      var src := host.readFile(absolute);
      if src.Fail? {
        return Fail(Rethrown(src.error, specifier));
      }
      var nested := CreateScript(host, name, src.value, NestedOptions(State()));
      if nested.Fail? {
        return Fail(Rethrown(nested.error, specifier));
      }
      return Ok(nested.value.exports);
    }
  }

  /** `commonExports(closure)`: runs the CommonJS closure with a fresh `require` */
  method RunCommonExports(host: Host, ms: MetaScript, closure: Value) returns (r: Result<Value>)
    ensures match host.call(closure, RequireOf(ms.Fields()), ms.name, host.dirname(ms.name))
      case Fail(e) => r == Fail(e)
      case Ok(m) => r == Ok(CommonExports(m))
  {
    var require := ms.CreateRequire(host);
    var filename := ms.name;
    var dirname := host.dirname(filename);
    var called := host.call(closure, require.State(), filename, dirname);
    if called.Fail? {
      return Fail(called.error);
    }
    var m := called.value;
    return Ok(if Truthy(m.moduleExports) then m.moduleExports else m.exports);
  }

  /** The constructor up to the point where it runs the compiled script (metavm.js:91-105) */
  method PrepareScript(host: Host, name: string, src: string, options: LoadOptions) returns (ms: MetaScript)
    ensures fresh(ms) && ms.Fields() == Prepare(host, name, src, options)
  {
    var o := options.props;
    ghost var prepared := Prepare(host, name, src, options);
    ms := new MetaScript(name, StringOr(Get(o, "dirname"), host.cwd), StringOr(Get(o, "relative"), "."),
                             TypeOr(Get(o, "type")), AccessOf(Get(o, "access")));
    assert ms.moduleType == prepared.moduleType;
    var common := ms.moduleType == Num(COMMONJS);
    var strict := UseStrict(src);
    var code := Shape(common, src);
    var lineOffset := if strict == "" then -1 else -2;
    var scriptOptions := ScriptOptions(name, o, lineOffset);
    ms.script := Code(strict + code, scriptOptions);
    assert ms.script == prepared.script;
    ms.context := if options.context.Some? then options.context.value else EmptyContext;
    assert ms.Fields() == prepared;
  }

  /** `new MetaScript(name, src, options)` and `createScript` (metavm.js:90-109, 168) */
  method CreateScript(host: Host, name: string, src: string, options: LoadOptions) returns (r: Result<MetaScript>)
    ensures r.Fail? <==> NewScript(host, name, src, options).Fail?
    ensures r.Fail? ==> r.error == NewScript(host, name, src, options).error
    ensures r.Ok? ==> fresh(r.value) && r.value.Fields() == NewScript(host, name, src, options).value
  {
    var o := options.props;
    if Get(o, "type") == Num(ECMA) {
      return Fail(JsError("Error", "ECMAScript modules is not supported"));
    }
    var ms := PrepareScript(host, name, src, options);
    ghost var prepared := Prepare(host, name, src, options);
    var common := ms.moduleType == Num(COMMONJS);
    var ran := host.run(ms.script.text, ms.script.options, ms.context, RunOptions(o));
    if ran.Fail? {
      return Fail(ran.error);
    }
    if common {
      var exports := RunCommonExports(host, ms, ran.value);
      assert RequireOf(ms.Fields()) == RequireOf(prepared);
      if exports.Fail? {
        return Fail(exports.error);
      }
      ms.exports := exports.value;
    } else {
      ms.exports := ran.value;
    }
    assert ms.Fields() == prepared.(exports := ms.exports);
    return Ok(ms);
  }

  /** `readScript(filePath, options)` past the file read */
  method ReadScriptFile(host: Host, filePath: string, options: LoadOptions) returns (r: Result<MetaScript>)
    ensures r.Fail? <==> ReadScript(host, filePath, options).Fail?
    ensures r.Fail? ==> r.error == ReadScript(host, filePath, options).error
    ensures r.Ok? ==> fresh(r.value) && r.value.Fields() == ReadScript(host, filePath, options).value
  {
    var read := host.readFile(filePath);
    if read.Fail? {
      return Fail(read.error);
    }
    if read.value == "" {
      return Fail(JsError("SyntaxError", "File " + filePath + " is empty"));
    }
    var name := if StringOr(Get(options.props, "filename"), "") != "" then Get(options.props, "filename").s
                else host.basename(filePath, ".js");
    r := CreateScript(host, name, read.value, options);
  }
}
