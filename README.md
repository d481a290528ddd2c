# metavm in Dafny

A model of the decision logic of metavm, a small loader that runs JavaScript
in Node `vm` contexts. It has four parts.

- **`metavm.js`** is the loader itself and is modelled in `metavm.dfy` (module `Metavm`).
  - `createContext`, and how `MetaScript` shapes a source:
    - the `'use strict';\n` directive is added at most once, and the line offset follows from it;
    - METARHIA sources are wrapped in a block and COMMONJS sources in a function wrapper;
    - ECMA modules are rejected.
  - `checkAccess`: the first access key, in key order, whose joined path is a string prefix of the joined name.
  - The `require` closure:
    - a substitute value for the verbatim specifier comes first;
    - a specifier is bare exactly when it has no `.`;
    - relative specifiers get `addExt` and a second check;
    - the two error kinds, "Access denied" and "Cannot find module";
    - loading a package widens a copy of the access map with `./`;
    - the closure variables it reassigns persist between calls.
  - The name chosen by `readScript`.
- **`dist/options.js`** is `normalizeOptions` of the browser shim, modelled in `options.dfy` (module `Options`).
  - It deletes the options that the defaults lack, then fills in the absent ones.
  - It recurses into object-typed options with its arguments the other way round.
  - A reference definition, a fold over the default entries, says what a call does to both objects and when it throws.
  - The in-place methods are proved to do exactly that.
- **`dist/vm.js`** is the browser stand-in for Node's `vm`, data side only, modelled in `browser_vm.dfy` (module `BrowserVm`):
  - `duplicate`;
  - the option shaping;
  - the context-name counter;
  - the rule that writes an iframe's window back into the context;
  - the iframe registry;
  - the timeout and exception branches of `runScript`;
  - `createContext` and `runInContext`.
- **`lib/vm.js`** is the older loader, modelled in `legacy_vm.dfy` (module `LegacyVm`):
  - its `createContext`;
  - `MetaScript`, with a strict prefix whose line offset is 0 or -1 and fixed run options;
  - `metarequire`, which answers from the context before it reads a file and turns every failure into `undefined`.

`js_values.dfy` holds the shared vocabulary. Module `Text` has string helpers and decimal rendering. Module `JsValues` has JavaScript values:
- An object is a list of own properties with distinct keys.
- The list has no prototype and is never shared or cyclic.
- Functions are opaque.

Everything the program asks of its host is a field of a `Host` or `Browser` datatype, with the function types Dafny gives it. That covers:
- the `path` functions;
- `require.resolve` and built-in modules;
- file reads;
- compiling and running a script;
- calling a CommonJS closure;
- the browser running a script in an iframe.

In these places metavm behaves in ways a reader might not expect. The model follows the code:
- **Bare or relative.** A specifier is bare exactly when it contains no `.`. It is not decided by path separators (metavm.js:139).
- **Matching access keys.** The first key in key order whose joined form is a prefix of the joined name decides, and its value is returned. There is no longest-prefix or any-match rule. So a key with a falsy value can deny a name that a later key would allow (metavm.js:121-130).
- **Package widening.** Loading a package adds the key `./` to a copy of the access map. It does not add the package's root directory (metavm.js:152).
- **Swallowed failures.** `metarequire` in lib/vm.js turns every failure into `undefined` (lib/vm.js:52-58).
- **CommonJS line numbers.** `lineOffset` in metavm.js is -1 or -2 whatever the module type (metavm.js:102). The block wrapper opens with a line of its own, so a METARHIA source's first line is reported as line 1. The CommonJS wrapper opens on the source's own first line, so a COMMONJS source's first line is reported as line 0.
- **Shared iframe ids.** An iframe's id is `iframe-vm:` followed by `Date.now()` (dist/vm.js:67). Two runs within one millisecond share an id, and `iframes.set` replaces the first iframe's registry entry with the second's (dist/vm.js:113).

## Model

| member | source | states |
|---|---|---|
| Metavm.CreateContext | metavm.js:69-73 | `undefined` gives `EMPTY_CONTEXT` and nothing else does. Any other value is contextified itself, with `CONTEXT_OPTIONS`' `codeGeneration`. A truthy `preventEscape` adds `microtaskMode: 'afterEvaluate'`; a falsy one adds nothing. |
| Metavm.UseStrict | metavm.js:79-80 | The prefix is empty exactly when the source already starts with the directive, and is the directive otherwise. |
| Metavm.ShapeRoundTrip | metavm.js:75-77 | Stripping the fixed wrapper from the shaped code gives the source back, for both module types. |
| Metavm.StrictAtMostOnce | metavm.js:99-104 | The compiled text starts with the directive exactly when the source did not. It never starts with it twice. |
| Metavm.FirstLineReported | metavm.js:99-104 | The compiled text starts with the directive prefix and the wrapper's opening, and the source follows. With `lineOffset` added, the source's first line is reported as line 1 for METARHIA and line 0 for COMMONJS. |
| Metavm.AddExt | metavm.js:82-85 | The name is kept exactly when its lower-cased form ends in `.js`; otherwise `.js` is appended. The result always ends in `.js` case-insensitively. |
| Metavm.AddExtIdempotent | metavm.js:82-85 | Applying `addExt` twice gives the same result as applying it once. |
| Metavm.ScriptOptionsOverride | metavm.js:103 | In the script options, `lineOffset` is always the computed one, and a caller's `filename` wins over the name. Every other key is the caller's. |
| Metavm.RunOptionsDefault | metavm.js:106 | The run options are the caller's options, and `timeout` is 1000 when the caller gives none. |
| Metavm.TypeOr | metavm.js:97 | The module type is truthy, and it is ECMA only if the caller asked for ECMA. |
| Metavm.CommonExports | metavm.js:118 | A truthy `module.exports` is the result; otherwise the original `exports` object is. |
| Metavm.NewScript | metavm.js:90-119 | A built script has the fields set before the run. Past the ECMA check, it is built exactly when the run succeeds and, for COMMONJS, the closure call succeeds too. `exports` is the run's value, or `module.exports \|\| exports` after the call for COMMONJS. A failed run or call is passed on unchanged. |
| Metavm.EcmaRejected | metavm.js:91-93 | Type ECMA throws "ECMAScript modules is not supported", whatever the host would compile or run. |
| Metavm.ScriptDefaults | metavm.js:94-105 | With no options, the fields are as follows: dirname is the cwd, relative is `.`, the type is METARHIA, access is empty and the context is `EMPTY_CONTEXT`. The code is the block-wrapped source after the prefix, `filename` is the name and `lineOffset` is computed. |
| Metavm.ScriptType | metavm.js:91-97 | A built script never has type ECMA. |
| Metavm.FirstGrant | metavm.js:123-127 | It finds the first key in key order whose joined form is a prefix of the joined name, and no key before that one grants. None is found only when no key grants. |
| Metavm.CheckAccessValue | metavm.js:121-130 | The result is the value of that first granting key, or `null` when no key grants. |
| Metavm.PrefixNotSegment | metavm.js:125 | Matching compares text, not path segments: key `fs` lets `fsx` through. |
| Metavm.Rethrown | metavm.js:159-161 | A `MetavmError` is rethrown as it is. Any other error becomes "Cannot find module" with the original specifier. |
| Metavm.Load | metavm.js:146-162 | The closure variables after the `try` block move as soon as a file that is not a built-in has been resolved, even when the read or the nested load then fails. |
| Metavm.Require | metavm.js:135-163 | For a string specifier, a call never changes the owner's access map, the context or the type, and every failure is a `MetavmError`. |
| Metavm.DecideSamePaths | metavm.js:136-145 | Whether a specifier is substituted, denied or granted depends only on `path.*` and the access map, never on resolving, reading or running. |
| Metavm.SubstituteFirst | metavm.js:137-138 | An object or function granted for the verbatim specifier is returned unchanged, before classification and without any read. |
| Metavm.Classification | metavm.js:139-143 | A granted specifier is loaded as a package exactly when it has no `.`. A bare one is loaded by its own text. Any other is resolved with `addExt` and checked again as `./` plus its relative path. |
| Metavm.DeniedBeforeResolution | metavm.js:145 | A refusal throws "Access denied" with the original specifier and leaves the state unchanged, whatever resolving would do. |
| Metavm.PackageWidening | metavm.js:149-154 | After a package load, `dirname` is the package directory and `relative` is `.`. The access map is a copy with `./` set to true, and the owner's map is unchanged. |
| Metavm.RelativeMove | metavm.js:149 | A relative load only moves `relative` to the file's directory. |
| Metavm.NestedScriptFields | metavm.js:156-157 | The nested script gets the closure's context, type, directory, `relative` and access map. |
| Metavm.LoadErrors | metavm.js:155-161 | After a successful read, the result is the nested script's exports, its own `MetavmError`, or "Cannot find module" for any other failure. |
| Metavm.UnresolvedCannotFind | metavm.js:146-161 | A name that does not resolve gives "Cannot find module" with the original specifier, and the state is unchanged. |
| Metavm.RequireFailures | metavm.js:135-163 | Every failure is "Access denied" or "Cannot find module" with the original specifier, or the very error a nested load threw. |
| Metavm.LoadFailures | metavm.js:146-162 | The `try` block fails with "Cannot find module" or with the nested load's own error. |
| Metavm.ScriptName | metavm.js:173-175 | A non-empty string `filename` option is the name; otherwise the name is the file's base name without `.js`. |
| Metavm.ReadScript | metavm.js:170-178 | A read failure is passed on, and an empty file is a SyntaxError naming the path. Otherwise the script is built under the derived name. |
| Metavm.MetaScript.constructor | metavm.js:94-98 | The first five fields are set as given, and the rest are still empty. |
| Metavm.MetaScript.CreateRequire | metavm.js:132-134 | A fresh closure starts from the script's current `dirname`, `relative` and access map. |
| Metavm.RequireClosure.constructor | metavm.js:133-134 | The closure captures the context and type, and copies `dirname`, `relative` and `access`. |
| Metavm.RequireClosure.Call | metavm.js:135-163 | Each call answers as `Require` does and leaves the closure variables in `Require`'s new state, so the changes persist for later calls. |
| Metavm.RunCommonExports | metavm.js:111-119 | A closure failure is passed on. Otherwise the result is `module.exports` or the original `exports`. |
| Metavm.PrepareScript | metavm.js:94-105 | The constructor sets the fields before the run exactly as the reference definition does. |
| Metavm.CreateScript | metavm.js:90-109 | The object's fields, or the error thrown, are exactly those of `NewScript`. |
| Metavm.ReadScriptFile | metavm.js:170-178 | The object's fields, or the error thrown, are exactly those of `ReadScript`. |
| Options.Pruned | dist/options.js:1-7 | The keys kept are exactly the options' keys that the template has, in their order. |
| Options.GetPruned | dist/options.js:1-7 | A key the template has keeps its option value. Any other key reads `undefined`. |
| Options.RemoveRedundantOptions | dist/options.js:1-7 | Deleting in place leaves exactly `Pruned` of the old options. |
| Options.PruneStep | dist/options.js:2-5 | One turn of the deletion loop deletes the key exactly when the template lacks it. |
| Options.StepLeavesOtherKeys | dist/options.js:14-23 | One turn of the loop changes nothing under any other key of either object. |
| Options.StepAt | dist/options.js:15-22 | One turn has three cases. An absent option takes the default. An object-typed option becomes the template normalised against the default, and the default object is normalised as the target. Any other option is left alone. |
| Options.StepKeys | dist/options.js:15-22 | One turn adds the key when the option was absent or of object type, and no other key. |
| Options.FillLeavesLaterKeys | dist/options.js:14-23 | The loop has not touched the keys of later default entries. |
| Options.FillKeys | dist/options.js:13-19 | After the loop, the options' keys are the pruned keys plus the default keys handled so far. They are at most that set when the loop threw. |
| Options.NormalizePrunes | dist/options.js:13 | After a call, every key of the options is a key of the defaults, even when the call threw. |
| Options.NormalizeKeys | dist/options.js:12-24 | A call that does not throw leaves the options with exactly the defaults' keys. |
| Options.FillAt | dist/options.js:14-23 | After the loop, each default key holds the value the single turn for it gives, on both objects. |
| Options.NormalizeValues | dist/options.js:12-24 | The value a normalised call leaves under each default key, on both objects. |
| Options.FillFlat | dist/options.js:14-23 | With no object-typed option, the loop never recurses and never throws, and it leaves the defaults unchanged. |
| Options.NormalizeFlatIdempotent | dist/options.js:12-24 | On flat inputs, a second call with the result changes nothing. |
| Options.FillNoChange | dist/options.js:14-23 | Options that already hold every default key with a non-object value go through the loop unchanged. |
| Options.FillThrown | dist/options.js:14-23 | Once a nested call has thrown, the rest of the loop changes nothing. |
| Options.StringsFalseKept | dist/options.js:20-21 | Against the user's `{strings: false}`, the default `{strings: true}` stays as it is. |
| Options.EmptyPrunesDefault | dist/options.js:20-21 | Against the user's `{}`, the default's `strings` is deleted. |
| Options.CodeGenerationFalseSurvives | dist/vm.js:219-224 | A user's `codeGeneration: {strings: false}` survives normalisation and gains the default `name`. |
| Options.EmptyCodeGenerationStaysEmpty | dist/vm.js:219-224 | A user's `codeGeneration: {}` stays empty, so code generation ends up blocked. The defaults object loses its `strings`. |
| Options.FillContextDefaults | dist/vm.js:219-224 | Without a `name` option, the first turn over the context defaults puts the generated name in. |
| Options.NormalizeOptions | dist/options.js:12-24 | The in-place call leaves both objects, and whether it threw, exactly as `NormalizeObjects` says. |
| Options.NormalizeNested | dist/options.js:12-24 | The same for a nested call on arbitrary values. A `null` option, or an `undefined` or `null` default, throws. |
| BrowserVm.Duplicate | dist/vm.js:162-175 | The copy has exactly the original's own enumerable entries, in order. |
| BrowserVm.DuplicateKeepsIntegrity | dist/vm.js:162-175 | When every property is enumerable, the copy is frozen, sealed and extensible exactly when the original is. |
| BrowserVm.PrimitiveDuplicatesFrozen | dist/vm.js:162-175 | A primitive, `undefined` included, duplicates to a frozen object. It holds a string's characters by index and nothing else. |
| BrowserVm.DuplicateDropsHiddenProperty | dist/vm.js:162-175 | A non-enumerable property is not copied. So a non-extensible object whose only property is hidden duplicates to a frozen empty object, although the original is not frozen. |
| BrowserVm.GetOptionsOrFilename | dist/vm.js:211-216 | A string `s` becomes `{filename: s}`, and any other value is returned as it is. |
| BrowserVm.RunOptionsDefaults | dist/vm.js:238-242 | Without options, a run gets timeout 0 and file name `evalmachine.`. |
| BrowserVm.RunOptionsFilename | dist/vm.js:211-216 | A string option is the file name, and the timeout is 0. |
| BrowserVm.RunOptionsGeneral | dist/vm.js:238-242 | Object options keep exactly the keys `timeout` and `filename`. Each holds the caller's value when it was defined, and the default otherwise. |
| BrowserVm.ContextNamesDistinct | dist/vm.js:10-12 | Different counter values give different context names. |
| BrowserVm.GetWriteBack | dist/vm.js:92-100 | A window key reaches the context exactly when the context has it, or the context was extensible and the key is not a default window key. Every other key keeps its value. |
| BrowserVm.WriteBackKeys | dist/vm.js:92-100 | The context's keys after a write-back are its old keys plus, when it was extensible, the window's non-default keys. |
| BrowserVm.SealedContextGainsNoKey | dist/vm.js:72-74 | A context that was not extensible gains no key. |
| BrowserVm.Register | dist/vm.js:113 | `iframes.set` adds the iframe and replaces any entry with the same id. Entries with other ids stay, and nothing else appears. The registry grows by one exactly when the id was not registered. |
| BrowserVm.Unregister | dist/vm.js:120 | `iframes.delete` keeps exactly the entries with another id. |
| BrowserVm.TimeoutZeroDeletes | dist/vm.js:141-149 | With timeout 0, the iframe leaves the registry and the document after the run, no timer is set, and the script's value is returned. |
| BrowserVm.ExceptionDeletesAndRethrows | dist/vm.js:154-157 | A script that throws has its iframe removed, and its error is rethrown. |
| BrowserVm.NonZeroTimeout | dist/vm.js:143-153 | For any other timeout, a run that completes leaves the iframe registered and the context unchanged. A removal is scheduled exactly when the timeout is positive and not `Number.MAX_VALUE`. |
| BrowserVm.FrozenNeverWrittenBack | dist/vm.js:109-132 | A context frozen when its sandbox was made is never written back. That holds for a run, a sandbox update and a timer firing. |
| BrowserVm.FireWritesCurrentWindow | dist/vm.js:151 | A timer whose iframe is still in the document writes back the window as it is when the timer fires, not as the script's run left it. The iframe then leaves the registry and the document, and one timer fewer is pending. |
| BrowserVm.TimeoutZeroWritesBack | dist/vm.js:145-148 | After a run with timeout 0, the context is the write-back of the window the script left. |
| BrowserVm.Sandbox.constructor | dist/vm.js:107-109 | A sandbox starts with the context's entries, no iframes and no timers. It records whether the context was frozen and whether it was extensible. |
| BrowserVm.Sandbox.UpdateFromIframe | dist/vm.js:92-100 | The loop over the window's entries leaves the context as `WriteBack` says. An iframe no longer in the document writes nothing. |
| BrowserVm.Sandbox.DeleteIframe | dist/vm.js:116-122 | The context is written back unless it was frozen, and the iframe leaves the registry and the document. |
| BrowserVm.Sandbox.UpdateContext | dist/vm.js:124-133 | Each registered iframe, in registry order, writes back its window as it is at that moment, unless the context was frozen. |
| BrowserVm.Sandbox.AddNewIframe | dist/vm.js:110-115 | The new iframe's id comes from the clock, its window is the fresh window with the context's entries assigned, and it joins the document and the registry. |
| BrowserVm.Sandbox.Settle | dist/vm.js:141-157 | After the script has run, the sandbox ends in the state `SettleSpec` gives, for each of the timeout and exception branches. |
| BrowserVm.Sandbox.RunScript | dist/vm.js:134-158 | The result and the new sandbox state are those of `RunScriptSpec`. |
| BrowserVm.Sandbox.FireTimer | dist/vm.js:151 | A timer firing removes that timer and deletes its iframe, writing back the iframe's window as it is at that moment. |
| BrowserVm.NormalizeRunOptions | dist/vm.js:238-242 | Normalising the run options in place gives `RunOptionsOf`. |
| BrowserVm.BrowserVm.constructor | dist/vm.js:9-10 | The counter starts at 0, and there are no contexts. |
| BrowserVm.BrowserVm.GetDefaultContextName | dist/vm.js:12 | It returns `VM Context n` for the current counter `n` and increments the counter. |
| BrowserVm.BrowserVm.CreateContext | dist/vm.js:218-230 | It uses a fresh name. If normalising the options throws, nothing is registered. Otherwise a new sandbox holds the duplicate's entries and status and the normalised options. The argument may be an object or a primitive such as `undefined`. |
| BrowserVm.BrowserVm.RunInContext | dist/vm.js:232-245 | A value that is not a context throws a TypeError with the exact "contextifiedObject" message, naming its `typeof`. Otherwise the context's sandbox runs the script with the normalised options. |
| LegacyVm.CreateContext | lib/vm.js:30-33 | Any falsy value gives `EMPTY_CONTEXT`. A truthy one is contextified, with `microtaskMode: 'afterEvaluate'` exactly when `preventEscape` is truthy. |
| LegacyVm.PreventEscapeAlone | lib/vm.js:30-33 | Only the truthiness of `preventEscape` decides the context options. |
| LegacyVm.Lookup | lib/vm.js:51 | A name the context does not have reads `undefined`. |
| LegacyVm.NewScript | lib/vm.js:36-45 | A built script has the fields set before the run. It is built exactly when the run under `RUN_OPTIONS` succeeds, and `exports` is the run's value. A failed run is passed on unchanged. |
| LegacyVm.CodeStrictOnce | lib/vm.js:37-38 | The compiled code always starts with the directive. It is the source when the source already starts with the directive, and the directive followed by the source otherwise. It is never doubled by the prefix. |
| LegacyVm.FirstLineReported | lib/vm.js:37-39 | The compiled code starts with the prefix. With `lineOffset` added, the source's first line is reported as line 1, whether or not the directive was prepended. |
| LegacyVm.ScriptFields | lib/vm.js:40-43 | `filename` defaults to the name and a caller's `filename` overrides it. `lineOffset` is always the computed one. Without a `context` option, the context is `EMPTY_CONTEXT`. |
| LegacyVm.RunOptionsFixed | lib/vm.js:42-44 | Only `RUN_OPTIONS` (timeout 5000, `displayErrors` false) ever reach the run, whatever the caller's options say. |
| LegacyVm.MetaScript.constructor | lib/vm.js:40 | The name is set first, and the other fields are still empty. |
| LegacyVm.PrepareScript | lib/vm.js:37-43 | The fields before the run are exactly those `Prepare` gives. |
| LegacyVm.CreateScript | lib/vm.js:36-48 | The object's fields, or the error thrown, are exactly those of `NewScript`. |
| LegacyVm.BindingFirst | lib/vm.js:51 | A name the context has is answered with its binding, whatever the files and the runtime would do. |
| LegacyVm.LoadedInSameContext | lib/vm.js:52-58 | Otherwise the file is run as a script of that name in the same context. A failed read or a failed run gives `undefined`. |
| LegacyVm.MetaRequireClosure.constructor | lib/vm.js:50 | The closure keeps the context it was made for. |
| LegacyVm.MetaRequireClosure.Call | lib/vm.js:50-59 | A call answers as `MetaRequire` says. A loaded script is returned as a fresh script object, not as its exports. |

## Left out

- **Compiling and running scripts.** `vm.Script`, `runInContext`, timeouts and `microtaskMode` scheduling are a host function that returns exports or an error. The same goes for running a CommonJS closure and for a browser running a script in an iframe.
- **File and path functions.** `path.*`, `require.resolve`, built-in modules and file reads are host functions. `readScript`'s read is asynchronous I/O, so only its empty-file check and name derivation are modelled.
- **Preset contexts.** The contents of `COMMON_CONTEXT` and `NODE_CONTEXT` in metavm.js are not modelled. In lib/vm.js only the names `COMMON_CONTEXT` binds are modelled, and their values come from the host.
- **JavaScript values.**
  - Objects have no prototype chain, so `in`, `Reflect.has` and `Reflect.get` see own properties only.
  - Objects are never shared or cyclic.
  - Integer-like keys keep insertion order, not the engine's numeric order.
  - Numbers are integers, so floating point and `NaN` are not modelled.
  - `toLocaleLowerCase` lower-cases ASCII only.
  - Functions have no own properties. A string primitive's characters appear as properties only where `duplicate` copies them.
- **Comparing a string timeout.** `timeout > 0` for a string timeout is a browser function.
- Options.NormalizeOptions: requires well-formed objects with distinct keys and no cycles, because a cyclic options object makes the JavaScript recurse without end.
- BrowserVm.BrowserVm.CreateContext: requires well-formed, acyclic options, for the same reason.
- BrowserVm.BrowserVm.RunInContext: requires well-formed, acyclic options, for the same reason.
- BrowserVm.DuplicateKeepsIntegrity: requires every own property to be enumerable. `BrowserVm.DuplicateDropsHiddenProperty` shows that the frozen status is not kept otherwise.
- **The proxy traps of `createContextProxy` (dist/vm.js:177-209).** These are language interception hooks. A context is a handle, and reading it does not trigger the sandbox update. The `has` trap evaluates `target in p` with its operands reversed; that is not modelled.
- **Iframe plumbing.**
  - Blocking `eval` and `Function` in an iframe (dist/vm.js:56-64, 78-83) depends on engine semantics. Only the `blockCodeGeneration` flag handed to the iframe is modelled.
  - `setFilenameForAllErrors` is not modelled. Its error constructors are non-enumerable window properties, which the window entries leave out.
  - `createIframeElement` and the DOM are not modelled. The document is the set of attached iframe serial numbers.
  - `Date.now()` is a parameter.
- **The rest of the shim.** `runInNewContext`, `runInThisContext` and `Script` in dist/vm.js are not part of this model. They only compose the modelled operations, or use the host's `eval`.
- **Rejecting a non-object context.** `vm.createContext` rejects `null` and primitives with a TypeError.
  - In metavm.js (metavm.js:69-72) every value except `undefined` reaches `vm.createContext`, so `Metavm.CreateContext` models `null`, `0`, `""` and `false` as contextified too.
  - In lib/vm.js (lib/vm.js:30-33) a truthy primitive such as `1` or `"x"` reaches it, and `LegacyVm.CreateContext` models it as contextified.
- **The `context` option in script and run options.** The caller's options are spread into the options of `vm.Script` in both loaders (metavm.js:103, lib/vm.js:41), and in metavm.js into the run options too (metavm.js:106). The model keeps `context` apart, so it is not among the keys of the options `ScriptOptions` and `RunOptions` build.
- Metavm.NewScript: a truthy `dirname` or `relative` that is not a string, and a truthy `access` that is not an object, are replaced by the fallback (`StringOr`, `AccessOf`). In metavm.js:95-98 `||` keeps any truthy value. The model types these fields as a string and a property list. The options argument is an object, so `new MetaScript(name, src, null)` and `readScript(path, null)`, which throw a TypeError at `options.type` (metavm.js:91), are not modelled.
- Metavm.ScriptName: a truthy `filename` that is not a string, such as `1`, is the script's name in metavm.js:173-174. The model falls back to the file's base name, because a script name is a string.
- Metavm.Require: the specifier is a string. In metavm.js a non-string specifier, such as `require()` or `require(1)`, makes `path.join` throw a TypeError inside `checkAccess` (metavm.js:122, 136). That happens before the `try`, so the error escapes as it is, neither a `MetavmError` nor "Cannot find module".
- **Files outside the model.** `dist/metavm.mjs` (Web Worker messaging) and `lib/loader.js` (file I/O) are not part of this model.
