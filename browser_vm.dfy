/**
 * The browser stand-in for Node's `vm` module (dist/vm.js), data side only.
 *
 * A context is a shallow duplicate of the caller's object that keeps its
 * frozen, sealed and extensible status. Each script runs in a fresh hidden
 * iframe whose window starts with the context's entries; the iframe is kept
 * in a registry (a `Map` from iframe id, in insertion order) and removed
 * again at once (timeout 0), on an exception, or when its timer fires.
 * Removing an iframe, or touching the context, writes the window's entries
 * back into the context -- the keys the context already has, and, when it
 * was extensible, every key the window did not start with.
 *
 * The DOM is a map of window keys; running a script is a function of the
 * browser that returns a completion and the window as the script left it.
 */
module BrowserVm {
  import opened Text
  import opened JsValues
  import Options

  const FILENAME_DEFAULT: string := "evalmachine."
  const TIMEOUT_DEFAULT: int := 0
  const IFRAME_ID_PREFIX: string := "iframe-vm:"
  const CONTEXT_NAME_PREFIX: string := "VM Context "

  /** `Number.MAX_VALUE`, which is the integer (2^53 - 1) * 2^971 */
  const MAX_VALUE: int := 179769313486231570814527423731704356798070567525844996598917476803157260780028538760589558632766878171540458953514382464234321326889464182768467546703537516986049910576551282076245490090389328944075868508455133942304583236903222948165808559332123348274797826204144723168738177180919299881250404026184124858368

  // ---------------------------------------------------------------------
  // `duplicate` (dist/vm.js:162-175)

  /** An own data property with its attributes */
  datatype OwnProp = OwnProp(key: string, value: Value, enumerable: bool, writable: bool, configurable: bool)

  /** An object as `Object.isFrozen`, `isSealed` and `isExtensible` see it */
  datatype ObjectState = ObjectState(own: seq<OwnProp>, extensible: bool)

  predicate IsFrozen(o: ObjectState) {
    !o.extensible && forall i :: 0 <= i < |o.own| ==> !o.own[i].configurable && !o.own[i].writable
  }

  predicate IsSealed(o: ObjectState) {
    !o.extensible && forall i :: 0 <= i < |o.own| ==> !o.own[i].configurable
  }

  predicate AllEnumerable(o: ObjectState) {
    forall i :: 0 <= i < |o.own| ==> o.own[i].enumerable
  }

  /** `Object.entries(o)`: the own enumerable properties, in order */
  function Entries(own: seq<OwnProp>): (r: seq<Prop>)
    ensures |r| <= |own|
    ensures (forall i :: 0 <= i < |own| ==> own[i].enumerable) ==> |r| == |own|
  {
    if own == [] then []
    else (if own[0].enumerable then [Prop(own[0].key, own[0].value)] else []) + Entries(own[1..])
  }

  /** The properties `Object.assign` creates on a fresh object: writable, enumerable, configurable */
  function Plain(entries: seq<Prop>): (r: seq<OwnProp>)
    ensures |r| == |entries|
    ensures forall i :: 0 <= i < |r| ==> r[i].writable && r[i].configurable && r[i].enumerable
    ensures Entries(r) == entries
  {
    if entries == [] then []
    else
      var r := [OwnProp(entries[0].key, entries[0].value, true, true, true)] + Plain(entries[1..]);
      assert r[1..] == Plain(entries[1..]);
      r
  }

  /** Every property made non-configurable, and non-writable too unless `keepWritable` */
  function Restrict(own: seq<OwnProp>, keepWritable: bool): (r: seq<OwnProp>)
    ensures |r| == |own|
    ensures forall i :: 0 <= i < |r| ==>
      r[i] == own[i].(writable := keepWritable && own[i].writable, configurable := false)
    ensures Entries(r) == Entries(own)
  {
    if own == [] then []
    else
      var r := [own[0].(writable := keepWritable && own[0].writable, configurable := false)]
        + Restrict(own[1..], keepWritable);
      assert r[1..] == Restrict(own[1..], keepWritable);
      r
  }

  /** `Object.freeze` */
  function Freeze(o: ObjectState): ObjectState {
    ObjectState(Restrict(o.own, false), false)
  }

  /** `Object.seal` */
  function Seal(o: ObjectState): ObjectState {
    ObjectState(Restrict(o.own, true), false)
  }

  /** `Object.preventExtensions` */
  function PreventExtensions(o: ObjectState): ObjectState {
    o.(extensible := false)
  }

  /** `duplicate(object)`: a fresh copy of the entries, then the original's integrity level */
  function Duplicate(o: ObjectState): (r: ObjectState)
    ensures Entries(r.own) == Entries(o.own)
    ensures |r.own| == |Entries(o.own)|
  {
    var copy := ObjectState(Plain(Entries(o.own)), true);
    var frozen := if IsFrozen(o) then Freeze(copy) else copy;
    var sealed := if IsSealed(o) then Seal(frozen) else frozen;
    if !o.extensible then PreventExtensions(sealed) else sealed
  }

  /**
   * When every own property is enumerable, the duplicate is frozen, sealed
   * and extensible exactly when the original is.
   */
  lemma DuplicateKeepsIntegrity(o: ObjectState)
    requires AllEnumerable(o)
    ensures IsFrozen(Duplicate(o)) == IsFrozen(o)
    ensures IsSealed(Duplicate(o)) == IsSealed(o)
    ensures Duplicate(o).extensible == o.extensible
  {
  }

  /**
   * A property that is not enumerable is not copied, so a non-extensible
   * object whose only property is hidden duplicates to an empty
   * non-extensible object, which is frozen while the original is not.
   */
  lemma DuplicateDropsHiddenProperty()
    ensures var o := ObjectState([OwnProp("hidden", Num(1), false, true, true)], false);
      !IsFrozen(o) && !IsSealed(o) && IsFrozen(Duplicate(o)) && Entries(Duplicate(o).own) == []
  {
    var o := ObjectState([OwnProp("hidden", Num(1), false, true, true)], false);
    assert Entries(o.own) == [] + Entries([]);
  }

  /** A primitive value: anything but an object or a function */
  type PrimitiveValue = v: Value | !v.Obj? && !v.Func? witness Undefined

  /** What `duplicate` is handed: an object with its property attributes, or a primitive such as `undefined` */
  datatype ContextObject = Object(state: ObjectState) | Primitive(value: PrimitiveValue)

  /** A string's index properties: enumerable, neither writable nor configurable */
  function Indexed(s: string): (r: seq<OwnProp>)
    ensures |r| == |s|
    ensures forall i :: 0 <= i < |s| ==> r[i] == OwnProp(NatToString(i), Str([s[i]]), true, false, false)
    decreases |s|
  {
    if s == [] then []
    else Indexed(s[..|s| - 1]) + [OwnProp(NatToString(|s| - 1), Str([s[|s| - 1]]), true, false, false)]
  }

  /**
   * The argument as `Object.assign` and the integrity tests see it: a
   * primitive is frozen, and only a string has own enumerable properties,
   * its characters by index.
   */
  function AsObject(c: ContextObject): ObjectState {
    match c
    case Object(o) => o
    case Primitive(v) => ObjectState(if v.Str? then Indexed(v.s) else [], false)
  }

  lemma {:induction false} EntriesOfEnumerable(own: seq<OwnProp>)
    requires forall i :: 0 <= i < |own| ==> own[i].enumerable
    ensures |Entries(own)| == |own|
    ensures forall i :: 0 <= i < |own| ==> Entries(own)[i] == Prop(own[i].key, own[i].value)
  {
    if own != [] {
      EntriesOfEnumerable(own[1..]);
      assert Entries(own) == [Prop(own[0].key, own[0].value)] + Entries(own[1..]);
    }
  }

  /**
   * `duplicate` of a primitive, `undefined` included, is a frozen object
   * holding a string's characters by index and nothing else, so a sandbox
   * made from it never writes anything back (`FrozenNeverWrittenBack`).
   */
  lemma PrimitiveDuplicatesFrozen(v: PrimitiveValue)
    ensures var d := Duplicate(AsObject(Primitive(v)));
      IsFrozen(d)
      && |Entries(d.own)| == (if v.Str? then |v.s| else 0)
      && (v.Str? ==> forall i :: 0 <= i < |v.s| ==> Entries(d.own)[i] == Prop(NatToString(i), Str([v.s[i]])))
  {
    var o := AsObject(Primitive(v));
    DuplicateKeepsIntegrity(o);
    EntriesOfEnumerable(o.own);
  }

  // ---------------------------------------------------------------------
  // Options and names (dist/vm.js:10-20, 211-216, 234-245)

  /** `getOptionsOrFilename(opt)`: a string names the file, anything else is the options */
  function GetOptionsOrFilename(opt: Value): (r: Value)
    ensures opt.Str? ==> r == Obj([Prop("filename", opt)])
    ensures !opt.Str? ==> r == opt
  {
    if opt.Str? then Obj([Prop("filename", opt)]) else opt
  }

  /** A default parameter `options = {}` */
  function DefaultParam(options: Value): Value {
    if options.Undefined? then Obj([]) else options
  }

  /** The defaults `runInContext` normalises its options against */
  function RunDefaults(): seq<Prop> {
    [Prop("timeout", Num(TIMEOUT_DEFAULT)), Prop("filename", Str(FILENAME_DEFAULT))]
  }

  /** The options `runInContext` hands to the sandbox, or whether normalising them threw */
  function RunOptionsOf(options: Value): Options.ValueOutcome {
    Options.NormalizeValue(GetOptionsOrFilename(DefaultParam(options)), Obj(RunDefaults()))
  }

  /** `o.key` for a value that may not be an object */
  function PropOf(v: Value, key: string): Value {
    if v.Obj? then Get(v.props, key) else Undefined
  }

  /** Without options a run gets timeout 0 and file name `evalmachine.` */
  lemma RunOptionsDefaults()
    ensures RunOptionsOf(Undefined)
         == Options.ValueOutcome(Obj(RunDefaults()), Obj(RunDefaults()), false)
  {
    var defs := RunDefaults();
    assert Options.Pruned([], defs) == [];
    assert Options.Fill([], defs, 0) == Options.Outcome([], defs, false);
    Options.FillNext([], defs, 0);
    assert Put([], "timeout", Num(0)) == [defs[0]];
    Options.FillNext([], defs, 1);
    assert "timeout" != "filename";
    assert Put([defs[0]], "filename", Str(FILENAME_DEFAULT)) == defs;
  }

  /** A string option is the file name; the timeout is still 0 */
  lemma RunOptionsFilename(filename: string)
    ensures RunOptionsOf(Str(filename)) == Options.ValueOutcome(
      Obj([Prop("filename", Str(filename)), Prop("timeout", Num(TIMEOUT_DEFAULT))]), Obj(RunDefaults()), false)
  {
    var defs := RunDefaults();
    var user := [Prop("filename", Str(filename))];
    assert Options.Pruned(user, defs) == user by {
      assert HasKey(defs, "filename") by { assert defs[1] in defs; }
    }
    assert Options.Fill(user, defs, 0) == Options.Outcome(user, defs, false);
    Options.FillNext(user, defs, 0);
    assert "timeout" != "filename";
    assert Get(user, "timeout") == Undefined;
    var filled := user + [Prop("timeout", Num(0))];
    assert Put(user, "timeout", Num(0)) == filled;
    assert Options.Fill(user, defs, 1) == Options.Outcome(filled, defs, false);
    Options.FillNext(user, defs, 1);
    assert Get(user, "filename") == Str(filename);
    assert Options.Fill(user, defs, 2) == Options.Outcome(filled, defs, false);
    assert Options.NormalizeObjects(user, defs) == Options.Outcome(filled, defs, false);
    assert GetOptionsOrFilename(DefaultParam(Str(filename))) == Obj(user);
    assert Options.NormalizeValue(Obj(user), Obj(defs)) == Options.ValueOutcome(Obj(filled), Obj(defs), false);
    assert filled == [Prop("filename", Str(filename)), Prop("timeout", Num(TIMEOUT_DEFAULT))];
    assert RunOptionsOf(Str(filename)) == Options.NormalizeValue(Obj(user), Obj(defs));
  }

  /**
   * With object options that normalise without throwing, the run reads the
   * caller's timeout and file name when they were defined and the defaults
   * otherwise; no other option survives.
   */
  lemma RunOptionsGeneral(props: seq<Prop>)
    requires DeepWellFormed(props)
    requires !RunOptionsOf(Obj(props)).thrown
    ensures var target := RunOptionsOf(Obj(props)).target;
      target.Obj? && KeySet(target.props) == {"timeout", "filename"}
      && PropOf(target, "timeout") == (if Get(props, "timeout").Undefined? then Num(TIMEOUT_DEFAULT) else Get(props, "timeout"))
      && PropOf(target, "filename") == (if Get(props, "filename").Undefined? then Str(FILENAME_DEFAULT) else Get(props, "filename"))
  {
    var defs := RunDefaults();
    assert WellFormed(defs);
    assert KeySet(defs) == {"timeout", "filename"} by {
      assert defs[0] in defs && defs[1] in defs;
    }
    Options.NormalizeKeys(props, defs);
    Options.NormalizeValues(props, defs, 0);
    Options.NormalizeValues(props, defs, 1);
  }

  /** The message of the TypeError `runInContext` throws for an object that is not a context */
  function NotContextifiedMessage(typeName: string): string {
    "The \"contextifiedObject\" argument must be an vm.Context." + " Received an instance of " + typeName
  }

  /** `VM Context n` */
  function ContextName(n: nat): string {
    CONTEXT_NAME_PREFIX + NatToString(n)
  }

  /** Two counter values never give the same context name */
  lemma ContextNamesDistinct(m: nat, n: nat)
    requires m != n
    ensures ContextName(m) != ContextName(n)
  {
    if ContextName(m) == ContextName(n) {
      var p := |CONTEXT_NAME_PREFIX|;
      assert ContextName(m)[p..] == NatToString(m);
      assert ContextName(n)[p..] == NatToString(n);
      NatToStringInjective(m, n);
    }
  }

  // ---------------------------------------------------------------------
  // Writing a window back into the context (dist/vm.js:70-74, 92-100)

  /** `isContextKey(key) || canAddNewKey(key)` */
  predicate ShouldWriteBack(context: seq<Prop>, key: string, extensible: bool, defaultWindowKeys: seq<string>) {
    HasKey(context, key) || (extensible && key !in defaultWindowKeys)
  }

  /** The loop over `Object.entries(contentWindow)`, each entry tested against the context as it is by then */
  function WriteBack(context: seq<Prop>, entries: seq<Prop>, extensible: bool, defaultWindowKeys: seq<string>): seq<Prop>
    decreases |entries|
  {
    if entries == [] then context
    else
      var key := entries[0].key;
      var next := if ShouldWriteBack(context, key, extensible, defaultWindowKeys)
        then Put(context, key, entries[0].value) else context;
      WriteBack(next, entries[1..], extensible, defaultWindowKeys)
  }

  /**
   * A window key reaches the context exactly when the context already had
   * it, or the context was extensible and the window did not start with
   * it; every other key of the context keeps its value.
   */
  lemma {:induction false} GetWriteBack(context: seq<Prop>, entries: seq<Prop>, extensible: bool,
                                        defaultWindowKeys: seq<string>, k: string)
    requires WellFormed(entries)
    ensures Get(WriteBack(context, entries, extensible, defaultWindowKeys), k)
         == if HasKey(entries, k) && ShouldWriteBack(context, k, extensible, defaultWindowKeys)
            then Get(entries, k) else Get(context, k)
    decreases |entries|
  {
    if entries != [] {
      var key := entries[0].key;
      var written := ShouldWriteBack(context, key, extensible, defaultWindowKeys);
      var next := if written then Put(context, key, entries[0].value) else context;
      GetWriteBack(next, entries[1..], extensible, defaultWindowKeys, k);
      GetPut(context, key, entries[0].value, k);
      assert KeySet(entries) == {key} + KeySet(entries[1..]);
      if k == key {
        assert !HasKey(entries[1..], k) by {
          forall p | p in entries[1..] ensures p.key != k {
            var j :| 0 <= j < |entries[1..]| && entries[1..][j] == p;
            assert entries[j + 1] == p;
          }
        }
      } else {
        assert HasKey(next, k) == HasKey(context, k);
      }
    }
  }

  /** The keys after a write-back: the context's own, plus the window's new keys when it was extensible */
  lemma {:induction false} WriteBackKeys(context: seq<Prop>, entries: seq<Prop>, extensible: bool,
                                         defaultWindowKeys: seq<string>)
    ensures KeySet(WriteBack(context, entries, extensible, defaultWindowKeys))
         == KeySet(context) + (set k | k in KeySet(entries) && extensible && k !in defaultWindowKeys)
    decreases |entries|
  {
    if entries != [] {
      var key := entries[0].key;
      var next := if ShouldWriteBack(context, key, extensible, defaultWindowKeys)
        then Put(context, key, entries[0].value) else context;
      WriteBackKeys(next, entries[1..], extensible, defaultWindowKeys);
      assert KeySet(entries) == {key} + KeySet(entries[1..]);
    }
  }

  /** A context that was not extensible gains no key */
  lemma SealedContextGainsNoKey(context: seq<Prop>, entries: seq<Prop>, defaultWindowKeys: seq<string>)
    ensures KeySet(WriteBack(context, entries, false, defaultWindowKeys)) == KeySet(context)
  {
    WriteBackKeys(context, entries, false, defaultWindowKeys);
  }

  // ---------------------------------------------------------------------
  // The sandbox: iframe registry, timers, write-back (dist/vm.js:66-160)

  /** What `runScript` hands `createIframe` */
  datatype IframeOptions = IframeOptions(name: Value, blockCodeGeneration: bool, filename: Value)

  /**
   * An iframe: its id, a serial number standing for the element's identity,
   * the window's own enumerable entries (as the script's synchronous run left
   * them; a later read takes the window as it is then, see `Windows`), the
   * keys the window started with, and whether the context was extensible
   * when the iframe was made.
   */
  datatype Iframe = Iframe(id: string, serial: nat, window: seq<Prop>, defaultWindowKeys: seq<string>,
                           extensible: bool, options: IframeOptions)

  /** A script's completion in an iframe, and the window as the script left it */
  datatype Completion = Normal(value: Value, window: seq<Prop>) | Abrupt(error: Value, window: seq<Prop>)

  /**
   * The browser: the entries of a fresh iframe window, running a script in
   * an iframe, and whether `s > 0` holds for a string `s`.
   */
  datatype Browser = Browser(newWindow: seq<Prop>, run: (string, Iframe) -> Completion, positive: string -> bool)

  /** A pending `setTimeout(() => deleteIframe(iframe), timeout)` */
  datatype Timer = Timer(delay: Value, iframe: Iframe)

  datatype Exception = TypeError(message: string) | OptionsTypeError | Guest(value: Value)

  datatype Result = Returned(value: Value) | Threw(error: Exception)

  /** What a sandbox fixes when it is made */
  datatype Config = Config(isNotFrozen: bool, extensible: bool, contextOptions: Value)

  /** What a sandbox changes: the context, the registry, the document, the timers */
  datatype State = State(context: seq<Prop>, iframes: seq<Iframe>, attached: set<nat>, timers: seq<Timer>, serials: nat)

  datatype Run = Run(result: Result, state: State)

  predicate Registered(iframes: seq<Iframe>, id: string) {
    exists g :: g in iframes && g.id == id
  }

  /** `iframes.set(id, iframe)`: an entry with the same id is replaced where it stands, otherwise appended */
  function Register(iframes: seq<Iframe>, f: Iframe): (r: seq<Iframe>)
    ensures f in r
    ensures forall g :: g in r ==> g == f || g in iframes
    ensures forall g :: g in iframes && g.id != f.id ==> g in r
    ensures Unregister(r, f.id) == Unregister(iframes, f.id)
    ensures |r| == |iframes| + (if Registered(iframes, f.id) then 0 else 1)
  {
    if iframes == [] then [f]
    else if iframes[0].id == f.id then [f] + iframes[1..]
    else [iframes[0]] + Register(iframes[1..], f)
  }

  /** `iframes.delete(id)` */
  function Unregister(iframes: seq<Iframe>, id: string): (r: seq<Iframe>)
    ensures forall g :: g in r <==> g in iframes && g.id != id
  {
    if iframes == [] then []
    else if iframes[0].id == id then Unregister(iframes[1..], id)
    else [iframes[0]] + Unregister(iframes[1..], id)
  }

  /** `iframe.updateContext()`: nothing once the element has left the document */
  function UpdateFrom(context: seq<Prop>, attached: set<nat>, f: Iframe): seq<Prop> {
    if f.serial in attached then WriteBack(context, f.window, f.extensible, f.defaultWindowKeys)
    else context
  }

  /** `deleteIframe(iframe)` */
  function DeleteSpec(cfg: Config, s: State, f: Iframe): State {
    s.(context := if cfg.isNotFrozen then UpdateFrom(s.context, s.attached, f) else s.context,
       iframes := Unregister(s.iframes, f.id),
       attached := s.attached - {f.serial})
  }

  /**
   * The entries of each iframe's window at a given moment, by serial. A kept
   * iframe stays alive after its script returns, so guest timers and promise
   * jobs can go on changing its window; later reads see it as it is then.
   */
  type Windows = nat -> seq<Prop>

  /** The iframe with its window as it is at that moment */
  function Current(f: Iframe, windows: Windows): Iframe {
    f.(window := windows(f.serial))
  }

  /** Each registered iframe, in registry order, writes back its current window in turn */
  function UpdateAll(context: seq<Prop>, attached: set<nat>, iframes: seq<Iframe>, windows: Windows): seq<Prop>
    decreases |iframes|
  {
    if iframes == [] then context
    else UpdateAll(UpdateFrom(context, attached, Current(iframes[0], windows)), attached, iframes[1..], windows)
  }

  /** The sandbox's `updateContext()` */
  function UpdateContextSpec(cfg: Config, s: State, windows: Windows): State {
    if cfg.isNotFrozen then s.(context := UpdateAll(s.context, s.attached, s.iframes, windows)) else s
  }

  /** `createIframe`: the id comes from the clock, the window starts with the context's entries */
  function NewIframe(cfg: Config, s: State, b: Browser, now: nat, options: IframeOptions): Iframe {
    Iframe(IFRAME_ID_PREFIX + NatToString(now), s.serials, Spread(b.newWindow, s.context), Keys(b.newWindow),
           cfg.extensible, options)
  }

  /** `addNewIframe`: the element joins the document and the registry */
  function AddSpec(s: State, f: Iframe): State {
    s.(iframes := Register(s.iframes, f), attached := s.attached + {f.serial}, serials := s.serials + 1)
  }

  /** The options `runScript` builds for the iframe */
  function IframeOptionsOf(contextOptions: Value, runOptions: Value): IframeOptions {
    IframeOptions(PropOf(contextOptions, "name"),
                  !Truthy(PropOf(PropOf(contextOptions, "codeGeneration"), "strings")),
                  PropOf(runOptions, "filename"))
  }

  /** `timeout > 0` for the values a timeout can hold */
  predicate Positive(b: Browser, timeout: Value) {
    match timeout
    case Num(n) => n > 0
    case Bool(x) => x
    case Str(s) => b.positive(s)
    case _ => false
  }

  /** `timeout > 0 && timeout !== Number.MAX_VALUE` */
  predicate RunWithTimeout(b: Browser, timeout: Value) {
    Positive(b, timeout) && timeout != Num(MAX_VALUE)
  }

  /** The iframe `runScript` makes for a run */
  function RunIframe(cfg: Config, s: State, b: Browser, now: nat, runOptions: Value): Iframe {
    NewIframe(cfg, s, b, now, IframeOptionsOf(cfg.contextOptions, runOptions))
  }

  /** What follows the script's run: the completion is passed on, and the iframe is deleted or left to a timer */
  function SettleSpec(cfg: Config, after: State, b: Browser, timeout: Value, ran: Iframe, c: Completion): Run {
    var result := if c.Normal? then Returned(c.value) else Threw(Guest(c.error));
    if timeout == Num(0) then Run(result, DeleteSpec(cfg, after, ran))
    else
      var scheduled := if RunWithTimeout(b, timeout) then after.(timers := after.timers + [Timer(timeout, ran)]) else after;
      if c.Abrupt? then Run(result, DeleteSpec(cfg, scheduled, ran)) else Run(result, scheduled)
  }

  /** `sandbox.runScript(script, runOptions)`: the registered iframe carries the window the script left */
  function RunScriptSpec(cfg: Config, s: State, b: Browser, now: nat, script: string, runOptions: Value): Run {
    var f := RunIframe(cfg, s, b, now, runOptions);
    var c := b.run(script, f);
    var ran := f.(window := c.window);
    var added := AddSpec(s, f);
    SettleSpec(cfg, added.(iframes := Register(added.iframes, ran)), b, PropOf(runOptions, "timeout"), ran, c)
  }

  /** A timer fires: the iframe it holds is deleted */
  function FireSpec(cfg: Config, s: State, k: nat, windows: Windows): State
    requires k < |s.timers|
  {
    DeleteSpec(cfg, s.(timers := s.timers[..k] + s.timers[k + 1..]), Current(s.timers[k].iframe, windows))
  }

  /** The iframe as the run left it, in the state `RunScriptSpec` ends with */
  function Ran(cfg: Config, s: State, b: Browser, now: nat, script: string, runOptions: Value): Iframe {
    var f := RunIframe(cfg, s, b, now, runOptions);
    f.(window := b.run(script, f).window)
  }

  /** With timeout 0 the iframe leaves the registry and the document after the run, and the run's completion is passed on */
  lemma TimeoutZeroDeletes(cfg: Config, s: State, b: Browser, now: nat, script: string, runOptions: Value)
    requires PropOf(runOptions, "timeout") == Num(0)
    ensures var f := Ran(cfg, s, b, now, script, runOptions);
      var r := RunScriptSpec(cfg, s, b, now, script, runOptions);
      !Registered(r.state.iframes, f.id) && f.serial !in r.state.attached && r.state.timers == s.timers
      && (b.run(script, RunIframe(cfg, s, b, now, runOptions)).Normal? ==>
            r.result == Returned(b.run(script, RunIframe(cfg, s, b, now, runOptions)).value))
  {
  }

  /** An exception removes the iframe and is rethrown, whatever the timeout */
  lemma ExceptionDeletesAndRethrows(cfg: Config, s: State, b: Browser, now: nat, script: string, runOptions: Value)
    requires b.run(script, RunIframe(cfg, s, b, now, runOptions)).Abrupt?
    ensures var f := Ran(cfg, s, b, now, script, runOptions);
      var r := RunScriptSpec(cfg, s, b, now, script, runOptions);
      r.result == Threw(Guest(b.run(script, RunIframe(cfg, s, b, now, runOptions)).error))
      && !Registered(r.state.iframes, f.id) && f.serial !in r.state.attached
  {
  }

  /**
   * A positive timeout other than `Number.MAX_VALUE` schedules the removal;
   * any other non-zero timeout leaves a run that completed normally
   * registered and in the document, with no timer.
   */
  lemma NonZeroTimeout(cfg: Config, s: State, b: Browser, now: nat, script: string, runOptions: Value)
    requires PropOf(runOptions, "timeout") != Num(0)
    requires b.run(script, RunIframe(cfg, s, b, now, runOptions)).Normal?
    ensures var f := Ran(cfg, s, b, now, script, runOptions);
      var timeout := PropOf(runOptions, "timeout");
      var r := RunScriptSpec(cfg, s, b, now, script, runOptions);
      f in r.state.iframes && f.serial in r.state.attached && r.state.context == s.context
      && r.state.timers == s.timers + (if RunWithTimeout(b, timeout) then [Timer(timeout, f)] else [])
  {
  }

  /** A context frozen when its sandbox was made is never written back */
  lemma FrozenNeverWrittenBack(cfg: Config, s: State, b: Browser, now: nat, script: string, runOptions: Value, k: nat,
                                windows: Windows)
    requires !cfg.isNotFrozen
    ensures RunScriptSpec(cfg, s, b, now, script, runOptions).state.context == s.context
    ensures UpdateContextSpec(cfg, s, windows).context == s.context
    ensures k < |s.timers| ==> FireSpec(cfg, s, k, windows).context == s.context
  {
  }

  /**
   * A timer that fires while its iframe is still in the document writes back
   * the window as it is then, not as the script's synchronous run left it,
   * and the iframe leaves the registry and the document.
   */
  lemma FireWritesCurrentWindow(cfg: Config, s: State, k: nat, windows: Windows)
    requires k < |s.timers| && cfg.isNotFrozen && s.timers[k].iframe.serial in s.attached
    ensures var f := s.timers[k].iframe;
      var t := FireSpec(cfg, s, k, windows);
      t.context == WriteBack(s.context, windows(f.serial), f.extensible, f.defaultWindowKeys)
      && !Registered(t.iframes, f.id) && f.serial !in t.attached
      && |t.timers| == |s.timers| - 1
  {
  }

  /** After a run with timeout 0, the context holds what `WriteBack` makes of the window the script left */
  lemma TimeoutZeroWritesBack(cfg: Config, s: State, b: Browser, now: nat, script: string, runOptions: Value)
    requires cfg.isNotFrozen && PropOf(runOptions, "timeout") == Num(0)
    ensures var f := Ran(cfg, s, b, now, script, runOptions);
      RunScriptSpec(cfg, s, b, now, script, runOptions).state.context
        == WriteBack(s.context, f.window, cfg.extensible, Keys(b.newWindow))
  {
  }

  /** A sandbox: the duplicated context, the iframes it has made, and their timers */
  class Sandbox {
    var context: seq<Prop>
    const isNotFrozen: bool
    const extensible: bool
    const contextOptions: Value
    var iframes: seq<Iframe>
    var attached: set<nat>
    var timers: seq<Timer>
    var serials: nat

    /** `createSandbox(context, rootWindow, contextOptions)` */
    constructor (context: ObjectState, contextOptions: Value)
      ensures Cfg() == Config(!IsFrozen(context), context.extensible, contextOptions)
      ensures Snapshot() == State(Entries(context.own), [], {}, [], 0)
    {
      this.context := Entries(context.own);
      isNotFrozen := !IsFrozen(context);
      extensible := context.extensible;
      this.contextOptions := contextOptions;
      iframes := [];
      attached := {};
      timers := [];
      serials := 0;
    }

    function Cfg(): Config {
      Config(isNotFrozen, extensible, contextOptions)
    }

    function Snapshot(): State
      reads this
    {
      State(context, iframes, attached, timers, serials)
    }

    /** `iframe.updateContext()` (dist/vm.js:92-100) */
    method UpdateFromIframe(f: Iframe)
      modifies this
      ensures Snapshot() == old(Snapshot()).(context := UpdateFrom(old(context), attached, f))
    {
      if f.serial !in attached {
        return;
      }
      var entries := f.window;
      var i := 0;
      while i < |entries|
        invariant 0 <= i <= |entries|
        invariant Snapshot() == old(Snapshot()).(context := context)
        invariant WriteBack(context, entries[i..], f.extensible, f.defaultWindowKeys)
               == WriteBack(old(context), entries, f.extensible, f.defaultWindowKeys)
      {
        var key, value := entries[i].key, entries[i].value;
        assert entries[i..][1..] == entries[i + 1..];
        if HasKey(context, key) || (f.extensible && key !in f.defaultWindowKeys) {
          context := context[..];
          context := Put(context, key, value);
        }
        i := i + 1;
      }
    }

    /** `deleteIframe(iframe)` (dist/vm.js:116-122) */
    method DeleteIframe(f: Iframe)
      modifies this
      ensures Snapshot() == DeleteSpec(Cfg(), old(Snapshot()), f)
    {
      if isNotFrozen {
        UpdateFromIframe(f);
      }
      iframes := Unregister(iframes, f.id);
      attached := attached - {f.serial};
    }

    /**
     * The sandbox's `updateContext()` (dist/vm.js:124-133). Its test
     * `iframes.length === 0` reads a property a `Map` does not have, so it
     * never returns early; with no iframes the loop does nothing anyway.
     */
    method UpdateContext(windows: Windows)
      modifies this
      ensures Snapshot() == UpdateContextSpec(Cfg(), old(Snapshot()), windows)
    {
      if !isNotFrozen {
        return;
      }
      var all := iframes;
      for i := 0 to |all|
        invariant Snapshot() == old(Snapshot()).(context := context)
        invariant UpdateAll(context, attached, all[i..], windows) == UpdateAll(old(context), attached, all, windows)
      {
        assert all[i..][1..] == all[i + 1..];
        UpdateFromIframe(Current(all[i], windows));
      }
    }

    /** `addNewIframe(iframeOptions)` (dist/vm.js:110-115) */
    method AddNewIframe(b: Browser, now: nat, options: IframeOptions) returns (f: Iframe)
      modifies this
      ensures f == NewIframe(Cfg(), old(Snapshot()), b, now, options)
      ensures Snapshot() == AddSpec(old(Snapshot()), f)
    {
      var id := IFRAME_ID_PREFIX + NatToString(now);
      var defaultWindowKeys := Keys(b.newWindow);
      f := Iframe(id, serials, Spread(b.newWindow, context), defaultWindowKeys, extensible, options);
      serials := serials + 1;
      attached := attached + {f.serial};
      iframes := Register(iframes, f);
    }

    /** The tail of `runScript` (dist/vm.js:146-157), once the script has run */
    method Settle(b: Browser, timeout: Value, ran: Iframe, c: Completion) returns (r: Result)
      modifies this
      ensures Run(r, Snapshot()) == SettleSpec(Cfg(), old(Snapshot()), b, timeout, ran, c)
    {
      var deleteIframeImmediately := timeout == Num(0);
      var runWithTimeout := Positive(b, timeout) && timeout != Num(MAX_VALUE);
      r := if c.Normal? then Returned(c.value) else Threw(Guest(c.error));
      if deleteIframeImmediately {
        DeleteIframe(ran);
        return;
      }
      if runWithTimeout {
        timers := timers + [Timer(timeout, ran)];
      }
      if c.Abrupt? {
        DeleteIframe(ran);
      }
    }

    /** `runScript(script, runOptions)` (dist/vm.js:134-158) */
    method RunScript(b: Browser, now: nat, script: string, runOptions: Value) returns (r: Result)
      modifies this
      ensures Run(r, Snapshot()) == RunScriptSpec(Cfg(), old(Snapshot()), b, now, script, runOptions)
    {
      var iframeOptions := IframeOptions(PropOf(contextOptions, "name"),
                                         !Truthy(PropOf(PropOf(contextOptions, "codeGeneration"), "strings")),
                                         PropOf(runOptions, "filename"));
      var f := AddNewIframe(b, now, iframeOptions);
      var c := b.run(script, f);
      var ran := f.(window := c.window);
      iframes := Register(iframes, ran);
      r := Settle(b, PropOf(runOptions, "timeout"), ran, c);
    }

    /** The timer set by `runScript` fires (dist/vm.js:151), with each window as it is then */
    method FireTimer(k: nat, windows: Windows)
      requires k < |timers|
      modifies this
      ensures Snapshot() == FireSpec(Cfg(), old(Snapshot()), k, windows)
    {
      var f := Current(timers[k].iframe, windows);
      timers := timers[..k] + timers[k + 1..];
      DeleteIframe(f);
    }
  }

  // ---------------------------------------------------------------------
  // The module's own state: the counter and the registered contexts (dist/vm.js:9-12, 218-245)

  /** The argument `runInContext` receives: a context proxy, or any other value */
  datatype ContextArg = Proxy(handle: nat) | NotProxy(value: Value)

  function ArgTypeOf(context: ContextArg): string {
    match context
    case Proxy(_) => "object"
    case NotProxy(v) => TypeOf(v)
  }

  /** The first two statements of `runInContext`, normalising its options in place */
  method NormalizeRunOptions(options: Value) returns (o: Options.ValueOutcome)
    requires DeepValue(options)
    ensures o == RunOptionsOf(options)
  {
    var validOptions := GetOptionsOrFilename(DefaultParam(options));
    var defaults := RunDefaults();
    assert WellFormed(defaults);
    o := Options.NormalizeNested(validOptions, Obj(defaults));
  }

  datatype Created = Created(context: ContextArg) | CreateFailed(error: Exception)

  class BrowserVm {
    var contextCounter: nat
    /** `sandboxes`, keyed by the proxy's handle */
    var sandboxes: seq<Sandbox>

    constructor ()
      ensures contextCounter == 0 && sandboxes == []
    {
      contextCounter := 0;
      sandboxes := [];
    }

    /** `isContext(context)` */
    predicate IsContext(context: ContextArg)
      reads this
    {
      context.Proxy? && context.handle < |sandboxes|
    }

    /** `getDefaultContextName()` */
    method GetDefaultContextName() returns (name: string)
      modifies this
      ensures name == ContextName(old(contextCounter))
      ensures contextCounter == old(contextCounter) + 1 && sandboxes == old(sandboxes)
    {
      name := CONTEXT_NAME_PREFIX + NatToString(contextCounter);
      contextCounter := contextCounter + 1;
    }

    /** `createContext(contextObject, options = {})` */
    method CreateContext(contextObject: ContextObject, options: Value) returns (r: Created)
      requires DeepValue(options)
      modifies this
      ensures contextCounter == old(contextCounter) + 1
      ensures var o := Options.NormalizeValue(DefaultParam(options),
                                              Obj(Options.ContextDefaults(ContextName(old(contextCounter)))));
        (o.thrown ==> r == CreateFailed(OptionsTypeError) && sandboxes == old(sandboxes))
        && (!o.thrown ==>
              r == Created(Proxy(|old(sandboxes)|)) && |sandboxes| == |old(sandboxes)| + 1
              && sandboxes[..|old(sandboxes)|] == old(sandboxes) && fresh(sandboxes[|old(sandboxes)|])
              && sandboxes[|old(sandboxes)|].Cfg()
                 == Config(!IsFrozen(Duplicate(AsObject(contextObject))), Duplicate(AsObject(contextObject)).extensible,
                           o.target)
              && sandboxes[|old(sandboxes)|].Snapshot() == State(Entries(AsObject(contextObject).own), [], {}, [], 0))
    {
      var name := GetDefaultContextName();
      var defaults := Options.ContextDefaults(name);
      assert WellFormed(defaults);
      var normalized := Options.NormalizeNested(DefaultParam(options), Obj(defaults));
      if normalized.thrown {
        return CreateFailed(OptionsTypeError);
      }
      var context := Duplicate(AsObject(contextObject));
      var sandbox := new Sandbox(context, normalized.target);
      sandboxes := sandboxes + [sandbox];
      return Created(Proxy(|sandboxes| - 1));
    }

    /** `runInContext(code, context, options = {})` */
    method RunInContext(b: Browser, now: nat, code: string, context: ContextArg, options: Value) returns (r: Result)
      requires DeepValue(options)
      modifies if IsContext(context) then {sandboxes[context.handle]} else {}
      ensures !IsContext(context) ==> r == Threw(TypeError(NotContextifiedMessage(ArgTypeOf(context))))
      ensures IsContext(context) ==>
        var sandbox := sandboxes[context.handle];
        var o := RunOptionsOf(options);
        (o.thrown ==> r == Threw(OptionsTypeError) && sandbox.Snapshot() == old(sandbox.Snapshot()))
        && (!o.thrown ==> Run(r, sandbox.Snapshot()) == RunScriptSpec(sandbox.Cfg(), old(sandbox.Snapshot()), b, now, code, o.target))
    {
      if !IsContext(context) {
        return Threw(TypeError(NotContextifiedMessage(ArgTypeOf(context))));
      }
      var normalized := NormalizeRunOptions(options);
      if normalized.thrown {
        return Threw(OptionsTypeError);
      }
      var sandbox := sandboxes[context.handle];
      r := sandbox.RunScript(b, now, code, normalized.target);
    }
  }
}
