/**
 * Option normalisation of the browser `vm` shim (dist/options.js).
 *
 * `normalizeOptions(options, defaultOptions)` deletes from `options` every
 * key that `defaultOptions` lacks, then walks the entries of
 * `defaultOptions`: an absent (`undefined`) option takes the default value,
 * an option of type `'object'` (an object or `null`) is normalised by a
 * recursive call `normalizeOptions(defaultOption, option)` -- with the
 * arguments the other way round, so that at the nested level it is the
 * DEFAULT's object that is pruned and filled, against the user's object --
 * and any other option is left alone.
 *
 * The functions below are the reference definition (a left fold over the
 * default entries); the methods at the end are the step-by-step, in-place
 * code, proved to leave both objects exactly as the reference says.
 */
module Options {
  import opened JsValues

  /** Both objects after one call, and whether the call threw a TypeError part-way */
  datatype Outcome = Outcome(options: seq<Prop>, defaults: seq<Prop>, thrown: bool)

  /** The same for a nested call whose arguments need not be objects */
  datatype ValueOutcome = ValueOutcome(target: Value, template: Value, thrown: bool)

  /** `removeRedundantOptions(template, options)`: the keys of `options` that `template` has, in their order */
  function Pruned(options: seq<Prop>, template: seq<Prop>): (r: seq<Prop>)
    ensures KeySet(r) == KeySet(options) * KeySet(template)
    ensures SizeProps(r) <= SizeProps(options)
  {
    if options == [] then []
    else
      var rest := Pruned(options[1..], template);
      assert KeySet(options) == {options[0].key} + KeySet(options[1..]);
      if HasKey(template, options[0].key) then
        assert KeySet([options[0]] + rest) == {options[0].key} + KeySet(rest);
        [options[0]] + rest
      else rest
  }

  lemma {:induction false} GetPruned(options: seq<Prop>, template: seq<Prop>, k: string)
    ensures Get(Pruned(options, template), k) == if HasKey(template, k) then Get(options, k) else Undefined
  {
    if options != [] {
      GetPruned(options[1..], template, k);
    }
  }

  /** `normalizeOptions(target, template)` on arbitrary values, as the nested call receives them */
  function NormalizeValue(target: Value, template: Value): (r: ValueOutcome)
    requires IsObjectType(template)
    decreases Size(target) + Size(template), 0
  {
    if template.Null? then
      // `key in null` or `Object.entries(null)` throws before anything changes
      ValueOutcome(target, template, true)
    else if target.Obj? then
      var o := NormalizeObjects(target.props, template.props);
      ValueOutcome(Obj(o.options), Obj(o.defaults), o.thrown)
    else if target.Undefined? || target.Null? then
      // `Object.keys(undefined)` and `Object.keys(null)` throw
      ValueOutcome(target, template, true)
    else if target.Func? then
      ValueOutcome(target, template, false)
    else
      // a primitive has no own keys to prune; assigning its first missing
      // property throws in strict code
      ValueOutcome(target, template, template.props != [])
  }

  /** `normalizeOptions(options, defaults)` on two objects */
  function NormalizeObjects(options: seq<Prop>, defaults: seq<Prop>): Outcome
    decreases SizeProps(options) + SizeProps(defaults), 2
  {
    Fill(Pruned(options, defaults), defaults, |defaults|)
  }

  /**
   * The state after the loop over `Object.entries(defaults)` has handled its
   * first `n` entries, starting from the pruned options `opts0`. Each step
   * reads only its own key, which earlier steps never touch.
   */
  function Fill(opts0: seq<Prop>, defs0: seq<Prop>, n: nat): Outcome
    requires n <= |defs0|
    decreases SizeProps(opts0) + SizeProps(defs0), 1, n
  {
    if n == 0 then Outcome(opts0, defs0, false)
    else
      var s := Fill(opts0, defs0, n - 1);
      if s.thrown then s
      else
        var key := defs0[n - 1].key;
        SizeAt(defs0, n - 1);
        SizeGet(opts0, key);
        Step(s, key, defs0[n - 1].value, Get(opts0, key))
  }

  /** One turn of the loop: the option found under `key` decides what happens */
  function Step(s: Outcome, key: string, defaultOption: Value, option: Value): Outcome
    decreases Size(defaultOption) + (if option.Undefined? then 0 else Size(option)), 1, 0
  {
    if option.Undefined? then
      Outcome(Put(s.options, key, defaultOption), s.defaults, false)
    else if IsObjectType(option) then
      var inner := NormalizeValue(defaultOption, option);
      Outcome(Put(s.options, key, inner.template), Put(s.defaults, key, inner.target), inner.thrown)
    else s
  }

  /** What the loop leaves under one default key, given the option and default found there */
  function ExpectedOption(option: Value, defaultOption: Value): Value {
    if option.Undefined? then defaultOption
    else if IsObjectType(option) then NormalizeValue(defaultOption, option).template
    else option
  }

  function ExpectedDefault(option: Value, defaultOption: Value): Value {
    if IsObjectType(option) then NormalizeValue(defaultOption, option).target
    else defaultOption
  }

  // ---------------------------------------------------------------------
  // What a call guarantees

  /** One turn changes nothing under any other key */
  lemma StepLeavesOtherKeys(s: Outcome, key: string, defaultOption: Value, option: Value, k: string)
    requires k != key
    ensures Get(Step(s, key, defaultOption, option).options, k) == Get(s.options, k)
    ensures Get(Step(s, key, defaultOption, option).defaults, k) == Get(s.defaults, k)
  {
    GetPut(s.options, key, defaultOption, k);
    if IsObjectType(option) {
      var inner := NormalizeValue(defaultOption, option);
      GetPut(s.options, key, inner.template, k);
      GetPut(s.defaults, key, inner.target, k);
    }
  }

  /** One turn leaves under its own key what `ExpectedOption` and `ExpectedDefault` say */
  lemma StepAt(s: Outcome, key: string, defaultOption: Value, option: Value)
    requires Get(s.options, key) == option && Get(s.defaults, key) == defaultOption
    ensures Get(Step(s, key, defaultOption, option).options, key) == ExpectedOption(option, defaultOption)
    ensures Get(Step(s, key, defaultOption, option).defaults, key) == ExpectedDefault(option, defaultOption)
  {
    GetPut(s.options, key, defaultOption, key);
    if IsObjectType(option) {
      var inner := NormalizeValue(defaultOption, option);
      GetPut(s.options, key, inner.template, key);
      GetPut(s.defaults, key, inner.target, key);
    }
  }

  /** The turn after `n`, when the first `n` did not throw */
  lemma FillNext(opts0: seq<Prop>, defs0: seq<Prop>, n: nat)
    requires n < |defs0| && !Fill(opts0, defs0, n).thrown
    ensures Fill(opts0, defs0, n + 1)
         == Step(Fill(opts0, defs0, n), defs0[n].key, defs0[n].value, Get(opts0, defs0[n].key))
  {
  }

  /** One turn adds its key, unless it left a defined non-object option alone */
  lemma StepKeys(s: Outcome, key: string, defaultOption: Value, option: Value)
    ensures KeySet(Step(s, key, defaultOption, option).options)
         == KeySet(s.options) + (if option.Undefined? || IsObjectType(option) then {key} else {})
  {
  }

  /** The turn after a throw, which changes nothing */
  lemma FillStops(opts0: seq<Prop>, defs0: seq<Prop>, n: nat)
    requires n < |defs0| && Fill(opts0, defs0, n).thrown
    ensures Fill(opts0, defs0, n + 1) == Fill(opts0, defs0, n)
  {
  }

  /** The loop never touches a key it has not reached yet */
  lemma {:induction false} FillLeavesLaterKeys(opts0: seq<Prop>, defs0: seq<Prop>, n: nat, j: nat)
    requires n <= j < |defs0| && WellFormed(defs0)
    ensures Get(Fill(opts0, defs0, n).options, defs0[j].key) == Get(opts0, defs0[j].key)
    ensures Get(Fill(opts0, defs0, n).defaults, defs0[j].key) == Get(defs0, defs0[j].key)
  {
    if n > 0 {
      FillLeavesLaterKeys(opts0, defs0, n - 1, j);
      var s := Fill(opts0, defs0, n - 1);
      var key := defs0[n - 1].key;
      assert key != defs0[j].key;
      if !s.thrown {
        StepLeavesOtherKeys(s, key, defs0[n - 1].value, Get(opts0, key), defs0[j].key);
      }
    }
  }

  /** The keys after `n` steps: the pruned options plus the default keys reached */
  lemma {:induction false} FillKeys(opts0: seq<Prop>, defs0: seq<Prop>, n: nat)
    requires n <= |defs0|
    ensures KeySet(Fill(opts0, defs0, n).options) <= KeySet(opts0) + KeySet(defs0[..n])
    ensures !Fill(opts0, defs0, n).thrown ==>
      KeySet(Fill(opts0, defs0, n).options) == KeySet(opts0) + KeySet(defs0[..n])
  {
    if n > 0 {
      FillKeys(opts0, defs0, n - 1);
      var s := Fill(opts0, defs0, n - 1);
      var key := defs0[n - 1].key;
      assert defs0[..n] == defs0[..n - 1] + [defs0[n - 1]];
      assert KeySet(defs0[..n]) == KeySet(defs0[..n - 1]) + {key};
      if s.thrown {
        FillStops(opts0, defs0, n - 1);
      } else {
        FillNext(opts0, defs0, n - 1);
        StepKeys(s, key, defs0[n - 1].value, Get(opts0, key));
        GetFound(opts0, key);
      }
    }
  }

  /** After a call, `options` holds no key that `defaults` lacks -- even when the call threw */
  lemma NormalizePrunes(options: seq<Prop>, defaults: seq<Prop>)
    ensures KeySet(NormalizeObjects(options, defaults).options) <= KeySet(defaults)
  {
    FillKeys(Pruned(options, defaults), defaults, |defaults|);
    assert defaults[..|defaults|] == defaults;
  }

  /** After a call that did not throw, `options` has exactly the keys of `defaults` */
  lemma NormalizeKeys(options: seq<Prop>, defaults: seq<Prop>)
    requires !NormalizeObjects(options, defaults).thrown
    ensures KeySet(NormalizeObjects(options, defaults).options) == KeySet(defaults)
  {
    FillKeys(Pruned(options, defaults), defaults, |defaults|);
    assert defaults[..|defaults|] == defaults;
  }

  /** Once the loop has handled a key, that key holds its final values */
  lemma {:induction false} FillAt(opts0: seq<Prop>, defs0: seq<Prop>, n: nat, j: nat)
    requires j < n <= |defs0| && WellFormed(defs0)
    requires !Fill(opts0, defs0, n).thrown
    ensures Get(Fill(opts0, defs0, n).options, defs0[j].key)
         == ExpectedOption(Get(opts0, defs0[j].key), defs0[j].value)
    ensures Get(Fill(opts0, defs0, n).defaults, defs0[j].key)
         == ExpectedDefault(Get(opts0, defs0[j].key), defs0[j].value)
  {
    var s := Fill(opts0, defs0, n - 1);
    var key := defs0[n - 1].key;
    var option := Get(opts0, key);
    assert !s.thrown;
    FillNext(opts0, defs0, n - 1);
    if j == n - 1 {
      FillLeavesLaterKeys(opts0, defs0, n - 1, j);
      GetAt(defs0, j);
      StepAt(s, key, defs0[j].value, option);
    } else {
      FillAt(opts0, defs0, n - 1, j);
      StepLeavesOtherKeys(s, key, defs0[n - 1].value, option, defs0[j].key);
    }
  }

  /**
   * The value a call leaves under every default key: the default when the
   * option was absent or `undefined`, the option itself when it was a
   * defined non-object, and for an option of type `'object'` the user's
   * object as the reversed recursive call left it -- while the DEFAULT's
   * nested object is the one pruned and filled.
   */
  lemma NormalizeValues(options: seq<Prop>, defaults: seq<Prop>, j: nat)
    requires WellFormed(defaults) && j < |defaults|
    requires !NormalizeObjects(options, defaults).thrown
    ensures Get(NormalizeObjects(options, defaults).options, defaults[j].key)
         == ExpectedOption(Get(options, defaults[j].key), defaults[j].value)
    ensures Get(NormalizeObjects(options, defaults).defaults, defaults[j].key)
         == ExpectedDefault(Get(options, defaults[j].key), defaults[j].value)
  {
    var pruned := Pruned(options, defaults);
    FillAt(pruned, defaults, |defaults|, j);
    assert HasKey(defaults, defaults[j].key) by { assert defaults[j] in defaults; }
    GetPruned(options, defaults, defaults[j].key);
  }

  /** A flat object: no property of type `'object'` */
  predicate Flat(props: seq<Prop>) {
    forall i :: 0 <= i < |props| ==> !IsObjectType(props[i].value)
  }

  /** With no object-typed options the loop never recurses, never throws, and leaves `defaults` alone */
  lemma {:induction false} FillFlat(opts0: seq<Prop>, defs0: seq<Prop>, n: nat)
    requires n <= |defs0| && Flat(opts0)
    ensures !Fill(opts0, defs0, n).thrown
    ensures Fill(opts0, defs0, n).defaults == defs0
  {
    if n > 0 {
      FillFlat(opts0, defs0, n - 1);
      GetFound(opts0, defs0[n - 1].key);
    }
  }

  lemma PrunedFlat(options: seq<Prop>, template: seq<Prop>)
    requires Flat(options)
    ensures Flat(Pruned(options, template))
  {
    var r := Pruned(options, template);
    forall i | 0 <= i < |r| ensures !IsObjectType(r[i].value) {
      assert r[i] in r;
      PrunedElement(options, template, r[i]);
    }
  }

  lemma {:induction false} PrunedElement(options: seq<Prop>, template: seq<Prop>, p: Prop)
    requires p in Pruned(options, template)
    ensures p in options
  {
    if options != [] && p != options[0] {
      PrunedElement(options[1..], template, p);
    }
  }

  /** Two calls with the same defaults on flat inputs: the second changes nothing */
  lemma NormalizeFlatIdempotent(options: seq<Prop>, defaults: seq<Prop>)
    requires WellFormed(defaults) && Flat(options) && Flat(defaults)
    ensures !NormalizeObjects(options, defaults).thrown
    ensures var first := NormalizeObjects(options, defaults);
            NormalizeObjects(first.options, first.defaults) == first
  {
    var pruned := Pruned(options, defaults);
    PrunedFlat(options, defaults);
    FillFlat(pruned, defaults, |defaults|);
    var first := NormalizeObjects(options, defaults);
    NormalizeKeys(options, defaults);
    PrunedAll(first.options, defaults);
    forall j | 0 <= j < |defaults|
      ensures HasKey(first.options, defaults[j].key)
      ensures !IsObjectType(Get(first.options, defaults[j].key))
      ensures Get(first.options, defaults[j].key).Undefined? ==> Get(first.options, defaults[j].key) == defaults[j].value
    {
      assert defaults[j] in defaults;
      NormalizeValues(options, defaults, j);
      GetFound(options, defaults[j].key);
    }
    FillNoChange(first.options, defaults, |defaults|);
  }

  /** Pruning against a template that has every key changes nothing */
  lemma {:induction false} PrunedAll(options: seq<Prop>, template: seq<Prop>)
    requires KeySet(options) <= KeySet(template)
    ensures Pruned(options, template) == options
  {
    if options != [] {
      assert options[0] in options;
      assert KeySet(options) == {options[0].key} + KeySet(options[1..]);
      PrunedAll(options[1..], template);
    }
  }

  /** `Put` of the value a key already reads changes nothing */
  lemma {:induction false} PutSame(props: seq<Prop>, key: string)
    requires HasKey(props, key)
    ensures Put(props, key, Get(props, key)) == props
  {
    assert KeySet(props) == {props[0].key} + KeySet(props[1..]);
    if props[0].key != key {
      PutSame(props[1..], key);
    }
  }

  /** On options that already hold every default key, none of them object-typed, the loop changes nothing */
  lemma {:induction false} FillNoChange(opts0: seq<Prop>, defs0: seq<Prop>, n: nat)
    requires n <= |defs0|
    requires forall j :: 0 <= j < |defs0| ==>
      HasKey(opts0, defs0[j].key) && !IsObjectType(Get(opts0, defs0[j].key))
      && (Get(opts0, defs0[j].key).Undefined? ==> Get(opts0, defs0[j].key) == defs0[j].value)
    ensures Fill(opts0, defs0, n) == Outcome(opts0, defs0, false)
  {
    if n > 0 {
      FillNoChange(opts0, defs0, n - 1);
      FillNext(opts0, defs0, n - 1);
      var key := defs0[n - 1].key;
      if Get(opts0, key).Undefined? {
        PutSame(opts0, key);
      }
    }
  }

  // ---------------------------------------------------------------------
  // The objects the browser shim passes in

  /** The defaults `createContext` normalises its options against, for a given default name */
  function ContextDefaults(name: string): seq<Prop> {
    [Prop("name", Str(name)), Prop("codeGeneration", Obj([Prop("strings", Bool(true))]))]
  }

  /** The two turns of the loop over `ContextDefaults`, when the options have no `name` */
  lemma FillContextDefaults(user: seq<Prop>, name: string)
    requires Get(user, "name") == Undefined
    ensures Fill(user, ContextDefaults(name), 2)
         == Step(Outcome(Put(user, "name", Str(name)), ContextDefaults(name), false),
                 "codeGeneration", Obj([Prop("strings", Bool(true))]), Get(user, "codeGeneration"))
  {
    var defs := ContextDefaults(name);
    FillNext(user, defs, 0);
    assert Fill(user, defs, 1) == Outcome(Put(user, "name", Str(name)), defs, false);
    FillNext(user, defs, 1);
  }

  /** The reversed inner call on `{strings: true}` and `{strings: false}` changes nothing */
  lemma StringsFalseKept()
    ensures NormalizeValue(Obj([Prop("strings", Bool(true))]), Obj([Prop("strings", Bool(false))]))
         == ValueOutcome(Obj([Prop("strings", Bool(true))]), Obj([Prop("strings", Bool(false))]), false)
  {
    var inner := [Prop("strings", Bool(true))];
    var userInner := [Prop("strings", Bool(false))];
    assert Pruned(inner, userInner) == inner by {
      assert HasKey(userInner, "strings") by { assert userInner[0] in userInner; }
    }
    assert Fill(inner, userInner, 0) == Outcome(inner, userInner, false);
    FillNext(inner, userInner, 0);
  }

  /** The reversed inner call on `{strings: true}` and `{}` prunes the default to `{}` */
  lemma EmptyPrunesDefault()
    ensures NormalizeValue(Obj([Prop("strings", Bool(true))]), Obj([])) == ValueOutcome(Obj([]), Obj([]), false)
  {
    assert Pruned([Prop("strings", Bool(true))], []) == [];
    assert Fill([], [], 0) == Outcome([], [], false);
  }

  /** A user `codeGeneration: {strings: false}` survives normalisation against `{strings: true}` */
  lemma CodeGenerationFalseSurvives(name: string)
    ensures var r := NormalizeObjects([Prop("codeGeneration", Obj([Prop("strings", Bool(false))]))], ContextDefaults(name));
      !r.thrown
      && r.options == [Prop("codeGeneration", Obj([Prop("strings", Bool(false))])), Prop("name", Str(name))]
  {
    var userInner := [Prop("strings", Bool(false))];
    var user := [Prop("codeGeneration", Obj(userInner))];
    var defs := ContextDefaults(name);
    assert Pruned(user, defs) == user by {
      assert HasKey(defs, "codeGeneration") by { assert defs[1] in defs; }
    }
    assert Get(user, "name") == Undefined;
    FillContextDefaults(user, name);
    StringsFalseKept();
    var afterName := user + [Prop("name", Str(name))];
    assert Put(user, "name", Str(name)) == afterName;
    assert Put(afterName, "codeGeneration", Obj(userInner)) == afterName;
    assert Put(defs, "codeGeneration", Obj([Prop("strings", Bool(true))])) == defs;
  }

  /**
   * A user `codeGeneration: {}` is not filled: the reversed recursive call
   * prunes the DEFAULT's `{strings: true}` down to `{}` and leaves the
   * user's object empty, so `codeGeneration.strings` stays undefined.
   */
  lemma EmptyCodeGenerationStaysEmpty(name: string)
    ensures var r := NormalizeObjects([Prop("codeGeneration", Obj([]))], ContextDefaults(name));
      !r.thrown
      && r.options == [Prop("codeGeneration", Obj([])), Prop("name", Str(name))]
      && r.defaults == [Prop("name", Str(name)), Prop("codeGeneration", Obj([]))]
  {
    var user := [Prop("codeGeneration", Obj([]))];
    var defs := ContextDefaults(name);
    assert Pruned(user, defs) == user by {
      assert HasKey(defs, "codeGeneration") by { assert defs[1] in defs; }
    }
    assert Get(user, "name") == Undefined;
    FillContextDefaults(user, name);
    EmptyPrunesDefault();
    var afterName := user + [Prop("name", Str(name))];
    assert Put(user, "name", Str(name)) == afterName;
    assert Put(afterName, "codeGeneration", Obj([])) == afterName;
    assert Put(defs, "codeGeneration", Obj([])) == [Prop("name", Str(name)), Prop("codeGeneration", Obj([]))];
  }

  // ---------------------------------------------------------------------
  // The in-place code

  /** A JavaScript object whose own properties the code rewrites in place */
  class JsObject {
    var props: seq<Prop>

    constructor (props: seq<Prop>)
      ensures this.props == props
    {
      this.props := props;
    }
  }

  /** `removeRedundantOptions(template, options)` (dist/options.js:1-7) */
  method RemoveRedundantOptions(template: JsObject, options: JsObject)
    requires template != options && WellFormed(options.props)
    modifies options
    ensures options.props == Pruned(old(options.props), template.props)
  {
    ghost var original := options.props;
    var keys := Keys(options.props);
    for i := 0 to |keys|
      invariant options.props == Pruned(original[..i], template.props) + original[i..]
    {
      PruneStep(original, i, template.props);
      if !HasKey(template.props, keys[i]) {
        options.props := Remove(options.props, keys[i]);
      }
    }
    assert original[..|keys|] == original;
  }

  /** One turn of the key loop: a key the template lacks is deleted, any other stays */
  lemma PruneStep(original: seq<Prop>, i: nat, template: seq<Prop>)
    requires WellFormed(original) && i < |original|
    ensures var before := Pruned(original[..i], template) + original[i..];
            var after := Pruned(original[..i + 1], template) + original[i + 1..];
            if HasKey(template, original[i].key) then before == after
            else Remove(before, original[i].key) == after
  {
    var key := original[i].key;
    assert original[..i + 1] == original[..i] + [original[i]];
    assert original[i..] == [original[i]] + original[i + 1..];
    PrunedSnoc(original[..i], original[i], template);
    if !HasKey(template, key) {
      var kept := Pruned(original[..i], template);
      forall p | p in original[..i] ensures p.key != key {
        var j :| 0 <= j < i && original[j] == p;
      }
      forall p | p in original[i + 1..] ensures p.key != key {
        var j :| i + 1 <= j < |original| && original[j] == p;
      }
      assert !HasKey(original[..i], key);
      assert !HasKey(original[i + 1..], key);
      RemoveSplit(kept, original[i], original[i + 1..]);
    }
  }

  lemma {:induction false} PrunedSnoc(options: seq<Prop>, p: Prop, template: seq<Prop>)
    ensures Pruned(options + [p], template)
         == Pruned(options, template) + (if HasKey(template, p.key) then [p] else [])
  {
    if options != [] {
      assert (options + [p])[1..] == options[1..] + [p];
      PrunedSnoc(options[1..], p, template);
    } else {
      assert options + [p] == [p];
    }
  }

  lemma {:induction false} RemoveAbsent(props: seq<Prop>, key: string)
    requires !HasKey(props, key)
    ensures Remove(props, key) == props
  {
    if props != [] {
      assert KeySet(props) == {props[0].key} + KeySet(props[1..]);
      RemoveAbsent(props[1..], key);
    }
  }

  lemma {:induction false} RemoveConcat(a: seq<Prop>, b: seq<Prop>, key: string)
    ensures Remove(a + b, key) == Remove(a, key) + Remove(b, key)
  {
    if a == [] {
      assert a + b == b;
    } else {
      assert (a + b)[1..] == a[1..] + b;
      RemoveConcat(a[1..], b, key);
    }
  }

  lemma RemoveSplit(kept: seq<Prop>, p: Prop, rest: seq<Prop>)
    requires !HasKey(kept, p.key) && !HasKey(rest, p.key)
    ensures Remove(kept + ([p] + rest), p.key) == kept + rest
  {
    RemoveConcat(kept, [p] + rest, p.key);
    RemoveAbsent(kept, p.key);
    RemoveAbsent(rest, p.key);
    assert ([p] + rest)[1..] == rest;
  }

  lemma {:induction false} GetDeep(props: seq<Prop>, key: string)
    requires forall i :: 0 <= i < |props| ==> DeepValue(props[i].value)
    ensures DeepValue(Get(props, key))
  {
    if props != [] && props[0].key != key {
      GetDeep(props[1..], key);
    }
  }

  lemma PrunedDeep(options: seq<Prop>, template: seq<Prop>)
    requires DeepWellFormed(options)
    ensures forall i :: 0 <= i < |Pruned(options, template)| ==> DeepValue(Pruned(options, template)[i].value)
  {
    var r := Pruned(options, template);
    forall i | 0 <= i < |r| ensures DeepValue(r[i].value) {
      assert r[i] in r;
      PrunedElement(options, template, r[i]);
    }
  }

  /**
   * `normalizeOptions(options, defaultOptions)` (dist/options.js:12-24),
   * mutating both objects as the recursion does.
   */
  method NormalizeOptions(options: JsObject, defaultOptions: JsObject) returns (thrown: bool)
    requires options != defaultOptions
    requires DeepWellFormed(options.props) && DeepWellFormed(defaultOptions.props)
    modifies options, defaultOptions
    decreases SizeProps(options.props) + SizeProps(defaultOptions.props), 1
    ensures Outcome(options.props, defaultOptions.props, thrown)
         == NormalizeObjects(old(options.props), old(defaultOptions.props))
  {
    RemoveRedundantOptions(defaultOptions, options);
    ghost var pruned := options.props;
    PrunedDeep(old(options.props), defaultOptions.props);
    var entries := defaultOptions.props;
    var i := 0;
    while i < |entries|
      invariant 0 <= i <= |entries|
      invariant entries == old(defaultOptions.props) && pruned == Pruned(old(options.props), entries)
      invariant forall j :: 0 <= j < |pruned| ==> DeepValue(pruned[j].value)
      invariant Outcome(options.props, defaultOptions.props, false) == Fill(pruned, entries, i)
    {
      var optionKey, defaultOption := entries[i].key, entries[i].value;
      FillNext(pruned, entries, i);
      FillLeavesLaterKeys(pruned, entries, i, i);
      var option := Get(options.props, optionKey);
      assert option == Get(pruned, optionKey);
      if option.Undefined? {
        options.props := Put(options.props, optionKey, defaultOption);
      } else if IsObjectType(option) {
        SizeAt(entries, i);
        SizeGet(pruned, optionKey);
        GetDeep(pruned, optionKey);
        var inner := NormalizeNested(defaultOption, option);
        options.props := Put(options.props, optionKey, inner.template);
        defaultOptions.props := Put(defaultOptions.props, optionKey, inner.target);
        if inner.thrown {
          FillThrown(pruned, entries, i + 1, |entries|);
          return true;
        }
      }
      i := i + 1;
    }
    return false;
  }

  /** Once a turn has thrown, the later entries are never reached */
  lemma {:induction false} FillThrown(opts0: seq<Prop>, defs0: seq<Prop>, i: nat, n: nat)
    requires i <= n <= |defs0| && Fill(opts0, defs0, i).thrown
    ensures Fill(opts0, defs0, n) == Fill(opts0, defs0, i)
    decreases n - i
  {
    if i < n {
      FillStops(opts0, defs0, i);
      FillThrown(opts0, defs0, i + 1, n);
    }
  }

  /** The recursive call `normalizeOptions(defaultOption, option)` on whatever values it receives */
  method NormalizeNested(target: Value, template: Value) returns (r: ValueOutcome)
    requires IsObjectType(template) && DeepValue(target) && DeepValue(template)
    decreases Size(target) + Size(template), 0
    ensures r == NormalizeValue(target, template)
  {
    if template.Null? {
      return ValueOutcome(target, template, true);
    }
    match target {
      case Obj(props) =>
        var targetObject := new JsObject(props);
        var templateObject := new JsObject(template.props);
        var thrown := NormalizeOptions(targetObject, templateObject);
        r := ValueOutcome(Obj(targetObject.props), Obj(templateObject.props), thrown);
      case Undefined =>
        r := ValueOutcome(target, template, true);
      case Null =>
        r := ValueOutcome(target, template, true);
      case Func(_) =>
        r := ValueOutcome(target, template, false);
      case _ =>
        r := ValueOutcome(target, template, template.props != []);
    }
  }
}
