/**
 * Strings as the JavaScript core uses them: prefix and suffix tests,
 * `includes` of one character, ASCII lower-casing and decimal rendering
 * of a counter.
 */
module Text {

  /** `s.startsWith(p)` */
  predicate StartsWith(s: string, p: string) {
    |p| <= |s| && s[..|p|] == p
  }

  /** `s.endsWith(p)` */
  predicate EndsWith(s: string, p: string) {
    |p| <= |s| && s[|s| - |p|..] == p
  }

  /** `s.includes(c)` for a one-character argument */
  predicate Contains(s: string, c: char) {
    exists i :: 0 <= i < |s| && s[i] == c
  }

  function LowerChar(c: char): char {
    if 'A' <= c <= 'Z' then (c as int + 32) as char else c
  }

  /** `s.toLocaleLowerCase()` restricted to ASCII letters */
  function Lower(s: string): (r: string)
    ensures |r| == |s|
    ensures forall i :: 0 <= i < |s| ==> r[i] == LowerChar(s[i])
  {
    if s == [] then [] else [LowerChar(s[0])] + Lower(s[1..])
  }

  lemma {:induction false} LowerConcat(a: string, b: string)
    ensures Lower(a + b) == Lower(a) + Lower(b)
  {
    if a == [] {
      assert a + b == b;
    } else {
      assert (a + b)[1..] == a[1..] + b;
      LowerConcat(a[1..], b);
    }
  }

  function DigitChar(d: nat): char
    requires d < 10
  {
    "0123456789"[d]
  }

  /** Decimal rendering of a natural number, as a template literal does it */
  function NatToString(n: nat): (r: string)
    ensures |r| >= 1
    ensures forall i :: 0 <= i < |r| ==> '0' <= r[i] <= '9'
    ensures r[0] == '0' ==> n == 0
    ensures (|r| == 1) == (n < 10)
  {
    if n < 10 then [DigitChar(n)] else NatToString(n / 10) + [DigitChar(n % 10)]
  }

  lemma DigitCharInjective(a: nat, b: nat)
    requires a < 10 && b < 10 && DigitChar(a) == DigitChar(b)
    ensures a == b
  {
  }

  /** Different counters never render to the same text */
  lemma {:induction false} NatToStringInjective(m: nat, n: nat)
    requires NatToString(m) == NatToString(n)
    ensures m == n
  {
    var sm, sn := NatToString(m), NatToString(n);
    if m < 10 && n < 10 {
      DigitCharInjective(m, n);
    } else if m < 10 || n < 10 {
      assert false;
    } else {
      var pm, pn := NatToString(m / 10), NatToString(n / 10);
      assert sm == pm + [DigitChar(m % 10)] && sn == pn + [DigitChar(n % 10)];
      assert sm[..|sm| - 1] == pm && sn[..|sn| - 1] == pn;
      assert sm[|sm| - 1] == DigitChar(m % 10) && sn[|sn| - 1] == DigitChar(n % 10);
      DigitCharInjective(m % 10, n % 10);
      NatToStringInjective(m / 10, n / 10);
    }
  }
}

/**
 * JavaScript values as the core inspects them. Objects are plain data
 * objects held by value: their own enumerable string-keyed properties in
 * key order. Numbers are integers; functions are opaque.
 */
module JsValues {

  datatype Option<T> = None | Some(value: T)

  datatype Value =
    | Undefined
    | Null
    | Bool(b: bool)
    | Num(n: int)
    | Str(s: string)
    | Func(id: nat)
    | Obj(props: seq<Prop>)

  datatype Prop = Prop(key: string, value: Value)

  /** The value in a boolean position (`if (v)`, `v || w`, `v ? a : b`) */
  predicate Truthy(v: Value) {
    match v
    case Undefined => false
    case Null => false
    case Bool(b) => b
    case Num(n) => n != 0
    case Str(s) => s != ""
    case Func(_) => true
    case Obj(_) => true
  }

  /** `typeof v === 'object'`: objects and `null` */
  predicate IsObjectType(v: Value) {
    v.Obj? || v.Null?
  }

  /** `v instanceof Object`: objects and functions, never a primitive or `null` */
  predicate IsInstanceOfObject(v: Value) {
    v.Obj? || v.Func?
  }

  /** `typeof v` */
  function TypeOf(v: Value): string {
    match v
    case Undefined => "undefined"
    case Null => "object"
    case Bool(_) => "boolean"
    case Num(_) => "number"
    case Str(_) => "string"
    case Func(_) => "function"
    case Obj(_) => "object"
  }

  /** `Object.keys(o)` */
  function Keys(props: seq<Prop>): (r: seq<string>)
    ensures |r| == |props|
    ensures forall i :: 0 <= i < |props| ==> r[i] == props[i].key
  {
    if props == [] then [] else [props[0].key] + Keys(props[1..])
  }

  function KeySet(props: seq<Prop>): set<string> {
    set p | p in props :: p.key
  }

  /** A JavaScript object never holds two properties with the same key */
  predicate WellFormed(props: seq<Prop>) {
    forall i, j :: 0 <= i < j < |props| ==> props[i].key != props[j].key
  }

  /** `WellFormed` at every depth */
  predicate DeepWellFormed(props: seq<Prop>)
    decreases props, 1
  {
    WellFormed(props) && forall i :: 0 <= i < |props| ==> DeepValue(props[i].value)
  }

  predicate DeepValue(v: Value)
    decreases v, 0
  {
    match v
    case Obj(ps) => DeepWellFormed(ps)
    case _ => true
  }

  /** `key in o` (own properties only) */
  predicate HasKey(props: seq<Prop>, key: string) {
    key in KeySet(props)
  }

  /** `o[key]`: the value of the property, `undefined` when there is none */
  function Get(props: seq<Prop>, key: string): Value {
    if props == [] then Undefined
    else if props[0].key == key then props[0].value
    else Get(props[1..], key)
  }

  /** A key that is present is read from its first property; an absent one reads `undefined` */
  lemma {:induction false} GetFound(props: seq<Prop>, key: string)
    ensures !HasKey(props, key) ==> Get(props, key) == Undefined
    ensures HasKey(props, key) ==>
      exists i :: 0 <= i < |props| && props[i].key == key && Get(props, key) == props[i].value
  {
    if props != [] {
      assert KeySet(props) == {props[0].key} + KeySet(props[1..]);
      GetFound(props[1..], key);
      if props[0].key != key && HasKey(props, key) {
        var i :| 0 <= i < |props[1..]| && props[1..][i].key == key && Get(props[1..], key) == props[1..][i].value;
        assert props[i + 1].key == key;
      }
    }
  }

  /** In a well-formed object every property is the one its key reads */
  lemma {:induction false} GetAt(props: seq<Prop>, i: nat)
    requires WellFormed(props) && i < |props|
    ensures Get(props, props[i].key) == props[i].value
  {
    if i > 0 {
      GetAt(props[1..], i - 1);
    }
  }

  /** `o[key] = v`: an existing property keeps its place, a new one goes last */
  function Put(props: seq<Prop>, key: string, v: Value): (r: seq<Prop>)
    ensures KeySet(r) == KeySet(props) + {key}
    ensures HasKey(props, key) ==> |r| == |props|
  {
    if props == [] then [Prop(key, v)]
    else if props[0].key == key then
      assert KeySet(props) == {props[0].key} + KeySet(props[1..]);
      assert KeySet([Prop(key, v)] + props[1..]) == {key} + KeySet(props[1..]);
      [Prop(key, v)] + props[1..]
    else
      var rest := Put(props[1..], key, v);
      assert KeySet(props) == {props[0].key} + KeySet(props[1..]);
      assert KeySet([props[0]] + rest) == {props[0].key} + KeySet(rest);
      [props[0]] + rest
  }

  /** Reading back what `Put` wrote, and what it left alone */
  lemma {:induction false} GetPut(props: seq<Prop>, key: string, v: Value, k: string)
    ensures Get(Put(props, key, v), k) == if k == key then v else Get(props, k)
  {
    if props != [] && props[0].key != key {
      GetPut(props[1..], key, v, k);
    }
  }

  lemma {:induction false} PutWellFormed(props: seq<Prop>, key: string, v: Value)
    requires WellFormed(props)
    ensures WellFormed(Put(props, key, v))
  {
    if props != [] && props[0].key != key {
      PutWellFormed(props[1..], key, v);
      var rest := Put(props[1..], key, v);
      assert KeySet(props) == {props[0].key} + KeySet(props[1..]);
      assert forall j :: 0 <= j < |rest| ==> rest[j].key in KeySet(rest);
    }
  }

  /** `delete o[key]` */
  function Remove(props: seq<Prop>, key: string): (r: seq<Prop>)
    ensures KeySet(r) == KeySet(props) - {key}
  {
    if props == [] then []
    else
      var rest := Remove(props[1..], key);
      assert KeySet(props) == {props[0].key} + KeySet(props[1..]);
      if props[0].key == key then rest
      else
        assert KeySet([props[0]] + rest) == {props[0].key} + KeySet(rest);
        [props[0]] + rest
  }

  /** `{...a, ...b}`: the properties of `a`, then those of `b`, a later one overwriting in place */
  function Spread(a: seq<Prop>, b: seq<Prop>): (r: seq<Prop>)
    ensures KeySet(r) == KeySet(a) + KeySet(b)
    decreases |b|
  {
    if b == [] then a
    else
      assert KeySet(b) == {b[0].key} + KeySet(b[1..]);
      Spread(Put(a, b[0].key, b[0].value), b[1..])
  }

  /** A key of `b` reads as in `b`; any other key reads as in `a` */
  lemma {:induction false} GetSpread(a: seq<Prop>, b: seq<Prop>, k: string)
    requires WellFormed(b)
    ensures Get(Spread(a, b), k) == if HasKey(b, k) then Get(b, k) else Get(a, k)
    decreases |b|
  {
    if b != [] {
      assert KeySet(b) == {b[0].key} + KeySet(b[1..]);
      GetSpread(Put(a, b[0].key, b[0].value), b[1..], k);
      GetPut(a, b[0].key, b[0].value, k);
      if k == b[0].key {
        forall p | p in b[1..] ensures p.key != k {
          var j :| 0 <= j < |b[1..]| && b[1..][j] == p;
          assert b[j + 1] == p;
        }
      }
    }
  }

  /** A measure for recursion over nested objects */
  function Size(v: Value): nat
    decreases v, 0
  {
    match v
    case Obj(ps) => 1 + SizeProps(ps)
    case _ => 1
  }

  function SizeProps(ps: seq<Prop>): nat
    decreases ps, 1
  {
    if ps == [] then 0 else Size(ps[0].value) + SizeProps(ps[1..])
  }

  /** No property value is bigger than the object that holds it */
  lemma {:induction false} SizeGet(ps: seq<Prop>, key: string)
    ensures Get(ps, key).Undefined? || Size(Get(ps, key)) <= SizeProps(ps)
  {
    if ps != [] && ps[0].key != key {
      SizeGet(ps[1..], key);
    }
  }

  lemma {:induction false} SizeAt(ps: seq<Prop>, i: nat)
    requires i < |ps|
    ensures Size(ps[i].value) <= SizeProps(ps)
  {
    if i > 0 {
      SizeAt(ps[1..], i - 1);
    }
  }
}
