/** The slice of JavaScript semantics the PageSpeed / CrUX utility relies on:
    scalar values and their truthiness, numbers that may be NaN, destructured
    options with defaults, plain objects as ordered property lists, property
    assignment and the object spread `{...a, ...b}`. */
module Js {
  import opened Wrappers

  /** What a call of the utility can end in instead of a value. */
  datatype Error =
    | Thrown(message: string)   // a `throw "..."` of the source
    | MissingField(path: string) // a TypeError: a property read on undefined or null

  /** A scalar taken from a decoded JSON response; a property that is not
      there reads as `Undefined`. */
  datatype Value = Str(s: string) | Num(x: real) | Bool(b: bool) | Null | Undefined

  /** JavaScript truthiness of a scalar: "", 0, false, null and undefined are falsy. */
  predicate Truthy(v: Value) {
    match v
    case Str(s) => s != ""
    case Num(x) => x != 0.0
    case Bool(b) => b
    case Null => false
    case Undefined => false
  }

  /** `v || d` */
  function Or(v: Value, d: Value): Value {
    if Truthy(v) then v else d
  }

  /** A JavaScript number as the score arithmetic produces it: exact, or NaN. */
  datatype Number = Finite(r: real) | NaN

  /** `a + b`: NaN absorbs everything. */
  function Add(a: Number, b: Number): Number {
    match (a, b)
    case (Finite(x), Finite(y)) => Finite(x + y)
    case _ => NaN
  }

  /** A property of an options object after `{ name = default } = {}`:
      `Unset` when the property is undefined (the default applies), `NullArg`
      when it is null (defaults do not apply to null), `Text` otherwise. */
  datatype Arg = Unset | NullArg | Text(s: string)

  /** The option after its destructuring default is applied. */
  function WithDefault(a: Arg, default: Arg): Arg {
    if a.Unset? then default else a
  }

  /** The option as a value: undefined, null or the string. */
  function ArgValue(a: Arg): Value {
    match a
    case Unset => Undefined
    case NullArg => Null
    case Text(s) => Str(s)
  }

  /** `${a}` in a template literal. */
  function Interpolate(a: Arg): string {
    match a
    case Unset => "undefined"
    case NullArg => "null"
    case Text(s) => s
  }

  /** `list.includes(a)` for a list of strings. */
  predicate Includes(list: seq<string>, a: Arg) {
    a.Text? && a.s in list
  }

  /** A plain object whose property names are not integer-like: its own
      enumerable properties in insertion order, which for such names is the
      order `Object.keys` and the spread operator visit them in (JavaScript
      lists integer-like names first, in ascending order; no name used here
      is one). A decoded JSON object never repeats a name; the model of
      `o[k] = v` keeps names unique, but the type itself does not forbid
      repeats. */
  type Object<V> = seq<(string, V)>

  /** A flat output record: column name and cell value, in column order. */
  type Record = Object<Value>

  /** `Object.keys(o)` */
  function Keys<V>(o: Object<V>): (ks: seq<string>)
    ensures |ks| == |o|
    ensures forall i {:trigger ks[i]} :: 0 <= i < |o| ==> ks[i] == o[i].0
  {
    if o == [] then [] else [o[0].0] + Keys(o[1..])
  }

  predicate Distinct(ks: seq<string>) {
    forall i, j :: 0 <= i < j < |ks| ==> ks[i] != ks[j]
  }

  /** Two lists without repeats and without a common name concatenate into one without repeats. */
  lemma DistinctConcat(a: seq<string>, b: seq<string>)
    requires Distinct(a) && Distinct(b)
    requires forall i, j :: 0 <= i < |a| && 0 <= j < |b| ==> a[i] != b[j]
    ensures Distinct(a + b)
  {
  }

  /** `o[k]`: the value of property `k`, `None` standing for undefined. */
  function Get<V>(o: Object<V>, k: string): (r: Option<V>)
    ensures r.None? <==> k !in Keys(o)
  {
    if o == [] then None
    else if o[0].0 == k then Some(o[0].1)
    else Get(o[1..], k)
  }

  /** `o[k] = v`: overwrites `k` where it stands, or appends it as the last property. */
  function Put<V>(o: Object<V>, k: string, v: V): Object<V> {
    if o == [] then [(k, v)]
    else if o[0].0 == k then [(k, v)] + o[1..]
    else [o[0]] + Put(o[1..], k, v)
  }

  /** Assigning a new property appends it; assigning an existing one keeps
      every property where it stands. */
  lemma {:induction false} PutKeys<V>(o: Object<V>, k: string, v: V)
    ensures k !in Keys(o) ==> Put(o, k, v) == o + [(k, v)]
    ensures k in Keys(o) ==> Keys(Put(o, k, v)) == Keys(o)
  {
    if o != [] && o[0].0 != k {
      PutKeys(o[1..], k, v);
    }
  }

  /** After `o[k] = v`, reading `k` gives `v` and every other property reads as before. */
  lemma {:induction false} GetPut<V>(o: Object<V>, k: string, v: V, k': string)
    ensures Get(Put(o, k, v), k') == if k' == k then Some(v) else Get(o, k')
  {
    if o != [] && o[0].0 != k {
      GetPut(o[1..], k, v, k');
    }
  }

  /** `{...a, ...b}`: the properties of `b`, in order, assigned onto a copy of `a`. */
  function Merge<V>(a: Object<V>, b: Object<V>): Object<V>
    decreases |b|
  {
    if b == [] then a else Merge(Put(a, b[0].0, b[0].1), b[1..])
  }

  lemma KeysAppend<V>(o: Object<V>, p: (string, V))
    ensures Keys(o + [p]) == Keys(o) + [p.0]
  {
  }

  lemma KeysConcat<V>(a: Object<V>, b: Object<V>)
    ensures Keys(a + b) == Keys(a) + Keys(b)
  {
  }

  /** Every name of `ks` is a property of `o`. */
  predicate HasAll<V>(o: Object<V>, ks: seq<string>) {
    forall i :: 0 <= i < |ks| ==> ks[i] in Keys(o)
  }

  /** Moving the first property of `b` onto `a` keeps `b`'s rest disjoint from `a`. */
  lemma DisjointStep<V>(a: Object<V>, b: Object<V>)
    requires b != [] && Distinct(Keys(b))
    requires forall i :: 0 <= i < |b| ==> b[i].0 !in Keys(a)
    ensures Distinct(Keys(b[1..]))
    ensures forall i :: 0 <= i < |b[1..]| ==> b[1..][i].0 !in Keys(a + [b[0]])
  {
    KeysAppend(a, b[0]);
    forall i | 0 <= i < |b[1..]|
      ensures b[1..][i].0 !in Keys(a + [b[0]])
    {
      assert Keys(b)[0] != Keys(b)[i + 1];
      assert b[i + 1].0 !in Keys(a);
    }
    assert Keys(b[1..]) == Keys(b)[1..];
  }

  /** Spreading a property that `a` lacks appends it. */
  lemma MergeStep<V>(a: Object<V>, b: Object<V>)
    requires b != [] && b[0].0 !in Keys(a)
    ensures Merge(a, b) == Merge(a + [b[0]], b[1..])
  {
    PutKeys(a, b[0].0, b[0].1);
  }

  /** Spreading objects whose property names do not collide lays their
      properties side by side, `a`'s first. */
  lemma {:induction false} MergeDisjoint<V>(a: Object<V>, b: Object<V>)
    requires Distinct(Keys(b))
    requires forall i :: 0 <= i < |b| ==> b[i].0 !in Keys(a)
    ensures Merge(a, b) == a + b
    decreases |b|
  {
    if b != [] {
      MergeStep(a, b);
      DisjointStep(a, b);
      MergeDisjoint(a + [b[0]], b[1..]);
      assert (a + [b[0]]) + b[1..] == a + b;
    }
  }

  /** Spreading `b` onto `a` when no property name occurs twice among both. */
  lemma MergeDistinct<V>(a: Object<V>, b: Object<V>)
    requires Distinct(Keys(a) + Keys(b))
    ensures Merge(a, b) == a + b
  {
    var ks := Keys(a) + Keys(b);
    forall i, j | 0 <= i < j < |b|
      ensures Keys(b)[i] != Keys(b)[j]
    {
      assert ks[|a| + i] != ks[|a| + j];
    }
    forall i, j | 0 <= i < |b| && 0 <= j < |a|
      ensures Keys(a)[j] != b[i].0
    {
      assert ks[j] != ks[|a| + i];
    }
    MergeDisjoint(a, b);
  }
}
