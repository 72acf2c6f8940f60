/** The JSON-shaped values the report pages read from portfolio files, and the JavaScript
    coercions they apply to them: truthiness, `a || b`, optional property access, `typeof x ===
    'number'`, `Number(x)`, `Math.round(x)`, `Object.entries(x)` and the `<` comparison. */
module JsValue {
  import opened Common
  import opened Text
  import opened Sorting

  datatype Value =
    | Undefined
    | Null
    | Bool(b: bool)
    | Num(n: real)
    | NaN
    | Str(s: string)
    | Arr(items: seq<Value>)
    | Obj(fields: seq<(string, Value)>)

  /** JavaScript truthiness: false, 0, NaN, "", null and undefined are falsy. */
  predicate Truthy(v: Value)
  {
    match v
    case Undefined => false
    case Null => false
    case Bool(b) => b
    case Num(n) => n != 0.0
    case NaN => false
    case Str(s) => s != []
    case Arr(_) => true
    case Obj(_) => true
  }

  /** `a || b`: a when a is truthy, otherwise b. */
  function Or(a: Value, b: Value): (r: Value)
    ensures Truthy(r) <==> Truthy(a) || Truthy(b)
    ensures Truthy(a) ==> r == a
    ensures !Truthy(a) ==> r == b
  {
    if Truthy(a) then a else b
  }

  /** The value of the last field named k (a parsed JSON object keeps the last duplicate). */
  function Field(fields: seq<(string, Value)>, k: string): Value
  {
    if fields == [] then Undefined
    else if fields[|fields| - 1].0 == k then fields[|fields| - 1].1
    else Field(fields[..|fields| - 1], k)
  }

  /** A field whose name occurs at index i and nowhere after it is the one read. */
  lemma {:induction false} FieldUnique(fields: seq<(string, Value)>, i: nat, k: string)
    requires i < |fields| && fields[i].0 == k
    requires forall j :: i < j < |fields| ==> fields[j].0 != k
    ensures Field(fields, k) == fields[i].1
  {
    if i < |fields| - 1 {
      FieldUnique(fields[..|fields| - 1], i, k);
    }
  }

  /** Fields appended after the last one named k leave its value alone. */
  lemma {:induction false} FieldsAfter(fields: seq<(string, Value)>, extra: seq<(string, Value)>, k: string)
    requires forall j :: 0 <= j < |extra| ==> extra[j].0 != k
    ensures Field(fields + extra, k) == Field(fields, k)
    decreases |extra|
  {
    if extra != [] {
      var all := fields + extra;
      assert all[..|all| - 1] == fields + extra[..|extra| - 1];
      FieldsAfter(fields, extra[..|extra| - 1], k);
    } else {
      assert fields + extra == fields;
    }
  }

  /** `v?.k`: the property of an object; undefined for anything else. */
  function Get(v: Value, k: string): Value
  {
    if v.Obj? then Field(v.fields, k) else Undefined
  }

  /** `typeof v === 'number'` (NaN is a number). */
  predicate IsNumber(v: Value)
  {
    v.Num? || v.NaN?
  }

  /** `Number(s)` for a string: blank is 0, a run of decimal digits is its value, and anything
      else is NaN in this model. */
  function StrToNumber(s: string): (r: Value)
    ensures r.Num? || r.NaN?
  {
    var t := Trim(s);
    if t == [] then Num(0.0)
    else if forall i :: 0 <= i < |t| ==> IsDigit(t[i]) then Num(ParseDigits(t) as real)
    else NaN
  }

  /** `Number(v)`: always a number (possibly NaN). */
  function ToNumber(v: Value): (r: Value)
    ensures r.Num? || r.NaN?
    ensures v.Num? ==> r == v
  {
    match v
    case Undefined => NaN
    case Null => Num(0.0)
    case Bool(b) => if b then Num(1.0) else Num(0.0)
    case Num(_) => v
    case NaN => NaN
    case Str(s) => StrToNumber(s)
    case Arr(items) =>
      if items == [] then Num(0.0)
      else if |items| == 1 then
        match items[0]
        case Undefined => Num(0.0)
        case Null => Num(0.0)
        case Num(_) => items[0]
        case NaN => NaN
        case Str(s) => StrToNumber(s)
        case _ => NaN
      else NaN
    case Obj(_) => NaN
  }

  /** `Number(v) || 0`: a real number, NaN becoming 0. */
  function NumberOr0(v: Value): (r: real)
    ensures v.Num? ==> r == v.n
    ensures ToNumber(v).NaN? ==> r == 0.0
  {
    match ToNumber(v)
    case Num(n) => n
    case _ => 0.0
  }

  /** `Math.round(v)`: the nearest integer of `Number(v)`, halves going up; NaN stays NaN. */
  function JsRound(v: Value): (r: Value)
    ensures r.Num? <==> ToNumber(v).Num?
    ensures r.Num? ==> r.n.Floor as real == r.n && r.n - 1.0 / 2.0 <= ToNumber(v).n < r.n + 1.0 / 2.0
  {
    var x := ToNumber(v);
    if x.Num? then Num(Round(x.n) as real) else NaN
  }

  /** `Object.entries(v)`: the fields of an object, the indexed elements of an array or the
      characters of a string, and nothing for any other value. */
  function Entries(v: Value): (es: seq<(string, Value)>)
    ensures v.Obj? ==> es == v.fields
    ensures v.Arr? ==> |es| == |v.items|
    ensures v.Str? ==> |es| == |v.s|
    ensures !v.Obj? && !v.Arr? && !v.Str? ==> es == []
  {
    match v
    case Obj(fields) => fields
    case Arr(items) => seq(|items|, i requires 0 <= i < |items| => (Digits(i), items[i]))
    case Str(s) => seq(|s|, i requires 0 <= i < |s| => (Digits(i), Str([s[i]])))
    case _ => []
  }

  /** The entries of an array or a string are its items keyed by their decimal indices. */
  lemma EntriesIndexed(v: Value)
    ensures v.Arr? ==> forall i :: 0 <= i < |Entries(v)| ==> Entries(v)[i] == (Digits(i), v.items[i])
    ensures v.Str? ==> forall i :: 0 <= i < |Entries(v)| ==> Entries(v)[i] == (Digits(i), Str([v.s[i]]))
  {
  }

  /** `String(v)`, also the name a computed property `{[v]: ...}` gets: strings, booleans,
      null, undefined, NaN, objects and whole numbers; fractional numbers and arrays are not
      modelled and give "". */
  function ToText(v: Value): (k: string)
    ensures v.Str? ==> k == v.s
  {
    match v
    case Str(s) => s
    case Bool(b) => if b then "true" else "false"
    case Null => "null"
    case Undefined => "undefined"
    case NaN => "NaN"
    case Obj(_) => "[object Object]"
    case Num(n) =>
      if n.Floor as real != n then ""
      else if n >= 0.0 then Digits(n.Floor) else "-" + Digits(-n.Floor)
    case Arr(_) => ""
  }

  /** The primitive `<` turns a value into first: arrays and objects become their text. */
  function ToPrimitive(v: Value): (p: Value)
    ensures !p.Arr? && !p.Obj?
    ensures v.Arr? || v.Obj? ==> p == Str(ToText(v))
  {
    if v.Arr? || v.Obj? then Str(ToText(v)) else v
  }

  /** `a < b` on two values: when both turn into strings (strings, arrays, objects) they compare
      by character code, anything else numerically, and a comparison with NaN is false. */
  predicate JsLess(a: Value, b: Value)
  {
    var pa, pb := ToPrimitive(a), ToPrimitive(b);
    if pa.Str? && pb.Str? then StrLess(pa.s, pb.s)
    else ToNumber(a).Num? && ToNumber(b).Num? && ToNumber(a).n < ToNumber(b).n
  }

  /** `<` is irreflexive and asymmetric on every pair of values. */
  lemma JsLessAsymmetric(a: Value, b: Value)
    ensures !JsLess(a, a)
    ensures JsLess(a, b) ==> !JsLess(b, a)
  {
    var pa, pb := ToPrimitive(a), ToPrimitive(b);
    if pa.Str? {
      StrLessAsymmetric(pa.s, pa.s);
    }
    if pa.Str? && pb.Str? {
      StrLessAsymmetric(pa.s, pb.s);
    }
  }

  /** On values that are all strings, or all numbers other than NaN, `<` is a strict weak
      order, so sorting by it is well defined. */
  predicate Comparable(vs: seq<Value>)
  {
    (forall i :: 0 <= i < |vs| ==> vs[i].Str?) || (forall i :: 0 <= i < |vs| ==> vs[i].Num?)
  }

  lemma JsLessLaws(a: Value, b: Value, c: Value)
    requires Comparable([a, b, c])
    ensures JsLess(a, b) ==> !JsLess(b, a)
    ensures JsLess(a, b) && JsLess(b, c) ==> JsLess(a, c)
    ensures !JsLess(a, b) && !JsLess(b, c) ==> !JsLess(a, c)
  {
    var vs := [a, b, c];
    assert vs[0] == a && vs[1] == b && vs[2] == c;
    JsLessAsymmetric(a, b);
    if a.Str? && b.Str? && c.Str? {
      StrLessTransitive(a.s, b.s, c.s);
      StrLessTotal(a.s, b.s);
      StrLessTotal(b.s, c.s);
      StrLessTransitive(c.s, b.s, a.s);
      StrLessAsymmetric(a.s, c.s);
    }
  }
}
