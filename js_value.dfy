/** JSON values as the dashboard receives them from the backend, and the few
    pieces of JavaScript semantics its checks rely on: truthiness (`!x`),
    own-property lookup (`v[key]`), `Object.keys`, `Array.prototype.findIndex`
    and conversion of a value to text (property keys, template literals). */
module JsValue {

  datatype Option<+T> = None | Some(value: T)

  /** The outcome of an expression that may throw: `Object.keys(null)` and
      `Object.keys(undefined)` throw a TypeError. */
  datatype Completion<+T> = Normal(value: T) | TypeError

  /** A parsed JSON value. An object lists its properties in the order in which
      `Object.keys` enumerates them. JSON numbers are finite, so a real stands
      for each of them. */
  datatype Value =
    | Null
    | Bool(b: bool)
    | Num(n: real)
    | Str(s: string)
    | Arr(items: seq<Value>)
    | Obj(fields: seq<(string, Value)>)

  /** `!!v`, where `None` is `undefined`, the value of a missing property. */
  predicate Truthy(v: Option<Value>)
  {
    match v
    case None => false
    case Some(Null) => false
    case Some(Bool(b)) => b
    case Some(Num(n)) => n != 0.0
    case Some(Str(s)) => s != ""
    case Some(Arr(_)) => true
    case Some(Obj(_)) => true
  }

  /** `Array.isArray(v)`. */
  predicate IsArray(v: Option<Value>)
  {
    v.Some? && v.value.Arr?
  }

  /** `Array.prototype.findIndex`: the position of the first element of `s`
      that satisfies `p`, or None when there is none. */
  function FindIndex<T>(s: seq<T>, p: T -> bool): (r: Option<nat>)
    ensures r.Some? ==> r.value < |s| && p(s[r.value])
    ensures r.Some? ==> forall i :: 0 <= i < r.value ==> !p(s[i])
    ensures r.None? ==> forall i :: 0 <= i < |s| ==> !p(s[i])
    decreases |s|
  {
    if s == [] then None
    else if p(s[0]) then Some(0)
    else
      var rest := FindIndex(s[1..], p);
      if rest.Some? then Some(rest.value + 1) else None
  }

  // ----- Array index keys: arrays and strings expose "0", "1", ... as own keys

  predicate IsDigit(c: char)
  {
    '0' <= c <= '9'
  }

  function DigitChar(d: nat): (c: char)
    requires d < 10
  {
    (48 + d) as char
  }

  function DigitValue(c: char): nat
    requires IsDigit(c)
  {
    (c as int) - 48
  }

  predicate AllDigits(k: string)
  {
    forall j :: 0 <= j < |k| ==> IsDigit(k[j])
  }

  /** The decimal text of an array index, as `Object.keys` lists it. */
  function IndexKey(i: nat): string
    decreases i
  {
    if i < 10 then [DigitChar(i)] else IndexKey(i / 10) + [DigitChar(i % 10)]
  }

  function DigitsValue(k: string): nat
    requires AllDigits(k)
    decreases |k|
  {
    if k == [] then 0 else DigitsValue(k[..|k| - 1]) * 10 + DigitValue(k[|k| - 1])
  }

  /** A property key that names an array element: decimal digits, no leading zero. */
  predicate IsCanonicalIndex(k: string)
  {
    |k| > 0 && AllDigits(k) && (k[0] == '0' ==> |k| == 1)
  }

  /** The array index a property key names, if any. */
  function ParseIndex(k: string): Option<nat>
  {
    if IsCanonicalIndex(k) then Some(DigitsValue(k)) else None
  }

  /** Appending a digit keeps a digit string, keeps its first character and
      multiplies its value by ten before adding the digit. */
  lemma AppendDigit(p: string, c: char)
    requires AllDigits(p) && IsDigit(c)
    ensures AllDigits(p + [c])
    ensures (p + [c])[..|p|] == p
    ensures DigitsValue(p + [c]) == DigitsValue(p) * 10 + DigitValue(c)
    ensures |p| > 0 ==> (p + [c])[0] == p[0]
  {
    var k := p + [c];
    assert k[..|k| - 1] == p;
    forall j | 0 <= j < |k| ensures IsDigit(k[j]) {
      if j < |p| { assert k[j] == p[j]; }
    }
  }

  /** Printing an index and reading it back gives the index. */
  lemma {:induction false} IndexKeyRoundTrip(i: nat)
    ensures IsCanonicalIndex(IndexKey(i))
    ensures IndexKey(i)[0] == '0' <==> i == 0
    ensures ParseIndex(IndexKey(i)) == Some(i)
    decreases i
  {
    if i < 10 {
      assert IndexKey(i) == [] + [DigitChar(i)];
      AppendDigit([], DigitChar(i));
    } else {
      IndexKeyRoundTrip(i / 10);
      var p := IndexKey(i / 10);
      var c := DigitChar(i % 10);
      assert IndexKey(i) == p + [c];
      AppendDigit(p, c);
      assert DigitsValue(p + [c]) == (i / 10) * 10 + i % 10;
    }
  }

  /** A canonical index with a non-zero leading digit denotes a positive number. */
  lemma {:induction false} LeadingDigitPositive(k: string)
    requires |k| > 0 && AllDigits(k) && k[0] != '0'
    ensures DigitsValue(k) > 0
    decreases |k|
  {
    if |k| > 1 {
      var p := k[..|k| - 1];
      assert p[0] == k[0];
      LeadingDigitPositive(p);
    }
  }

  /** Every canonical index key is the printed form of the index it denotes. */
  lemma {:induction false} ParseIndexRoundTrip(k: string)
    requires IsCanonicalIndex(k)
    ensures IndexKey(DigitsValue(k)) == k
    decreases |k|
  {
    var d := DigitValue(k[|k| - 1]);
    if |k| == 1 {
      assert DigitsValue(k) == d;
      assert DigitChar(d) == k[0];
    } else {
      var p := k[..|k| - 1];
      assert p[0] == k[0];
      LeadingDigitPositive(p);
      ParseIndexRoundTrip(p);
      var v := DigitsValue(p);
      var i := v * 10 + d;
      assert DigitsValue(k) == i;
      assert i / 10 == v && i % 10 == d;
      assert DigitChar(d) == k[|k| - 1];
      assert IndexKey(i) == p + [k[|k| - 1]];
      assert p + [k[|k| - 1]] == k;
    }
  }

  function IndexKeys(n: nat): (r: seq<string>)
    ensures |r| == n
  {
    seq(n, (i: int) requires 0 <= i => IndexKey(i))
  }

  function FieldNames(fields: seq<(string, Value)>): (r: seq<string>)
    ensures |r| == |fields|
  {
    seq(|fields|, (i: int) requires 0 <= i < |fields| => fields[i].0)
  }

  /** `Object.keys(v)`: throws (None) on null and undefined; a number or a
      boolean has no own keys; strings and arrays list their indices. */
  function OwnKeys(v: Value): Option<seq<string>>
  {
    match v
    case Null => None
    case Bool(_) => Some([])
    case Num(_) => Some([])
    case Str(s) => Some(IndexKeys(|s|))
    case Arr(items) => Some(IndexKeys(|items|))
    case Obj(fields) => Some(FieldNames(fields))
  }

  /** `v[key]` on a value that is neither null nor undefined. Own properties
      are modelled, and of the inherited ones only `__proto__` of an array:
      it is `Array.prototype`, itself an empty array. Every other inherited
      property (a prototype method, `Object.prototype`, `String.prototype`)
      is not an array, which is all the dashboard asks of a looked-up value,
      so it reads as absent here. */
  function Member(v: Value, key: string): Option<Value>
  {
    match v
    case Obj(fields) =>
      var i := FindIndex(fields, (f: (string, Value)) => f.0 == key);
      if i.Some? then Some(fields[i.value].1) else None
    case Arr(items) =>
      if key == "length" then Some(Num(|items| as real))
      else if key == "__proto__" then Some(Arr([]))
      else
        var i := ParseIndex(key);
        if i.Some? && i.value < |items| then Some(items[i.value]) else None
    case Str(s) =>
      if key == "length" then Some(Num(|s| as real))
      else
        var i := ParseIndex(key);
        if i.Some? && i.value < |s| then Some(Str([s[i.value]])) else None
    case _ => None
  }

  /** An object's property is the field of the first entry with that name. */
  lemma MemberOfObject(fields: seq<(string, Value)>, key: string, i: nat)
    requires i < |fields| && fields[i].0 == key
    requires forall j :: 0 <= j < i ==> fields[j].0 != key
    ensures Member(Obj(fields), key) == Some(fields[i].1)
  {
    var r := FindIndex(fields, (f: (string, Value)) => f.0 == key);
    assert r.Some?;
  }

  /** Every key `Object.keys` lists for a value is present on it: an object's
      key finds a field of that name, and an array's j-th key finds its j-th
      element. */
  lemma OwnKeysResolve(v: Value, j: nat)
    requires OwnKeys(v).Some? && j < |OwnKeys(v).value|
    ensures Member(v, OwnKeys(v).value[j]).Some?
    ensures v.Arr? ==> Member(v, OwnKeys(v).value[j]) == Some(v.items[j])
    ensures v.Obj? ==> exists i :: 0 <= i < |v.fields| && v.fields[i].0 == OwnKeys(v).value[j]
                                    && Member(v, OwnKeys(v).value[j]) == Some(v.fields[i].1)
  {
    match v
    case Obj(fields) =>
      var key := fields[j].0;
      var i := FindIndex(fields, (f: (string, Value)) => f.0 == key);
      assert fields[j].0 == key;
    case Arr(items) =>
      IndexKeyRoundTrip(j);
      assert IndexKey(j) != "length" && IndexKey(j) != "__proto__" by {
        assert IsDigit(IndexKey(j)[0]);
      }
    case Str(s) =>
      IndexKeyRoundTrip(j);
      assert IndexKey(j) != "length" by {
        assert IsDigit(IndexKey(j)[0]);
      }
  }

  function Join(parts: seq<string>, sep: string): string
  {
    if parts == [] then ""
    else if |parts| == 1 then parts[0]
    else parts[0] + sep + Join(parts[1..], sep)
  }

  /** `String(v)`, which is also how a value becomes a property key and how a
      template literal prints it. `numText` is the engine's number-to-string
      conversion; an array prints as its elements joined by commas, with null
      elements as empty text. */
  function ToText(v: Value, numText: real -> string): string
    decreases v
  {
    match v
    case Null => "null"
    case Bool(b) => if b then "true" else "false"
    case Num(n) => numText(n)
    case Str(s) => s
    case Arr(items) =>
      Join(seq(|items|, (i: int) requires 0 <= i < |items| =>
                 if items[i].Null? then "" else ToText(items[i], numText)), ",")
    case Obj(_) => "[object Object]"
  }
}
