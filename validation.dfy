/** The guard sequence at the top of the aggregation chart: it decides whether
    an aggregation result can be drawn and, if it can, which property of
    `data` holds the categories and which the aggregated values. */
module ResponseValidator {
  import opened JsValue

  /** What the chart area shows for an aggregation result. */
  datatype Verdict =
    | NothingRendered     // no result, or a result without data: the chart area stays empty
    | InvalidStructure    // "Error: Invalid data structure for visualization"
    | InvalidFormat       // "Error: Invalid data format for visualization"
    | LengthMismatch      // "Error: Data length mismatch"
    | Renderable(categoryCol: Value, valueCol: string, categories: seq<Value>, values: seq<Value>)

  /** `Object.keys(data).find((key) => key !== categoryCol)`: the first own key
      of `data` that differs from the group key. A key is a string, so it is
      strictly equal to `categoryCol` only when `categoryCol` is that string. */
  function ValueColumn(data: Value, categoryCol: Option<Value>): (r: Option<string>)
    requires !data.Null?
    ensures r.None? <==> forall j :: 0 <= j < |OwnKeys(data).value| ==> Some(Str(OwnKeys(data).value[j])) == categoryCol
    ensures r.Some? ==> exists j :: 0 <= j < |OwnKeys(data).value| && OwnKeys(data).value[j] == r.value
                          && Some(Str(r.value)) != categoryCol
                          && forall i :: 0 <= i < j ==> Some(Str(OwnKeys(data).value[i])) == categoryCol
  {
    var keys := OwnKeys(data).value;
    var j := FindIndex(keys, (key: string) => Some(Str(key)) != categoryCol);
    if j.Some? then Some(keys[j.value]) else None
  }

  // ----- The four guards, in the order the chart applies them

  /** `aggregationResult && aggregationResult.data`. */
  predicate HasData(result: Value)
  {
    Truthy(Some(result)) && Truthy(Member(result, "data"))
  }

  function Data(result: Value): (d: Value)
    requires HasData(result)
    ensures !d.Null?
  {
    Member(result, "data").value
  }

  /** Both `categoryCol` and `valueCol` are truthy. */
  predicate HasKeys(result: Value)
  {
    HasData(result)
    && Truthy(Member(result, "group_by"))
    && var v := ValueColumn(Data(result), Member(result, "group_by"));
       v.Some? && v.value != ""
  }

  function CategoryCol(result: Value): Value
    requires HasKeys(result)
  {
    Member(result, "group_by").value
  }

  function ValueCol(result: Value): string
    requires HasKeys(result)
  {
    ValueColumn(Data(result), Member(result, "group_by")).value
  }

  /** `data[categoryCol]`: the group key becomes a property key through its text. */
  function Categories(result: Value, numText: real -> string): Option<Value>
    requires HasKeys(result)
  {
    Member(Data(result), ToText(CategoryCol(result), numText))
  }

  /** `data[valueCol]`. */
  function Values(result: Value): Option<Value>
    requires HasKeys(result)
  {
    Member(Data(result), ValueCol(result))
  }

  /** Both looked-up properties are arrays. */
  predicate HasArrays(result: Value, numText: real -> string)
  {
    HasKeys(result) && IsArray(Categories(result, numText)) && IsArray(Values(result))
  }

  /** The two arrays have the same length. */
  predicate HasEqualLengths(result: Value, numText: real -> string)
  {
    HasArrays(result, numText)
    && |Categories(result, numText).value.items| == |Values(result).value.items|
  }

  /** The chart's verdict on an aggregation result. Every result gets exactly
      one verdict: the first guard it fails names it, and a result that passes
      all four is drawn from the two arrays. `numText` is the engine's
      number-to-string conversion, used when the group key is not a string. */
  function Validate(result: Value, numText: real -> string): (r: Verdict)
    ensures r.NothingRendered? <==> !HasData(result)
    ensures r.InvalidStructure? <==> HasData(result) && !HasKeys(result)
    ensures r.InvalidFormat? <==> HasKeys(result) && !HasArrays(result, numText)
    ensures r.LengthMismatch? <==> HasArrays(result, numText) && !HasEqualLengths(result, numText)
    ensures r.Renderable? <==> HasEqualLengths(result, numText)
    ensures r.Renderable? ==>
              && r.categoryCol == CategoryCol(result)
              && r.valueCol == ValueCol(result)
              && Member(result, "group_by") == Some(r.categoryCol)
              && Truthy(Some(r.categoryCol))
              && r.valueCol != ""
              && r.valueCol in OwnKeys(Data(result)).value
              && Some(Str(r.valueCol)) != Some(r.categoryCol)
              && Member(Data(result), ToText(r.categoryCol, numText)) == Some(Arr(r.categories))
              && Member(Data(result), r.valueCol) == Some(Arr(r.values))
              && |r.categories| == |r.values|
  {
    if !HasData(result) then NothingRendered
    // `!valueCol` holds for a missing key and for the empty key
    else if !HasKeys(result) then InvalidStructure
    else if !IsArray(Categories(result, numText)) || !IsArray(Values(result)) then InvalidFormat
    else if |Categories(result, numText).value.items| != |Values(result).value.items| then LengthMismatch
    else Renderable(CategoryCol(result), ValueCol(result),
                    Categories(result, numText).value.items, Values(result).value.items)
  }

  /** The value column drawn is the first own key of `data` that differs from
      the group key: every key before it is the group key. */
  lemma DrawnValueColumnIsFirstOtherKey(result: Value, numText: real -> string)
    requires Validate(result, numText).Renderable?
    ensures var keys := OwnKeys(Data(result)).value;
            var v := Validate(result, numText);
            exists j :: 0 <= j < |keys| && keys[j] == v.valueCol
              && forall i :: 0 <= i < j ==> Some(Str(keys[i])) == Some(v.categoryCol)
  {
    var v := Validate(result, numText);
    var keys := OwnKeys(Data(result)).value;
    var vc := ValueColumn(Data(result), Member(result, "group_by"));
    assert vc == Some(v.valueCol);
    var j :| 0 <= j < |keys| && keys[j] == vc.value && Some(Str(vc.value)) != Member(result, "group_by")
             && forall i :: 0 <= i < j ==> Some(Str(keys[i])) == Member(result, "group_by");
  }

  /** `group_by` "__proto__" over an array `data`: `data["__proto__"]` is
      `Array.prototype`, an empty array, so an array whose only element is an
      empty array is drawn with no points. */
  lemma ScenarioProtoGroupKey(numText: real -> string)
    ensures var result := Obj([("group_by", Str("__proto__")), ("data", Arr([Arr([])]))]);
            Validate(result, numText) == Renderable(Str("__proto__"), "0", [], [])
  {
    var data := Arr([Arr([])]);
    var result := Obj([("group_by", Str("__proto__")), ("data", data)]);
    MemberOfObject(result.fields, "group_by", 0);
    MemberOfObject(result.fields, "data", 1);
    assert IndexKey(0) == "0";
    assert OwnKeys(data).value == ["0"];
    assert ParseIndex("0") == Some(0) by { IndexKeyRoundTrip(0); }
    assert ValueColumn(data, Some(Str("__proto__"))) == Some("0");
    assert Member(data, "__proto__") == Some(Arr([]));
    assert Member(data, "0") == Some(Arr([]));
  }

  /** A result with a non-empty string group key and a `data` object holding
      that key and exactly one other, in either order, passes the first two
      guards, and the two columns it looks up are exactly those two fields. */
  lemma TwoColumnResultLookups(result: Value, g: string, v: string, cats: Value, vals: Value,
                               groupFirst: bool, numText: real -> string)
    requires Member(result, "group_by") == Some(Str(g))
    requires Member(result, "data") == Some(Obj(if groupFirst then [(g, cats), (v, vals)] else [(v, vals), (g, cats)]))
    requires g != "" && v != "" && g != v
    ensures HasKeys(result) && CategoryCol(result) == Str(g) && ValueCol(result) == v
    ensures Categories(result, numText) == Some(cats) && Values(result) == Some(vals)
  {
    var data := Member(result, "data").value;
    assert OwnKeys(data).value == if groupFirst then [g, v] else [v, g];
    if groupFirst {
      assert Some(Str(OwnKeys(data).value[1])) != Some(Str(g));
    } else {
      assert Some(Str(OwnKeys(data).value[0])) != Some(Str(g));
    }
    assert ValueColumn(data, Some(Str(g))) == Some(v);
    assert Member(data, g) == Some(cats) by {
      assert data.fields[if groupFirst then 0 else 1] == (g, cats);
    }
    assert Member(data, v) == Some(vals) by {
      assert data.fields[if groupFirst then 1 else 0] == (v, vals);
    }
    assert HasData(result) && Data(result) == data;
  }

  /** A result shaped as the backend promises (a non-empty string group key,
      `data` holding that key and exactly one other, both arrays of equal
      length, in either order) is always drawn, from exactly those two arrays. */
  lemma WellFormedResultRenders(result: Value, g: string, v: string, cats: seq<Value>, vals: seq<Value>,
                                groupFirst: bool, numText: real -> string)
    requires Member(result, "group_by") == Some(Str(g))
    requires Member(result, "data") == Some(Obj(if groupFirst then [(g, Arr(cats)), (v, Arr(vals))]
                                                else [(v, Arr(vals)), (g, Arr(cats))]))
    requires g != "" && v != "" && g != v && |cats| == |vals|
    ensures Validate(result, numText) == Renderable(Str(g), v, cats, vals)
  {
    TwoColumnResultLookups(result, g, v, Arr(cats), Arr(vals), groupFirst, numText);
    assert HasEqualLengths(result, numText);
  }

  /** When `data` has more than two keys, the first one that differs from the
      group key is the one drawn, whatever follows it. */
  lemma FirstOtherKeyIsDrawn(data: Value, g: string, pre: nat)
    requires data.Obj? && pre < |data.fields|
    requires forall i :: 0 <= i < pre ==> data.fields[i].0 == g
    requires data.fields[pre].0 != g
    ensures ValueColumn(data, Some(Str(g))) == Some(data.fields[pre].0)
  {
    var keys := OwnKeys(data).value;
    var r := ValueColumn(data, Some(Str(g)));
    assert forall i :: 0 <= i < pre ==> keys[i] == g;
    assert keys[pre] == data.fields[pre].0;
  }

  /** With a string group key, the value column is always a different property
      from the category column. */
  lemma StringGroupKeyDrawsTwoColumns(result: Value, g: string, numText: real -> string)
    requires Member(result, "group_by") == Some(Str(g))
    requires Validate(result, numText).Renderable?
    ensures Validate(result, numText).valueCol != g
  {
  }

  /** A result whose `data` lacks the group key's property is a format error,
      however well-formed the value column is. */
  lemma MissingCategoryArrayIsFormatError(result: Value, g: string, v: string, vals: seq<Value>, numText: real -> string)
    requires Member(result, "group_by") == Some(Str(g)) && g != "" && v != "" && v != g
    requires Member(result, "data") == Some(Obj([(v, Arr(vals))]))
    ensures Validate(result, numText) == InvalidFormat
  {
    var data := Member(result, "data").value;
    assert OwnKeys(data).value == [v];
    assert Some(Str(OwnKeys(data).value[0])) != Some(Str(g));
    assert Member(data, g) == None;
  }

  /** `data` whose only key is the group key has no value column. */
  lemma OnlyGroupKeyIsStructureError(result: Value, g: string, cats: seq<Value>, numText: real -> string)
    requires Member(result, "group_by") == Some(Str(g)) && g != ""
    requires Member(result, "data") == Some(Obj([(g, Arr(cats))]))
    ensures Validate(result, numText) == InvalidStructure
  {
    var data := Member(result, "data").value;
    assert OwnKeys(data).value == [g];
  }

  /** The city/sales result: two cities and their mean sales. */
  lemma ScenarioTwoCities(numText: real -> string)
    ensures var data := Obj([("city", Arr([Str("A"), Str("B")])), ("sales", Arr([Num(10.5), Num(20.25)]))]);
            var result := Obj([("group_by", Str("city")), ("aggregate", Obj([("sales", Str("mean"))])), ("data", data)]);
            Validate(result, numText) == Renderable(Str("city"), "sales", [Str("A"), Str("B")], [Num(10.5), Num(20.25)])
  {
    var data := Obj([("city", Arr([Str("A"), Str("B")])), ("sales", Arr([Num(10.5), Num(20.25)]))]);
    var result := Obj([("group_by", Str("city")), ("aggregate", Obj([("sales", Str("mean"))])), ("data", data)]);
    MemberOfObject(result.fields, "group_by", 0);
    MemberOfObject(result.fields, "data", 2);
    WellFormedResultRenders(result, "city", "sales", [Str("A"), Str("B")], [Num(10.5), Num(20.25)], true, numText);
  }

  /** Three cities but two sales figures: a length mismatch. */
  lemma ScenarioLengthMismatch(numText: real -> string)
    ensures var data := Obj([("city", Arr([Str("A"), Str("B"), Str("C")])), ("sales", Arr([Num(1.0), Num(2.0)]))]);
            var result := Obj([("group_by", Str("city")), ("aggregate", Obj([("sales", Str("mean"))])), ("data", data)]);
            Validate(result, numText) == LengthMismatch
  {
    var data := Obj([("city", Arr([Str("A"), Str("B"), Str("C")])), ("sales", Arr([Num(1.0), Num(2.0)]))]);
    var result := Obj([("group_by", Str("city")), ("aggregate", Obj([("sales", Str("mean"))])), ("data", data)]);
    MemberOfObject(result.fields, "group_by", 0);
    MemberOfObject(result.fields, "data", 2);
    TwoColumnResultLookups(result, "city", "sales", Arr([Str("A"), Str("B"), Str("C")]), Arr([Num(1.0), Num(2.0)]),
                           true, numText);
    assert HasArrays(result, numText) && !HasEqualLengths(result, numText);
  }
}
