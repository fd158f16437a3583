/** The chart adapter: from a validated aggregation result and the selected
    chart type to the Plotly trace list and layout the dashboard draws. */
module ChartAdapter {
  import opened JsValue
  import opened ResponseValidator

  /** The eight slice colours of the pie chart, in order. */
  const Palette: seq<string> :=
    ["#3B82F6", "#10B981", "#F59E0B", "#EF4444", "#8B5CF6", "#F97316", "#06B6D4", "#84CC16"]

  /** Colour of bars, line and markers. */
  const Accent: string := "#3B82F6"
  /** Outline of the bars. */
  const BarOutline: string := "#1D4ED8"
  const Transparent: string := "rgba(0,0,0,0)"

  datatype Trace =
    | PieTrace(labels: seq<Value>, values: seq<Value>, colors: seq<string>,
               textinfo: string, textposition: string, hovertemplate: string)
    | ScatterTrace(x: seq<Value>, y: seq<Value>, mode: string, markerColor: string, markerSize: nat,
                   lineColor: string, lineWidth: nat, text: seq<Value>, hovertemplate: string)
    | BarTrace(x: seq<Value>, y: seq<Value>, markerColor: string, outlineColor: string, outlineWidth: nat,
               text: seq<Value>, textposition: string, hovertemplate: string)

  datatype Margin = Margin(t: int, b: int, l: int, r: int)
  datatype XAxis = XAxis(title: Value, tickangle: int)
  datatype YAxis = YAxis(title: string)

  datatype Layout =
    | PieLayout(height: nat, margin: Margin, plotBgcolor: string, paperBgcolor: string,
                title: string, showlegend: bool)
    | AxesLayout(height: nat, margin: Margin, plotBgcolor: string, paperBgcolor: string,
                 title: string, xaxis: XAxis, yaxis: YAxis)

  /** The label drawn on a bar or point: `typeof v === "number" ? v.toFixed(2) : v`. */
  function Label(v: Value, toFixed2: real -> string): Value
  {
    if v.Num? then Str(toFixed2(v.n)) else v
  }

  /** `values.map(Label)`. */
  function Labels(values: seq<Value>, toFixed2: real -> string): (r: seq<Value>)
    ensures |r| == |values|
    ensures forall i :: 0 <= i < |values| ==> r[i] == Label(values[i], toFixed2)
  {
    seq(|values|, (i: int) requires 0 <= i < |values| => Label(values[i], toFixed2))
  }

  function HoverTemplate(valueCol: string): string
  {
    "<b>%{x}</b><br>" + valueCol + ": %{y}<extra></extra>"
  }

  /** getChartData: one trace. "pie" gives a pie of the categories weighted by
      the values, "line" a line through the points, anything else a bar chart.
      The categories and values are passed through unchanged; the bar and
      line labels turn each number into its two-decimal text and keep every
      other value as it is. */
  function ChartData(chartType: string, categories: seq<Value>, values: seq<Value>, valueCol: string,
                     toFixed2: real -> string): (r: seq<Trace>)
    ensures |r| == 1
    ensures r[0].PieTrace? <==> chartType == "pie"
    ensures r[0].ScatterTrace? <==> chartType == "line"
    ensures r[0].PieTrace? ==> r[0].labels == categories && r[0].values == values && r[0].colors == Palette
    ensures !r[0].PieTrace? ==> r[0].x == categories && r[0].y == values && |r[0].text| == |values|
    ensures !r[0].PieTrace? ==> forall i :: 0 <= i < |values| ==>
              (values[i].Num? ==> r[0].text[i] == Str(toFixed2(values[i].n)))
              && (!values[i].Num? ==> r[0].text[i] == values[i])
  {
    if chartType == "pie" then
      [PieTrace(categories, values, Palette, "label+percent+value", "auto",
                "<b>%{label}</b><br>Value: %{value}<br>Percentage: %{percent}<extra></extra>")]
    else if chartType == "line" then
      [ScatterTrace(categories, values, "lines+markers", Accent, 8, Accent, 3,
                    Labels(values, toFixed2), HoverTemplate(valueCol))]
    else
      [BarTrace(categories, values, Accent, BarOutline, 2,
                Labels(values, toFixed2), "outside", HoverTemplate(valueCol))]
  }

  /** `${Object.keys(aggregate)[0]}`: Object.keys throws on undefined and null,
      and the first key of a value without keys prints as "undefined". */
  function FirstKeyText(aggregate: Option<Value>): (r: Completion<string>)
    ensures r.TypeError? <==> aggregate.None? || aggregate.value.Null?
  {
    if aggregate.None? then TypeError
    else
      var keys := OwnKeys(aggregate.value);
      if keys.None? then TypeError
      else if keys.value == [] then Normal("undefined")
      else Normal(keys.value[0])
  }

  /** The chart title: `${aggFunc}(${firstKey}) by ${categoryCol}`. */
  function Title(aggFunc: string, aggregate: Option<Value>, categoryCol: Value, numText: real -> string): Completion<string>
  {
    var key := FirstKeyText(aggregate);
    if key.TypeError? then TypeError
    else Normal(aggFunc + "(" + key.value + ") by " + ToText(categoryCol, numText))
  }

  /** getLayout: a 500-pixel chart with fixed margins on a transparent
      background, titled by the aggregation; a pie shows its legend, every
      other chart type (line included) titles its axes by the two columns and
      slants the category labels by 45 degrees exactly when there are more
      than five categories. */
  function ChartLayout(chartType: string, aggFunc: string, aggregate: Option<Value>, categoryCol: Value,
                       valueCol: string, categories: seq<Value>, numText: real -> string): (r: Completion<Layout>)
    ensures r.TypeError? <==> aggregate.None? || aggregate.value.Null?
    ensures r.Normal? ==> r.value.height == 500 && r.value.margin == Margin(50, 80, 60, 50)
                          && r.value.plotBgcolor == Transparent && r.value.paperBgcolor == Transparent
    ensures r.Normal? ==> Normal(r.value.title) == Title(aggFunc, aggregate, categoryCol, numText)
    ensures r.Normal? ==> (r.value.PieLayout? <==> chartType == "pie")
    ensures r.Normal? && r.value.PieLayout? ==> r.value.showlegend
    ensures r.Normal? && r.value.AxesLayout? ==>
              r.value.xaxis.title == categoryCol && r.value.yaxis.title == valueCol
              && (r.value.xaxis.tickangle == -45 <==> |categories| > 5)
              && (r.value.xaxis.tickangle == 0 <==> |categories| <= 5)
  {
    var title := Title(aggFunc, aggregate, categoryCol, numText);
    if title.TypeError? then TypeError
    else if chartType == "pie" then
      Normal(PieLayout(500, Margin(50, 80, 60, 50), Transparent, Transparent, title.value, true))
    else
      Normal(AxesLayout(500, Margin(50, 80, 60, 50), Transparent, Transparent, title.value,
                        XAxis(categoryCol, if |categories| > 5 then -45 else 0), YAxis(valueCol)))
  }

  /** The trace and the layout choose the same kind of chart. */
  lemma TraceAndLayoutAgree(chartType: string, aggFunc: string, aggregate: Option<Value>, categoryCol: Value,
                            valueCol: string, categories: seq<Value>, values: seq<Value>,
                            numText: real -> string, toFixed2: real -> string)
    requires !(aggregate.None? || aggregate.value.Null?)
    ensures ChartLayout(chartType, aggFunc, aggregate, categoryCol, valueCol, categories, numText).Normal?
    ensures ChartData(chartType, categories, values, valueCol, toFixed2)[0].PieTrace?
            <==> ChartLayout(chartType, aggFunc, aggregate, categoryCol, valueCol, categories, numText).value.PieLayout?
  {
  }

  /** The title does not depend on the chart type. */
  lemma TitleSameForEveryChartType(t1: string, t2: string, aggFunc: string, aggregate: Option<Value>,
                                   categoryCol: Value, valueCol: string, categories: seq<Value>, numText: real -> string)
    requires ChartLayout(t1, aggFunc, aggregate, categoryCol, valueCol, categories, numText).Normal?
    ensures ChartLayout(t2, aggFunc, aggregate, categoryCol, valueCol, categories, numText).Normal?
    ensures ChartLayout(t1, aggFunc, aggregate, categoryCol, valueCol, categories, numText).value.title
            == ChartLayout(t2, aggFunc, aggregate, categoryCol, valueCol, categories, numText).value.title
  {
  }

  /** Five categories are drawn level and six slanted, on bar and line charts alike. */
  lemma TickAngleBoundary(chartType: string, aggFunc: string, aggregate: Option<Value>, categoryCol: Value,
                          valueCol: string, five: seq<Value>, six: seq<Value>, numText: real -> string)
    requires chartType != "pie" && |five| == 5 && |six| == 6
    requires !(aggregate.None? || aggregate.value.Null?)
    ensures ChartLayout(chartType, aggFunc, aggregate, categoryCol, valueCol, five, numText).value.xaxis.tickangle == 0
    ensures ChartLayout(chartType, aggFunc, aggregate, categoryCol, valueCol, six, numText).value.xaxis.tickangle == -45
  {
  }

  /** With the aggregate mapping the continuous column to the function's name,
      as the backend sends it, and a string group key, the title reads
      "<function>(<continuous column>) by <categorical column>". */
  lemma TitleOfWellFormedAggregate(aggFunc: string, con: string, g: string, numText: real -> string)
    ensures Title(aggFunc, Some(Obj([(con, Str(aggFunc))])), Str(g), numText)
            == Normal(aggFunc + "(" + con + ") by " + g)
  {
  }

  // ----- From a validated result to the chart

  /** The points a trace draws, as (category, value) pairs. */
  function Points(t: Trace): seq<(Value, Value)>
  {
    var xs := if t.PieTrace? then t.labels else t.x;
    var ys := if t.PieTrace? then t.values else t.y;
    seq(if |xs| < |ys| then |xs| else |ys|, (i: int) requires 0 <= i < |xs| && i < |ys| => (xs[i], ys[i]))
  }

  /** Every trace pairs the i-th category with the i-th value. */
  lemma TracePairsInOrder(chartType: string, categories: seq<Value>, values: seq<Value>, valueCol: string,
                          toFixed2: real -> string)
    requires |categories| == |values|
    ensures |Points(ChartData(chartType, categories, values, valueCol, toFixed2)[0])| == |categories|
    ensures forall i :: 0 <= i < |categories| ==>
              Points(ChartData(chartType, categories, values, valueCol, toFixed2)[0])[i] == (categories[i], values[i])
  {
    var t := ChartData(chartType, categories, values, valueCol, toFixed2)[0];
    if t.PieTrace? {
      assert t.labels == categories && t.values == values;
    } else {
      assert t.x == categories && t.y == values;
    }
  }

  /** Whatever the chart type, a drawn result shows, in order, exactly the
      pairs (data[categoryCol][i], data[valueCol][i]) of the two columns the
      validator chose: no point is added, dropped, reordered or re-paired. */
  lemma ChartPairsValidatedColumns(result: Value, chartType: string, numText: real -> string,
                                   toFixed2: real -> string)
    requires Validate(result, numText).Renderable?
    ensures var v := Validate(result, numText);
            var cats := Member(Data(result), ToText(v.categoryCol, numText)).value.items;
            var vals := Member(Data(result), v.valueCol).value.items;
            var pts := Points(ChartData(chartType, v.categories, v.values, v.valueCol, toFixed2)[0]);
            |pts| == |cats| == |vals|
            && forall i :: 0 <= i < |pts| ==> pts[i] == (cats[i], vals[i])
  {
    var v := Validate(result, numText);
    assert Member(Data(result), ToText(v.categoryCol, numText)).value.items == v.categories;
    assert Member(Data(result), v.valueCol).value.items == v.values;
    TracePairsInOrder(chartType, v.categories, v.values, v.valueCol, toFixed2);
  }

  /** The two cities of the city/sales result (see ScenarioTwoCities) become
      two bars labelled with their two-decimal sales figures, under the title
      "mean(sales) by city". */
  lemma ScenarioTwoCitiesBarChart(numText: real -> string, toFixed2: real -> string)
    ensures var t := ChartData("bar", [Str("A"), Str("B")], [Num(10.5), Num(20.25)], "sales", toFixed2)[0];
            t.BarTrace? && t.x == [Str("A"), Str("B")]
            && t.text == [Str(toFixed2(10.5)), Str(toFixed2(20.25))]
    ensures ChartLayout("bar", "mean", Some(Obj([("sales", Str("mean"))])), Str("city"), "sales",
                        [Str("A"), Str("B")], numText)
            == Normal(AxesLayout(500, Margin(50, 80, 60, 50), Transparent, Transparent,
                                 "mean(sales) by city", XAxis(Str("city"), 0), YAxis("sales")))
  {
    var aggregate := Obj([("sales", Str("mean"))]);
    assert OwnKeys(aggregate).value == ["sales"];
    assert FirstKeyText(Some(aggregate)) == Normal("sales");
    assert "mean" + "(" + "sales" + ") by " + "city" == "mean(sales) by city";
  }
}
