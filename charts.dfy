/**
 * The pure helpers of the chart tool in tools.py: reshaping the input data
 * for each chart type, building the ECharts option, the theme lookup and the
 * `.html` file-name normalisation.
 *
 * Each helper may raise where the source indexes into data of the wrong
 * shape; `None` stands for that exception, which the chart tool turns into
 * its failure text.
 */
module Charts {
  import opened Wrappers
  import opened Strings
  import opened Json

  /** What `_process_chart_data` returns: label and value columns, or a list of rows. */
  datatype Processed = Series(labels: seq<Value>, values: seq<Value>) | Rows(rows: seq<Value>)

  function Nums(ns: seq<int>): seq<Value> {
    seq(|ns|, i requires 0 <= i < |ns| => Num(ns[i]))
  }

  function Record(name: Value, value: Value): Value {
    Obj([("name", name), ("value", value)])
  }

  lemma RecordFields(name: Value, value: Value)
    ensures Subscript(Record(name, value), "name") == Some(name)
    ensures Subscript(Record(name, value), "value") == Some(value)
  {
    var fields := [("name", name), ("value", value)];
    assert |"name"| != |"value"|;
    assert fields[..1] == [("name", name)];
    assert Lookup(fields, "name") == Lookup(fields[..1], "name");
    assert Lookup(fields[..1], "name") == Some(name);
  }

  function Point(x: Value, y: Value): Value {
    Arr([x, y])
  }

  /** `f'{prefix}{i+1}'`: labels are numbered from one. */
  function NumberedLabel(prefix: string, i: nat): Value {
    Str(prefix + NatToString(i + 1))
  }

  const DEFAULT_LABELS: seq<Value> := [Str("A"), Str("B"), Str("C"), Str("D"), Str("E")]
  const DEFAULT_VALUES: seq<Value> := Nums([20, 30, 40, 50, 60])
  const DEFAULT_SLICES: seq<Value> :=
    [Record(Str("A"), Num(20)), Record(Str("B"), Num(30)), Record(Str("C"), Num(40)), Record(Str("D"), Num(50))]
  const DEFAULT_POINTS: seq<Value> :=
    [Point(Num(10), Num(20)), Point(Num(15), Num(25)), Point(Num(20), Num(30)), Point(Num(25), Num(35)), Point(Num(30), Num(40))]

  /** A dict holding both keys: the test the source applies to the first list element. */
  predicate IsRecord(v: Value, k1: string, k2: string) {
    HasKey(v, k1) && HasKey(v, k2)
  }

  /** `[item[key] for item in items]`; `None` when some item is not a dict holding `key`. */
  function Column(items: seq<Value>, key: string): (r: Option<seq<Value>>)
    ensures r.Some? <==> forall i :: 0 <= i < |items| ==> HasKey(items[i], key)
    ensures r.Some? ==> |r.value| == |items| && forall i :: 0 <= i < |items| ==> Subscript(items[i], key) == Some(r.value[i])
  {
    if |items| == 0 then Some([])
    else
      var rest := Column(items[1..], key);
      assert forall i :: 1 <= i < |items| ==> items[1..][i - 1] == items[i];
      match Subscript(items[0], key)
      case None => None
      case Some(v) => if rest.Some? then Some([v] + rest.value) else None
  }

  /** `_process_bar_line_data`: the category labels and the values, always of equal length. */
  function ProcessBarLineData(data: Value): (r: Option<(seq<Value>, seq<Value>)>)
    ensures r.Some? ==> |r.value.0| == |r.value.1|
  {
    match data
    case Obj(fields) =>
      Some((seq(|fields|, i requires 0 <= i < |fields| => Str(fields[i].0)), seq(|fields|, i requires 0 <= i < |fields| => fields[i].1)))
    case Arr(items) =>
      if |items| == 0 then Some((DEFAULT_LABELS, DEFAULT_VALUES))
      else if IsRecord(items[0], "name", "value") then
        match (Column(items, "name"), Column(items, "value"))
        case (Some(names), Some(values)) => Some((names, values))
        case _ => None
      else Some((seq(|items|, i requires 0 <= i < |items| => NumberedLabel("项目", i)), items))
    case _ => Some((DEFAULT_LABELS, DEFAULT_VALUES))
  }

  /**
   * On a dict as it is decoded, with each key once, the labels are its keys,
   * distinct and in order, and each value is the one stored under its label:
   * `list(data.keys())` and `list(data.values())`.
   */
  lemma DictColumnsAreItsEntries(data: Value)
    requires data.Obj? && DistinctKeys(data.fields)
    ensures ProcessBarLineData(data).Some?
    ensures var (labels, values) := ProcessBarLineData(data).value;
      && |labels| == |data.fields|
      && (forall i, j :: 0 <= i < j < |labels| ==> labels[i] != labels[j])
      && forall i :: 0 <= i < |labels| ==> labels[i] == Str(data.fields[i].0) && Lookup(data.fields, labels[i].text) == Some(values[i])
  {
    var (labels, values) := ProcessBarLineData(data).value;
    forall i | 0 <= i < |labels|
      ensures labels[i] == Str(data.fields[i].0) && Lookup(data.fields, labels[i].text) == Some(values[i])
    {
      LookupDistinct(data.fields, i);
    }
  }

  /** `_process_pie_data`: a list of name/value slices. */
  function ProcessPieData(data: Value): (rows: seq<Value>)
    ensures data.Obj? ==> |rows| == |data.fields|
    ensures data.Arr? && |data.items| > 0 ==> |rows| == |data.items|
  {
    match data
    case Obj(fields) => seq(|fields|, i requires 0 <= i < |fields| => Record(Str(fields[i].0), fields[i].1))
    case Arr(items) =>
      if |items| == 0 then DEFAULT_SLICES
      else if IsRecord(items[0], "name", "value") then items
      else seq(|items|, i requires 0 <= i < |items| => Record(NumberedLabel("类别", i), items[i]))
    case _ => DEFAULT_SLICES
  }

  /** `_process_scatter_data`: a list of points. */
  function ProcessScatterData(data: Value): (r: Option<seq<Value>>)
    ensures data.Arr? && |data.items| > 0 && r.Some? ==> |r.value| == |data.items|
  {
    match data
    case Arr(items) =>
      if |items| == 0 then Some(DEFAULT_POINTS)
      else if items[0].Arr? && |items[0].items| >= 2 then Some(items)
      else if IsRecord(items[0], "x", "y") then
        match (Column(items, "x"), Column(items, "y"))
        case (Some(xs), Some(ys)) => Some(seq(|items|, i requires 0 <= i < |items| => Point(xs[i], ys[i])))
        case _ => None
      else Some(seq(|items|, i requires 0 <= i < |items| => Point(Num(i), items[i])))
    case _ => Some(DEFAULT_POINTS)
  }

  /** Pie and scatter charts take rows, every other chart type takes label and value columns. */
  predicate ShapeFits(chartType: string, p: Processed) {
    if chartType == "pie" || chartType == "scatter" then p.Rows? else p.Series?
  }

  /** `_process_chart_data`: unknown chart types are processed as bar charts. */
  function ProcessChartData(data: Value, chartType: string): (r: Option<Processed>)
    ensures r.Some? ==> ShapeFits(chartType, r.value)
  {
    if chartType == "pie" then Some(Rows(ProcessPieData(data)))
    else if chartType == "scatter" then
      match ProcessScatterData(data)
      case None => None
      case Some(rows) => Some(Rows(rows))
    else
      match ProcessBarLineData(data)
      case None => None
      case Some((labels, values)) => Some(Series(labels, values))
  }

  /**
   * The bar/line reshaping fails exactly on a list whose first element is a
   * name/value dict but some later element is not; dicts, other lists and
   * all other values always succeed.
   */
  lemma BarLineFailsOnlyOnBrokenRecords(data: Value)
    ensures ProcessBarLineData(data).None? <==>
      && data.Arr? && |data.items| > 0 && IsRecord(data.items[0], "name", "value")
      && exists i :: 0 <= i < |data.items| && !IsRecord(data.items[i], "name", "value")
  {
  }

  /** A plain non-empty list keeps its elements as the values, labelled `项目1`, `项目2`, ... */
  lemma PlainListIsNumbered(data: Value)
    requires data.Arr? && |data.items| > 0 && !IsRecord(data.items[0], "name", "value")
    ensures ProcessBarLineData(data).Some?
    ensures var (labels, values) := ProcessBarLineData(data).value;
      values == data.items && forall i :: 0 <= i < |labels| ==> labels[i] == NumberedLabel("项目", i)
  {
  }

  /**
   * Wherever the bar/line reshaping succeeds on a dict or a non-empty list,
   * the pie reshaping yields one slice per value, holding that value; the
   * slice names are the bar labels too, except for plain lists, where bars
   * are numbered `项目n` and slices `类别n`.
   */
  lemma PieAgreesWithBarLine(data: Value)
    requires data.Obj? || (data.Arr? && |data.items| > 0)
    requires ProcessBarLineData(data).Some?
    ensures var (labels, values) := ProcessBarLineData(data).value;
      var rows := ProcessPieData(data);
      && |rows| == |values|
      && (forall i :: 0 <= i < |rows| ==> Subscript(rows[i], "value") == Some(values[i]))
      && (forall i :: 0 <= i < |rows| ==>
            Subscript(rows[i], "name") == Some(
              if data.Arr? && !IsRecord(data.items[0], "name", "value") then NumberedLabel("类别", i) else labels[i]))
  {
    var rows := ProcessPieData(data);
    if data.Obj? {
      forall i | 0 <= i < |rows|
        ensures Subscript(rows[i], "value") == Some(data.fields[i].1) && Subscript(rows[i], "name") == Some(Str(data.fields[i].0))
      {
        assert rows[i] == Record(Str(data.fields[i].0), data.fields[i].1);
        RecordFields(Str(data.fields[i].0), data.fields[i].1);
      }
    } else if !IsRecord(data.items[0], "name", "value") {
      forall i | 0 <= i < |rows|
        ensures Subscript(rows[i], "value") == Some(data.items[i]) && Subscript(rows[i], "name") == Some(NumberedLabel("类别", i))
      {
        assert rows[i] == Record(NumberedLabel("类别", i), data.items[i]);
        RecordFields(NumberedLabel("类别", i), data.items[i]);
      }
    }
  }

  /**
   * On a plain list (first element neither a point nor an x/y or name/value
   * dict) the scatter points pair each index, from zero, with the value the
   * bar reshaping shows at that index.
   */
  lemma ScatterAgreesWithBarLine(data: Value)
    requires data.Arr? && |data.items| > 0
    requires !(data.items[0].Arr? && |data.items[0].items| >= 2)
    requires !IsRecord(data.items[0], "x", "y") && !IsRecord(data.items[0], "name", "value")
    ensures ProcessScatterData(data).Some? && ProcessBarLineData(data).Some?
    ensures var points := ProcessScatterData(data).value;
      var values := ProcessBarLineData(data).value.1;
      |points| == |values| && forall i :: 0 <= i < |points| ==> points[i] == Point(Num(i), values[i])
  {
  }

  /**
   * Only the first element is inspected: once it is a list of two or more,
   * the data passes through unchanged, even when a later element is not a
   * point at all.
   */
  lemma ScatterChecksFirstElementOnly()
    ensures ProcessScatterData(Arr([Point(Num(1), Num(2)), Num(3)])) == Some([Point(Num(1), Num(2)), Num(3)])
  {
  }

  /** The points built from x/y dicts or from a plain list are pairs. */
  lemma ScatterBuiltPointsArePairs(data: Value)
    requires data.Arr? && |data.items| > 0 && !(data.items[0].Arr? && |data.items[0].items| >= 2)
    requires ProcessScatterData(data).Some?
    ensures forall i :: 0 <= i < |ProcessScatterData(data).value| ==>
      ProcessScatterData(data).value[i].Arr? && |ProcessScatterData(data).value[i].items| == 2
  {
  }

  // ---------------------------------------------------------------------
  // The chart option (`_generate_chart_config`)

  /** `title or f'{chart_type.capitalize()}图表'`. */
  function TitleText(chartType: string, title: Value): Value {
    PyOr(title, Str(Capitalize(chartType) + "图表"))
  }

  /** The series type drawn: types other than line, pie and scatter are drawn as bars. */
  function SeriesType(chartType: string): string {
    if chartType == "line" || chartType == "pie" || chartType == "scatter" then chartType else "bar"
  }

  /** What the series plots: the values, the rows, or the fixed default for unknown types. */
  function Plotted(chartType: string, p: Processed): Value
    requires ShapeFits(chartType, p)
  {
    if chartType == "pie" || chartType == "scatter" then Arr(p.rows)
    else if chartType == "bar" || chartType == "line" then Arr(p.values)
    else Arr(DEFAULT_VALUES)
  }

  /** The series name: the y-axis name when it is true for bar, line and scatter charts. */
  function SeriesName(chartType: string, yAxisName: Value): Value {
    if chartType == "pie" then Str("数据")
    else if chartType == "bar" || chartType == "line" || chartType == "scatter" then PyOr(yAxisName, Str("数值"))
    else Str("数值")
  }

  /** The first (and only) series of an option. */
  function TheSeries(option: Value): Option<Value> {
    var s := Subscript(option, "series");
    if s.Some? && s.value.Arr? && |s.value.items| == 1 then Some(s.value.items[0]) else None
  }

  lemma TheSeriesOf(fields: seq<(string, Value)>, series: Value)
    requires Lookup(fields, "series") == Some(Arr([series]))
    ensures TheSeries(Obj(fields)) == Some(series)
  {
  }

  /** The keys of the option and of its parts are pairwise distinct. */
  lemma OptionKeysDistinct()
    ensures "title" != "tooltip" && "title" != "xAxis" && "title" != "yAxis" && "title" != "series" && "title" != "legend"
    ensures "tooltip" != "xAxis" && "tooltip" != "yAxis" && "tooltip" != "series" && "tooltip" != "legend"
    ensures "xAxis" != "yAxis" && "xAxis" != "series" && "xAxis" != "legend"
    ensures "yAxis" != "series" && "yAxis" != "legend" && "series" != "legend"
    ensures "name" != "type" && "name" != "data" && "type" != "data"
    ensures "radius" != "name" && "radius" != "type" && "radius" != "data"
    ensures "emphasis" != "name" && "emphasis" != "type" && "emphasis" != "data" && "emphasis" != "radius"
  {
    assert "title"[1] == 'i' && "tooltip"[1] == 'o';
    assert "title"[0] == 't' && "tooltip"[0] == 't' && "xAxis"[0] == 'x' && "yAxis"[0] == 'y';
    assert "series"[0] == 's' && "legend"[0] == 'l';
    assert "name"[0] == 'n' && "type"[0] == 't' && "data"[0] == 'd' && "radius"[0] == 'r' && "emphasis"[0] == 'e';
  }

  /** Lookup after `update` with three entries. */
  lemma UpdateThree(base: seq<(string, Value)>, a: (string, Value), b: (string, Value), c: (string, Value), j: string)
    ensures Lookup(Update(base, [a, b, c]), j) ==
      if j == c.0 then Some(c.1) else if j == b.0 then Some(b.1) else if j == a.0 then Some(a.1) else Lookup(base, j)
  {
    LookupDisplay(a, b, c, c, c, j);
  }

  /** Lookup after `update` with two entries. */
  lemma UpdateTwo(base: seq<(string, Value)>, a: (string, Value), b: (string, Value), j: string)
    ensures Lookup(Update(base, [a, b]), j) ==
      if j == b.0 then Some(b.1) else if j == a.0 then Some(a.1) else Lookup(base, j)
  {
    LookupDisplay(a, b, b, b, b, j);
  }

  /**
   * The option an `update` with axes and one series produces from the base
   * option: what the postconditions of `GenerateChartConfig` read from it.
   */
  lemma AxesOption(base: seq<(string, Value)>, xAxis: Value, yAxis: Value, series: Value, j: string)
    requires j != "xAxis" && j != "yAxis" && j != "series"
    ensures Lookup(Update(base, [("xAxis", xAxis), ("yAxis", yAxis), ("series", Arr([series]))]), "xAxis") == Some(xAxis)
    ensures Lookup(Update(base, [("xAxis", xAxis), ("yAxis", yAxis), ("series", Arr([series]))]), "yAxis") == Some(yAxis)
    ensures Lookup(Update(base, [("xAxis", xAxis), ("yAxis", yAxis), ("series", Arr([series]))]), "series") == Some(Arr([series]))
    ensures Lookup(Update(base, [("xAxis", xAxis), ("yAxis", yAxis), ("series", Arr([series]))]), j) == Lookup(base, j)
  {
    OptionKeysDistinct();
    UpdateThree(base, ("xAxis", xAxis), ("yAxis", yAxis), ("series", Arr([series])), "xAxis");
    UpdateThree(base, ("xAxis", xAxis), ("yAxis", yAxis), ("series", Arr([series])), "yAxis");
    UpdateThree(base, ("xAxis", xAxis), ("yAxis", yAxis), ("series", Arr([series])), "series");
    UpdateThree(base, ("xAxis", xAxis), ("yAxis", yAxis), ("series", Arr([series])), j);
  }

  /** The three fields of a bar, line or scatter series. */
  lemma SeriesFields(name: Value, kind: Value, data: Value)
    ensures Subscript(Obj([("name", name), ("type", kind), ("data", data)]), "name") == Some(name)
    ensures Subscript(Obj([("name", name), ("type", kind), ("data", data)]), "type") == Some(kind)
    ensures Subscript(Obj([("name", name), ("type", kind), ("data", data)]), "data") == Some(data)
  {
    OptionKeysDistinct();
    LookupDisplay(("name", name), ("type", kind), ("data", data), ("data", data), ("data", data), "name");
    LookupDisplay(("name", name), ("type", kind), ("data", data), ("data", data), ("data", data), "type");
    LookupDisplay(("name", name), ("type", kind), ("data", data), ("data", data), ("data", data), "data");
  }

  /** The base option: a title and a tooltip, nothing else. */
  lemma BaseOption(title: Value, tooltip: Value, j: string)
    ensures Lookup([("title", title), ("tooltip", tooltip)], "title") == Some(title)
    ensures Lookup([("title", title), ("tooltip", tooltip)], "tooltip") == Some(tooltip)
    ensures j != "title" && j != "tooltip" ==> Lookup([("title", title), ("tooltip", tooltip)], j) == None
  {
    OptionKeysDistinct();
    LookupDisplay(("title", title), ("tooltip", tooltip), ("tooltip", tooltip), ("tooltip", tooltip), ("tooltip", tooltip), "title");
    LookupDisplay(("title", title), ("tooltip", tooltip), ("tooltip", tooltip), ("tooltip", tooltip), ("tooltip", tooltip), "tooltip");
    LookupDisplay(("title", title), ("tooltip", tooltip), ("tooltip", tooltip), ("tooltip", tooltip), ("tooltip", tooltip), j);
  }

  /**
   * `_generate_chart_config`: a base option with title and tooltip, extended
   * with `update` according to the chart type.
   */
  method GenerateChartConfig(chartType: string, processed: Processed, title: Value, xAxisName: Value, yAxisName: Value)
    returns (option: Value)
    requires ShapeFits(chartType, processed)
    ensures Subscript(option, "title") == Some(Obj([("text", TitleText(chartType, title)), ("left", Str("center"))]))
    ensures Subscript(option, "tooltip") == Some(Obj([("trigger", Str(if chartType == "pie" then "item" else "axis"))]))
    ensures TheSeries(option).Some?
    ensures Subscript(TheSeries(option).value, "type") == Some(Str(SeriesType(chartType)))
    ensures Subscript(TheSeries(option).value, "data") == Some(Plotted(chartType, processed))
    ensures Subscript(TheSeries(option).value, "name") == Some(SeriesName(chartType, yAxisName))
    ensures HasKey(option, "legend") <==> chartType == "pie"
    ensures HasKey(option, "xAxis") <==> chartType != "pie"
    ensures HasKey(option, "yAxis") <==> chartType != "pie"
    ensures chartType == "bar" || chartType == "line" ==>
      Subscript(option, "xAxis") == Some(Obj([("type", Str("category")), ("data", Arr(processed.labels)), ("name", xAxisName)]))
    ensures chartType == "scatter" ==>
      Subscript(option, "xAxis") == Some(Obj([("type", Str("value")), ("name", xAxisName)]))
    ensures chartType in {"bar", "line", "scatter"} ==>
      Subscript(option, "yAxis") == Some(Obj([("type", Str("value")), ("name", yAxisName)]))
    ensures chartType !in {"bar", "line", "scatter", "pie"} ==>
      && Subscript(option, "xAxis") == Some(Obj([("type", Str("category")), ("data", Arr(DEFAULT_LABELS))]))
      && Subscript(option, "yAxis") == Some(Obj([("type", Str("value"))]))
    ensures chartType == "pie" ==> PieStyled(option)
    ensures OnlyOptionKeys(option)
  {
    var titleEntry := Obj([("text", PyOr(title, Str(Capitalize(chartType) + "图表"))), ("left", Str("center"))]);
    var tooltipEntry := Obj([("trigger", Str(if chartType == "pie" then "item" else "axis"))]);
    var fields := [("title", titleEntry), ("tooltip", tooltipEntry)];
    BaseOption(titleEntry, tooltipEntry, "legend");
    BaseOption(titleEntry, tooltipEntry, "xAxis");
    BaseOption(titleEntry, tooltipEntry, "yAxis");
    var base := fields;
    if chartType == "pie" {
      fields := PieUpdate(base, processed);
    } else {
      fields := AxesUpdate(base, chartType, processed, xAxisName, yAxisName);
    }
    option := Obj(fields);
    NoOtherKeys(titleEntry, tooltipEntry, fields);
  }

  /** Fields of an update that leaves every key but the four chart-specific ones to the base. */
  ghost predicate KeepsOthers(base: seq<(string, Value)>, fields: seq<(string, Value)>) {
    forall j :: j !in {"legend", "xAxis", "yAxis", "series"} ==> Lookup(fields, j) == Lookup(base, j)
  }

  /** Updating the title-and-tooltip base that way adds no key outside `OPTION_KEYS`. */
  lemma NoOtherKeys(title: Value, tooltip: Value, fields: seq<(string, Value)>)
    requires KeepsOthers([("title", title), ("tooltip", tooltip)], fields)
    ensures OnlyOptionKeys(Obj(fields))
  {
    forall j | j !in OPTION_KEYS
      ensures !HasKey(Obj(fields), j)
    {
      BaseOption(title, tooltip, j);
    }
  }

  /** The keys an option from `_generate_chart_config` may hold. */
  const OPTION_KEYS := {"title", "tooltip", "legend", "xAxis", "yAxis", "series"}

  /** No key outside `OPTION_KEYS`. */
  ghost predicate OnlyOptionKeys(option: Value) {
    forall j :: j !in OPTION_KEYS ==> !HasKey(option, j)
  }

  /** The pie legend sits at the top and the series has its radius and highlight shadow. */
  predicate PieStyled(option: Value) {
    && Subscript(option, "legend") == Some(PIE_LEGEND)
    && TheSeries(option).Some?
    && Subscript(TheSeries(option).value, "radius") == Some(Str("50%"))
    && Subscript(TheSeries(option).value, "emphasis") == Some(PIE_EMPHASIS)
  }

  /** The pie chart's legend and the shadow of a highlighted slice. */
  const PIE_LEGEND := Obj([("top", Str("10%"))])
  const PIE_EMPHASIS := Obj([("itemStyle", Obj([
    ("shadowBlur", Num(10)), ("shadowOffsetX", Num(0)), ("shadowColor", Str("rgba(0, 0, 0, 0.5)"))]))])

  /** The three facts about the single series of an option that `_generate_chart_config` fixes. */
  predicate SeriesIs(fields: seq<(string, Value)>, name: Value, kind: string, data: Value) {
    && TheSeries(Obj(fields)).Some?
    && Subscript(TheSeries(Obj(fields)).value, "type") == Some(Str(kind))
    && Subscript(TheSeries(Obj(fields)).value, "data") == Some(data)
    && Subscript(TheSeries(Obj(fields)).value, "name") == Some(name)
  }

  /** The pie branch: a legend and a pie series over the rows; title, tooltip and the missing axes are untouched. */
  method PieUpdate(base: seq<(string, Value)>, processed: Processed) returns (fields: seq<(string, Value)>)
    requires processed.Rows?
    ensures Lookup(fields, "title") == Lookup(base, "title") && Lookup(fields, "tooltip") == Lookup(base, "tooltip")
    ensures Lookup(fields, "xAxis") == Lookup(base, "xAxis") && Lookup(fields, "yAxis") == Lookup(base, "yAxis")
    ensures forall j :: j != "legend" && j != "series" ==> Lookup(fields, j) == Lookup(base, j)
    ensures KeepsOthers(base, fields)
    ensures SeriesIs(fields, Str("数据"), "pie", Arr(processed.rows))
    ensures PieStyled(Obj(fields))
  {
    OptionKeysDistinct();
    var emphasis := PIE_EMPHASIS;
    var legend := PIE_LEGEND;
    var series := Obj([("name", Str("数据")), ("type", Str("pie")), ("radius", Str("50%")),
                       ("data", Arr(processed.rows)), ("emphasis", emphasis)]);
    var changes := [("legend", legend), ("series", Arr([series]))];
    UpdateTwo(base, changes[0], changes[1], "title");
    UpdateTwo(base, changes[0], changes[1], "tooltip");
    UpdateTwo(base, changes[0], changes[1], "series");
    UpdateTwo(base, changes[0], changes[1], "legend");
    UpdateTwo(base, changes[0], changes[1], "xAxis");
    UpdateTwo(base, changes[0], changes[1], "yAxis");
    LookupDisplay(("name", Str("数据")), ("type", Str("pie")), ("radius", Str("50%")), ("data", Arr(processed.rows)), ("emphasis", emphasis), "name");
    LookupDisplay(("name", Str("数据")), ("type", Str("pie")), ("radius", Str("50%")), ("data", Arr(processed.rows)), ("emphasis", emphasis), "type");
    LookupDisplay(("name", Str("数据")), ("type", Str("pie")), ("radius", Str("50%")), ("data", Arr(processed.rows)), ("emphasis", emphasis), "data");
    LookupDisplay(("name", Str("数据")), ("type", Str("pie")), ("radius", Str("50%")), ("data", Arr(processed.rows)), ("emphasis", emphasis), "radius");
    LookupDisplay(("name", Str("数据")), ("type", Str("pie")), ("radius", Str("50%")), ("data", Arr(processed.rows)), ("emphasis", emphasis), "emphasis");
    fields := Update(base, changes);
    TheSeriesOf(fields, series);
    forall j | j != "legend" && j != "series"
      ensures Lookup(fields, j) == Lookup(base, j)
    {
      UpdateTwo(base, changes[0], changes[1], j);
    }
  }

  /**
   * The other branches: category axes for bar and line charts, value axes
   * for scatter charts, fixed sample data for unknown types; title, tooltip
   * and the missing legend are untouched.
   */
  method AxesUpdate(base: seq<(string, Value)>, chartType: string, processed: Processed, xAxisName: Value, yAxisName: Value)
    returns (fields: seq<(string, Value)>)
    requires chartType != "pie" && ShapeFits(chartType, processed)
    ensures Lookup(fields, "title") == Lookup(base, "title") && Lookup(fields, "tooltip") == Lookup(base, "tooltip")
    ensures Lookup(fields, "legend") == Lookup(base, "legend") && Lookup(fields, "xAxis").Some?
    ensures chartType == "bar" || chartType == "line" ==>
      Lookup(fields, "xAxis") == Some(Obj([("type", Str("category")), ("data", Arr(processed.labels)), ("name", xAxisName)]))
    ensures chartType == "scatter" ==>
      Lookup(fields, "xAxis") == Some(Obj([("type", Str("value")), ("name", xAxisName)]))
    ensures chartType in {"bar", "line", "scatter"} ==>
      Lookup(fields, "yAxis") == Some(Obj([("type", Str("value")), ("name", yAxisName)]))
    ensures chartType !in {"bar", "line", "scatter"} ==>
      && Lookup(fields, "xAxis") == Some(Obj([("type", Str("category")), ("data", Arr(DEFAULT_LABELS))]))
      && Lookup(fields, "yAxis") == Some(Obj([("type", Str("value"))]))
    ensures forall j :: j != "xAxis" && j != "yAxis" && j != "series" ==> Lookup(fields, j) == Lookup(base, j)
    ensures KeepsOthers(base, fields)
    ensures SeriesIs(fields, SeriesName(chartType, yAxisName), SeriesType(chartType), Plotted(chartType, processed))
  {
    var xAxis, yAxis;
    if chartType == "bar" || chartType == "line" {
      xAxis := Obj([("type", Str("category")), ("data", Arr(processed.labels)), ("name", xAxisName)]);
      yAxis := Obj([("type", Str("value")), ("name", yAxisName)]);
    } else if chartType == "scatter" {
      xAxis := Obj([("type", Str("value")), ("name", xAxisName)]);
      yAxis := Obj([("type", Str("value")), ("name", yAxisName)]);
    } else {
      xAxis := Obj([("type", Str("category")), ("data", Arr(DEFAULT_LABELS))]);
      yAxis := Obj([("type", Str("value"))]);
    }
    var series := Obj([("name", SeriesName(chartType, yAxisName)), ("type", Str(SeriesType(chartType))), ("data", Plotted(chartType, processed))]);
    SeriesFields(SeriesName(chartType, yAxisName), Str(SeriesType(chartType)), Plotted(chartType, processed));
    AxesOption(base, xAxis, yAxis, series, "title");
    AxesOption(base, xAxis, yAxis, series, "tooltip");
    AxesOption(base, xAxis, yAxis, series, "legend");
    fields := Update(base, [("xAxis", xAxis), ("yAxis", yAxis), ("series", Arr([series]))]);
    TheSeriesOf(fields, series);
    forall j | j != "xAxis" && j != "yAxis" && j != "series"
      ensures Lookup(fields, j) == Lookup(base, j)
    {
      AxesOption(base, xAxis, yAxis, series, j);
    }
  }

  // ---------------------------------------------------------------------
  // Theme lookup and file-name normalisation

  const THEME_STYLES: map<string, string> := map[
    "light" := "background-color: #fff; color: #333;",
    "dark" := "background-color: #2c3e50; color: #ecf0f1;",
    "vintage" := "background-color: #fef8e8; color: #8b4513;",
    "roma" := "background-color: #f5f5dc; color: #8b0000;",
    "shine" := "background-color: #f0f8ff; color: #4682b4;",
    "infographic" := "background-color: #f8f9fa; color: #495057;"
  ]

  /**
   * `theme_styles.get(theme, theme_styles['light'])`: a named theme's style,
   * the light style for any other key; `None` is the `TypeError` of a list
   * or dict used as a key.
   */
  function ThemeStyle(theme: Value): (r: Option<string>)
    ensures r.Some? <==> PyHashable(theme)
    ensures r.Some? ==> r.value in THEME_STYLES.Values
    ensures theme.Str? && theme.text in THEME_STYLES ==> r == Some(THEME_STYLES[theme.text])
  {
    if !PyHashable(theme) then None
    else if theme.Str? && theme.text in THEME_STYLES then Some(THEME_STYLES[theme.text])
    else Some(THEME_STYLES["light"])
  }

  /** Any key that is not a named theme gets the light style. */
  lemma UnknownThemeFallsBackToLight(theme: Value)
    requires PyHashable(theme) && !(theme.Str? && theme.text in THEME_STYLES)
    ensures ThemeStyle(theme) == Some("background-color: #fff; color: #333;")
  {
  }

  /** The chart file name: `.html` is appended unless the name already ends with it. */
  function NormalizeOutputName(name: string): (r: string)
    ensures EndsWith(r, ".html")
    ensures StartsWith(r, name)
    ensures r == name <==> EndsWith(name, ".html")
  {
    if EndsWith(name, ".html") then name
    else
      var r := name + ".html";
      assert r[|r| - 5..] == ".html";
      assert r[..|name|] == name;
      r
  }

  /** Normalising twice is normalising once. */
  lemma NormalizeOutputNameIdempotent(name: string)
    ensures NormalizeOutputName(NormalizeOutputName(name)) == NormalizeOutputName(name)
  {
  }
}
