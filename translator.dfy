/** The payload translator of signalform/dashboard.go, written the way the
    Go code works: maps filled key by key, and each list preallocated to
    the length of its set and filled index by index. Each method is proved
    to produce the value that module PayloadSpec defines. */
module Translator {
  import opened Wrappers
  import opened Json
  import opened DashboardModel
  import opened PayloadSpec

  /** `getDashboardTime`: the time map, empty when neither bound is set. */
  method GetDashboardTime(d: Dashboard) returns (time: map<string, Value>)
    ensures time == TimeObject(d)
  {
    time := map[];
    if IsSet(d.timeStart) {
      time := time["start" := JInt(Millis(d.timeStart.value))];
    }
    if IsSet(d.timeEnd) {
      time := time["end" := JInt(Millis(d.timeEnd.value))];
    }
  }

  /** `getDashboardCharts`: one item per chart, at the chart's own index. */
  method GetDashboardCharts(charts: seq<Chart>) returns (chartsList: seq<map<string, Value>>)
    ensures chartsList == ChartItems(charts)
  {
    var list := new map<string, Value>[|charts|];
    for i := 0 to |charts|
      invariant forall k :: 0 <= k < i ==> list[k] == ChartItem(charts[k])
    {
      var chart := charts[i];
      var item: map<string, Value> := map[];
      item := item["chartId" := JString(chart.chartId)];
      item := item["row" := JInt(chart.row)];
      item := item["column" := JInt(chart.column)];
      item := item["height" := JInt(chart.height)];
      item := item["width" := JInt(chart.width)];
      list[i] := item;
    }
    chartsList := list[..];
  }

  /** `getDashboardVariables`: one item per variable, at its own index. */
  method GetDashboardVariables(variables: seq<Variable>) returns (varsList: seq<map<string, Value>>)
    ensures varsList == VariableItems(variables)
  {
    var list := new map<string, Value>[|variables|];
    for i := 0 to |variables|
      invariant forall k :: 0 <= k < i ==> list[k] == VariableItem(variables[k])
    {
      var variable := variables[i];
      var item: map<string, Value> := map[];
      item := item["property" := JString(variable.property)];
      item := item["alias" := JString(variable.alias)];
      item := item["value" := StringArray(variable.values)];
      list[i] := item;
    }
    varsList := list[..];
  }

  /** `getDashboardFilters`: one item per filter, at its own index. */
  method GetDashboardFilters(filters: seq<Filter>) returns (filterList: seq<map<string, Value>>)
    ensures filterList == FilterItems(filters)
  {
    var list := new map<string, Value>[|filters|];
    for i := 0 to |filters|
      invariant forall k :: 0 <= k < i ==> list[k] == FilterItem(filters[k])
    {
      var filter := filters[i];
      var item: map<string, Value> := map[];
      item := item["property" := JString(filter.property)];
      item := item["NOT" := JBool(filter.negated)];
      item := item["value" := StringArray(filter.values)];
      list[i] := item;
    }
    filterList := list[..];
  }

  /** `getPayloadDashboard`: the payload object, handed to the JSON encoder.
      The encoder is a foreign library; `marshalError` is its answer, and
      its only failure is passed through unchanged. */
  method GetPayloadDashboard(d: Dashboard, marshalError: Option<string>) returns (r: Result<Value, string>)
    ensures marshalError.Some? ==> r == Failure(marshalError.value)
    ensures marshalError.None? ==> r == Success(JObject(Payload(d)))
  {
    var payload := map["name" := JString(d.name), "description" := JString(d.description),
                        "groupId" := JString(d.group)];

    var allFilters: map<string, Value> := map[];
    var filters := GetDashboardFilters(d.filters);
    if |filters| > 0 {
      allFilters := allFilters["sources" := ObjectArray(filters)];
    }
    var variables := GetDashboardVariables(d.variables);
    if |variables| > 0 {
      allFilters := allFilters["variables" := ObjectArray(variables)];
    }
    var time := GetDashboardTime(d);
    if |time| > 0 {
      allFilters := allFilters["time" := JObject(time)];
    }
    assert |time| > 0 <==> time != map[];
    if |allFilters| > 0 {
      payload := payload["filters" := JObject(allFilters)];
    }
    assert |allFilters| > 0 <==> allFilters != map[];

    var charts := GetDashboardCharts(d.charts);
    if |charts| > 0 {
      payload := payload["charts" := ObjectArray(charts)];
    }

    if marshalError.Some? {
      r := Failure(marshalError.value);
    } else {
      r := Success(JObject(payload));
    }
  }
}
