/** What `getPayloadDashboard` builds, stated as values: the JSON object
    for a dashboard, before it is encoded. The imperative translator in
    module Translator is proved to produce exactly these values. */
module PayloadSpec {
  import opened Wrappers
  import opened Json
  import opened DashboardModel

  const ChartKeys: set<string> := {"chartId", "row", "column", "height", "width"}
  const VariableKeys: set<string> := {"property", "alias", "value"}
  const FilterKeys: set<string> := {"property", "NOT", "value"}
  const TimeKeys: set<string> := {"start", "end"}
  const FiltersKeys: set<string> := {"sources", "variables", "time"}
  const HeaderKeys: set<string> := {"name", "description", "groupId"}
  const PayloadKeys: set<string> := HeaderKeys + {"filters", "charts"}

  /** A listed string set, as a JSON array of strings. */
  function StringArray(vs: seq<string>): Value {
    JArray(seq(|vs|, i requires 0 <= i < |vs| => JString(vs[i])))
  }

  /** A slice of item maps, as a JSON array of objects. */
  function ObjectArray(items: seq<map<string, Value>>): Value {
    JArray(seq(|items|, i requires 0 <= i < |items| => JObject(items[i])))
  }

  function ChartItem(c: Chart): map<string, Value> {
    map["chartId" := JString(c.chartId), "row" := JInt(c.row), "column" := JInt(c.column),
        "height" := JInt(c.height), "width" := JInt(c.width)]
  }

  function VariableItem(v: Variable): map<string, Value> {
    map["property" := JString(v.property), "alias" := JString(v.alias), "value" := StringArray(v.values)]
  }

  function FilterItem(f: Filter): map<string, Value> {
    map["property" := JString(f.property), "NOT" := JBool(f.negated), "value" := StringArray(f.values)]
  }

  function ChartItems(cs: seq<Chart>): seq<map<string, Value>> {
    seq(|cs|, i requires 0 <= i < |cs| => ChartItem(cs[i]))
  }

  function VariableItems(vs: seq<Variable>): seq<map<string, Value>> {
    seq(|vs|, i requires 0 <= i < |vs| => VariableItem(vs[i]))
  }

  function FilterItems(fs: seq<Filter>): seq<map<string, Value>> {
    seq(|fs|, i requires 0 <= i < |fs| => FilterItem(fs[i]))
  }

  /** The `time` sub-object; empty when neither bound is set. */
  function TimeObject(d: Dashboard): map<string, Value> {
    var start := if IsSet(d.timeStart) then map["start" := JInt(Millis(d.timeStart.value))] else map[];
    if IsSet(d.timeEnd) then start["end" := JInt(Millis(d.timeEnd.value))] else start
  }

  /** The `filters` sub-object; empty when it would have no key. */
  function FiltersObject(d: Dashboard): map<string, Value> {
    var sources := if d.filters != [] then map["sources" := ObjectArray(FilterItems(d.filters))] else map[];
    var variables := if d.variables != [] then sources["variables" := ObjectArray(VariableItems(d.variables))] else sources;
    if TimeObject(d) != map[] then variables["time" := JObject(TimeObject(d))] else variables
  }

  /** The whole payload object. */
  function Payload(d: Dashboard): map<string, Value> {
    var header := map["name" := JString(d.name), "description" := JString(d.description), "groupId" := JString(d.group)];
    var filters := if FiltersObject(d) != map[] then header["filters" := JObject(FiltersObject(d))] else header;
    if d.charts != [] then filters["charts" := ObjectArray(ChartItems(d.charts))] else filters
  }

  /** `name`, `description` and `groupId` are always present; `groupId`
      carries `dashboard_group`; no key outside the API's schema appears. */
  lemma PayloadHeader(d: Dashboard)
    ensures var p := Payload(d);
      && HeaderKeys <= p.Keys <= PayloadKeys
      && p["name"] == JString(d.name)
      && p["description"] == JString(d.description)
      && p["groupId"] == JString(d.group)
  {
  }

  /** The time bounds are independent: each key is present exactly when its
      bound is set, and carries the bound in milliseconds. */
  lemma TimeBounds(d: Dashboard)
    ensures var t := TimeObject(d);
      && t.Keys <= TimeKeys
      && ("start" in t <==> IsSet(d.timeStart))
      && ("end" in t <==> IsSet(d.timeEnd))
      && ("start" in t ==> t["start"] == JInt(Millis(d.timeStart.value)))
      && ("end" in t ==> t["end"] == JInt(Millis(d.timeEnd.value)))
      && (t == map[] <==> !IsSet(d.timeStart) && !IsSet(d.timeEnd))
  {
  }

  /** Within `int` range, each set bound of `s` seconds is sent as `s * 1000`,
      whether or not the other bound is set. */
  lemma TimeInMilliseconds(d: Dashboard)
    requires d.timeStart.Some? ==> -MaxExactSeconds <= d.timeStart.value <= MaxExactSeconds
    requires d.timeEnd.Some? ==> -MaxExactSeconds <= d.timeEnd.value <= MaxExactSeconds
    ensures var t := TimeObject(d);
      && (IsSet(d.timeStart) ==> t["start"] == JInt(d.timeStart.value * 1000))
      && (IsSet(d.timeEnd) ==> t["end"] == JInt(d.timeEnd.value * 1000))
  {
  }

  /** `filters` is present exactly when one of its parts has content, and
      then holds exactly the non-empty parts. */
  lemma FiltersPresence(d: Dashboard)
    ensures var p := Payload(d);
      && ("filters" in p <==> d.filters != [] || d.variables != [] || IsSet(d.timeStart) || IsSet(d.timeEnd))
      && ("filters" in p ==>
            && p["filters"].JObject?
            && var f := p["filters"].fields;
            && f.Keys <= FiltersKeys
            && ("sources" in f <==> d.filters != [])
            && ("variables" in f <==> d.variables != [])
            && ("time" in f <==> IsSet(d.timeStart) || IsSet(d.timeEnd))
            && ("sources" in f ==> f["sources"] == ObjectArray(FilterItems(d.filters)))
            && ("variables" in f ==> f["variables"] == ObjectArray(VariableItems(d.variables)))
            && ("time" in f ==> f["time"] == JObject(TimeObject(d))))
  {
    TimeBounds(d);
    var f := FiltersObject(d);
    if d.filters != [] {
      assert "sources" in f;
    } else if d.variables != [] {
      assert "variables" in f;
    } else if TimeObject(d) != map[] {
      assert "time" in f;
    }
  }

  /** `charts` is present exactly when the chart set is non-empty, with one
      entry per chart, in the order the set was listed. */
  lemma ChartsPresence(d: Dashboard)
    ensures var p := Payload(d);
      && ("charts" in p <==> d.charts != [])
      && ("charts" in p ==>
            && p["charts"].JArray?
            && |p["charts"].items| == |d.charts|
            && forall i :: 0 <= i < |d.charts| ==> p["charts"].items[i] == JObject(ChartItem(d.charts[i])))
  {
  }

  /** A chart entry renames `chart_id` to `chartId` and copies the grid
      coordinates unchanged. */
  lemma ChartItemShape(c: Chart)
    ensures var m := ChartItem(c);
      && m.Keys == ChartKeys
      && m["chartId"] == JString(c.chartId)
      && m["row"] == JInt(c.row) && m["column"] == JInt(c.column)
      && m["height"] == JInt(c.height) && m["width"] == JInt(c.width)
  {
  }

  /** A variable entry renames `values` to `value` and lists the same strings. */
  lemma VariableItemShape(v: Variable)
    ensures var m := VariableItem(v);
      && m.Keys == VariableKeys
      && m["property"] == JString(v.property) && m["alias"] == JString(v.alias)
      && m["value"].JArray? && |m["value"].items| == |v.values|
      && forall k :: 0 <= k < |v.values| ==> m["value"].items[k] == JString(v.values[k])
  {
  }

  /** A filter entry renames `negated` to `NOT` and `values` to `value`. */
  lemma FilterItemShape(f: Filter)
    ensures var m := FilterItem(f);
      && m.Keys == FilterKeys
      && m["property"] == JString(f.property) && m["NOT"] == JBool(f.negated)
      && m["value"].JArray? && |m["value"].items| == |f.values|
      && forall k :: 0 <= k < |f.values| ==> m["value"].items[k] == JString(f.values[k])
  {
  }

  /** A dashboard with no charts, variables, filters or time bounds is sent
      as its three header keys alone. */
  lemma BarePayload(d: Dashboard)
    requires d.charts == [] && d.variables == [] && d.filters == []
    requires !IsSet(d.timeStart) && !IsSet(d.timeEnd)
    ensures Payload(d).Keys == HeaderKeys
  {
  }

  /** The worked examples of the translation: time 10..20 seconds, one
      chart at the origin, one negated filter on `host`. */
  lemma Examples()
    ensures TimeObject(Dashboard("", "", "", Some(10), Some(20), [], [], []))
            == map["start" := JInt(10000), "end" := JInt(20000)]
    ensures ChartItem(Chart("abc", 0, 0, 1, 12))
            == map["chartId" := JString("abc"), "row" := JInt(0), "column" := JInt(0),
                   "width" := JInt(12), "height" := JInt(1)]
    ensures FilterItem(Filter("host", true, ["a", "b"]))
            == map["property" := JString("host"), "NOT" := JBool(true),
                   "value" := JArray([JString("a"), JString("b")])]
  {
    assert StringArray(["a", "b"]).items == [JString("a"), JString("b")];
  }
}
