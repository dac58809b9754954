/** Reading a payload back into a dashboard description: the inverse of
    the translator. The round-trip lemma shows that the translation loses
    nothing but key names, except what `GetOk` already hides (a zero time
    bound reads as unset). */
module PayloadDecoding {
  import opened Wrappers
  import opened Json
  import opened DashboardModel
  import opened PayloadSpec

  /** The object's fields, when it is an object with exactly `keys`. */
  function FieldsExactly(v: Value, keys: set<string>): (r: Option<map<string, Value>>)
    ensures r.Some? <==> v.JObject? && v.fields.Keys == keys
    ensures r.Some? ==> v == JObject(r.value)
  {
    if v.JObject? && v.fields.Keys == keys then Some(v.fields) else None
  }

  function DecodeString(v: Value): Option<string> {
    if v.JString? then Some(v.s) else None
  }

  function DecodeBool(v: Value): Option<bool> {
    if v.JBool? then Some(v.b) else None
  }

  function DecodeInt64(v: Value): Option<int64> {
    if v.JInt? && MinInt64 <= v.n <= MaxInt64 then Some(v.n) else None
  }

  /** A millisecond count back to whole seconds. */
  function DecodeSeconds(v: Value): (r: Option<int64>)
    ensures r.Some? ==> v == JInt(r.value * 1000)
  {
    if v.JInt? && v.n % 1000 == 0 && MinInt64 <= v.n / 1000 <= MaxInt64 then Some(v.n / 1000) else None
  }

  /** Decodes every element of a list, failing if any element fails. */
  function DecodeEach<T>(items: seq<Value>, decode: Value -> Option<T>): (r: Option<seq<T>>)
    ensures r.Some? ==> |r.value| == |items|
    ensures r.Some? ==> forall i :: 0 <= i < |items| ==> decode(items[i]) == Some(r.value[i])
  {
    if items == [] then Some([])
    else
      var x :- decode(items[0]);
      var xs :- DecodeEach(items[1..], decode);
      Some([x] + xs)
  }

  function DecodeStrings(v: Value): Option<seq<string>> {
    if v.JArray? then DecodeEach(v.items, DecodeString) else None
  }

  function DecodeChart(v: Value): Option<Chart> {
    var f :- FieldsExactly(v, ChartKeys);
    var chartId :- DecodeString(f["chartId"]);
    var row :- DecodeInt64(f["row"]);
    var column :- DecodeInt64(f["column"]);
    var height :- DecodeInt64(f["height"]);
    var width :- DecodeInt64(f["width"]);
    Some(Chart(chartId, row, column, height, width))
  }

  function DecodeVariable(v: Value): Option<Variable> {
    var f :- FieldsExactly(v, VariableKeys);
    var property :- DecodeString(f["property"]);
    var alias :- DecodeString(f["alias"]);
    var values :- DecodeStrings(f["value"]);
    Some(Variable(property, alias, values))
  }

  function DecodeFilter(v: Value): Option<Filter> {
    var f :- FieldsExactly(v, FilterKeys);
    var property :- DecodeString(f["property"]);
    var negated :- DecodeBool(f["NOT"]);
    var values :- DecodeStrings(f["value"]);
    Some(Filter(property, negated, values))
  }

  /** An optional array member; an absent key reads as the empty list. */
  function DecodeOptionalList<T>(m: map<string, Value>, key: string, decode: Value -> Option<T>): Option<seq<T>> {
    if key !in m then Some([])
    else if m[key].JArray? then DecodeEach(m[key].items, decode)
    else None
  }

  /** An optional time bound; an absent key reads as unset. */
  function DecodeOptionalSeconds(m: map<string, Value>, key: string): Option<Option<int64>> {
    if key !in m then Some(None)
    else
      var s :- DecodeSeconds(m[key]);
      Some(Some(s))
  }

  /** What the `filters` object carries. */
  datatype FilterParts = FilterParts(
    timeStart: Option<int64>, timeEnd: Option<int64>, variables: seq<Variable>, filters: seq<Filter>)

  function DecodeTime(m: map<string, Value>): Option<(Option<int64>, Option<int64>)> {
    if "time" !in m then Some((None, None))
    else if m["time"].JObject? && m["time"].fields.Keys <= TimeKeys then
      var t := m["time"].fields;
      var start :- DecodeOptionalSeconds(t, "start");
      var end :- DecodeOptionalSeconds(t, "end");
      Some((start, end))
    else None
  }

  function DecodeFilterParts(m: map<string, Value>): Option<FilterParts> {
    if "filters" !in m then Some(FilterParts(None, None, [], []))
    else if m["filters"].JObject? && m["filters"].fields.Keys <= FiltersKeys then
      var f := m["filters"].fields;
      var sources :- DecodeOptionalList(f, "sources", DecodeFilter);
      var variables :- DecodeOptionalList(f, "variables", DecodeVariable);
      var time :- DecodeTime(f);
      Some(FilterParts(time.0, time.1, variables, sources))
    else None
  }

  /** Reads a payload object back into a dashboard description. */
  function DecodePayload(v: Value): Option<Dashboard> {
    if v.JObject? && HeaderKeys <= v.fields.Keys <= PayloadKeys then
      var p := v.fields;
      var name :- DecodeString(p["name"]);
      var description :- DecodeString(p["description"]);
      var group :- DecodeString(p["groupId"]);
      var parts :- DecodeFilterParts(p);
      var charts :- DecodeOptionalList(p, "charts", DecodeChart);
      Some(Dashboard(name, description, group, parts.timeStart, parts.timeEnd, charts, parts.variables, parts.filters))
    else None
  }

  /** The description as the translator sees it: a time bound `GetOk`
      reports as unset is absent. */
  function Canonical(d: Dashboard): Dashboard {
    d.(timeStart := if IsSet(d.timeStart) then d.timeStart else None,
       timeEnd := if IsSet(d.timeEnd) then d.timeEnd else None)
  }

  /** Both time bounds, if present, convert to milliseconds without overflow. */
  predicate TimesInRange(d: Dashboard) {
    && (d.timeStart.Some? ==> -MaxExactSeconds <= d.timeStart.value <= MaxExactSeconds)
    && (d.timeEnd.Some? ==> -MaxExactSeconds <= d.timeEnd.value <= MaxExactSeconds)
  }

  /** If every element decodes to its counterpart, the list decodes to the
      list of counterparts. */
  lemma {:induction false} DecodeEachComplete<T>(items: seq<Value>, decode: Value -> Option<T>, xs: seq<T>)
    requires |items| == |xs|
    requires forall i :: 0 <= i < |items| ==> decode(items[i]) == Some(xs[i])
    ensures DecodeEach(items, decode) == Some(xs)
  {
    if items != [] {
      DecodeEachComplete(items[1..], decode, xs[1..]);
      assert [xs[0]] + xs[1..] == xs;
    }
  }

  lemma StringArrayRoundTrip(vs: seq<string>)
    ensures DecodeStrings(StringArray(vs)) == Some(vs)
  {
    DecodeEachComplete(StringArray(vs).items, DecodeString, vs);
  }

  lemma ChartRoundTrip(c: Chart)
    ensures DecodeChart(JObject(ChartItem(c))) == Some(c)
  {
  }

  lemma VariableRoundTrip(v: Variable)
    ensures DecodeVariable(JObject(VariableItem(v))) == Some(v)
  {
    StringArrayRoundTrip(v.values);
  }

  lemma FilterRoundTrip(f: Filter)
    ensures DecodeFilter(JObject(FilterItem(f))) == Some(f)
  {
    StringArrayRoundTrip(f.values);
  }

  lemma ChartsRoundTrip(cs: seq<Chart>)
    ensures DecodeEach(ObjectArray(ChartItems(cs)).items, DecodeChart) == Some(cs)
  {
    forall i | 0 <= i < |cs| ensures DecodeChart(ObjectArray(ChartItems(cs)).items[i]) == Some(cs[i]) {
      ChartRoundTrip(cs[i]);
    }
    DecodeEachComplete(ObjectArray(ChartItems(cs)).items, DecodeChart, cs);
  }

  lemma VariablesRoundTrip(vs: seq<Variable>)
    ensures DecodeEach(ObjectArray(VariableItems(vs)).items, DecodeVariable) == Some(vs)
  {
    forall i | 0 <= i < |vs| ensures DecodeVariable(ObjectArray(VariableItems(vs)).items[i]) == Some(vs[i]) {
      VariableRoundTrip(vs[i]);
    }
    DecodeEachComplete(ObjectArray(VariableItems(vs)).items, DecodeVariable, vs);
  }

  lemma FiltersRoundTrip(fs: seq<Filter>)
    ensures DecodeEach(ObjectArray(FilterItems(fs)).items, DecodeFilter) == Some(fs)
  {
    forall i | 0 <= i < |fs| ensures DecodeFilter(ObjectArray(FilterItems(fs)).items[i]) == Some(fs[i]) {
      FilterRoundTrip(fs[i]);
    }
    DecodeEachComplete(ObjectArray(FilterItems(fs)).items, DecodeFilter, fs);
  }

  lemma TimeRoundTrip(d: Dashboard)
    requires TimesInRange(d)
    ensures DecodeTime(FiltersObject(d)) == Some((Canonical(d).timeStart, Canonical(d).timeEnd))
  {
    var t := TimeObject(d);
    TimeBounds(d);
    if IsSet(d.timeStart) {
      assert DecodeSeconds(t["start"]) == Some(d.timeStart.value);
    }
    if IsSet(d.timeEnd) {
      assert DecodeSeconds(t["end"]) == Some(d.timeEnd.value);
    }
  }

  /** Translating a description and reading the payload back gives the
      description again, as the translator sees it. */
  lemma PayloadRoundTrip(d: Dashboard)
    requires TimesInRange(d)
    ensures DecodePayload(JObject(Payload(d))) == Some(Canonical(d))
  {
    PayloadHeader(d);
    FiltersPresence(d);
    ChartsPresence(d);
    ChartsRoundTrip(d.charts);
    VariablesRoundTrip(d.variables);
    FiltersRoundTrip(d.filters);
    TimeRoundTrip(d);
    var p := Payload(d);
    if "filters" in p {
      assert p["filters"].fields == FiltersObject(d);
    }
  }

  /** The translation is lossless: two descriptions with the same payload
      differ at most in time bounds that `GetOk` reports as unset. */
  lemma PayloadInjective(d1: Dashboard, d2: Dashboard)
    requires TimesInRange(d1) && TimesInRange(d2)
    requires Payload(d1) == Payload(d2)
    ensures Canonical(d1) == Canonical(d2)
  {
    PayloadRoundTrip(d1);
    PayloadRoundTrip(d2);
  }

  /** Beyond that range the translation does lose information: because
      `* 1000` wraps, a start of 1 second and one of 1 + 2^61 seconds are
      both sent as `start: 1000`. */
  lemma WrappedTimesCollide()
    ensures var d1 := Dashboard("d", "", "g", Some(1), None, [], [], []);
            var d2 := d1.(timeStart := Some(1 + 0x2000_0000_0000_0000));
            && Payload(d1) == Payload(d2)
            && Canonical(d1) != Canonical(d2)
            && TimeObject(d2)["start"] == JInt(1000)
  {
    var d1 := Dashboard("d", "", "g", Some(1), None, [], [], []);
    var d2 := d1.(timeStart := Some(1 + 0x2000_0000_0000_0000));
    assert Millis(d2.timeStart.value) == 1000;
    assert TimeObject(d1) == TimeObject(d2);
  }
}
