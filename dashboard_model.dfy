/** The typed dashboard description that the Terraform SDK hands to the
    translator, and the two pieces of SDK and Go semantics it relies on:
    `GetOk` reporting a zero value as unset, and 64-bit `int` arithmetic. */
module DashboardModel {
  import opened Wrappers

  const MinInt64: int := -0x8000_0000_0000_0000
  const MaxInt64: int := 0x7fff_ffff_ffff_ffff

  /** Go's `int` on the 64-bit platforms the provider is built for. */
  type int64 = x: int | MinInt64 <= x <= MaxInt64

  /** One chart placement of the `chart` set. The SDK fills `row` and
      `column` with 0 and `width`/`height` with their defaults when unset. */
  datatype Chart = Chart(chartId: string, row: int64, column: int64, height: int64, width: int64)

  /** One entry of the `variable` set; `values` is the nested string set, listed. */
  datatype Variable = Variable(property: string, alias: string, values: seq<string>)

  /** One entry of the `filter` set. */
  datatype Filter = Filter(property: string, negated: bool, values: seq<string>)

  /** The resource description. The three nested sets have no order, so each
      is given as a sequence in whatever order the SDK lists it. */
  datatype Dashboard = Dashboard(
    name: string,
    description: string,
    group: string,
    timeStart: Option<int64>,
    timeEnd: Option<int64>,
    charts: seq<Chart>,
    variables: seq<Variable>,
    filters: seq<Filter>)

  /** `d.GetOk(key)` on an integer attribute: ok only when present and non-zero. */
  predicate IsSet(t: Option<int64>) {
    t.Some? && t.value != 0
  }

  /** Two's-complement wrap-around of an unbounded integer into Go's `int`. */
  function Wrap64(x: int): (r: int64)
    ensures MinInt64 <= x <= MaxInt64 ==> r == x
    ensures (r - x) % 0x1_0000_0000_0000_0000 == 0
  {
    (x - MinInt64) % 0x1_0000_0000_0000_0000 + MinInt64
  }

  /** The largest number of seconds whose millisecond count fits in `int`. */
  const MaxExactSeconds: int := 9_223_372_036_854_775

  /** `val.(int) * 1000`: seconds to milliseconds, wrapping on overflow. */
  function Millis(seconds: int64): (ms: int64)
    ensures -MaxExactSeconds <= seconds <= MaxExactSeconds ==> ms == seconds * 1000
  {
    Wrap64(seconds * 1000)
  }
}
