# SignalForm dashboard resource: payload translator and lifecycle handlers

This project models the dashboard resource of the SignalForm Terraform
provider (`signalform/dashboard.go`). The resource turns a declarative
dashboard description into the JSON object the SignalFx REST API expects:

- `name` and `description` are sent as they are, and `dashboard_group` is sent as `groupId`;
- `time_start` and `time_end` are converted from seconds to milliseconds;
- the `chart`, `variable` and `filter` sets become arrays of objects, with keys renamed
  (`chart_id`→`chartId`, `values`→`value`, `negated`→`NOT`);
- the `filters` sub-object (`sources`, `variables`, `time`) and the `charts` array appear only
  when they have content.

The four lifecycle handlers then hand one request each to the provider's HTTP helper.
Read, update and delete target `https://api.signalfx.com/v2/dashboard/<id>`. Create and update
report a payload failure before anything is sent.

Modules:

- `Wrappers` (wrappers.dfy): `Option` and `Result`.
- `Json` (json.dfy): the JSON value tree. A Go `map[string]interface{}` becomes an object and a
  slice becomes an array.
- `DashboardModel` (dashboard_model.dfy): the typed description the Terraform SDK hands over.
  It also holds two pieces of Go and SDK behaviour the translator relies on. `GetOk` reports a
  zero integer as unset (`IsSet`). Go's `int` is 64 bits wide, so `* 1000` wraps on overflow
  (`Wrap64`, `Millis`).
- `PayloadSpec` (payload_spec.dfy): the payload defined as values, and lemmas stating which keys
  appear, when, and with what values.
- `Translator` (translator.dfy): `getPayloadDashboard` and the four `getDashboard*` builders,
  written as the Go code works. Maps are filled key by key. Each list is preallocated to its
  set's length and filled index by index in a loop. Each method is proved to produce the value
  `PayloadSpec` defines.
- `PayloadDecoding` (payload_decoding.dfy): reads a payload back into a description. This
  inverse of the translator is proved to undo it whenever both time bounds fit in milliseconds.
  Within that range the translation loses nothing except key names and what `GetOk` already
  hides. Beyond it, `* 1000` wraps, and distinct bounds can be sent as the same value.
- `Lifecycle` (lifecycle.dfy): the per-resource URL and its inverse, plus the four handlers. The
  handlers are a class that records every request handed to the HTTP helper.

The three nested sets have no defined order, so each one is a sequence in whatever order the SDK
lists it. Every property is stated index by index against that sequence.

## Model

| member | source | states |
|---|---|---|
| DashboardModel.Wrap64 | signalform/dashboard.go:179 | Go `int` arithmetic: the result is congruent to the exact value modulo 2^64, and equals it when it fits in 64 bits |
| DashboardModel.Millis | signalform/dashboard.go:178-183 | a time bound in seconds is sent in milliseconds, exactly `seconds * 1000` whenever that fits in `int` |
| PayloadSpec.PayloadHeader | signalform/dashboard.go:149-153 | `name`, `description` and `groupId` are always present; `groupId` is `dashboard_group`; no other key outside `filters` and `charts` appears |
| PayloadSpec.TimeBounds | signalform/dashboard.go:176-188 | `start` is present iff `time_start` is set (non-zero) and `end` iff `time_end` is; each holds its bound in milliseconds; the two are independent; the time map is empty iff neither is set |
| PayloadSpec.TimeInMilliseconds | signalform/dashboard.go:178-183 | within range, each set bound of `s` seconds is sent as `s * 1000`, independently of whether the other bound is set |
| PayloadSpec.FiltersPresence | signalform/dashboard.go:155-167 | `filters` is present iff filters, variables or a time bound is non-empty; its keys are exactly those of `sources`, `variables`, `time` that are non-empty, each holding its list or the time map |
| PayloadSpec.ChartsPresence | signalform/dashboard.go:169-171 | `charts` is present iff the chart set is non-empty; it then has one entry per chart, entry i built from chart i |
| PayloadSpec.ChartItemShape | signalform/dashboard.go:193-203 | a chart entry has exactly `chartId`, `row`, `column`, `height`, `width`; `chartId` is `chart_id`, the four ints are copied unchanged |
| PayloadSpec.VariableItemShape | signalform/dashboard.go:211-219 | a variable entry has exactly `property`, `alias`, `value`; `value` lists the same strings as `values`, in order |
| PayloadSpec.FilterItemShape | signalform/dashboard.go:227-235 | a filter entry has exactly `property`, `NOT`, `value`; `NOT` is `negated`; `value` lists the same strings as `values` |
| PayloadSpec.BarePayload | signalform/dashboard.go:148-171 | with no charts, variables, filters or time bounds the payload has only its three header keys |
| PayloadSpec.Examples | signalform/dashboard.go:176-236 | times 10 and 20 give `{start: 10000, end: 20000}`; a chart and a negated filter give the expected renamed objects |
| Translator.GetDashboardTime | signalform/dashboard.go:176-188 | the step-by-step time map equals the specified time object |
| Translator.GetDashboardCharts | signalform/dashboard.go:190-206 | the preallocated list, filled index by index, holds at each index i the item for chart i |
| Translator.GetDashboardVariables | signalform/dashboard.go:208-222 | the list holds at each index i the item for variable i |
| Translator.GetDashboardFilters | signalform/dashboard.go:224-238 | the list holds at each index i the item for filter i |
| Translator.GetPayloadDashboard | signalform/dashboard.go:148-174 | on encoder success the result is exactly the specified payload; the encoder's error is passed through unchanged |
| PayloadDecoding.StringArrayRoundTrip | signalform/dashboard.go:217 | a listed value set reads back as the same strings |
| PayloadDecoding.ChartRoundTrip | signalform/dashboard.go:193-203 | a chart entry reads back as the same chart |
| PayloadDecoding.VariableRoundTrip | signalform/dashboard.go:211-219 | a variable entry reads back as the same variable |
| PayloadDecoding.FilterRoundTrip | signalform/dashboard.go:227-235 | a filter entry reads back as the same filter |
| PayloadDecoding.ChartsRoundTrip | signalform/dashboard.go:190-206 | the chart array reads back as the same chart sequence |
| PayloadDecoding.VariablesRoundTrip | signalform/dashboard.go:208-222 | the variable array reads back as the same variable sequence |
| PayloadDecoding.FiltersRoundTrip | signalform/dashboard.go:224-238 | the filter array reads back as the same filter sequence |
| PayloadDecoding.TimeRoundTrip | signalform/dashboard.go:176-188 | the time object reads back as the set bounds, in seconds |
| PayloadDecoding.PayloadRoundTrip | signalform/dashboard.go:148-171 | reading the payload back yields the description, with zero time bounds read as unset |
| PayloadDecoding.PayloadInjective | signalform/dashboard.go:148-171 | two descriptions whose time bounds fit in milliseconds and that have the same payload differ at most in time bounds that read as unset |
| PayloadDecoding.WrappedTimesCollide | signalform/dashboard.go:179 | out of range the multiplication wraps: start times of 1 s and 1 + 2^61 s give the same payload (`start: 1000`) |
| Lifecycle.ResourceUrl | signalform/dashboard.go:252 | the per-resource URL is the API URL, a `/`, then the id |
| Lifecycle.ResourceIdOfUrl | signalform/dashboard.go:263 | the id can be recovered from the per-resource URL |
| Lifecycle.ResourceUrlDistinct | signalform/dashboard.go:270 | distinct ids give distinct URLs, and no per-resource URL is the collection URL |
| Lifecycle.Handlers.constructor | signalform/dashboard.go:241 | the handlers carry the configured token and have sent nothing |
| Lifecycle.Handlers.DashboardCreate | signalform/dashboard.go:240-248 | on a payload failure the wrapped error is returned and nothing is sent; otherwise exactly one create request with the payload goes to the collection URL and the helper's answer is returned |
| Lifecycle.Handlers.DashboardRead | signalform/dashboard.go:250-255 | exactly one read request goes to `<url>/<id>`; the helper's answer is returned |
| Lifecycle.Handlers.DashboardUpdate | signalform/dashboard.go:257-266 | on a payload failure the wrapped error is returned and nothing is sent; otherwise exactly one update request with the payload goes to `<url>/<id>` |
| Lifecycle.Handlers.DashboardDelete | signalform/dashboard.go:268-272 | exactly one delete request goes to `<url>/<id>`; the helper's answer is returned |

## Left out

- The `dashboardResource` schema literal (signalform/dashboard.go:11-143) is declarative SDK configuration. The SDK applies its defaults (width 12, height 1, negated false), so the model receives them already filled in. Its documented ranges (width 1–12, column 0–11, height ≥ 1) are not enforced by the translator, and the model does not claim them.
- The computed `synced` and `last_updated` attributes are filled in by the HTTP helpers, not by this code; `last_updated` is also a float.
- `resourceCreate`, `resourceRead`, `resourceUpdate` and `resourceDelete` are network helpers defined elsewhere. The model records each request handed to them, and each handler's `reply` parameter stands for the helper's answer. What they do to the resource data (assigning the id, filling it from the response) is not modelled.
- `json.Marshal` is a foreign library. The model stops at the JSON value tree. The encoder's only failure is the `marshalError` parameter, and key ordering and byte output are not modelled.
- `schema.ResourceData`, `schema.Set`, `GetOk` and the runtime type assertions are SDK machinery. A typed record replaces them, so the panics a failed type assertion would cause cannot occur. `GetOk`'s rule that a zero integer is unset is kept (`IsSet`). The order `Set.List()` gives is taken to be the order of the input sequences.
- `getDashboardTime` returns a nil map when no bound is set. The model returns an empty map instead. The only use of the result is its length, and nil and empty maps have the same length.
- The `meta.(*signalformConfig)` lookup is process-wide configuration. The token is a constructor argument of `Handlers`.
- DashboardModel.Millis: Go's `int` is taken to be 64 bits wide. On a 32-bit build it would wrap at 2^32.
- PayloadDecoding.PayloadRoundTrip: the round trip is stated only for time bounds whose millisecond value fits in 64 bits. Beyond that the sent value has wrapped and cannot be read back.
- PayloadDecoding.PayloadInjective: stated only for time bounds within ±9_223_372_036_854_775 seconds. Beyond that, `* 1000` wraps and distinct bounds can collide (`WrappedTimesCollide`).
