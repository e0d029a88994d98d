# ProxyQuerier: a Dafny model of promproxy's storage-querier adapter

`ProxyQuerier` lets the Prometheus query engine read series through its pull-style
`storage.Querier` interface while the data actually comes from a remote metrics
client (`promclient.API`). It has four operations:

- `Select` routes each request. A request without `SelectParams` is a metadata call. It
  translates the matchers into one selector and asks the client for `Series` over the
  querier's own `Start`/`End`. The label sets that come back become a vector of samples
  that carry only the metric. A request with `SelectParams` is a data call: `GetValue`
  over the request's own start and end, with the matchers unchanged. Either result is
  split into iterators, and each iterator is wrapped as one `Series`.
- `LabelValues` converts the client's label values to strings, one for one.
- `LabelNames` and `Close` pass through.

In `Select` and `LabelValues`, an error from the remote call is returned through
`errors.Cause`, and the call's converted warnings are returned with it. In `Select`, a
matcher-translation error is returned as it is, without `errors.Cause`. `LabelNames`
returns the client's error unchanged.

Files:

- `wrappers.dfy`: `Option`, which stands in for Go's nil.
- `prom_model.dfy`: the Prometheus types: matchers, label sets, samples, `model.Value`,
  errors and warnings.
- `promclient.dfy`: the remote client. Each operation answers with
  `(value, warnings, error)`. It also holds the `Call` record of one remote call.
- `querier.dfy`: the querier itself.
- `scenarios.dfy`: a stub client that derives two concrete selections from the contracts
  alone.

Modelling choices:

- The client is a datatype of function-valued fields. Each reply is a fixed function of
  the call's arguments.
- The package helpers whose bodies are not part of this model are also function-valued
  fields, of `Querier.Helpers`. They are `promutil.MatcherToString`,
  `promutil.WarningsConvert`, `promclient.IteratorsForValue`, `errors.Cause`,
  `timestamp.Time` and `NewSeriesSet`. The model leaves their behaviour abstract, with two
  exceptions about nil. `errors.Cause` may return nil, as Go's does for a wrapper whose own
  cause is nil, so a failed remote call can come back with no set and no error.
  `NewSeriesSet` is taken to return a non-nil set.
- `Select` and `LabelValues` are methods. Like the Go code, they allocate a slice (an
  array here) and fill it index by index in a loop.
- Each method also returns `calls`, the list of remote calls it made. This makes "which
  call, with which arguments" part of its contract. Every remote call of `Select` and
  `LabelValues` goes through one of the client's methods `Series`, `GetValue` and
  `LabelValues`. Each of these answers
  with the client's reply and also returns the record of that same call, and the querier
  appends exactly that record. The client's reply functions can still be called directly.
  So `calls` covers the calls made through these methods. `Select` and `LabelValues` make
  no other kind. `LabelNames` is a function: it reads `client.labelNames()` directly and
  returns no call list.
- In the metadata branch, the Go code declares a new `err` at `querier.go:51`, which
  shadows the outer one. So the common error check after the branch only ever fires on
  the data path. The model keeps a separate variable for the outer error, and only the
  data branch assigns it.

Three facts about the code that the contracts reflect:

- If the matchers cannot be translated, `Select` returns nil warnings before any remote
  call is made (querier.go:51-54).
- `IteratorsForValue` has no error return (querier.go:78). So `Select` has no error path
  for a result shape it cannot turn into series.
- The matcher list may be empty; nothing in querier.go checks its length.

## Model

| member | source | states |
|---|---|---|
| `Querier.ProxyQuerier.Select` | pkg/proxyquerier/querier.go:31-86 | A series set is returned only when no error is returned. Metadata path, translation fails: no remote call is made; the result is a nil set, nil warnings and the translator's own error. Metadata path, translation succeeds: the only call is `Series` with the one selector and the querier's `Start`/`End`. The warnings are the converted call warnings. On a call error, the result is a nil set and `Cause(err)`, which may itself be nil. Otherwise the error is nil and the set is built from the iterators of the sentinel vector of the returned label sets. Data path: the only call is `GetValue` with the converted request start and end and the matchers unchanged. Warnings and errors are handled as on the metadata path. On success the set is built from the iterators of the returned value. |
| `Querier.SentinelVector` | pkg/proxyquerier/querier.go:62-67 | The metadata vector has exactly one sample per discovered label set. Sample `j` has metric `labelsets[j]`, in the same order, with timestamp and value zero. |
| `Querier.SeriesOf` | pkg/proxyquerier/querier.go:80-83 | There is one series per iterator, in order, and `series[i]` wraps `iterators[i]`. |
| `Querier.ProxyQuerier.LabelValues` | pkg/proxyquerier/querier.go:98-109 | It makes exactly one `LabelValues` call, with the given name. Warnings are always the converted call warnings. Values are returned exactly when the call succeeded. On a call error: nil values and `Cause(err)`. Otherwise: a nil error and a list of the same length and order as the client's result, with `ret[i]` the text of `result[i]`. |
| `Querier.ProxyQuerier.LabelNames` | pkg/proxyquerier/querier.go:121-122 | The names and the error are the client's own, unchanged; unlike the other operations, the error is not passed through `Cause`. Only the warnings are converted. |
| `Querier.ProxyQuerier.Close` | pkg/proxyquerier/querier.go:127 | Closing always returns a nil error. |

## Left out

- pkg/promclient/debug.go: a logging decorator that forwards every call unchanged. It has no decision logic.
- The deferred logging and timing blocks of `Select`, `LabelValues` and `LabelNames` (querier.go:32-39, 90-96, 114-119). They are diagnostics output based on wall-clock time.
- `context.Context` threading and cancellation, and concurrency. Each operation in the model is a single sequential step.
- The `Cfg` field, which the querier never reads.
- The client's `Query` and `QueryRange` operations, which the querier never calls.
- The behaviour of `MatcherToString`, `WarningsConvert`, `IteratorsForValue`, `errors.Cause`, `timestamp.Time` and `NewSeriesSet`, and of the series iterators. Their bodies are not part of this model, so the model keeps them abstract. This includes what an iterator yields for a sentinel sample.
- Floating-point sample values. They are opaque 64-bit patterns.
- A nil-versus-empty distinction for warnings slices. Both are the empty sequence in the model.
- A nil `model.Value` from a successful `GetValue`. The model's values are always one of the four shapes.
- Querier.ProxyQuerier.Select: takes `NewSeriesSet` to return a non-nil set, so a successful selection always returns a set. Its body is not part of this model.
- Querier.ProxyQuerier.Select and Querier.ProxyQuerier.LabelValues: `calls` lists the calls made through the client's recording methods. The model does not exclude a direct use of the client's reply functions; these two methods make none. `LabelNames` reads `client.labelNames()` directly and records no call.
- A remote whose answer changes between two identical calls. Each operation makes at most one call, so this does not affect any single operation.
