/**
  The Prometheus value types the querier passes around: label matchers, label sets,
  samples and the tagged union `model.Value` a data query answers with, plus the
  diagnostic types (errors and the two kinds of warnings).
*/
module PromModel {

  /** Go's `int64`, the type of millisecond timestamps. */
  newtype Int64 = x: int | -0x8000_0000_0000_0000 <= x < 0x8000_0000_0000_0000

  /** A float64 sample value, kept as its IEEE-754 bit pattern and never interpreted. */
  type Float64 = bv64

  /** A Go `time.Time`, opaque here: only compared and passed along. */
  datatype Time = Time(unixNanos: int)

  type LabelName = string

  /** `model.LabelValue`, a named string type; `Text` is what `string(v)` yields. */
  datatype LabelValue = LabelValue(text: string)

  /** `model.LabelSet` (and `model.Metric`, the same map type). */
  type LabelSet = map<LabelName, LabelValue>

  datatype MatchType = MatchEqual | MatchNotEqual | MatchRegexp | MatchNotRegexp

  /** `labels.Matcher`: a predicate on one label, supplied by the query engine. */
  datatype Matcher = Matcher(kind: MatchType, name: LabelName, value: string)

  /** `model.Sample`: one point of one series. */
  datatype Sample = Sample(metric: LabelSet, timestamp: Int64, value: Float64)

  datatype SamplePair = SamplePair(timestamp: Int64, value: Float64)

  /** `model.SampleStream`: one series with its points. */
  datatype SampleStream = SampleStream(metric: LabelSet, values: seq<SamplePair>)

  /** `model.Value`: the shapes a remote query result can take. */
  datatype Value =
    | Vector(samples: seq<Sample>)
    | Matrix(streams: seq<SampleStream>)
    | Scalar(scalarTime: Int64, scalarValue: Float64)
    | Str(stringTime: Int64, text: string)

  /** A Go `error`, opaque: its wrapping chain is only looked at by `errors.Cause`. */
  datatype Error = Error(message: string)

  /** `api.Warnings`, the remote client's warnings. */
  type ApiWarnings = seq<string>

  /** `storage.Warnings`, the query engine's warnings; a nil slice is the empty sequence. */
  type Warnings = seq<Error>

  /** A Go `(T, error)` pair where the value is only meaningful without an error. */
  datatype Fallible<T> = Ok(value: T) | Fail(error: Error)

  /** `storage.SelectParams`: the window of a data selection, in milliseconds. */
  datatype SelectParams = SelectParams(start: Int64, end: Int64, step: Int64, func: string)
}
