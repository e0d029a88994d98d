/**
  `ProxyQuerier`: the adapter that serves the query engine's pull-style storage
  queries (`Select`, `LabelValues`, `LabelNames`, `Close`) from a remote metrics client.
*/
module Querier {

  import opened Wrappers
  import opened PromModel
  import opened PromClient

  /** A `storage.Series` built by the querier: `&Series{iterator}`. */
  datatype Series = Series(cursor: SeriesIterator)

  /** A `storage.SeriesSet` as returned by `NewSeriesSet`, whose body is not part of this model. */
  datatype SeriesSet = SeriesSet(handle: nat)

  /**
    The package-level helpers the querier calls, whose bodies are not part of this
    model: `promutil.MatcherToString`, `promutil.WarningsConvert`,
    `promclient.IteratorsForValue`, `errors.Cause`, `timestamp.Time` and `NewSeriesSet`.
    `errors.Cause` may answer nil (a wrapper whose own cause is nil); `NewSeriesSet`
    is taken to return a non-nil set.
  */
  datatype Helpers = Helpers(
    matcherToString: seq<Matcher> -> Fallible<string>,
    warningsConvert: ApiWarnings -> Warnings,
    iteratorsForValue: Value -> seq<SeriesIterator>,
    cause: Error -> Option<Error>,
    timeOfMillis: Int64 -> Time,
    newSeriesSet: seq<Series> -> SeriesSet)

  /** The sample standing for a discovered series: label identity only, timestamp and value zero. */
  function SentinelSample(labelset: LabelSet): (s: Sample)
  {
    Sample(labelset, 0, 0)
  }

  /** The vector the metadata path synthesizes from the discovered label sets. */
  function SentinelVector(labelsets: seq<LabelSet>): (v: seq<Sample>)
    ensures |v| == |labelsets|
    ensures forall j :: 0 <= j < |v| ==>
      v[j].metric == labelsets[j] && v[j].timestamp == 0 && v[j].value == 0
  {
    if labelsets == [] then [] else [SentinelSample(labelsets[0])] + SentinelVector(labelsets[1..])
  }

  /** The series wrapping each iterator, in order. */
  function SeriesOf(iterators: seq<SeriesIterator>): (s: seq<Series>)
    ensures |s| == |iterators|
    ensures forall i :: 0 <= i < |s| ==> s[i].cursor == iterators[i]
  {
    if iterators == [] then [] else [Series(iterators[0])] + SeriesOf(iterators[1..])
  }

  /**
    The querier's configuration, fixed at construction: the window used for series
    discovery and the remote client.
  */
  datatype ProxyQuerier = ProxyQuerier(start: Time, end: Time, client: Client)
  {
    /**
      Selects the series matching `matchers`. Without `params` this is a metadata call
      (series discovery over the querier's own window); with `params` a data call over
      the request's window. `calls` lists the remote calls made, in order, as the
      client's recording methods report them.
    */
    method Select(ext: Helpers, params: Option<SelectParams>, matchers: seq<Matcher>)
      returns (seriesSet: Option<SeriesSet>, warnings: Warnings, err: Option<Error>, calls: seq<Call>)
      // A set comes back only without an error; a remote failure yields no set, and the
      // error's cause (nil when `errors.Cause` answers nil).
      ensures seriesSet.Some? ==> err.None?
      // Metadata path, matchers not translatable: no remote call, no warnings.
      ensures params.None? && ext.matcherToString(matchers).Fail? ==>
        && calls == []
        && seriesSet == None
        && warnings == []
        && err == Some(ext.matcherToString(matchers).error)
      // Metadata path: one Series call with the single translated selector over [start, end].
      ensures params.None? && ext.matcherToString(matchers).Ok? ==>
        var selectors := [ext.matcherToString(matchers).value];
        var reply := client.series(selectors, start, end);
        && calls == [SeriesCall(selectors, start, end)]
        && warnings == ext.warningsConvert(reply.warnings)
        && (reply.err.Some? ==> seriesSet == None && err == ext.cause(reply.err.value))
        && (reply.err.None? ==>
              && err == None
              && seriesSet == Some(ext.newSeriesSet(SeriesOf(ext.iteratorsForValue(Vector(SentinelVector(reply.value)))))))
      // Data path: one GetValue call over the request's window with the matchers unchanged.
      ensures params.Some? ==>
        var from, to := ext.timeOfMillis(params.value.start), ext.timeOfMillis(params.value.end);
        var reply := client.getValue(from, to, matchers);
        && calls == [GetValueCall(from, to, matchers)]
        && warnings == ext.warningsConvert(reply.warnings)
        && (reply.err.Some? ==> seriesSet == None && err == ext.cause(reply.err.value))
        && (reply.err.None? ==>
              && err == None
              && seriesSet == Some(ext.newSeriesSet(SeriesOf(ext.iteratorsForValue(reply.value)))))
    {
      calls := [];
      var result: Value;
      warnings := [];
      // The error of the outer scope; only the data path assigns it, because the
      // metadata path declares an error of its own and checks it there.
      var callErr: Option<Error> := None;
      if params.None? {
        var translated := ext.matcherToString(matchers);
        if translated.Fail? {
          return None, [], Some(translated.error), calls;
        }
        var selectors := [translated.value];
        var reply, call := client.Series(selectors, start, end);
        calls := calls + [call];
        warnings := ext.warningsConvert(reply.warnings);
        if reply.err.Some? {
          return None, warnings, ext.cause(reply.err.value), calls;
        }
        var labelsets := reply.value;
        var retVector := new Sample[|labelsets|];
        for j := 0 to |labelsets|
          invariant forall k :: 0 <= k < j ==> retVector[k] == SentinelSample(labelsets[k])
        {
          retVector[j] := SentinelSample(labelsets[j]);
        }
        assert retVector[..] == SentinelVector(labelsets);
        result := Vector(retVector[..]);
      } else {
        var from, to := ext.timeOfMillis(params.value.start), ext.timeOfMillis(params.value.end);
        var reply, call := client.GetValue(from, to, matchers);
        calls := calls + [call];
        result := reply.value;
        warnings := ext.warningsConvert(reply.warnings);
        callErr := reply.err;
      }
      if callErr.Some? {
        return None, warnings, ext.cause(callErr.value), calls;
      }

      var iterators := ext.iteratorsForValue(result);
      var series := new Series[|iterators|];
      for i := 0 to |iterators|
        invariant forall k :: 0 <= k < i ==> series[k] == Series(iterators[k])
      {
        series[i] := Series(iterators[i]);
      }
      assert series[..] == SeriesOf(iterators);
      return Some(ext.newSeriesSet(series[..])), warnings, None, calls;
    }

    /**
      Returns all values of label `name`, as strings in the client's order; on a
      remote error, nil values, the warnings and the error's cause. `calls` lists the
      remote calls made, as the client's recording method reports them.
    */
    method LabelValues(ext: Helpers, name: LabelName)
      returns (values: Option<seq<string>>, warnings: Warnings, err: Option<Error>, calls: seq<Call>)
      ensures calls == [LabelValuesCall(name)]
      ensures warnings == ext.warningsConvert(client.labelValues(name).warnings)
      ensures values.Some? <==> client.labelValues(name).err.None?
      ensures client.labelValues(name).err.Some? ==> err == ext.cause(client.labelValues(name).err.value)
      ensures client.labelValues(name).err.None? ==>
        var result := client.labelValues(name).value;
        && err == None
        && values.Some?
        && |values.value| == |result|
        && forall i :: 0 <= i < |result| ==> values.value[i] == result[i].text
    {
      var reply, call := client.LabelValues(name);
      calls := [call];
      warnings := ext.warningsConvert(reply.warnings);
      if reply.err.Some? {
        return None, warnings, ext.cause(reply.err.value), calls;
      }
      var result := reply.value;
      var ret := new string[|result|];
      for i := 0 to |result|
        invariant forall k :: 0 <= k < i ==> ret[k] == result[k].text
      {
        ret[i] := result[i].text;
      }
      return Some(ret[..]), warnings, None, calls;
    }

    /**
      Returns the client's label names and error exactly as the client gave them
      (the error is not unwrapped); only the warnings are converted.
    */
    function LabelNames(ext: Helpers): (r: (seq<LabelName>, Warnings, Option<Error>))
      ensures r.0 == client.labelNames().value
      ensures r.1 == ext.warningsConvert(client.labelNames().warnings)
      ensures r.2 == client.labelNames().err
    {
      var reply := client.labelNames();
      (reply.value, ext.warningsConvert(reply.warnings), reply.err)
    }

    /** Closing releases nothing and never fails. */
    function Close(): (err: Option<Error>)
      ensures err.None?
    {
      None
    }
  }
}
