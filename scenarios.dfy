/**
  Two selections against a stub client, derived from the contracts of `Select` alone:
  series discovery for `{job="api"}`, and a data selection over [100, 200] that answers
  with one stream of three points.
*/
module QuerierScenarios {

  import opened Wrappers
  import opened PromModel
  import opened PromClient
  import opened Querier

  method DiscoveryAndDataSelection()
  {
    var jobApi := Matcher(MatchEqual, "job", "api");
    var a: LabelSet := map["job" := LabelValue("api"), "instance" := LabelValue("a")];
    var b: LabelSet := map["job" := LabelValue("api"), "instance" := LabelValue("b")];
    var stream := SampleStream(a, [SamplePair(100, 1), SamplePair(150, 2), SamplePair(200, 3)]);
    var ext := Helpers(
      ms => Ok("{job=\"api\"}"),
      (ws: ApiWarnings) => seq(|ws|, i requires 0 <= i < |ws| => Error(ws[i])),
      (v: Value) =>
        if v.Vector? then seq(|v.samples|, (i: nat) => SeriesIterator(i))
        else if v.Matrix? then seq(|v.streams|, (i: nat) => SeriesIterator(i))
        else [],
      e => Some(e),
      ms => Time(ms as int * 1_000_000),
      s => SeriesSet(|s|));
    var client := Client(
      () => Reply([], [], None),
      n => Reply([], [], None),
      (sel, s, e) => Reply([a, b], ["partial response"], None),
      (s, e, ms) => Reply(Matrix([stream]), [], None));
    var q := ProxyQuerier(Time(0), Time(5), client);

    var seriesSet, warnings, err, calls := q.Select(ext, None, [jobApi]);
    assert calls == [SeriesCall(["{job=\"api\"}"], Time(0), Time(5))];
    assert err == None && warnings == [Error("partial response")];
    assert SentinelVector([a, b]) == [Sample(a, 0, 0), Sample(b, 0, 0)];
    assert seriesSet == Some(SeriesSet(2));

    seriesSet, warnings, err, calls := q.Select(ext, Some(SelectParams(100, 200, 0, "")), [jobApi]);
    assert calls == [GetValueCall(Time(100_000_000), Time(200_000_000), [jobApi])];
    assert err == None && warnings == [];
    assert seriesSet == Some(SeriesSet(1));
  }
}
