/**
  The remote metrics client (`promclient.API`) as seen from the querier: every call
  answers with a value, the warnings the remote attached and an optional error.
*/
module PromClient {

  import opened Wrappers
  import opened PromModel

  /** The Go triple `(value, api.Warnings, error)`. */
  datatype Reply<T> = Reply(value: T, warnings: ApiWarnings, err: Option<Error>)

  /**
    The client's operations used by the querier. Each answer is a fixed function of
    the call's arguments: the remote's answer at the moment of the call. The methods
    make a call and hand back, with the answer, the record of the call they made.
  */
  datatype Client = Client(
    labelNames: () -> Reply<seq<LabelName>>,
    labelValues: LabelName -> Reply<seq<LabelValue>>,
    series: (seq<string>, Time, Time) -> Reply<seq<LabelSet>>,
    getValue: (Time, Time, seq<Matcher>) -> Reply<Value>)
  {
    method LabelValues(labelName: LabelName) returns (reply: Reply<seq<LabelValue>>, call: Call)
      ensures reply == labelValues(labelName) && call == LabelValuesCall(labelName)
    {
      reply, call := labelValues(labelName), LabelValuesCall(labelName);
    }

    method Series(matches: seq<string>, startTime: Time, endTime: Time)
      returns (reply: Reply<seq<LabelSet>>, call: Call)
      ensures reply == series(matches, startTime, endTime)
      ensures call == SeriesCall(matches, startTime, endTime)
    {
      reply, call := series(matches, startTime, endTime), SeriesCall(matches, startTime, endTime);
    }

    method GetValue(from: Time, to: Time, matchers: seq<Matcher>)
      returns (reply: Reply<Value>, call: Call)
      ensures reply == getValue(from, to, matchers) && call == GetValueCall(from, to, matchers)
    {
      reply, call := getValue(from, to, matchers), GetValueCall(from, to, matchers);
    }
  }

  /** A record of one remote call, with the arguments it was made with. */
  datatype Call =
    | LabelValuesCall(labelName: LabelName)
    | SeriesCall(matches: seq<string>, start: Time, end: Time)
    | GetValueCall(from: Time, to: Time, matchers: seq<Matcher>)

  /** A `*promclient.SeriesIterator`; its cursor state is not part of this model. */
  datatype SeriesIterator = SeriesIterator(handle: nat)
}
