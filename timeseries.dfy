/**
 * The two analytics views of a device:
 * src/features/dashboard/components/TimeseriesComponent.tsx, which queries a
 * fixed window ending now with an interval chosen from the range, and
 * src/features/dashboard/components/TimeseriesVisualizer.tsx, which queries a
 * user-chosen window and builds the request parameters itself.
 *
 * The clock (`Date.now()`) is a parameter, as are the results of the key and
 * data requests; times are integer milliseconds.
 */
module Timeseries {
  import opened Wrappers
  import opened Js
  import DataTransformer

  const HOUR_MS := 60 * 60 * 1000
  const DAY_MS := 24 * HOUR_MS
  const WEEK_MS := 7 * DAY_MS

  // ---------------------------------------------------------------------------
  // TimeseriesComponent

  /** The first key of a fresh key list is selected; an empty list keeps the selection. */
  function SelectFirstKey(selectedKey: string, fetchedKeys: seq<string>): (r: string)
    ensures |fetchedKeys| > 0 ==> r == fetchedKeys[0]
    ensures fetchedKeys == [] ==> r == selectedKey
  {
    if |fetchedKeys| > 0 then fetchedKeys[0] else selectedKey
  }

  /** The start of the window ending at `endTs`: a day by default, an hour for
    * `lastHour`, a week for `lastWeek`. */
  function RangeStart(endTs: int, timeRange: string): (startTs: int)
    ensures timeRange == "lastHour" ==> endTs - startTs == 3600000
    ensures timeRange == "lastWeek" ==> endTs - startTs == 604800000
    ensures timeRange != "lastHour" && timeRange != "lastWeek" ==> endTs - startTs == 86400000
  {
    if timeRange == "lastHour" then endTs - HOUR_MS
    else if timeRange == "lastWeek" then endTs - WEEK_MS
    else endTs - DAY_MS
  }

  /** The aggregation interval: a minute for `lastHour`, an hour otherwise. */
  function RangeInterval(timeRange: string): (interval: int)
    ensures interval == (if timeRange == "lastHour" then 60000 else 3600000)
    ensures interval > 0
  {
    if timeRange == "lastHour" then 60000 else 3600000
  }

  /** The request the data effect issues, or None when it does not fetch. */
  datatype Query = Query(key: string, startTs: int, endTs: int, agg: string, interval: int)

  function DataQuery(device: JsValue, selectedKey: string, timeRange: string, aggregation: string, now: int)
    : (q: Option<Query>)
    // it fetches only with a device and a selected key
    ensures q.Some? <==> Truthy(device) && selectedKey != ""
    ensures q.Some? ==> q.value.key == selectedKey && q.value.endTs == now && q.value.agg == aggregation
    ensures q.Some? ==> q.value.startTs == RangeStart(now, timeRange) && q.value.interval == RangeInterval(timeRange)
  {
    if Truthy(device) && selectedKey != "" then
      Some(Query(selectedKey, RangeStart(now, timeRange), now, aggregation, RangeInterval(timeRange)))
    else None
  }

  /** Every range is split into a small, whole number of intervals: 60 minutes,
    * 24 hours, or 168 hours. */
  lemma BucketCounts(now: int, timeRange: string)
    ensures
      var span := now - RangeStart(now, timeRange);
      && span % RangeInterval(timeRange) == 0
      && span / RangeInterval(timeRange) ==
           (if timeRange == "lastHour" then 60 else if timeRange == "lastWeek" then 168 else 24)
  {
  }

  /** `chartData`: the selected series with each value passed through `Number`,
    * or nothing when the response has no such series. */
  function ChartData(data: DataTransformer.TimeseriesData, selectedKey: string): (r: seq<DataTransformer.RawPoint>)
    ensures selectedKey !in data ==> r == []
    ensures selectedKey in data ==>
      && |r| == |data[selectedKey]|
      && forall i :: 0 <= i < |r| ==>
           r[i].ts == data[selectedKey][i].ts && r[i].value == ToNumber(data[selectedKey][i].value)
  {
    if selectedKey !in data then []
    else
      var series := data[selectedKey];
      seq(|series|, i requires 0 <= i < |series| => series[i].(value := ToNumber(series[i].value)))
  }

  /** Every charted value is a number or NaN. */
  lemma ChartValuesAreNumbers(data: DataTransformer.TimeseriesData, selectedKey: string)
    ensures forall p :: p in ChartData(data, selectedKey) ==> p.value.Num? || p.value.NaN?
  {
  }

  /** The component's state. */
  class TimeseriesView {
    var keys: seq<string>
    var selectedKey: string
    var data: DataTransformer.TimeseriesData
    var loading: bool
    var timeRange: string
    var aggregation: string

    constructor ()
      ensures keys == [] && selectedKey == "" && data == map[] && !loading
      ensures timeRange == "lastDay" && aggregation == "AVG"
    {
      keys, selectedKey, data, loading := [], "", map[], false;
      timeRange, aggregation := "lastDay", "AVG";
    }

    method OnKeysFetched(response: seq<string>)
      modifies this
      ensures keys == response && selectedKey == SelectFirstKey(old(selectedKey), response)
      ensures data == old(data) && loading == old(loading)
      ensures timeRange == old(timeRange) && aggregation == old(aggregation)
    {
      keys := response;
      if |response| > 0 {
        selectedKey := response[0];
      }
    }

    /** The data effect: the query to send, if any; loading starts with it. */
    method StartFetch(device: JsValue, now: int) returns (q: Option<Query>)
      modifies this
      ensures q == DataQuery(device, old(selectedKey), old(timeRange), old(aggregation), now)
      ensures loading == (q.Some? || old(loading))
      ensures keys == old(keys) && selectedKey == old(selectedKey) && data == old(data)
      ensures timeRange == old(timeRange) && aggregation == old(aggregation)
    {
      if !(Truthy(device) && selectedKey != "") {
        return None;
      }
      loading := true;
      var endTs := now;
      var startTs := endTs - DAY_MS;
      if timeRange == "lastHour" {
        startTs := endTs - HOUR_MS;
      } else if timeRange == "lastWeek" {
        startTs := endTs - WEEK_MS;
      }
      q := Some(Query(selectedKey, startTs, endTs, aggregation, if timeRange == "lastHour" then 60000 else 3600000));
    }

    /** The request settled: the response replaces the data on success. */
    method FetchSettled(response: Option<DataTransformer.TimeseriesData>)
      modifies this
      ensures response.Some? ==> data == response.value
      ensures response.None? ==> data == old(data)
      ensures !loading
      ensures keys == old(keys) && selectedKey == old(selectedKey)
      ensures timeRange == old(timeRange) && aggregation == old(aggregation)
    {
      if response.Some? {
        data := response.value;
      }
      loading := false;
    }
  }

  // ---------------------------------------------------------------------------
  // TimeseriesVisualizer

  /** The default window: the 24 hours before `now`. */
  function DefaultRange(now: int): (r: (int, int))
    ensures r.1 == now && r.1 - r.0 == 86400000
  {
    (now - DAY_MS, now)
  }

  /** The request parameters of `fetchData`. */
  function FetchParams(selectedKey: string, startTs: int, endTs: int, aggregation: string,
                       interval: int, intervalType: string): (p: map<string, JsValue>)
    // always the key, the window and the limit
    ensures "keys" in p && p["keys"] == Str(selectedKey)
    ensures "startTs" in p && p["startTs"] == Num(startTs)
    ensures "endTs" in p && p["endTs"] == Num(endTs)
    ensures "limit" in p && p["limit"] == Num(1000)
    // the aggregation fields exactly when aggregating
    ensures ("agg" in p <==> aggregation != "NONE") && ("interval" in p <==> aggregation != "NONE")
    ensures "intervalType" in p <==> aggregation != "NONE"
    ensures aggregation != "NONE" ==>
      p["agg"] == Str(aggregation) && p["interval"] == Num(interval) && p["intervalType"] == Str(intervalType)
    // and nothing else
    ensures p.Keys <= {"keys", "startTs", "endTs", "limit", "agg", "interval", "intervalType"}
  {
    var base := map["keys" := Str(selectedKey), "startTs" := Num(startTs), "endTs" := Num(endTs), "limit" := Num(1000)];
    if aggregation != "NONE" then
      base["agg" := Str(aggregation)]["interval" := Num(interval)]["intervalType" := Str(intervalType)]
    else base
  }

  /** `transformedData.map(d => d.value)`, the values the statistics are computed from. */
  function Values(points: seq<DataTransformer.ChartDataPoint>): (r: seq<int>)
    ensures |r| == |points| && forall i :: 0 <= i < |r| ==> r[i] == points[i].value
  {
    seq(|points|, i requires 0 <= i < |points| => points[i].value)
  }

  /** The errors the visualizer shows, as translation requests. */
  datatype VisualizerError = FetchKeysError | FetchDataError(key: string)

  /** The visualizer's state. `stats` holds the values the statistics are
    * computed from; None is `null`. */
  class TimeseriesVisualizer {
    var keys: seq<string>
    var selectedKey: string
    var data: seq<DataTransformer.ChartDataPoint>
    var loading: bool
    var error: Option<VisualizerError>
    var stats: Option<seq<int>>
    var startTs: int
    var endTs: int
    var aggregation: string
    var interval: int
    var intervalType: string

    constructor (now: int)
      ensures (startTs, endTs) == DefaultRange(now)
      ensures aggregation == "AVG" && interval == 1 && intervalType == "MILLISECONDS"
      ensures keys == [] && selectedKey == "" && data == [] && !loading && error.None? && stats.None?
    {
      keys, selectedKey, data, loading, error, stats := [], "", [], false, None, None;
      startTs, endTs := now - DAY_MS, now;
      aggregation, interval, intervalType := "AVG", 1, "MILLISECONDS";
    }

    /** The effect on a device id: with one, everything fetched for the old
      * device is dropped and the key list is loading. */
    method OnDeviceChange(deviceId: JsValue)
      modifies this
      ensures Truthy(deviceId) ==>
        keys == [] && selectedKey == "" && data == [] && error.None? && loading
      ensures !Truthy(deviceId) ==>
        keys == old(keys) && selectedKey == old(selectedKey) && data == old(data)
        && error == old(error) && loading == old(loading)
      ensures stats == old(stats) && startTs == old(startTs) && endTs == old(endTs)
      ensures aggregation == old(aggregation) && interval == old(interval) && intervalType == old(intervalType)
    {
      if Truthy(deviceId) {
        keys := [];
        selectedKey := "";
        data := [];
        error := None;
        loading := true;
      }
    }

    method OnKeysFetched(fetchedKeys: seq<string>)
      modifies this
      ensures keys == fetchedKeys && selectedKey == SelectFirstKey(old(selectedKey), fetchedKeys) && !loading
      ensures data == old(data) && error == old(error) && stats == old(stats)
      ensures startTs == old(startTs) && endTs == old(endTs)
      ensures aggregation == old(aggregation) && interval == old(interval) && intervalType == old(intervalType)
    {
      keys := fetchedKeys;
      if |fetchedKeys| > 0 {
        selectedKey := fetchedKeys[0];
      }
      loading := false;
    }

    method OnKeysFailed()
      modifies this
      ensures error == Some(FetchKeysError) && !loading
      ensures keys == old(keys) && selectedKey == old(selectedKey) && data == old(data) && stats == old(stats)
      ensures startTs == old(startTs) && endTs == old(endTs)
      ensures aggregation == old(aggregation) && interval == old(interval) && intervalType == old(intervalType)
    {
      error := Some(FetchKeysError);
      loading := false;
    }

    /** `fetchData`: the parameters of the request it sends, or None when it
      * returns early; the parameters are filled in place. */
    method FetchData(device: JsValue) returns (params: Option<map<string, JsValue>>)
      modifies this
      ensures !Truthy(device) || old(selectedKey) == "" ==> params.None? && loading == old(loading) && error == old(error)
      ensures Truthy(device) && old(selectedKey) != "" ==>
        && params == Some(FetchParams(selectedKey, startTs, endTs, aggregation, interval, intervalType))
        && loading && error.None?
      ensures keys == old(keys) && selectedKey == old(selectedKey) && data == old(data) && stats == old(stats)
      ensures startTs == old(startTs) && endTs == old(endTs)
      ensures aggregation == old(aggregation) && interval == old(interval) && intervalType == old(intervalType)
    {
      if !Truthy(device) || selectedKey == "" {
        return None;
      }
      loading := true;
      error := None;
      var p := map["keys" := Str(selectedKey), "startTs" := Num(startTs), "endTs" := Num(endTs), "limit" := Num(1000)];
      if aggregation != "NONE" {
        p := p["agg" := Str(aggregation)];
        p := p["interval" := Num(interval)];
        p := p["intervalType" := Str(intervalType)];
      }
      return Some(p);
    }

    /** The data request for `key` succeeded with `apiData`. */
    method OnDataFetched(key: string, apiData: Option<DataTransformer.TimeseriesData>, format: int -> string)
      modifies this
      ensures data == DataTransformer.TransformTimeseriesData(apiData, key, format) && !loading
      ensures data == [] ==> stats.None?
      ensures data != [] ==> stats == Some(Values(data))
      ensures keys == old(keys) && selectedKey == old(selectedKey) && error == old(error)
      ensures startTs == old(startTs) && endTs == old(endTs)
      ensures aggregation == old(aggregation) && interval == old(interval) && intervalType == old(intervalType)
    {
      var transformed := DataTransformer.TransformTimeseriesData(apiData, key, format);
      data := transformed;
      if |transformed| > 0 {
        stats := Some(Values(transformed));
      } else {
        stats := None;
      }
      loading := false;
    }

    method OnDataFailed(key: string)
      modifies this
      ensures error == Some(FetchDataError(key)) && !loading
      ensures keys == old(keys) && selectedKey == old(selectedKey) && data == old(data) && stats == old(stats)
      ensures startTs == old(startTs) && endTs == old(endTs)
      ensures aggregation == old(aggregation) && interval == old(interval) && intervalType == old(intervalType)
    {
      error := Some(FetchDataError(key));
      loading := false;
    }
  }

  /** With aggregation switched off the request carries exactly the four base
    * parameters; with it on, exactly seven. */
  lemma ParamsShape(selectedKey: string, startTs: int, endTs: int, aggregation: string, interval: int, intervalType: string)
    ensures
      var p := FetchParams(selectedKey, startTs, endTs, aggregation, interval, intervalType);
      && (aggregation == "NONE" ==> p.Keys == {"keys", "startTs", "endTs", "limit"})
      && (aggregation != "NONE" ==> p.Keys == {"keys", "startTs", "endTs", "limit", "agg", "interval", "intervalType"})
  {
  }
}
