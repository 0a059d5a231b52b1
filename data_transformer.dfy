/**
 * `transformTimeseriesData` (src/features/dashboard/utils/dataTransformer.ts):
 * the samples the API returned for one key, reduced to those with a numeric
 * value, turned into chart points and ordered by timestamp.
 *
 * Timestamps are integers (milliseconds). The `time` label comes from the
 * browser's locale formatting and is a parameter here. `Array.prototype.sort`
 * is stable, so the ordering is modelled by a stable insertion sort.
 */
module DataTransformer {
  import opened Wrappers
  import opened Js

  /** `{ ts, value }` as the API returns it. */
  datatype RawPoint = RawPoint(ts: int, value: JsValue)

  datatype ChartDataPoint = ChartDataPoint(timestamp: int, time: string, value: int)

  /** Time series by key; a key that is absent or holds `null` is absent here. */
  type TimeseriesData = map<string, seq<RawPoint>>

  /** `typeof value === 'number' && !isNaN(value)` */
  predicate IsPlotted(p: RawPoint) {
    p.value.Num?
  }

  /** The point a plotted sample becomes. */
  function ToChartPoint(p: RawPoint, format: int -> string): ChartDataPoint
    requires IsPlotted(p)
  {
    ChartDataPoint(p.ts, format(p.ts), p.value.n)
  }

  /** The `map` to a point or `null`, followed by the `filter` of the nulls. */
  function Plotted(raw: seq<RawPoint>, format: int -> string): (r: seq<ChartDataPoint>)
    ensures |r| <= |raw|
    // every plotted sample makes it, and nothing else does
    ensures forall q :: q in raw && IsPlotted(q) ==> ToChartPoint(q, format) in r
    ensures forall p :: p in r ==> exists q :: q in raw && IsPlotted(q) && p == ToChartPoint(q, format)
    decreases |raw|
  {
    if raw == [] then []
    else
      var rest := Plotted(raw[1..], format);
      assert forall q :: q in raw[1..] ==> q in raw;
      assert forall q :: q in raw && q != raw[0] ==> q in raw[1..];
      if IsPlotted(raw[0]) then [ToChartPoint(raw[0], format)] + rest else rest
  }

  /** The positions of the plotted samples of `raw`, in increasing order. */
  function PlottedIndices(raw: seq<RawPoint>): (r: seq<nat>)
    ensures forall k :: 0 <= k < |r| ==> r[k] < |raw|
    ensures forall k, l :: 0 <= k < l < |r| ==> r[k] < r[l]
    ensures forall i :: 0 <= i < |raw| ==> (IsPlotted(raw[i]) <==> i in r)
    decreases |raw|
  {
    if raw == [] then []
    else
      var init := raw[..|raw| - 1];
      assert forall i :: 0 <= i < |init| ==> init[i] == raw[i];
      PlottedIndices(init) + (if IsPlotted(raw[|raw| - 1]) then [|raw| - 1] else [])
  }

  /** Filtering a concatenation filters each part. */
  lemma {:induction false} PlottedAppend(a: seq<RawPoint>, b: seq<RawPoint>, format: int -> string)
    ensures Plotted(a + b, format) == Plotted(a, format) + Plotted(b, format)
    decreases |a|
  {
    if a == [] {
      assert a + b == b;
    } else {
      assert (a + b)[0] == a[0];
      assert (a + b)[1..] == a[1..] + b;
      PlottedAppend(a[1..], b, format);
    }
  }

  /** Each numeric sample becomes exactly one point, and the points keep the
    * order of their samples: point `k` comes from the `k`-th plotted sample. */
  lemma {:induction false} PlottedInOrder(raw: seq<RawPoint>, format: int -> string)
    ensures var r := Plotted(raw, format);
      var idx := PlottedIndices(raw);
      && |r| == |idx|
      && forall k :: 0 <= k < |r| ==> IsPlotted(raw[idx[k]]) && r[k] == ToChartPoint(raw[idx[k]], format)
    decreases |raw|
  {
    if raw != [] {
      var init := raw[..|raw| - 1];
      var last := raw[|raw| - 1];
      assert raw == init + [last];
      PlottedAppend(init, [last], format);
      PlottedInOrder(init, format);
      assert [last][1..] == [];
      var front := Plotted(init, format);
      var tail := if IsPlotted(last) then [ToChartPoint(last, format)] else [];
      var frontIdx := PlottedIndices(init);
      var tailIdx := if IsPlotted(last) then [|raw| - 1] else [];
      assert Plotted([last], format) == tail;
      assert Plotted(raw, format) == front + tail;
      assert PlottedIndices(raw) == frontIdx + tailIdx;
      forall k | 0 <= k < |front + tail|
        ensures IsPlotted(raw[(frontIdx + tailIdx)[k]])
        ensures (front + tail)[k] == ToChartPoint(raw[(frontIdx + tailIdx)[k]], format)
      {
        if k < |front| {
          assert (front + tail)[k] == front[k];
          assert (frontIdx + tailIdx)[k] == frontIdx[k];
          assert raw[frontIdx[k]] == init[frontIdx[k]];
        } else {
          assert (front + tail)[k] == ToChartPoint(last, format);
          assert (frontIdx + tailIdx)[k] == |raw| - 1;
        }
      }
    }
  }

  /** Each point is no later than the next. */
  predicate Sorted(s: seq<ChartDataPoint>)
    decreases |s|
  {
    |s| <= 1 || (s[0].timestamp <= s[1].timestamp && Sorted(s[1..]))
  }

  /** In a sorted series every point is no later than any point after it. */
  lemma {:induction false} SortedPairs(s: seq<ChartDataPoint>)
    requires Sorted(s)
    ensures forall i, j :: 0 <= i < j < |s| ==> s[i].timestamp <= s[j].timestamp
    decreases |s|
  {
    if |s| > 1 {
      SortedPairs(s[1..]);
      forall i, j | 0 <= i < j < |s|
        ensures s[i].timestamp <= s[j].timestamp
      {
        if i > 0 {
          assert s[i] == s[1..][i - 1] && s[j] == s[1..][j - 1];
        } else if j > 1 {
          assert s[1] == s[1..][0] && s[j] == s[1..][j - 1];
        }
      }
    }
  }

  /** The points of `s` with timestamp `t`, in their order in `s`. */
  function WithTimestamp(s: seq<ChartDataPoint>, t: int): seq<ChartDataPoint>
    decreases |s|
  {
    if s == [] then []
    else (if s[0].timestamp == t then [s[0]] else []) + WithTimestamp(s[1..], t)
  }

  /** Inserts `p` before the first point that is not earlier. */
  function Insert(p: ChartDataPoint, s: seq<ChartDataPoint>): (r: seq<ChartDataPoint>)
    requires Sorted(s)
    ensures Sorted(r)
    ensures multiset(r) == multiset(s) + multiset{p}
    ensures |r| == |s| + 1
    ensures r[0] == p || (s != [] && r[0] == s[0])
    decreases |s|
  {
    if s == [] || p.timestamp <= s[0].timestamp then [p] + s
    else
      var rest := Insert(p, s[1..]);
      assert s == [s[0]] + s[1..];
      assert ([s[0]] + rest)[1..] == rest;
      [s[0]] + rest
  }

  /** The stable `sort((a, b) => a.timestamp - b.timestamp)`. */
  function SortByTimestamp(s: seq<ChartDataPoint>): (r: seq<ChartDataPoint>)
    ensures Sorted(r)
    ensures multiset(r) == multiset(s)
    ensures |r| == |s|
    decreases |s|
  {
    if s == [] then []
    else
      assert s == [s[0]] + s[1..];
      Insert(s[0], SortByTimestamp(s[1..]))
  }

  /** `transformTimeseriesData(apiData, key)`; `None` is a missing `apiData`. */
  function TransformTimeseriesData(apiData: Option<TimeseriesData>, key: string, format: int -> string)
    : (r: seq<ChartDataPoint>)
    ensures apiData.None? || key !in apiData.value || apiData.value[key] == [] ==> r == []
    ensures Sorted(r)
    ensures apiData.Some? && key in apiData.value ==>
      && multiset(r) == multiset(Plotted(apiData.value[key], format))
      && |r| <= |apiData.value[key]|
  {
    if apiData.None? || key !in apiData.value || apiData.value[key] == [] then []
    else SortByTimestamp(Plotted(apiData.value[key], format))
  }

  // ---------------------------------------------------------------------------
  // Lemmas

  lemma {:induction false} InsertStable(p: ChartDataPoint, s: seq<ChartDataPoint>, t: int)
    requires Sorted(s)
    ensures WithTimestamp(Insert(p, s), t) == (if p.timestamp == t then [p] else []) + WithTimestamp(s, t)
    decreases |s|
  {
    var hp := if p.timestamp == t then [p] else [];
    var ins := Insert(p, s);
    if s == [] || p.timestamp <= s[0].timestamp {
      assert ins[0] == p && ins[1..] == s;
    } else {
      var rest := Insert(p, s[1..]);
      InsertStable(p, s[1..], t);
      assert ins == [s[0]] + rest;
      assert ins[0] == s[0] && ins[1..] == rest;
      var h0 := if s[0].timestamp == t then [s[0]] else [];
      var wt := WithTimestamp(s[1..], t);
      assert WithTimestamp(ins, t) == h0 + (hp + wt);
      assert WithTimestamp(s, t) == h0 + wt;
      if h0 == [] {
        assert h0 + (hp + wt) == hp + wt;
        assert h0 + wt == wt;
      } else {
        assert hp == [];
        assert hp + (h0 + wt) == h0 + wt;
        assert hp + wt == wt;
      }
    }
  }

  /** The sort is stable: points with the same timestamp keep their relative order. */
  lemma {:induction false} SortStable(s: seq<ChartDataPoint>, t: int)
    ensures WithTimestamp(SortByTimestamp(s), t) == WithTimestamp(s, t)
    decreases |s|
  {
    if s != [] {
      SortStable(s[1..], t);
      InsertStable(s[0], SortByTimestamp(s[1..]), t);
    }
  }

  /** A series that is already in order comes back as it was. */
  lemma {:induction false} SortKeepsSorted(s: seq<ChartDataPoint>)
    requires Sorted(s)
    ensures SortByTimestamp(s) == s
    decreases |s|
  {
    if s != [] {
      SortKeepsSorted(s[1..]);
    }
  }

  /** The chart shows every sample with a numeric value, and nothing else. */
  lemma ChartShowsPlottedSamples(apiData: TimeseriesData, key: string, format: int -> string)
    requires key in apiData
    ensures forall q :: q in apiData[key] && IsPlotted(q) ==>
      ToChartPoint(q, format) in TransformTimeseriesData(Some(apiData), key, format)
    ensures forall p :: p in TransformTimeseriesData(Some(apiData), key, format) ==>
      exists q :: q in apiData[key] && IsPlotted(q) && p == ToChartPoint(q, format)
  {
    var plotted := Plotted(apiData[key], format);
    var r := TransformTimeseriesData(Some(apiData), key, format);
    if apiData[key] != [] {
      forall p | p in r
        ensures exists q :: q in apiData[key] && IsPlotted(q) && p == ToChartPoint(q, format)
      {
        assert p in multiset(r);
        assert p in multiset(plotted);
        assert p in plotted;
      }
      forall q | q in apiData[key] && IsPlotted(q)
        ensures ToChartPoint(q, format) in r
      {
        assert ToChartPoint(q, format) in multiset(plotted);
        assert ToChartPoint(q, format) in multiset(r);
      }
    }
  }
}
