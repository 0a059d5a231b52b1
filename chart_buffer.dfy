/**
 * The live charts of the Damodar and Murari monitors
 * (src/features/dashboard/components/DamodarMonitor.tsx and MurariMonitor.tsx).
 * On every change of the device's attributes the component builds one entry
 * from three readings and the current time label, and its `setChartData`
 * updater appends it to the previous buffer unless the label repeats the last
 * entry's, keeping at most `MAX_DATA_POINTS` entries.
 *
 * The time label is the browser's locale rendering of the clock and is a
 * parameter here.
 */
module ChartBuffer {
  import opened Js

  const MAX_DATA_POINTS := 720

  /** A Damodar sample: temperature, TDS and EC. */
  datatype DamodarEntry = DamodarEntry(name: string, temp: JsValue, tds: JsValue, ec: JsValue)

  /** A Murari sample: temperature, relative humidity and light. */
  datatype MurariEntry = MurariEntry(name: string, temp: JsValue, rh: JsValue, lux: JsValue)

  /** The `setChartData` updater both monitors share, for entries named by `nameOf`. */
  function AppendSample<T>(prev: seq<T>, entry: T, nameOf: T -> string): (r: seq<T>)
    // a repeated time label leaves the buffer as it was
    ensures |prev| > 0 && nameOf(prev[|prev| - 1]) == nameOf(entry) ==> r == prev
    // otherwise the entry is last, and only the oldest entries are dropped
    ensures !(|prev| > 0 && nameOf(prev[|prev| - 1]) == nameOf(entry)) ==>
      && |r| == (if |prev| + 1 > MAX_DATA_POINTS then MAX_DATA_POINTS else |prev| + 1)
      && r == (prev + [entry])[|prev| + 1 - |r|..]
      && r[|r| - 1] == entry
    ensures |prev| <= MAX_DATA_POINTS ==> |r| <= MAX_DATA_POINTS
  {
    if |prev| > 0 && nameOf(prev[|prev| - 1]) == nameOf(entry) then prev
    else
      var updated := prev + [entry];
      if |updated| > MAX_DATA_POINTS then updated[|updated| - MAX_DATA_POINTS..] else updated
  }

  /** `Number(attributes[key] || 0)`: a missing or falsy reading counts as 0. */
  function Reading(attributes: JsValue, key: string): (r: JsValue)
    ensures r.Num? || r.NaN?
    ensures !Truthy(OptProp(attributes, key)) ==> r == Num(0)
    ensures OptProp(attributes, key).Num? ==> r == OptProp(attributes, key)
  {
    ToNumber(Or(OptProp(attributes, key), Num(0)))
  }

  function DamodarName(e: DamodarEntry): string { e.name }

  function MurariName(e: MurariEntry): string { e.name }

  /** The Damodar effect for its current attributes at time label `now`. */
  function DamodarTick(prev: seq<DamodarEntry>, attributes: JsValue, now: string): (r: seq<DamodarEntry>)
    ensures !Truthy(attributes) ==> r == prev
    ensures Truthy(attributes) ==>
      r == AppendSample(prev, DamodarEntry(now, Reading(attributes, "_temp"), Reading(attributes, "_tds"),
                                           Reading(attributes, "_ec")), DamodarName)
  {
    if !Truthy(attributes) then prev
    else
      var entry := DamodarEntry(now, Reading(attributes, "_temp"), Reading(attributes, "_tds"), Reading(attributes, "_ec"));
      AppendSample(prev, entry, DamodarName)
  }

  /** The Murari effect for its current attributes at time label `now`. */
  function MurariTick(prev: seq<MurariEntry>, attributes: JsValue, now: string): (r: seq<MurariEntry>)
    ensures !Truthy(attributes) ==> r == prev
    ensures Truthy(attributes) ==>
      r == AppendSample(prev, MurariEntry(now, Reading(attributes, "_temp"), Reading(attributes, "_rh"),
                                          Reading(attributes, "_lux")), MurariName)
  {
    if !Truthy(attributes) then prev
    else
      var entry := MurariEntry(now, Reading(attributes, "_temp"), Reading(attributes, "_rh"), Reading(attributes, "_lux"));
      AppendSample(prev, entry, MurariName)
  }

  // ---------------------------------------------------------------------------
  // The buffer invariant

  /** A buffer the updater can produce: at most 720 entries, and no two
    * neighbours with the same time label. */
  predicate WellFormed<T>(buf: seq<T>, nameOf: T -> string) {
    && |buf| <= MAX_DATA_POINTS
    && forall i :: 0 < i < |buf| ==> nameOf(buf[i - 1]) != nameOf(buf[i])
  }

  lemma AppendKeepsWellFormed<T>(prev: seq<T>, entry: T, nameOf: T -> string)
    requires WellFormed(prev, nameOf)
    ensures WellFormed(AppendSample(prev, entry, nameOf), nameOf)
  {
    var r := AppendSample(prev, entry, nameOf);
    if !(|prev| > 0 && nameOf(prev[|prev| - 1]) == nameOf(entry)) {
      var updated := prev + [entry];
      var d := |prev| + 1 - |r|;
      forall i | 0 < i < |r|
        ensures nameOf(r[i - 1]) != nameOf(r[i])
      {
        assert r[i - 1] == updated[d + i - 1] && r[i] == updated[d + i];
      }
    }
  }

  /** The chart `buf` after the monitor has appended each of `entries` in turn. */
  function Feed<T>(buf: seq<T>, entries: seq<T>, nameOf: T -> string): seq<T>
    decreases |entries|
  {
    if entries == [] then buf else Feed(AppendSample(buf, entries[0], nameOf), entries[1..], nameOf)
  }

  /** However long the monitor runs, its chart never holds more than 720
    * entries and never shows one time label twice in a row. */
  lemma {:induction false} FeedKeepsWellFormed<T>(buf: seq<T>, entries: seq<T>, nameOf: T -> string)
    requires WellFormed(buf, nameOf)
    ensures WellFormed(Feed(buf, entries, nameOf), nameOf)
    decreases |entries|
  {
    if entries != [] {
      AppendKeepsWellFormed(buf, entries[0], nameOf);
      FeedKeepsWellFormed(AppendSample(buf, entries[0], nameOf), entries[1..], nameOf);
    }
  }

  /** A numeric reading is charted as it is; a text reading is converted. */
  lemma ReadingExamples(n: int)
    ensures Reading(Obj(map["_temp" := Num(n)]), "_temp") == Num(n)
    ensures Reading(Obj(map[]), "_temp") == Num(0)
    ensures Reading(Obj(map["_temp" := Str(IntToString(n))]), "_temp") == Num(n)
  {
    NumberOfIntString(n);
  }
}
