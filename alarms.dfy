/**
 * The alarm codes a UDAWA device reports (src/features/dashboard/utils/alarmUtils.ts)
 * and the card that shows the current one
 * (src/features/dashboard/components/AlarmCard.tsx).
 *
 * The table maps each code to the translation keys of its title and
 * description, `alarm.<code>.title` and `alarm.<code>.description`. The card
 * remembers the alarm it is tracking and whether the user dismissed it; a
 * different code brings the card back.
 */
module Alarms {
  import opened Wrappers
  import opened Js

  datatype AlarmDetails = AlarmDetails(title: string, description: string)

  /** The codes `lo`, `lo + 1`, ..., `hi - 1`. */
  function Span(lo: nat, hi: nat): (s: seq<nat>)
    requires lo <= hi
    ensures |s| == hi - lo
    ensures forall i :: 0 <= i < |s| ==> s[i] == lo + i
  {
    seq(hi - lo, i requires 0 <= i < hi - lo => lo + i)
  }

  /** The codes the table defines, in the order they are written: 110-112,
    * 120-133, 140-145 and 150; 210-218 and 220; 230-236 and 240-243. */
  const AlarmCodes: seq<nat> :=
    Span(110, 113) + Span(120, 134) + Span(140, 146) + Span(150, 151) +
    Span(210, 219) + Span(220, 221) +
    Span(230, 237) + Span(240, 244)

  /** The translation keys of alarm `c`. */
  function Named(c: nat): AlarmDetails {
    AlarmDetails("alarm." + NatToString(c) + ".title", "alarm." + NatToString(c) + ".description")
  }

  /** `alarmCodeDescriptions`: every listed code with the keys named after it. */
  const AlarmCodeDescriptions: map<int, AlarmDetails> := map c | c in AlarmCodes :: Named(c)

  /** The code ranges the table covers. */
  predicate IsDefinedCode(c: int) {
    || 110 <= c <= 112 || 120 <= c <= 133 || 140 <= c <= 145 || c == 150
    || 210 <= c <= 218 || c == 220
    || 230 <= c <= 236 || 240 <= c <= 243
  }

  lemma InSpan(x: int, lo: nat, hi: nat)
    requires lo <= hi
    ensures x in Span(lo, hi) <==> lo <= x < hi
  {
    if lo <= x < hi {
      assert Span(lo, hi)[x - lo] == x;
    }
  }

  /** The table is defined on exactly those ranges. */
  lemma TableDomain(c: int)
    ensures c in AlarmCodeDescriptions <==> IsDefinedCode(c)
  {
    InSpan(c, 110, 113); InSpan(c, 120, 134); InSpan(c, 140, 146); InSpan(c, 150, 151);
    InSpan(c, 210, 219); InSpan(c, 220, 221);
    InSpan(c, 230, 237); InSpan(c, 240, 244);
  }

  /** `getAlarmDetails(alarmCode)`; None is `undefined`. */
  function GetAlarmDetails(alarmCode: int): (r: Option<AlarmDetails>)
    ensures r.Some? <==> IsDefinedCode(alarmCode)
    ensures r.Some? ==> alarmCode >= 0 && r.value == Named(alarmCode)
  {
    TableDomain(alarmCode);
    if alarmCode in AlarmCodeDescriptions then Some(AlarmCodeDescriptions[alarmCode]) else None
  }

  predicate StrictlyIncreasing(s: seq<int>) {
    forall i, j :: 0 <= i < j < |s| ==> s[i] < s[j]
  }

  lemma {:induction false} DistinctCount(s: seq<int>)
    requires StrictlyIncreasing(s)
    ensures |set x | x in s| == |s|
    decreases |s|
  {
    if s != [] {
      var rest := s[1..];
      assert StrictlyIncreasing(rest);
      DistinctCount(rest);
      assert (set x | x in s) == (set x | x in rest) + {s[0]};
      assert s[0] !in (set x | x in rest);
    }
  }

  lemma ConcatIncreasing(a: seq<int>, b: seq<int>)
    requires StrictlyIncreasing(a) && StrictlyIncreasing(b)
    requires a != [] && b != [] && a[|a| - 1] < b[0]
    ensures StrictlyIncreasing(a + b)
  {
    forall i, j | 0 <= i < j < |a + b|
      ensures (a + b)[i] < (a + b)[j]
    {
      if i < |a| && j >= |a| {
        assert (a + b)[i] <= a[|a| - 1];
        assert b[0] <= (a + b)[j];
      }
    }
  }

  /** The table defines exactly 45 codes. */
  lemma TableSize()
    ensures |AlarmCodeDescriptions| == 45
  {
    var s1 := Span(110, 113) + Span(120, 134);
    ConcatIncreasing(Span(110, 113), Span(120, 134));
    var s2 := s1 + Span(140, 146);
    ConcatIncreasing(s1, Span(140, 146));
    var s3 := s2 + Span(150, 151);
    ConcatIncreasing(s2, Span(150, 151));
    var s4 := s3 + Span(210, 219);
    ConcatIncreasing(s3, Span(210, 219));
    var s5 := s4 + Span(220, 221);
    ConcatIncreasing(s4, Span(220, 221));
    var s6 := s5 + Span(230, 237);
    ConcatIncreasing(s5, Span(230, 237));
    ConcatIncreasing(s6, Span(240, 244));
    assert AlarmCodes == s6 + Span(240, 244);
    DistinctCount(AlarmCodes);
    assert AlarmCodeDescriptions.Keys == set x | x in AlarmCodes;
  }

  /** The translation keys for a few codes in the table, and three codes outside it. */
  lemma DetailsExamples()
    ensures GetAlarmDetails(110) == Some(AlarmDetails("alarm.110.title", "alarm.110.description"))
    ensures GetAlarmDetails(243) == Some(AlarmDetails("alarm.243.title", "alarm.243.description"))
    ensures GetAlarmDetails(0).None? && GetAlarmDetails(113).None? && GetAlarmDetails(219).None?
  {
    NamedExample110();
    NamedExample243();
  }

  lemma NamedExample110()
    ensures Named(110) == AlarmDetails("alarm.110.title", "alarm.110.description")
  {
    assert NatToString(11) == "11";
    var d := NatToString(110);
    assert d == "110";
    assert "alarm." + d + ".title" == "alarm.110.title";
    assert "alarm." + d + ".description" == "alarm.110.description";
  }

  lemma NamedExample243()
    ensures Named(243) == AlarmDetails("alarm.243.title", "alarm.243.description")
  {
    assert NatToString(24) == "24";
    var d := NatToString(243);
    assert d == "243";
    assert "alarm." + d + ".title" == "alarm.243.title";
    assert "alarm." + d + ".description" == "alarm.243.description";
  }

  // ---------------------------------------------------------------------------
  // The alarm card

  /** The code the effect reads from `device?.timeseries?.alarm`: the `value`
    * of an object that has one, the data itself otherwise. */
  function RawCode(alarmData: JsValue): (r: JsValue)
    ensures alarmData.Obj? && "value" in alarmData.fields ==> r == alarmData.fields["value"]
    ensures !(alarmData.Obj? && "value" in alarmData.fields) ==> r == alarmData
  {
    // `alarmData && typeof alarmData === 'object' && 'value' in alarmData`;
    // arrays have no own `value` property
    if alarmData.Obj? && "value" in alarmData.fields then alarmData.fields["value"] else alarmData
  }

  /** The alarm to show: none for an undefined, non-numeric or zero code. */
  function NewAlarm(rawCode: JsValue): (r: Option<int>)
    ensures r.Some? <==> !rawCode.Undefined? && ToNumber(rawCode).Num? && ToNumber(rawCode).n != 0
    ensures r.Some? ==> Num(r.value) == ToNumber(rawCode)
  {
    if !rawCode.Undefined? && ToNumber(rawCode).Num? && ToNumber(rawCode).n != 0
    then Some(ToNumber(rawCode).n) else None
  }

  datatype Card = Card(currentAlarm: Option<int>, isDismissed: bool)

  /** The effect on new alarm data: a different alarm replaces the tracked one
    * and clears the dismissal; the same alarm changes nothing. */
  function AfterAlarmData(c: Card, alarmData: JsValue): (r: Card)
    ensures NewAlarm(RawCode(alarmData)) != c.currentAlarm ==>
      r == Card(NewAlarm(RawCode(alarmData)), false)
    ensures NewAlarm(RawCode(alarmData)) == c.currentAlarm ==> r == c
  {
    var newAlarm := NewAlarm(RawCode(alarmData));
    if newAlarm != c.currentAlarm then Card(newAlarm, false) else c
  }

  /** `handleClose` */
  function AfterClose(c: Card): (r: Card)
    ensures r.isDismissed && r.currentAlarm == c.currentAlarm
  {
    c.(isDismissed := true)
  }

  /** `isVisible` */
  predicate IsVisible(c: Card) {
    c.currentAlarm.Some? && !c.isDismissed
  }

  /** What the card renders: the details of a visible alarm the table knows. */
  function Rendered(c: Card): (r: Option<AlarmDetails>)
    ensures r.Some? <==> IsVisible(c) && IsDefinedCode(c.currentAlarm.value)
    ensures r.Some? ==> r == GetAlarmDetails(c.currentAlarm.value)
  {
    if !IsVisible(c) then None else GetAlarmDetails(c.currentAlarm.value)
  }

  /** A dismissed alarm stays dismissed while the device keeps reporting it. */
  lemma DismissalPersists(c: Card, alarmData: JsValue)
    requires c.currentAlarm == NewAlarm(RawCode(alarmData))
    ensures !IsVisible(AfterAlarmData(AfterClose(c), alarmData))
  {
  }

  /** After a dismissal, a different known alarm is shown again. */
  lemma NewAlarmReappears(c: Card, alarmData: JsValue)
    requires NewAlarm(RawCode(alarmData)).Some? && NewAlarm(RawCode(alarmData)) != c.currentAlarm
    requires IsDefinedCode(NewAlarm(RawCode(alarmData)).value)
    ensures
      var r := AfterAlarmData(AfterClose(c), alarmData);
      IsVisible(r) && Rendered(r) == GetAlarmDetails(NewAlarm(RawCode(alarmData)).value)
  {
  }

  /** A code that goes away and comes back is shown again, even if it was dismissed. */
  lemma ClearedAlarmReturns(c: Card, code: int)
    requires code != 0
    ensures
      var cleared := AfterAlarmData(AfterClose(c), Num(0));
      var back := AfterAlarmData(cleared, Num(code));
      cleared.currentAlarm.None? && !IsVisible(cleared) && back == Card(Some(code), false) && IsVisible(back)
  {
  }

  /** The alarm card's state. */
  class AlarmCard {
    var currentAlarm: Option<int>
    var isDismissed: bool

    function State(): Card
      reads this
    {
      Card(currentAlarm, isDismissed)
    }

    constructor ()
      ensures State() == Card(None, false)
    {
      currentAlarm, isDismissed := None, false;
    }

    method OnAlarmData(alarmData: JsValue)
      modifies this
      ensures State() == AfterAlarmData(old(State()), alarmData)
    {
      var newAlarm := NewAlarm(RawCode(alarmData));
      if newAlarm != currentAlarm {
        currentAlarm := newAlarm;
        isDismissed := false;
      }
    }

    method HandleClose()
      modifies this
      ensures State() == AfterClose(old(State()))
    {
      isDismissed := true;
    }
  }
}
