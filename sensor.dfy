/** The per-slot departure sensors of custom_components/sl_departures/sensor.py.
    Sensor `index` shows element `index` of the coordinator's filtered list;
    everything it displays is a function of that list, the slot index, the
    current time and the local UTC offset. */
module Sensor {
  import opened Wrappers
  import opened Text
  import opened Records
  import opened Sequences

  const DelayedIcon: string := "mdi:clock-alert"

  // ---------------------------------------------------------------------
  // Time arithmetic
  // ---------------------------------------------------------------------

  /** `int(seconds / 60)`: whole minutes, truncated toward zero. */
  function MinutesTowardZero(seconds: int): (m: int)
    ensures seconds >= 0 ==> 0 <= m && m * 60 <= seconds < m * 60 + 60
    ensures seconds < 0 ==> m <= 0 && m * 60 - 60 < seconds <= m * 60
  {
    if seconds >= 0 then seconds / 60 else -((-seconds) / 60)
  }

  lemma MinutesTowardZeroNegate(seconds: int)
    ensures MinutesTowardZero(-seconds) == -MinutesTowardZero(seconds)
  {
  }

  /** The instant a timestamp field holds: `None` when the field is missing,
      empty (false in Python) or does not parse. */
  function InstantOf(t: Option<Stamp>): Option<Instant> {
    if t.None? || t.value.text == "" then None else t.value.parsed
  }

  /** `later - earlier` in seconds; `None` when one instant is naive and the
      other zone-aware (Python raises `TypeError`). */
  function Elapsed(earlier: Instant, later: Instant): (r: Option<int>)
    ensures r.Some? <==> earlier.Naive? == later.Naive?
  {
    match (earlier, later)
    case (Naive(a), Naive(b)) => Some(b - a)
    case (Aware(a), Aware(b)) => Some(b - a)
    case _ => None
  }

  /** `_calculate_delay_minutes`: expected minus scheduled, in minutes
      truncated toward zero; `None` when either time is missing or
      unparsable, or the two cannot be subtracted. */
  function DelayMinutes(d: Departure): (r: Option<int>)
    ensures r.Some? <==>
      (InstantOf(d.scheduled).Some? && InstantOf(d.expected).Some? &&
       Elapsed(InstantOf(d.scheduled).value, InstantOf(d.expected).value).Some?)
    ensures r.Some? ==>
      var diff := Elapsed(InstantOf(d.scheduled).value, InstantOf(d.expected).value).value;
      (diff >= 0 ==> 0 <= r.value && r.value * 60 <= diff < r.value * 60 + 60) &&
      (diff < 0 ==> r.value <= 0 && r.value * 60 - 60 < diff <= r.value * 60)
  {
    match (InstantOf(d.scheduled), InstantOf(d.expected))
    case (Some(s), Some(e)) =>
      (match Elapsed(s, e)
       case Some(diff) => Some(MinutesTowardZero(diff))
       case None => None)
    case _ => None
  }

  /** Swapping the two timestamps negates the delay. */
  lemma DelaySwapped(d: Departure)
    ensures DelayMinutes(d.(scheduled := d.expected, expected := d.scheduled)) ==
      (match DelayMinutes(d) case Some(m) => Some(-m) case None => None)
  {
    var s, e := InstantOf(d.scheduled), InstantOf(d.expected);
    if s.Some? && e.Some? && Elapsed(s.value, e.value).Some? {
      MinutesTowardZeroNegate(Elapsed(s.value, e.value).value);
    }
  }

  /** A departure scheduled at 10:00:00Z and expected at 10:05:00Z is five
      minutes late. */
  lemma DelayExample(d: Departure, tenOClock: int)
    requires d.scheduled == Some(Stamp("10:00:00Z", Some(Aware(tenOClock))))
    requires d.expected == Some(Stamp("10:05:00Z", Some(Aware(tenOClock + 300))))
    ensures DelayMinutes(d) == Some(5)
  {
  }

  /** `_calculate_minutes_until`: whole minutes from `now` (UTC) to the
      expected time, never negative. A missing, empty or unparsable time
      gives 0, and so does a naive one, which cannot be subtracted from the
      zone-aware `now`. */
  function MinutesUntil(expected: Option<Stamp>, nowUtc: int): (m: int)
    ensures m >= 0
    ensures m > 0 ==>
      (InstantOf(expected).Some? && InstantOf(expected).value.Aware? &&
       InstantOf(expected).value.utc - nowUtc >= 60)
    ensures InstantOf(expected).Some? && InstantOf(expected).value.Aware? ==>
      var ahead := InstantOf(expected).value.utc - nowUtc;
      ahead >= 0 ==> m * 60 <= ahead < m * 60 + 60
  {
    match InstantOf(expected)
    case Some(Aware(u)) =>
      var minutes := MinutesTowardZero(u - nowUtc);
      if minutes > 0 then minutes else 0
    case _ => 0
  }

  // ---------------------------------------------------------------------
  // "HH:MM"
  // ---------------------------------------------------------------------

  function TwoDigits(n: nat): (s: string)
    requires n < 100
    ensures |s| == 2 && AllDigits(s)
    ensures DigitValue(s[0]) * 10 + DigitValue(s[1]) == n
  {
    [DigitChar(n / 10), DigitChar(n % 10)]
  }

  /** "HH:MM" with an hour below 24 and a minute below 60. */
  predicate IsClock(s: string) {
    && |s| == 5 && s[2] == ':' && IsDigit(s[0]) && IsDigit(s[1]) && IsDigit(s[3]) && IsDigit(s[4])
    && DigitValue(s[0]) * 10 + DigitValue(s[1]) < 24
    && DigitValue(s[3]) < 6
  }

  /** The minute of the day an "HH:MM" string denotes. */
  function ClockMinutes(s: string): nat
    requires IsClock(s)
  {
    (DigitValue(s[0]) * 10 + DigitValue(s[1])) * 60 + DigitValue(s[3]) * 10 + DigitValue(s[4])
  }

  /** Two clock strings that denote the same minute of the day are the
      same string, so `ClockMinutes` pins a clock string down. */
  lemma ClockMinutesInjective(a: string, b: string)
    requires IsClock(a) && IsClock(b) && ClockMinutes(a) == ClockMinutes(b)
    ensures a == b
  {
    assert DigitValue(a[0]) == DigitValue(b[0]) && DigitValue(a[1]) == DigitValue(b[1]);
    assert DigitValue(a[3]) == DigitValue(b[3]) && DigitValue(a[4]) == DigitValue(b[4]);
  }

  /** `strftime("%H:%M")` of a wall-clock time in seconds: reading it back
      gives the minute of the day. */
  function Clock(wall: int): (s: string)
    ensures IsClock(s)
    ensures ClockMinutes(s) == (wall % 86400) / 60
  {
    var secondOfDay := wall % 86400;
    TwoDigits(secondOfDay / 3600) + ":" + TwoDigits(secondOfDay % 3600 / 60)
  }

  /** `_format_time`: "HH:MM" in the local zone, or `None` for a missing,
      empty or unparsable time. A zone-aware time is moved by the local
      offset; a naive one is taken to be local already. */
  function FormatTime(t: Option<Stamp>, localOffset: int): (r: Option<string>)
    ensures r.Some? <==> InstantOf(t).Some?
    ensures r.Some? ==> IsClock(r.value)
    ensures InstantOf(t).Some? && InstantOf(t).value.Aware? ==>
      ClockMinutes(r.value) == ((InstantOf(t).value.utc + localOffset) % 86400) / 60
    ensures InstantOf(t).Some? && InstantOf(t).value.Naive? ==>
      ClockMinutes(r.value) == (InstantOf(t).value.wall % 86400) / 60
  {
    match InstantOf(t)
    case Some(Aware(u)) => Some(Clock(u + localOffset))
    case Some(Naive(w)) => Some(Clock(w))
    case None => None
  }

  // ---------------------------------------------------------------------
  // The slot and what it shows
  // ---------------------------------------------------------------------

  /** `_departure`: element `index` of the coordinator's data, if any. */
  function SlotDeparture(data: seq<Departure>, index: nat): (r: Option<Departure>)
    ensures r.Some? <==> |data| > 0 && index < |data|
    ensures r.Some? ==> r.value == data[index]
  {
    if |data| == 0 || |data| <= index then None else Some(data[index])
  }

  /** Python's `if dep:` on the slot's departure: present and not `{}`. */
  predicate Shown(dep: Option<Departure>) {
    dep.Some? && !IsEmptyRecord(dep.value)
  }

  /** `native_value`: the departure's upstream display text. */
  function NativeValue(data: seq<Departure>, index: nat): (v: Option<string>)
    ensures v.Some? ==> index < |data| && data[index].display == v
    ensures index < |data| && !IsEmptyRecord(data[index]) ==> v == data[index].display
    ensures index >= |data| ==> v.None?
  {
    var dep := SlotDeparture(data, index);
    if !Shown(dep) then None else dep.value.display
  }

  /** `available`: the coordinator's last refresh succeeded and the slot has
      a departure. */
  function Available(coordinatorAvailable: bool, data: seq<Departure>, index: nat): (a: bool)
    ensures a <==> coordinatorAvailable && index < |data|
  {
    coordinatorAvailable && SlotDeparture(data, index).Some?
  }

  /** The icon of a transport mode; unknown modes get the train. */
  function ModeIcon(mode: string): string {
    match mode
    case "TRAIN" => "mdi:train"
    case "METRO" => "mdi:subway-variant"
    case "BUS" => "mdi:bus"
    case "TRAM" => "mdi:tram"
    case "SHIP" => "mdi:ship"
    case "FERRY" => "mdi:ferry"
    case _ => "mdi:train"
  }

  /** `icon`: the delay icon exactly when the slot's departure is late by a
      positive number of minutes, the configured mode's icon otherwise. */
  function Icon(mode: string, data: seq<Departure>, index: nat): (icon: string)
    ensures icon == DelayedIcon <==>
      index < |data| && !IsEmptyRecord(data[index]) &&
      DelayMinutes(data[index]).Some? && DelayMinutes(data[index]).value > 0
    ensures icon != DelayedIcon ==> icon == ModeIcon(mode)
  {
    var dep := SlotDeparture(data, index);
    if Shown(dep) && DelayMinutes(dep.value).Some? && DelayMinutes(dep.value).value > 0 then DelayedIcon
    else ModeIcon(mode)
  }

  /** `d.get("message")` of each deviation, in order, with "" for a missing
      message (both are false in Python). */
  function MessageTexts(deviations: seq<Deviation>): (texts: seq<string>)
    ensures |texts| == |deviations|
  {
    seq(|deviations|, k requires 0 <= k < |deviations| => deviations[k].message.GetOr(""))
  }

  predicate IsMessage(text: string) {
    text != ""
  }

  /** `[d.get("message") for d in deviations if d.get("message")]`: the
      non-empty messages, in the order of the deviations. */
  function DeviationMessages(deviations: seq<Deviation>): (messages: seq<string>)
    ensures messages == Keep(MessageTexts(deviations), IsMessage)
    ensures |messages| <= |deviations|
  {
    if deviations == [] then []
    else
      var first := deviations[0];
      var texts := MessageTexts(deviations);
      assert texts == [first.message.GetOr("")] + MessageTexts(deviations[1..]);
      assert texts[1..] == MessageTexts(deviations[1..]);
      (if Truthy(first.message) then [first.message.value] else []) + DeviationMessages(deviations[1..])
  }

  /** What that means for the attribute: no listed message is empty, every
      non-empty message is listed, and the list is empty iff no deviation
      has a message. */
  lemma DeviationMessagesExactly(deviations: seq<Deviation>)
    ensures forall k :: 0 <= k < |DeviationMessages(deviations)| ==> DeviationMessages(deviations)[k] != ""
    ensures forall d :: d in deviations && Truthy(d.message) ==> d.message.value in DeviationMessages(deviations)
    ensures DeviationMessages(deviations) == [] <==> forall d :: d in deviations ==> !Truthy(d.message)
  {
    var texts := MessageTexts(deviations);
    var messages := DeviationMessages(deviations);
    assert forall k :: 0 <= k < |messages| ==> messages[k] != "" by {
      forall k | 0 <= k < |messages|
        ensures messages[k] != ""
      {
        assert messages[k] in messages;
      }
    }
    assert forall d :: d in deviations && Truthy(d.message) ==> d.message.value in messages by {
      forall d | d in deviations && Truthy(d.message)
        ensures d.message.value in messages
      {
        var i :| 0 <= i < |deviations| && deviations[i] == d;
        assert texts[i] == d.message.value;
      }
    }
    if messages != [] {
      assert messages[0] in texts;
      var i :| 0 <= i < |texts| && texts[i] == messages[0];
      assert Truthy(deviations[i].message);
    }
  }

  /** The attribute dictionary of a slot that has a departure. */
  datatype Attributes = Attributes(
    line: Option<string>,
    destination: Option<string>,
    scheduledTime: Option<string>,
    expectedTime: Option<string>,
    timeFormatted: Option<string>,
    minutesUntil: int,
    transportMode: Option<string>,
    realTime: bool,
    delayMinutes: int,
    canceled: bool,
    platform: Option<string>,
    agency: string,
    direction: Option<string>,
    state: Option<string>,
    stopArea: Option<string>,
    deviations: Option<seq<string>>)

  /** `extra_state_attributes`: `{}` or the attribute dictionary. */
  datatype AttributePayload = NoAttributes | Payload(attrs: Attributes)

  function TextOf(t: Option<Stamp>): Option<string> {
    match t
    case Some(s) => Some(s.text)
    case None => None
  }

  /** `extra_state_attributes` of slot `index` at time `nowUtc`. */
  function SlotAttributes(data: seq<Departure>, index: nat, nowUtc: int, localOffset: int): (p: AttributePayload)
    ensures p.NoAttributes? <==> index >= |data| || IsEmptyRecord(data[index])
    ensures p.Payload? ==>
      var d := data[index];
      && p.attrs.delayMinutes == DelayMinutes(d).GetOr(0)
      && (p.attrs.canceled <==> d.state == Some("CANCELLED"))
      && (p.attrs.realTime <==> d.journey.Some? && d.journey.value.predictionState == Some("NORMAL"))
      && p.attrs.agency == "SL"
      && p.attrs.minutesUntil == MinutesUntil(d.expected, nowUtc) && p.attrs.minutesUntil >= 0
      && p.attrs.timeFormatted == FormatTime(d.expected, localOffset)
      && p.attrs.scheduledTime == TextOf(d.scheduled) && p.attrs.expectedTime == TextOf(d.expected)
      && p.attrs.line == DesignationOf(d) && p.attrs.transportMode == TransportModeOf(d)
      && p.attrs.destination == d.destination && p.attrs.direction == d.direction && p.attrs.state == d.state
      && p.attrs.platform == (if d.stopPoint.Some? then d.stopPoint.value.designation else None)
      && p.attrs.stopArea == (if d.stopArea.Some? then d.stopArea.value.name else None)
      && (p.attrs.deviations.Some? <==>
            d.deviations.Some? && exists k :: 0 <= k < |d.deviations.value| && Truthy(d.deviations.value[k].message))
      && (p.attrs.deviations.Some? ==> p.attrs.deviations.value == DeviationMessages(d.deviations.value))
  {
    var dep := SlotDeparture(data, index);
    if !Shown(dep) then NoAttributes
    else
      var d := dep.value;
      var messages := if d.deviations.Some? then DeviationMessages(d.deviations.value) else [];
      DeviationMessagesExactly(d.deviations.GetOr([]));
      assert d.deviations.Some? ==> (messages != [] <==>
        exists k :: 0 <= k < |d.deviations.value| && Truthy(d.deviations.value[k].message));
      Payload(Attributes(
        line := DesignationOf(d),
        destination := d.destination,
        scheduledTime := TextOf(d.scheduled),
        expectedTime := TextOf(d.expected),
        timeFormatted := FormatTime(d.expected, localOffset),
        minutesUntil := MinutesUntil(d.expected, nowUtc),
        transportMode := TransportModeOf(d),
        realTime := d.journey.Some? && d.journey.value.predictionState == Some("NORMAL"),
        delayMinutes := DelayMinutes(d).GetOr(0),
        canceled := d.state == Some("CANCELLED"),
        platform := match d.stopPoint case Some(sp) => sp.designation case None => None,
        agency := "SL",
        direction := d.direction,
        state := d.state,
        stopArea := match d.stopArea case Some(sa) => sa.name case None => None,
        deviations := if messages != [] then Some(messages) else None))
  }

  // ---------------------------------------------------------------------
  // Names and identifiers
  // ---------------------------------------------------------------------

  /** `_get_position_label`: "Next", "2nd", "3rd", then "{index + 1}th". */
  function PositionLabel(index: nat): string {
    if index == 0 then "Next"
    else if index == 1 then "2nd"
    else if index == 2 then "3rd"
    else NatToString(index + 1) + "th"
  }

  /** Different slots get different names. */
  lemma PositionLabelInjective(i: nat, j: nat)
    requires PositionLabel(i) == PositionLabel(j)
    ensures i == j
  {
    if i >= 3 && j >= 3 {
      var a, b := NatToString(i + 1), NatToString(j + 1);
      assert a == PositionLabel(i)[..|a|];
      assert |a| == |b|;
      assert b == PositionLabel(j)[..|b|];
      NatToStringInjective(i + 1, j + 1);
    } else if i >= 3 {
      NumberedLabelEndsInTh(i);
    } else if j >= 3 {
      NumberedLabelEndsInTh(j);
    }
  }

  lemma NumberedLabelEndsInTh(n: nat)
    requires n >= 3
    ensures |PositionLabel(n)| >= 3 && PositionLabel(n)[|PositionLabel(n)| - 2..] == "th"
  {
    var digits := NatToString(n + 1);
    assert PositionLabel(n) == digits + "th";
  }

  /** The unique id of slot `index` of a configured target: the target's id
      followed by "_dep{index}". */
  function SlotUniqueId(data: EntryData, index: nat): string {
    UniqueId(data.siteId, data.transportMode.GetOr(""), data.line.GetOr(""), data.directionCode.GetOr(""))
      + "_dep" + NatToString(index)
  }

  /** Different slots of one target get different unique ids. */
  lemma SlotUniqueIdInjective(data: EntryData, i: nat, j: nat)
    requires SlotUniqueId(data, i) == SlotUniqueId(data, j)
    ensures i == j
  {
    var prefix := UniqueId(data.siteId, data.transportMode.GetOr(""), data.line.GetOr(""), data.directionCode.GetOr(""))
      + "_dep";
    assert SlotUniqueId(data, i) == prefix + NatToString(i);
    assert SlotUniqueId(data, j) == prefix + NatToString(j);
    assert NatToString(i) == SlotUniqueId(data, i)[|prefix|..];
    assert NatToString(j) == SlotUniqueId(data, j)[|prefix|..];
    NatToStringInjective(i, j);
  }

  /** The device all slots of a target belong to: the site id, then the
      non-empty transport mode, line and direction code, joined by "_". */
  function DeviceId(siteId: string, mode: string, line: string, code: string): string {
    siteId
      + (if mode != "" then "_" + mode else "")
      + (if line != "" then "_" + line else "")
      + (if code != "" then "_" + code else "")
  }

  /** The identity of one slot sensor, fixed when it is created. */
  class DepartureSensor {
    const index: nat
    const transportMode: string
    const uniqueId: string
    const name: string
    const deviceId: string
    const icon: string

    /** Builds the unique id by appending the non-empty parts of the
        entry's configuration and then the slot, matching the config flow's
        id; the device id joins the same parts with "_". */
    constructor (data: EntryData, index: nat)
      ensures this.index == index
      ensures transportMode == data.transportMode.GetOr("")
      ensures uniqueId == SlotUniqueId(data, index)
      ensures name == PositionLabel(index)
      ensures deviceId ==
        DeviceId(data.siteId, transportMode, data.line.GetOr(""), data.directionCode.GetOr(""))
      ensures icon == ModeIcon(transportMode)
    {
      var mode := data.transportMode.GetOr("");
      var line := data.line.GetOr("");
      var code := data.directionCode.GetOr("");

      var id := BuildUniqueId(data.siteId, mode, line, code);
      id := id + "_dep" + NatToString(index);

      var device := data.siteId;
      if mode != "" {
        device := device + "_" + mode;
      }
      if line != "" {
        device := device + "_" + line;
      }
      if code != "" {
        device := device + "_" + code;
      }
      assert device == DeviceId(data.siteId, mode, line, code);

      this.index := index;
      transportMode := mode;
      uniqueId := id;
      name := PositionLabel(index);
      deviceId := device;
      icon := ModeIcon(mode);
    }
  }
}
