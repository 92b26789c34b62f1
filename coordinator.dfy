/** The departure coordinator of custom_components/sl_departures/__init__.py:
    it resolves which departures a configured target wants, and on every
    refresh narrows the fetched list in three passes (transport mode,
    direction code, line designations), each keeping the order. */
module Coordinator {
  import opened Wrappers
  import opened Text
  import opened Sequences
  import opened Records

  const DefaultScanInterval: int := 60

  /** What a target accepts: the transport modes, a direction code ("" for
      any) and a comma-separated line list ("" for any). */
  datatype FilterSpec = FilterSpec(modes: seq<string>, directionCode: string, lineFilter: string)

  predicate ModeMatches(d: Departure, modes: seq<string>) {
    TransportModeOf(d).Some? && TransportModeOf(d).value in modes
  }

  /** `str(dep.get("direction_code")) == code`. */
  predicate DirectionMatches(d: Departure, code: string) {
    CodeText(d.directionCode, "None") == code
  }

  /** `[ln.strip() for ln in line_filter.split(",")]`. */
  function LineNumbers(lineFilter: string): (numbers: seq<string>)
    ensures |numbers| == |Split(lineFilter, ',')|
    ensures forall k :: 0 <= k < |numbers| ==> numbers[k] == Strip(Split(lineFilter, ',')[k])
  {
    var parts := Split(lineFilter, ',');
    seq(|parts|, k requires 0 <= k < |parts| => Strip(parts[k]))
  }

  /** A record without a designation never matches: `None in [...]` is false. */
  predicate LineMatches(d: Departure, numbers: seq<string>) {
    DesignationOf(d).Some? && DesignationOf(d).value in numbers
  }

  /** The whole test a record must pass to survive a refresh. */
  predicate Accepts(spec: FilterSpec, d: Departure) {
    && ModeMatches(d, spec.modes)
    && (spec.directionCode != "" ==> DirectionMatches(d, spec.directionCode))
    && (spec.lineFilter != "" ==> LineMatches(d, LineNumbers(spec.lineFilter)))
  }

  /** Reference definition of the refresh result: one pass with the whole
      test, in input order. */
  function Filtered(departures: seq<Departure>, spec: FilterSpec): seq<Departure> {
    Keep(departures, d => Accepts(spec, d))
  }

  /** The filter keeps records unchanged and in order, and keeps a record
      exactly when it passes every configured test. */
  lemma FilteredKeeps(departures: seq<Departure>, spec: FilterSpec, d: Departure)
    ensures IsSubsequence(Filtered(departures, spec), departures)
    ensures d in Filtered(departures, spec) <==> d in departures && Accepts(spec, d)
  {
    KeepIsSubsequence(departures, d => Accepts(spec, d));
  }

  /** Every kept record is of a configured mode, has the configured
      direction code when one is set and one of the listed designations when
      a line filter is set. */
  lemma FilteredRecordsMatch(departures: seq<Departure>, spec: FilterSpec, d: Departure)
    requires d in Filtered(departures, spec)
    ensures TransportModeOf(d).Some? && TransportModeOf(d).value in spec.modes
    ensures spec.directionCode != "" ==> CodeText(d.directionCode, "None") == spec.directionCode
    ensures spec.lineFilter != "" ==>
      DesignationOf(d).Some? && DesignationOf(d).value in LineNumbers(spec.lineFilter)
  {
    FilteredKeeps(departures, spec, d);
  }

  /** With no direction code and no line filter only the mode pass acts. */
  lemma FilteredByModeOnly(departures: seq<Departure>, modes: seq<string>)
    ensures Filtered(departures, FilterSpec(modes, "", "")) == Keep(departures, d => ModeMatches(d, modes))
  {
    KeepCongruent(departures, d => Accepts(FilterSpec(modes, "", ""), d), d => ModeMatches(d, modes));
  }

  /** Filtering an already filtered list changes nothing. */
  lemma FilteredIdempotent(departures: seq<Departure>, spec: FilterSpec)
    ensures Filtered(Filtered(departures, spec), spec) == Filtered(departures, spec)
  {
    KeepIdempotent(departures, d => Accepts(spec, d));
  }

  /** A response without "departures" gives an empty list for every target. */
  lemma FilteredMissingKey(spec: FilterSpec)
    ensures Filtered(DeparturesOf(Response(None)), spec) == []
  {
  }

  /** A line filter written as comma-separated entries with whitespace
      around them admits exactly those entries, stripped. */
  lemma LineNumbersOfJoin(entries: seq<string>)
    requires |entries| >= 1
    requires forall k :: 0 <= k < |entries| ==> ',' !in entries[k]
    ensures LineNumbers(Join(entries, ',')) == seq(|entries|, k requires 0 <= k < |entries| => Strip(entries[k]))
  {
    SplitJoin(entries, ',');
  }

  /** A two-entry filter whose entries are padded with whitespace lists
      the two entries without the padding. */
  lemma LineNumbersOfPadded(lead1: string, t1: string, trail1: string, lead2: string, t2: string, trail2: string)
    requires AllSpace(lead1) && AllSpace(trail1) && AllSpace(lead2) && AllSpace(trail2)
    requires t1 == [] || (!IsSpace(t1[0]) && !IsSpace(t1[|t1| - 1]))
    requires t2 == [] || (!IsSpace(t2[0]) && !IsSpace(t2[|t2| - 1]))
    requires ',' !in lead1 + t1 + trail1 && ',' !in lead2 + t2 + trail2
    ensures LineNumbers(lead1 + t1 + trail1 + [','] + lead2 + t2 + trail2) == [t1, t2]
  {
    var first, second := lead1 + t1 + trail1, lead2 + t2 + trail2;
    assert lead1 + t1 + trail1 + [','] + lead2 + t2 + trail2 == first + [','] + second;
    assert Join([first, second], ',') == first + [','] + second;
    assert LineNumbers(first + [','] + second) == [Strip(first), Strip(second)] by {
      LineNumbersOfJoin([first, second]);
    }
    StripPadded(lead1, t1, trail1);
    StripPadded(lead2, t2, trail2);
  }

  /** The line filter " 19, 19S " lists exactly "19" and "19S". */
  lemma LineNumbersExample()
    ensures LineNumbers(" 19" + [','] + " 19S ") == ["19", "19S"]
  {
    LineNumbersOfPadded(" ", "19", "", " ", "19S", " ");
    assert " " + "19" + "" + [','] + " " + "19S" + " " == " 19" + [','] + " 19S ";
  }

  /** Under the line filter " 19, 19S " a record of line "19" or "19S"
      passes the line pass and one of line "19A" does not. */
  lemma LineFilterExample(d: Departure)
    requires DesignationOf(d).Some?
    ensures DesignationOf(d).value in {"19", "19S"} ==> LineMatches(d, LineNumbers(" 19" + [','] + " 19S "))
    ensures DesignationOf(d).value == "19A" ==> !LineMatches(d, LineNumbers(" 19" + [','] + " 19S "))
  {
    LineNumbersExample();
    assert "19A" != "19" && "19A" != "19S";
  }

  /** The coordinator of one configured target. Its configuration is
      resolved once, when it is created. */
  class DeparturesCoordinator {
    const siteId: string
    const directionCode: string
    const transportMode: Option<string>
    const lineFromConfig: string
    const scanInterval: int
    const transportModes: seq<string>
    const lineFilter: string

    /** A transport mode in the entry's data wins over the legacy
        `transport_modes` option (default ["TRAIN"]); a non-empty line in the
        data wins over the legacy `line_filter` option (default ""). */
    constructor (data: EntryData, options: EntryOptions)
      ensures siteId == data.siteId
      ensures directionCode == data.directionCode.GetOr("")
      ensures transportMode == data.transportMode
      ensures scanInterval == options.scanInterval.GetOr(DefaultScanInterval)
      ensures Truthy(data.transportMode) ==> transportModes == [data.transportMode.value]
      ensures !Truthy(data.transportMode) ==> transportModes == options.transportModes.GetOr(["TRAIN"])
      ensures data.line.GetOr("") != "" ==> lineFilter == data.line.value
      ensures data.line.GetOr("") == "" ==> lineFilter == options.lineFilter.GetOr("")
    {
      siteId := data.siteId;
      directionCode := data.directionCode.GetOr("");
      transportMode := data.transportMode;
      lineFromConfig := data.line.GetOr("");
      scanInterval := options.scanInterval.GetOr(DefaultScanInterval);
      if Truthy(data.transportMode) {
        transportModes := [data.transportMode.value];
      } else {
        transportModes := options.transportModes.GetOr(["TRAIN"]);
      }
      if data.line.GetOr("") != "" {
        lineFilter := data.line.GetOr("");
      } else {
        lineFilter := options.lineFilter.GetOr("");
      }
    }

    function Spec(): FilterSpec {
      FilterSpec(transportModes, directionCode, lineFilter)
    }

    /** One refresh: a failed fetch becomes an update failure; otherwise the
        three passes run in order and the result is the reference filter of
        the fetched departures (an absent "departures" key reads as []). */
    method UpdateData(fetched: Result<Response, string>) returns (r: Result<seq<Departure>, string>)
      ensures fetched.Err? ==> r == Err("Error fetching data: " + fetched.error)
      ensures fetched.Ok? ==> r == Ok(Filtered(DeparturesOf(fetched.value), Spec()))
    {
      if fetched.Err? {
        return Err("Error fetching data: " + fetched.error);
      }
      var departures := DeparturesOf(fetched.value);
      var modes, code, lines := transportModes, directionCode, lineFilter;
      ghost var spec := Spec();

      var modePass := d => ModeMatches(d, modes);
      var filtered := Keep(departures, modePass);
      ghost var sofar: Departure -> bool := modePass;

      if code != "" {
        var directionPass := d => DirectionMatches(d, code);
        ghost var prev := sofar;
        sofar := d => prev(d) && directionPass(d);
        KeepKeep(departures, prev, directionPass, sofar);
        filtered := Keep(filtered, directionPass);
      }
      assert filtered == Keep(departures, sofar);

      if lines != "" {
        var numbers := LineNumbers(lines);
        var linePass := d => LineMatches(d, numbers);
        ghost var prev := sofar;
        sofar := d => prev(d) && linePass(d);
        KeepKeep(departures, prev, linePass, sofar);
        filtered := Keep(filtered, linePass);
      }
      assert filtered == Keep(departures, sofar);

      KeepCongruent(departures, sofar, d => Accepts(spec, d));
      r := Ok(filtered);
    }
  }
}
