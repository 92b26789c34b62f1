/** The records the integration reads from the SL departures API and from
    its own configuration entries, and the identifier both the config flow
    and the sensors derive from an entry. A key the JSON leaves out and a
    key whose value is JSON `null` both read as `None` here, as they do
    for `dict.get(key)`. With a default, `dict.get(key, default)` gives the
    default only for a missing key; where the code tells the two apart the
    field keeps its JSON kind (`Scalar`), except for "departures". */
module Records {
  import opened Wrappers
  import opened Text

  /** A timestamp after `datetime.fromisoformat`: naive (no UTC offset in
      the text) or zone-aware, in whole seconds. A naive instant counts wall
      clock seconds; an aware one counts seconds since the epoch in UTC. */
  datatype Instant = Naive(wall: int) | Aware(utc: int)

  /** A timestamp field as received: its text, and what parsing that text
      gives (`None` when `fromisoformat` raises `ValueError`). */
  datatype Stamp = Stamp(text: string, parsed: Option<Instant>)

  /** The JSON value under "direction_code": missing, `null`, a number or a
      string. */
  datatype Scalar = Absent | Null | Num(n: int) | Str(s: string)

  datatype LineInfo = LineInfo(designation: Option<string>, transportMode: Option<string>, groupOfLines: Option<string>)
  datatype Journey = Journey(predictionState: Option<string>)
  datatype StopPoint = StopPoint(designation: Option<string>)
  datatype StopArea = StopArea(name: Option<string>)
  datatype Deviation = Deviation(message: Option<string>)

  /** One element of the "departures" array, by the keys the integration
      reads. */
  datatype Departure = Departure(
    line: Option<LineInfo>,
    destination: Option<string>,
    direction: Option<string>,
    directionCode: Scalar,
    scheduled: Option<Stamp>,
    expected: Option<Stamp>,
    display: Option<string>,
    state: Option<string>,
    journey: Option<Journey>,
    stopPoint: Option<StopPoint>,
    stopArea: Option<StopArea>,
    deviations: Option<seq<Deviation>>)

  /** The body of a departures response; `departures` is `None` when the
      key is missing or `null`. */
  datatype Response = Response(departures: Option<seq<Departure>>)

  /** `data.get("departures", [])`. */
  function DeparturesOf(body: Response): seq<Departure> {
    body.departures.GetOr([])
  }

  /** A departure with none of its keys present: the JSON object `{}`,
      which Python treats as false. */
  predicate IsEmptyRecord(d: Departure) {
    d == Departure(None, None, None, Absent, None, None, None, None, None, None, None, None)
  }

  /** Python truthiness of an optional string. */
  predicate Truthy(s: Option<string>) {
    s.Some? && s.value != ""
  }

  /** `dep.get("line", {}).get("transport_mode")`. */
  function TransportModeOf(d: Departure): Option<string> {
    match d.line
    case Some(l) => l.transportMode
    case None => None
  }

  /** `dep.get("line", {}).get("designation")`. */
  function DesignationOf(d: Departure): Option<string> {
    match d.line
    case Some(l) => l.designation
    case None => None
  }

  /** `dep.get("line", {}).get("group_of_lines")`. */
  function GroupOf(d: Departure): Option<string> {
    match d.line
    case Some(l) => l.groupOfLines
    case None => None
  }

  /** `str(dep.get("direction_code", missing))`: `str(None)` is "None". */
  function CodeText(v: Scalar, missing: string): string {
    match v
    case Absent => missing
    case Null => "None"
    case Num(n) => IntToString(n)
    case Str(s) => s
  }

  /** The `data` of a config entry. New entries carry every key; entries
      made by earlier versions may lack `transport_mode`, `line` and the
      direction keys. */
  datatype EntryData = EntryData(
    siteId: string,
    siteName: string,
    transportMode: Option<string>,
    line: Option<string>,
    directionCode: Option<string>,
    directionName: Option<string>)

  /** The `options` of a config entry, as the options flow saves them. */
  datatype EntryOptions = EntryOptions(
    scanInterval: Option<int>,
    transportModes: Option<seq<string>>,
    lineFilter: Option<string>)

  /** The unique id of a configured target: the site, then the transport
      mode, line and direction code, each only when non-empty. */
  function UniqueId(siteId: string, mode: string, line: string, directionCode: string): (id: string)
    ensures |"sl_departures_" + siteId| <= |id| && id[..|"sl_departures_" + siteId|] == "sl_departures_" + siteId
  {
    var withMode := "sl_departures_" + siteId + (if mode != "" then "_" + mode else "");
    var withLine := withMode + (if line != "" then "_line" + line else "");
    withLine + (if directionCode != "" then "_dir" + directionCode else "")
  }

  /** Builds the id the way both the config flow and the sensors do, by
      appending each non-empty part in turn. */
  method BuildUniqueId(siteId: string, mode: string, line: string, directionCode: string) returns (id: string)
    ensures id == UniqueId(siteId, mode, line, directionCode)
  {
    id := "sl_departures_" + siteId;
    if mode != "" {
      id := id + "_" + mode;
    }
    if line != "" {
      id := id + "_line" + line;
    }
    if directionCode != "" {
      id := id + "_dir" + directionCode;
    }
  }

  /** The same site, mode and line followed in two different directions (or
      in one direction and in all) never share an id. */
  lemma UniqueIdSeparatesDirections(siteId: string, mode: string, line: string, code1: string, code2: string)
    requires UniqueId(siteId, mode, line, code1) == UniqueId(siteId, mode, line, code2)
    ensures code1 == code2
  {
    var base := UniqueId(siteId, mode, line, "");
    var id1, id2 := UniqueId(siteId, mode, line, code1), UniqueId(siteId, mode, line, code2);
    if code1 != "" && code2 != "" {
      assert id1 == (base + "_dir") + code1;
      assert id2 == (base + "_dir") + code2;
      assert code1 == id1[|base + "_dir"|..];
      assert code2 == id2[|base + "_dir"|..];
    }
  }
}
