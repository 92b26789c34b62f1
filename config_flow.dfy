/** The config flow of custom_components/sl_departures/config_flow.py: search
    a stop by name, pick one of the matches, a transport mode, a line and a
    direction, and create a config entry whose unique id names that target.
    HTTP calls are parameters: each step receives what its fetch returned
    (`Err` for a connection error). */
module ConfigFlow {
  import opened Wrappers
  import opened Text
  import opened Sequences
  import opened Sorting
  import opened Dicts
  import opened Records

  datatype SelectOption = SelectOption(value: string, text: string)

  /** What a step hands back to Home Assistant. */
  datatype FlowResult =
    | ShowForm(stepId: string, options: seq<SelectOption>, errors: map<string, string>)
    | CreateEntry(title: string, data: EntryData)
    | Abort(reason: string)

  /** The option value meaning "no restriction" on the line and direction
      steps. */
  const AllValue: string := "__all__"

  const MinSearchLength: nat := 2

  /** TRANSPORT_MODES of const.py, in its order. */
  const TransportModes: seq<Entry> := [
    ("TRAIN", "Train (Pendelt\U{e5}g)"),
    ("METRO", "Metro (Tunnelbana)"),
    ("BUS", "Bus"),
    ("TRAM", "Tram (Sp\U{e5}rvagn)"),
    ("SHIP", "Ship"),
    ("FERRY", "Ferry")
  ]

  /** The transport-mode selector: each mode of `TransportModes`, value
      then label. */
  function ModeOptions(): (options: seq<SelectOption>)
    ensures options == [
      SelectOption("TRAIN", "Train (Pendelt\U{e5}g)"),
      SelectOption("METRO", "Metro (Tunnelbana)"),
      SelectOption("BUS", "Bus"),
      SelectOption("TRAM", "Tram (Sp\U{e5}rvagn)"),
      SelectOption("SHIP", "Ship"),
      SelectOption("FERRY", "Ferry")
    ]
  {
    seq(|TransportModes|, k requires 0 <= k < |TransportModes| => SelectOption(TransportModes[k].0, TransportModes[k].1))
  }

  // ---------------------------------------------------------------- search

  /** `user_input.get("search", "").strip().lower()`. */
  function SearchTerm(input: map<string, string>): string {
    Lower(Strip(if "search" in input then input["search"] else ""))
  }

  predicate NameMatches(term: string, e: Entry) {
    Contains(Lower(e.1), term)
  }

  /** The sites whose lower-cased name contains the search term, in the
      order of the site list. */
  function MatchingSites(sites: Dict, term: string): (matching: Dict)
    ensures forall e :: e in matching <==> e in sites && Contains(Lower(e.1), term)
  {
    Keep(sites, e => NameMatches(term, e))
  }

  /** The matches keep the site list's order, and each site at most once. */
  lemma MatchingSitesKeepOrder(sites: Dict, term: string)
    requires DistinctKeys(sites)
    ensures IsSubsequence(MatchingSites(sites, term), sites)
    ensures DistinctKeys(MatchingSites(sites, term))
  {
    KeepIsSubsequence(sites, e => NameMatches(term, e));
    KeepKeepsDistinctKeys(sites, e => NameMatches(term, e));
  }

  // --------------------------------------------------------- site options

  function NameKey(e: Entry): string { e.1 }

  function CodeKey(e: Entry): string { e.0 }

  /** How many entries carry `name` as their value. */
  function NameCount(d: Dict, name: string): (n: nat)
    ensures n <= |d|
  {
    if d == [] then 0
    else NameCount(d[..|d| - 1], name) + (if d[|d| - 1].1 == name then 1 else 0)
  }

  /** A name is counted exactly when some entry carries it. */
  lemma {:induction false} NameCountPositive(d: Dict, name: string)
    ensures NameCount(d, name) > 0 <==> exists i :: 0 <= i < |d| && d[i].1 == name
  {
    if d != [] {
      var prefix := d[..|d| - 1];
      NameCountPositive(prefix, name);
      if NameCount(prefix, name) > 0 {
        var i :| 0 <= i < |prefix| && prefix[i].1 == name;
        assert d[i].1 == name;
      }
      if NameCount(d, name) == 0 {
        forall i | 0 <= i < |d|
          ensures d[i].1 != name
        {
          if i < |prefix| {
            assert prefix[i] == d[i];
          }
        }
      }
    }
  }

  lemma {:induction false} NameCountAppend(a: Dict, b: Dict, name: string)
    ensures NameCount(a + b, name) == NameCount(a, name) + NameCount(b, name)
  {
    if b != [] {
      assert (a + b)[..|a + b| - 1] == a + b[..|b| - 1];
      NameCountAppend(a, b[..|b| - 1], name);
    } else {
      assert a + b == a;
    }
  }

  /** Counting names does not depend on the order of the entries. */
  lemma {:induction false} NameCountPermutation(a: Dict, b: Dict, name: string)
    requires multiset(a) == multiset(b)
    ensures NameCount(a, name) == NameCount(b, name)
    decreases |a|
  {
    if a == [] {
      assert |b| == |multiset(b)| == 0;
    } else {
      var x := a[|a| - 1];
      var a' := a[..|a| - 1];
      assert a == a' + [x];
      assert x in multiset(b);
      var k :| 0 <= k < |b| && b[k] == x;
      var b' := b[..k] + b[k + 1..];
      assert b == b[..k] + [x] + b[k + 1..];
      assert multiset(b) == multiset(b[..k]) + multiset{x} + multiset(b[k + 1..]);
      assert multiset(a) == multiset(a') + multiset{x};
      assert multiset(b') == multiset(b[..k]) + multiset(b[k + 1..]);
      assert multiset(a') == multiset(a) - multiset{x};
      assert multiset(b') == multiset(b) - multiset{x};
      NameCountPermutation(a', b', name);
      NameCountAppend(a', [x], name);
      NameCountAppend(b[..k], [x], name);
      NameCountAppend(b[..k] + [x], b[k + 1..], name);
      NameCountAppend(b[..k], b[k + 1..], name);
    }
  }

  /** A name shared by several matches is shown with the site id. */
  function SiteLabel(siteId: string, name: string, count: nat): string {
    if count > 1 then name + " (" + siteId + ")" else name
  }

  /** The options of the "select" step over the matches already sorted by
      name, each labelled by `SiteLabel` with the number of matches of that
      name. */
  function SiteOptionsOf(sorted: Dict): (options: seq<SelectOption>)
    ensures |options| == |sorted|
    ensures forall k :: 0 <= k < |sorted| ==>
      options[k] == SelectOption(sorted[k].0, SiteLabel(sorted[k].0, sorted[k].1, NameCount(sorted, sorted[k].1)))
  {
    seq(|sorted|, k requires 0 <= k < |sorted| =>
      SelectOption(sorted[k].0, SiteLabel(sorted[k].0, sorted[k].1, NameCount(sorted, sorted[k].1))))
  }

  /** The options of the "select" step: the matches sorted by name. */
  function SiteOptionList(matching: Dict): seq<SelectOption> {
    SiteOptionsOf(SortBy(matching, NameKey))
  }

  /** `options` offers every match exactly once, in order of name, each
      labelled by `SiteLabel` with the number of matches of its name. */
  predicate ListsSites(matching: Dict, options: seq<SelectOption>) {
    && |options| == |matching|
    && (forall e :: e in matching ==> exists k :: 0 <= k < |options| && options[k].value == e.0)
    && (forall i, j :: 0 <= i < j < |options| ==> options[i].value != options[j].value)
    && (forall k :: 0 <= k < |options| ==> Get(matching, options[k].value).Some?)
    && (forall k :: 0 <= k < |options| ==>
          var name := Get(matching, options[k].value).value;
          options[k].text == SiteLabel(options[k].value, name, NameCount(matching, name)))
    && (forall i, j :: 0 <= i < j < |options| ==>
          AtMost(Get(matching, options[i].value).value, Get(matching, options[j].value).value))
  }

  /** Over any reordering of the matches by name, every match is offered
      exactly once, in order of name, and labelled with its id exactly when
      another match has the same name. */
  lemma SiteOptionsOfSpec(matching: Dict, sorted: Dict)
    requires DistinctKeys(matching)
    requires multiset(sorted) == multiset(matching) && SortedBy(sorted, NameKey)
    ensures ListsSites(matching, SiteOptionsOf(sorted))
  {
    assert |sorted| == |multiset(sorted)| == |matching|;
    PermutedEntries(matching, sorted);
    SiteOptionsCoverMatches(matching, sorted);
    SiteOptionsLabels(matching, sorted);
    SiteOptionsOrdered(matching, sorted);
  }

  lemma SiteOptionsOrdered(matching: Dict, sorted: Dict)
    requires DistinctKeys(sorted) && SortedBy(sorted, NameKey)
    requires forall k :: 0 <= k < |sorted| ==> Get(matching, sorted[k].0) == Some(sorted[k].1)
    ensures var options := SiteOptionsOf(sorted);
      && (forall k :: 0 <= k < |options| ==> Get(matching, options[k].value).Some?)
      && (forall i, j :: 0 <= i < j < |options| ==> options[i].value != options[j].value)
      && (forall i, j :: 0 <= i < j < |options| ==>
            AtMost(Get(matching, options[i].value).value, Get(matching, options[j].value).value))
  {
    var options := SiteOptionsOf(sorted);
    forall i, j | 0 <= i < j < |options|
      ensures options[i].value != options[j].value
      ensures AtMost(Get(matching, options[i].value).value, Get(matching, options[j].value).value)
    {
      assert options[i].value == sorted[i].0 && options[j].value == sorted[j].0;
      assert NameKey(sorted[i]) == Get(matching, sorted[i].0).value;
      assert NameKey(sorted[j]) == Get(matching, sorted[j].0).value;
    }
  }

  lemma SiteOptionsCoverMatches(matching: Dict, sorted: Dict)
    requires forall e :: e in matching ==> e in sorted
    ensures var options := SiteOptionsOf(sorted);
      forall e :: e in matching ==> exists k :: 0 <= k < |options| && options[k].value == e.0
  {
    var options := SiteOptionsOf(sorted);
    forall e | e in matching
      ensures exists k :: 0 <= k < |options| && options[k].value == e.0
    {
      var k :| 0 <= k < |sorted| && sorted[k] == e;
      assert options[k].value == e.0;
    }
  }

  lemma SiteOptionsLabels(matching: Dict, sorted: Dict)
    requires multiset(sorted) == multiset(matching)
    requires forall k :: 0 <= k < |sorted| ==> Get(matching, sorted[k].0) == Some(sorted[k].1)
    ensures var options := SiteOptionsOf(sorted);
      forall k :: 0 <= k < |options| ==>
        var name := Get(matching, options[k].value).value;
        options[k].text == SiteLabel(options[k].value, name, NameCount(matching, name))
  {
    forall name | true
      ensures NameCount(sorted, name) == NameCount(matching, name)
    {
      NameCountPermutation(sorted, matching, name);
    }
  }

  /** Every match is offered exactly once, in order of name, and labelled
      with its id exactly when another match has the same name. */
  lemma SiteOptionsSpec(matching: Dict)
    requires DistinctKeys(matching)
    ensures ListsSites(matching, SiteOptionList(matching))
  {
    SiteOptionsOfSpec(matching, SortBy(matching, NameKey));
  }

  /** The `name_counts` loop of `async_step_select`. */
  method CountNames(sorted: Dict) returns (counts: map<string, nat>)
    ensures forall name :: name in counts <==> NameCount(sorted, name) > 0
    ensures forall name :: name in counts ==> counts[name] == NameCount(sorted, name)
  {
    counts := map[];
    for i := 0 to |sorted|
      invariant forall name :: name in counts ==> counts[name] == NameCount(sorted[..i], name)
      invariant forall name :: name !in counts ==> NameCount(sorted[..i], name) == 0
      invariant forall name :: name in counts ==> NameCount(sorted[..i], name) > 0
    {
      var name := sorted[i].1;
      assert sorted[..i + 1][..i] == sorted[..i];
      counts := counts[name := (if name in counts then counts[name] else 0) + 1];
    }
    assert sorted[..|sorted|] == sorted;
  }

  /** `async_step_select` without input: the options over the matches
      sorted by name. */
  method SiteOptions(matching: Dict) returns (options: seq<SelectOption>)
    ensures options == SiteOptionList(matching)
  {
    var sorted := SortBy(matching, NameKey);
    options := SiteOptionsOver(sorted);
  }

  method SiteOptionsOver(sorted: Dict) returns (options: seq<SelectOption>)
    ensures options == SiteOptionsOf(sorted)
  {
    var nameCounts := CountNames(sorted);
    ghost var expected := SiteOptionsOf(sorted);
    options := [];
    for i := 0 to |sorted|
      invariant options == expected[..i]
    {
      var siteId, name := sorted[i].0, sorted[i].1;
      assert name in nameCounts by {
        NameCountPositive(sorted, name);
      }
      var shown := LabelSite(siteId, name, nameCounts[name]);
      options := options + [SelectOption(siteId, shown)];
      assert options == expected[..i + 1];
    }
    assert expected[..|sorted|] == expected;
  }

  /** One label of the select step's option loop. */
  method LabelSite(siteId: string, name: string, count: nat) returns (shown: string)
    ensures shown == SiteLabel(siteId, name, count)
  {
    if count > 1 {
      shown := name + " (" + siteId + ")";
    } else {
      shown := name;
    }
  }

  // ------------------------------------------------- lines and directions

  /** What one departure adds to `_fetch_lines(site, mode)`: its
      designation and line group, when it is of `mode` and has a
      designation (a missing group reads as ""). */
  function LineEntry(mode: string): Departure -> Option<Entry> {
    d =>
      if TransportModeOf(d) == Some(mode) && DesignationOf(d).GetOr("") != "" then
        Some((DesignationOf(d).value, GroupOf(d).GetOr("")))
      else None
  }

  /** What `_fetch_lines` returns for a departures list. */
  function LinesOf(departures: seq<Departure>, mode: string): Dict {
    Project(departures, LineEntry(mode))
  }

  /** A departure of `mode` whose line is `designation`. */
  predicate OffersLine(d: Departure, mode: string, designation: string) {
    TransportModeOf(d) == Some(mode) && DesignationOf(d) == Some(designation)
  }

  /** A designation is offered exactly when some departure of the mode
      carries it. */
  lemma LinesOfKeys(departures: seq<Departure>, mode: string, designation: string)
    ensures DistinctKeys(LinesOf(departures, mode))
    ensures designation in Keys(LinesOf(departures, mode)) <==>
      designation != "" && exists i :: 0 <= i < |departures| && OffersLine(departures[i], mode, designation)
  {
    if designation in Keys(LinesOf(departures, mode)) {
      var i :| 0 <= i < |departures| && LineEntry(mode)(departures[i]).Some? && LineEntry(mode)(departures[i]).value.0 == designation;
      assert OffersLine(departures[i], mode, designation);
    }
    if designation != "" && exists i :: 0 <= i < |departures| && OffersLine(departures[i], mode, designation) {
      var i :| 0 <= i < |departures| && OffersLine(departures[i], mode, designation);
      assert LineEntry(mode)(departures[i]).Some?;
    }
  }

  /** A line's group is the one of the first departure of that line. */
  lemma LinesOfFirstSeen(departures: seq<Departure>, mode: string, i: nat)
    requires i < |departures| && TransportModeOf(departures[i]) == Some(mode)
    requires DesignationOf(departures[i]).GetOr("") != ""
    requires forall j :: 0 <= j < i && TransportModeOf(departures[j]) == Some(mode) ==>
      DesignationOf(departures[j]) != DesignationOf(departures[i])
    ensures (DesignationOf(departures[i]).value, GroupOf(departures[i]).GetOr("")) in LinesOf(departures, mode)
  {
    ProjectFirstWins(departures, LineEntry(mode), i);
  }

  /** `_fetch_lines`: a loop over the departures that adds a designation
      the first time it is seen. */
  method FetchLines(body: Response, mode: string) returns (lines: Dict)
    ensures lines == LinesOf(DeparturesOf(body), mode)
  {
    var departures := DeparturesOf(body);
    lines := [];
    for i := 0 to |departures|
      invariant lines == LinesOf(departures[..i], mode)
    {
      assert departures[..i + 1][..i] == departures[..i];
      var dep := departures[i];
      if TransportModeOf(dep) != Some(mode) {
        continue;
      }
      var designation := DesignationOf(dep).GetOr("");
      var groupName := GroupOf(dep).GetOr("");
      if designation != "" && designation !in Keys(lines) {
        lines := lines + [(designation, groupName)];
      }
    }
    assert departures[..|departures|] == departures;
  }

  /** What one departure adds to `_fetch_directions(site, mode, line)`: its
      direction code (`str` of the JSON value, "" when missing) and
      destination, when it is of `mode`, of `line` when one is given, and
      both are non-empty. */
  function DirectionEntry(mode: string, line: string): Departure -> Option<Entry> {
    d =>
      if TransportModeOf(d) != Some(mode) then None
      else if line != "" && DesignationOf(d) != Some(line) then None
      else if CodeText(d.directionCode, "") != "" && Truthy(d.destination) then
        Some((CodeText(d.directionCode, ""), d.destination.value))
      else None
  }

  /** What `_fetch_directions` returns for a departures list. */
  function DirectionsOf(departures: seq<Departure>, mode: string, line: string): Dict {
    Project(departures, DirectionEntry(mode, line))
  }

  /** A departure that yields `code` for the direction step. */
  predicate OffersDirection(d: Departure, mode: string, line: string, code: string) {
    && TransportModeOf(d) == Some(mode)
    && (line != "" ==> DesignationOf(d) == Some(line))
    && CodeText(d.directionCode, "") == code
    && Truthy(d.destination)
  }

  /** A direction code is offered exactly when some departure of the mode
      (and of the line, when one is chosen) with a destination carries it. */
  lemma DirectionsOfKeys(departures: seq<Departure>, mode: string, line: string, code: string)
    ensures DistinctKeys(DirectionsOf(departures, mode, line))
    ensures code in Keys(DirectionsOf(departures, mode, line)) <==>
      code != "" && exists i :: 0 <= i < |departures| && OffersDirection(departures[i], mode, line, code)
  {
    var entry := DirectionEntry(mode, line);
    if code in Keys(DirectionsOf(departures, mode, line)) {
      var i :| 0 <= i < |departures| && entry(departures[i]).Some? && entry(departures[i]).value.0 == code;
      assert OffersDirection(departures[i], mode, line, code);
    }
    if code != "" && exists i :: 0 <= i < |departures| && OffersDirection(departures[i], mode, line, code) {
      var i :| 0 <= i < |departures| && OffersDirection(departures[i], mode, line, code);
      assert entry(departures[i]).Some?;
    }
  }

  /** A direction's destination is the one of the first departure with
      that code. */
  lemma DirectionsOfFirstSeen(departures: seq<Departure>, mode: string, line: string, i: nat)
    requires i < |departures| && DirectionEntry(mode, line)(departures[i]).Some?
    requires forall j :: 0 <= j < i && DirectionEntry(mode, line)(departures[j]).Some? ==>
      CodeText(departures[j].directionCode, "") != CodeText(departures[i].directionCode, "")
    ensures (CodeText(departures[i].directionCode, ""), departures[i].destination.value) in DirectionsOf(departures, mode, line)
  {
    ProjectFirstWins(departures, DirectionEntry(mode, line), i);
  }

  /** `_fetch_directions`: a loop over the departures that adds a direction
      code the first time it is seen. */
  method FetchDirections(body: Response, mode: string, line: string) returns (directions: Dict)
    ensures directions == DirectionsOf(DeparturesOf(body), mode, line)
  {
    var departures := DeparturesOf(body);
    directions := [];
    for i := 0 to |departures|
      invariant directions == DirectionsOf(departures[..i], mode, line)
    {
      assert departures[..i + 1][..i] == departures[..i];
      var dep := departures[i];
      if TransportModeOf(dep) != Some(mode) {
        continue;
      }
      if line != "" && DesignationOf(dep) != Some(line) {
        continue;
      }
      var code := CodeText(dep.directionCode, "");
      if code != "" && Truthy(dep.destination) && code !in Keys(directions) {
        directions := directions + [(code, dep.destination.value)];
      }
    }
    assert departures[..|departures|] == departures;
  }

  /** The lines the flow keeps after a fetch: none when it failed. */
  function FetchedLines(fetched: Result<Response, string>, mode: string): Dict {
    if fetched.Ok? then LinesOf(DeparturesOf(fetched.value), mode) else []
  }

  /** The directions the flow keeps after a fetch: none when it failed. */
  function FetchedDirections(fetched: Result<Response, string>, mode: string, line: string): Dict {
    if fetched.Ok? then DirectionsOf(DeparturesOf(fetched.value), mode, line) else []
  }

  // ------------------------------------------------- line and direction options

  /** A line is shown with its group name when it has one that differs
      from the designation. */
  function LineLabel(designation: string, name: string): string {
    if name != "" && name != designation then designation + " (" + name + ")" else designation
  }

  /** "All lines", then the lines already sorted by designation. */
  function LineOptionsOf(sorted: Dict): (options: seq<SelectOption>)
    ensures |options| == |sorted| + 1
    ensures options[0] == SelectOption(AllValue, "All lines")
    ensures forall k :: 0 <= k < |sorted| ==> options[k + 1] == SelectOption(sorted[k].0, LineLabel(sorted[k].0, sorted[k].1))
  {
    [SelectOption(AllValue, "All lines")] +
      seq(|sorted|, k requires 0 <= k < |sorted| => SelectOption(sorted[k].0, LineLabel(sorted[k].0, sorted[k].1)))
  }

  /** The options of the "line" step. */
  function LineOptionList(lines: Dict): seq<SelectOption> {
    LineOptionsOf(SortBy(lines, CodeKey))
  }

  /** Entries ordered by key, with every key once, have strictly increasing
      keys. */
  lemma SortedKeysIncrease(sorted: Dict)
    requires DistinctKeys(sorted) && SortedBy(sorted, CodeKey)
    ensures forall i, j :: 0 <= i < j < |sorted| ==> Less(sorted[i].0, sorted[j].0)
  {
    forall i, j | 0 <= i < j < |sorted|
      ensures Less(sorted[i].0, sorted[j].0)
    {
      LessTrichotomy(sorted[i].0, sorted[j].0);
    }
  }

  /** Over the lines ordered by designation, after "All lines" every line is
      offered exactly once, in increasing order of designation, labelled by
      its group name. */
  lemma LineOptionsOfSpec(lines: Dict, sorted: Dict)
    requires DistinctKeys(lines)
    requires multiset(sorted) == multiset(lines) && SortedBy(sorted, CodeKey)
    ensures var options := LineOptionsOf(sorted);
      && (forall e :: e in lines ==> exists k :: 1 <= k < |options| && options[k] == SelectOption(e.0, LineLabel(e.0, e.1)))
      && (forall k :: 1 <= k < |options| ==>
            Get(lines, options[k].value).Some? &&
            options[k].text == LineLabel(options[k].value, Get(lines, options[k].value).value))
      && (forall i, j :: 1 <= i < j < |options| ==> Less(options[i].value, options[j].value))
  {
    var options := LineOptionsOf(sorted);
    PermutedEntries(lines, sorted);
    SortedKeysIncrease(sorted);
    forall e | e in lines
      ensures exists k :: 1 <= k < |options| && options[k] == SelectOption(e.0, LineLabel(e.0, e.1))
    {
      var k :| 0 <= k < |sorted| && sorted[k] == e;
      assert options[k + 1] == SelectOption(e.0, LineLabel(e.0, e.1));
    }
    forall i, j | 1 <= i < j < |options|
      ensures Less(options[i].value, options[j].value)
    {
      assert options[i].value == sorted[i - 1].0 && options[j].value == sorted[j - 1].0;
    }
  }

  /** After "All lines" every available line is offered exactly once, in
      increasing order of designation, labelled by its group name; the line
      step is skipped exactly when there is at most one line. */
  lemma LineOptionsSpec(lines: Dict)
    requires DistinctKeys(lines)
    ensures var options := LineOptionList(lines);
      && |options| == |lines| + 1
      && options[0] == SelectOption(AllValue, "All lines")
      && (forall e :: e in lines ==> exists k :: 1 <= k < |options| && options[k] == SelectOption(e.0, LineLabel(e.0, e.1)))
      && (forall k :: 1 <= k < |options| ==>
            Get(lines, options[k].value).Some? &&
            options[k].text == LineLabel(options[k].value, Get(lines, options[k].value).value))
      && (forall i, j :: 1 <= i < j < |options| ==> Less(options[i].value, options[j].value))
  {
    var sorted := SortBy(lines, CodeKey);
    assert |sorted| == |multiset(sorted)| == |lines|;
    LineOptionsOfSpec(lines, sorted);
  }

  /** `async_step_line` without input: the option list. */
  method LineOptions(lines: Dict) returns (options: seq<SelectOption>)
    ensures options == LineOptionList(lines)
  {
    var sorted := SortBy(lines, CodeKey);
    options := LineOptionsOver(sorted);
  }

  /** The option loop of `async_step_line` over the lines sorted by
      designation. */
  method LineOptionsOver(sorted: Dict) returns (options: seq<SelectOption>)
    ensures options == LineOptionsOf(sorted)
  {
    var known: seq<SelectOption> := [];
    for i := 0 to |sorted|
      invariant |known| == i
      invariant forall k :: 0 <= k < i ==> known[k] == SelectOption(sorted[k].0, LineLabel(sorted[k].0, sorted[k].1))
    {
      var shown := LabelLine(sorted[i].0, sorted[i].1);
      known := known + [SelectOption(sorted[i].0, shown)];
    }
    options := [SelectOption(AllValue, "All lines")] + known;
  }

  /** One label of the line step's option loop. */
  method LabelLine(designation: string, name: string) returns (shown: string)
    ensures shown == LineLabel(designation, name)
  {
    if name != "" && name != designation {
      shown := designation + " (" + name + ")";
    } else {
      shown := designation;
    }
  }

  /** The options used when no direction is known. */
  const FallbackDirections: seq<SelectOption> := [SelectOption("1", "Direction 1"), SelectOption("2", "Direction 2")]

  /** A known direction is shown by its destination. */
  function DirectionLabel(destination: string): string {
    "\U{2192} " + destination
  }

  /** The known directions, already sorted by code, as options. */
  function KnownDirectionOptions(sorted: Dict): (options: seq<SelectOption>)
    ensures |options| == |sorted|
    ensures forall k :: 0 <= k < |sorted| ==> options[k] == SelectOption(sorted[k].0, DirectionLabel(sorted[k].1))
  {
    seq(|sorted|, k requires 0 <= k < |sorted| => SelectOption(sorted[k].0, DirectionLabel(sorted[k].1)))
  }

  /** "All directions", then the known directions already sorted by code,
      or the two fallback directions when none is known. */
  function DirectionOptionsOf(sorted: Dict): (options: seq<SelectOption>)
    ensures |options| == 1 + (if sorted == [] then |FallbackDirections| else |sorted|)
    ensures options[0] == SelectOption(AllValue, "All directions")
  {
    [SelectOption(AllValue, "All directions")] +
      if sorted == [] then FallbackDirections else KnownDirectionOptions(sorted)
  }

  /** The options of the "direction" step. */
  function DirectionOptionList(directions: Dict): seq<SelectOption> {
    DirectionOptionsOf(SortBy(directions, CodeKey))
  }

  /** `known` offers every direction of `directions` exactly once, in
      increasing order of code, each labelled by its destination. */
  predicate ListsDirections(directions: Dict, known: seq<SelectOption>) {
    && |known| == |directions|
    && (forall e :: e in directions ==> SelectOption(e.0, DirectionLabel(e.1)) in known)
    && (forall k :: 0 <= k < |known| ==>
          Get(directions, known[k].value).Some? &&
          known[k].text == DirectionLabel(Get(directions, known[k].value).value))
    && (forall i, j :: 0 <= i < j < |known| ==> Less(known[i].value, known[j].value))
  }

  /** Over the known directions ordered by code, every one is offered
      exactly once, in increasing order of code, labelled by its
      destination. */
  lemma KnownDirectionOptionsSpec(directions: Dict, sorted: Dict)
    requires DistinctKeys(directions)
    requires multiset(sorted) == multiset(directions) && SortedBy(sorted, CodeKey)
    ensures ListsDirections(directions, KnownDirectionOptions(sorted))
  {
    var options := KnownDirectionOptions(sorted);
    assert |sorted| == |multiset(sorted)| == |directions|;
    PermutedEntries(directions, sorted);
    SortedKeysIncrease(sorted);
    forall e | e in directions
      ensures SelectOption(e.0, DirectionLabel(e.1)) in options
    {
      var k :| 0 <= k < |sorted| && sorted[k] == e;
      assert options[k] == SelectOption(e.0, DirectionLabel(e.1));
    }
  }

  /** Over the directions ordered by code: with none known the two fallback
      directions follow "All directions"; otherwise the known directions
      follow it, each once, in increasing order of code, labelled by its
      destination. */
  lemma DirectionOptionsOfSpec(directions: Dict, sorted: Dict)
    requires DistinctKeys(directions)
    requires multiset(sorted) == multiset(directions) && SortedBy(sorted, CodeKey)
    ensures directions == [] ==>
      DirectionOptionsOf(sorted) == [SelectOption(AllValue, "All directions")] + FallbackDirections
    ensures directions != [] ==> ListsDirections(directions, DirectionOptionsOf(sorted)[1..])
  {
    assert |sorted| == |multiset(sorted)| == |directions|;
    if directions != [] {
      KnownDirectionOptionsSpec(directions, sorted);
      assert DirectionOptionsOf(sorted)[1..] == KnownDirectionOptions(sorted);
    }
  }

  /** "All directions" comes first. With no known direction the two
      fallback directions follow it; otherwise every known direction follows
      exactly once, in increasing order of code, labelled by its
      destination. */
  lemma DirectionOptionsSpec(directions: Dict)
    requires DistinctKeys(directions)
    ensures DirectionOptionList(directions)[0] == SelectOption(AllValue, "All directions")
    ensures directions == [] ==>
      DirectionOptionList(directions) == [SelectOption(AllValue, "All directions")] + FallbackDirections
    ensures directions != [] ==> ListsDirections(directions, DirectionOptionList(directions)[1..])
  {
    DirectionOptionsOfSpec(directions, SortBy(directions, CodeKey));
  }

  /** `async_step_direction` without input: the option list. */
  method DirectionOptions(directions: Dict) returns (options: seq<SelectOption>)
    ensures options == DirectionOptionList(directions)
  {
    var sorted := SortBy(directions, CodeKey);
    assert |sorted| == |multiset(sorted)| == |directions|;
    options := DirectionOptionsOver(directions, sorted);
  }

  /** The option loop of `async_step_direction` over the directions sorted
      by code. */
  method DirectionOptionsOver(directions: Dict, sorted: Dict) returns (options: seq<SelectOption>)
    requires |sorted| == |directions|
    ensures options == DirectionOptionsOf(sorted)
  {
    options := [SelectOption(AllValue, "All directions")];
    if directions != [] {
      for i := 0 to |sorted|
        invariant |options| == i + 1 && options[0] == SelectOption(AllValue, "All directions")
        invariant forall k :: 0 <= k < i ==> options[k + 1] == KnownDirectionOptions(sorted)[k]
      {
        options := options + [SelectOption(sorted[i].0, "\U{2192} " + sorted[i].1)];
      }
    } else {
      options := options + FallbackDirections;
    }
  }

  // ------------------------------------------------------------- the entry

  /** The entry title: the stop name, then the line, then the direction by
      destination (or by code when the destination is unknown). */
  function EntryTitle(siteName: string, line: string, direction: string, directionName: string): (title: string)
    ensures |siteName| <= |title| && title[..|siteName|] == siteName
    ensures line == "" && direction == "" ==> title == siteName
    ensures line != "" ==>
      var part := " Line " + line;
      |siteName| + |part| <= |title| && title[|siteName|..|siteName| + |part|] == part
    ensures direction != "" && directionName != "" ==>
      var part := " \U{2192} " + directionName;
      |part| <= |title| && title[|title| - |part|..] == part
    ensures direction != "" && directionName == "" ==>
      var part := " Dir " + direction;
      |part| <= |title| && title[|title| - |part|..] == part
    ensures direction == "" ==> title == siteName + (if line != "" then " Line " + line else "")
    ensures |title| == |siteName| + (if line != "" then 6 + |line| else 0)
      + (if direction == "" then 0 else if directionName != "" then 3 + |directionName| else 5 + |direction|)
  {
    var withLine := siteName + (if line != "" then " Line " + line else "");
    assert withLine[..|siteName|] == siteName;
    withLine +
      if direction != "" && directionName != "" then " \U{2192} " + directionName
      else if direction != "" then " Dir " + direction
      else ""
  }

  /** One run of the config flow, with the values it collects so far. */
  class Flow {
    var sites: Dict
    var matchingSites: Dict
    var selectedSiteId: Option<string>
    var selectedSiteName: Option<string>
    var selectedTransportMode: string
    var selectedLine: string
    var availableLines: Dict
    var selectedDirection: string
    var selectedDirectionName: string
    var availableDirections: Dict
    var uniqueId: Option<string>

    /** Each dict the flow holds has every key once. */
    ghost predicate Valid()
      reads this
    {
      && DistinctKeys(sites)
      && DistinctKeys(matchingSites)
      && DistinctKeys(availableLines)
      && DistinctKeys(availableDirections)
    }

    constructor ()
      ensures Valid()
      ensures sites == [] && matchingSites == []
      ensures selectedSiteId == None && selectedSiteName == None
      ensures selectedTransportMode == "TRAIN" && selectedLine == "" && availableLines == []
      ensures selectedDirection == "" && selectedDirectionName == "" && availableDirections == []
      ensures uniqueId == None
    {
      sites := [];
      matchingSites := [];
      selectedSiteId := None;
      selectedSiteName := None;
      selectedTransportMode := "TRAIN";
      selectedLine := "";
      availableLines := [];
      selectedDirection := "";
      selectedDirectionName := "";
      availableDirections := [];
      uniqueId := None;
    }

    /** Step 1: search. A term shorter than two characters is refused;
        otherwise the search runs. */
    method StepUser(userInput: Option<map<string, string>>, fetchedSites: Result<Dict, string>) returns (r: FlowResult)
      requires Valid()
      requires fetchedSites.Ok? ==> DistinctKeys(fetchedSites.value)
      modifies this`sites, this`matchingSites
      ensures Valid()
      ensures userInput.None? ==> r == ShowForm("user", [], map[]) && sites == old(sites) && matchingSites == old(matchingSites)
      ensures userInput.Some? && |SearchTerm(userInput.value)| < MinSearchLength ==>
        r == ShowForm("user", [], map["search" := "search_too_short"]) && sites == old(sites) && matchingSites == old(matchingSites)
      ensures userInput.Some? && |SearchTerm(userInput.value)| >= MinSearchLength ==>
        SearchDone(SearchTerm(userInput.value), old(sites), old(matchingSites), fetchedSites, r)
    {
      if userInput.None? {
        return ShowForm("user", [], map[]);
      }
      var term := SearchTerm(userInput.value);
      if |term| < MinSearchLength {
        return ShowForm("user", [], map["search" := "search_too_short"]);
      }
      r := Search(term, fetchedSites);
    }

    /** The outcome of a search for `term`: the site list is fetched only
        when none is kept, and a failed fetch is a connection error;
        otherwise the matches are kept, and no match is an error while any
        match moves the flow on to the list of matches. */
    ghost predicate SearchDone(term: string, oldSites: Dict, oldMatching: Dict, fetchedSites: Result<Dict, string>, r: FlowResult)
      reads this
    {
      if oldSites == [] && fetchedSites.Err? then
        && sites == oldSites
        && matchingSites == oldMatching
        && r == ShowForm("user", [], map["base" := "cannot_connect"])
      else
        && sites == (if oldSites == [] then fetchedSites.value else oldSites)
        && matchingSites == MatchingSites(sites, term)
        && r == (if matchingSites == [] then ShowForm("user", [], map["search" := "no_matches"])
                 else ShowForm("select", SiteOptionList(matchingSites), map[]))
    }

    /** The part of step 1 after the length check. */
    method Search(term: string, fetchedSites: Result<Dict, string>) returns (r: FlowResult)
      requires Valid()
      requires fetchedSites.Ok? ==> DistinctKeys(fetchedSites.value)
      modifies this`sites, this`matchingSites
      ensures Valid()
      ensures SearchDone(term, old(sites), old(matchingSites), fetchedSites, r)
    {
      if sites == [] {
        if fetchedSites.Err? {
          return ShowForm("user", [], map["base" := "cannot_connect"]);
        }
        sites := fetchedSites.value;
      }
      MatchingSitesKeepOrder(sites, term);
      matchingSites := MatchingSites(sites, term);
      if matchingSites == [] {
        return ShowForm("user", [], map["search" := "no_matches"]);
      }
      var options := SiteOptions(matchingSites);
      r := ShowForm("select", options, map[]);
    }

    /** Step 2: pick one of the matches. The chosen site's name is looked
        up among the matches ("Site <id>" when it is not one of them). */
    method StepSelect(userInput: Option<map<string, string>>) returns (r: FlowResult)
      requires Valid()
      requires userInput.Some? ==> "site" in userInput.value
      modifies this`selectedSiteId, this`selectedSiteName, this`selectedTransportMode, this`availableLines,
        this`selectedLine, this`availableDirections
      ensures Valid()
      ensures selectedTransportMode == old(selectedTransportMode) && selectedLine == old(selectedLine)
      ensures availableLines == old(availableLines) && availableDirections == old(availableDirections)
      ensures userInput.None? ==>
        r == ShowForm("select", SiteOptionList(matchingSites), map[]) &&
        selectedSiteId == old(selectedSiteId) && selectedSiteName == old(selectedSiteName)
      ensures userInput.Some? ==>
        var siteId := userInput.value["site"];
        && selectedSiteId == Some(siteId)
        && selectedSiteName == Some(Get(matchingSites, siteId).GetOr("Site " + siteId))
        && r == ShowForm("transport_mode", ModeOptions(), map[])
    {
      if userInput.Some? {
        var siteId := userInput.value["site"];
        selectedSiteId := Some(siteId);
        selectedSiteName := Some(Get(matchingSites, siteId).GetOr("Site " + siteId));
        r := StepTransportMode(None, Err(""), Err(""));
        return;
      }
      var options := SiteOptions(matchingSites);
      r := ShowForm("select", options, map[]);
    }

    /** Step 3: pick a transport mode, then fetch that mode's lines (none
        when the fetch fails) and go on to the line step. */
    method StepTransportMode(userInput: Option<map<string, string>>, fetchedLines: Result<Response, string>,
                             fetchedDirections: Result<Response, string>) returns (r: FlowResult)
      requires Valid()
      requires userInput.Some? ==> "transport_mode" in userInput.value
      modifies this`selectedTransportMode, this`availableLines, this`selectedLine, this`availableDirections
      ensures Valid()
      ensures userInput.None? ==>
        r == ShowForm("transport_mode", ModeOptions(), map[]) &&
        selectedTransportMode == old(selectedTransportMode) && availableLines == old(availableLines) &&
        selectedLine == old(selectedLine) && availableDirections == old(availableDirections)
      ensures userInput.Some? ==>
        && selectedTransportMode == userInput.value["transport_mode"]
        && availableLines == FetchedLines(fetchedLines, selectedTransportMode)
        && LineStepShown(old(selectedLine), old(availableDirections), fetchedDirections, r)
    {
      if userInput.None? {
        return ShowForm("transport_mode", ModeOptions(), map[]);
      }
      selectedTransportMode := userInput.value["transport_mode"];
      var lines: Dict := [];
      if fetchedLines.Ok? {
        lines := FetchLines(fetchedLines.value, selectedTransportMode);
      }
      availableLines := lines;
      r := StepLine(None, fetchedDirections);
    }

    /** What showing the line step does: with at most one line the step is
        skipped (all lines, directions fetched for the mode alone) and the
        direction step is shown; otherwise the line options are shown. */
    ghost predicate LineStepShown(oldLine: string, oldDirections: Dict, fetchedDirections: Result<Response, string>, r: FlowResult)
      reads this
    {
      if |LineOptionList(availableLines)| <= 2 then
        && selectedLine == ""
        && availableDirections == FetchedDirections(fetchedDirections, selectedTransportMode, "")
        && r == ShowForm("direction", DirectionOptionList(availableDirections), map[])
      else
        && selectedLine == oldLine
        && availableDirections == oldDirections
        && r == ShowForm("line", LineOptionList(availableLines), map[])
    }

    /** Step 4: pick a line ("__all__" for every line), then fetch the
        directions of that mode and line (none when the fetch fails) and go
        on to the direction step. */
    method StepLine(userInput: Option<map<string, string>>, fetchedDirections: Result<Response, string>) returns (r: FlowResult)
      requires Valid()
      requires userInput.Some? ==> "line" in userInput.value
      modifies this`selectedLine, this`availableDirections
      ensures Valid()
      ensures userInput.None? ==> LineStepShown(old(selectedLine), old(availableDirections), fetchedDirections, r)
      ensures userInput.Some? ==>
        && selectedLine == (if userInput.value["line"] == AllValue then "" else userInput.value["line"])
        && availableDirections == FetchedDirections(fetchedDirections, selectedTransportMode, selectedLine)
        && r == ShowForm("direction", DirectionOptionList(availableDirections), map[])
    {
      if userInput.Some? {
        var selected := userInput.value["line"];
        selectedLine := if selected == AllValue then "" else selected;
        r := ShowDirections(fetchedDirections);
        return;
      }
      var options := LineOptions(availableLines);
      if |options| <= 2 {
        selectedLine := "";
        r := ShowDirections(fetchedDirections);
        return;
      }
      r := ShowForm("line", options, map[]);
    }

    /** Keeps the directions of the chosen mode and line (none when the
        fetch failed) and shows the direction step over them. */
    method ShowDirections(fetchedDirections: Result<Response, string>) returns (r: FlowResult)
      requires Valid()
      modifies this`availableDirections
      ensures Valid()
      ensures availableDirections == FetchedDirections(fetchedDirections, selectedTransportMode, selectedLine)
      ensures r == ShowForm("direction", DirectionOptionList(availableDirections), map[])
    {
      var directions: Dict := [];
      if fetchedDirections.Ok? {
        directions := FetchDirections(fetchedDirections.value, selectedTransportMode, selectedLine);
      }
      availableDirections := directions;
      r := DirectionForm();
    }

    /** The direction step without input: its form. */
    method DirectionForm() returns (r: FlowResult)
      ensures r == ShowForm("direction", DirectionOptionList(availableDirections), map[])
    {
      var options := DirectionOptions(availableDirections);
      r := ShowForm("direction", options, map[]);
    }

    /** Step 5: pick a direction ("__all__" for both). The flow's unique id
        names the site, mode, line and direction; a target already
        configured aborts the flow, any other creates the entry. */
    method StepDirection(userInput: Option<map<string, string>>, configuredIds: set<string>) returns (r: FlowResult)
      requires Valid()
      requires userInput.Some? ==> "direction" in userInput.value && selectedSiteId.Some? && selectedSiteName.Some?
      modifies this`selectedDirection, this`selectedDirectionName, this`uniqueId
      ensures Valid()
      ensures userInput.None? ==>
        r == ShowForm("direction", DirectionOptionList(availableDirections), map[]) &&
        selectedDirection == old(selectedDirection) && selectedDirectionName == old(selectedDirectionName) && uniqueId == old(uniqueId)
      ensures userInput.Some? ==>
        && selectedDirection == (if userInput.value["direction"] == AllValue then "" else userInput.value["direction"])
        && selectedDirectionName == (if userInput.value["direction"] == AllValue then ""
                                     else Get(availableDirections, selectedDirection).GetOr(""))
        && uniqueId == Some(UniqueId(selectedSiteId.value, selectedTransportMode, selectedLine, selectedDirection))
        && (uniqueId.value in configuredIds ==> r == Abort("already_configured"))
        && (uniqueId.value !in configuredIds ==>
              r == CreateEntry(
                EntryTitle(selectedSiteName.value, selectedLine, selectedDirection, selectedDirectionName),
                EntryData(selectedSiteId.value, selectedSiteName.value, Some(selectedTransportMode),
                          Some(selectedLine), Some(selectedDirection), Some(selectedDirectionName))))
      ensures r.CreateEntry? ==>
        UniqueId(r.data.siteId, r.data.transportMode.GetOr(""), r.data.line.GetOr(""), r.data.directionCode.GetOr("")) == uniqueId.value
    {
      if userInput.None? {
        r := DirectionForm();
        return;
      }
      var selected := userInput.value["direction"];
      if selected == AllValue {
        selectedDirection := "";
        selectedDirectionName := "";
      } else {
        selectedDirection := selected;
        selectedDirectionName := Get(availableDirections, selected).GetOr("");
      }
      var id := BuildUniqueId(selectedSiteId.value, selectedTransportMode, selectedLine, selectedDirection);
      uniqueId := Some(id);
      if id in configuredIds {
        return Abort("already_configured");
      }
      var title := EntryTitle(selectedSiteName.value, selectedLine, selectedDirection, selectedDirectionName);
      r := CreateEntry(title, EntryData(selectedSiteId.value, selectedSiteName.value, Some(selectedTransportMode),
                                        Some(selectedLine), Some(selectedDirection), Some(selectedDirectionName)));
    }
  }
}
