# SL Departures, modelled in Dafny

A model of the core of the `sl_departures` Home Assistant integration. The
integration shows upcoming departures of Storstockholms Lokaltrafik (SL) at
one stop, optionally narrowed to one transport mode, one line and one
direction. The model has three parts:

- **Coordinator** (`custom_components/sl_departures/__init__.py`) decides
  which departures a configured target wants. It takes the transport mode
  from the entry's data or from the legacy options, and it takes the line in
  the same way. On each refresh it narrows the fetched list in three passes:
  transport mode, direction code, and a comma-separated list of line
  designations. Each pass keeps the order of the list.
- **Sensor** (`custom_components/sl_departures/sensor.py`) is one "slot" per
  position in that list. It computes the shown value, the availability, the
  icon and the attribute dictionary. The attributes include three derived
  values:
  - the delay in minutes, truncated toward zero;
  - the minutes until departure, never negative;
  - the local "HH:MM" clock time.

  The sensor also builds the slot's unique id, its name ("Next", "2nd",
  "3rd", "4th", …) and its device id.
- **ConfigFlow** (`custom_components/sl_departures/config_flow.py`) is the
  five-step wizard: search, select a stop, transport mode, line, direction.
  - It searches the site list case-insensitively.
  - It labels stops that share a name with their ids.
  - It collects each line and each direction the first time a departure
    shows it.
  - It skips the line step when there is at most one line.
  - It falls back to two generic directions when none is known.
  - It builds the entry's unique id and title.

The modules mirror this layout:

| module | what it holds |
|---|---|
| `Wrappers` | `Option` and `Result`. |
| `Text` | The Python string operations the code uses: `strip`, `split`, `lower`, `in`, `str(int)` and string ordering. |
| `Sequences` | List-comprehension filtering (`Keep`) and subsequences. |
| `Sorting` | `sorted(..., key=...)` as insertion sort by a string key. |
| `Dicts` | `dict[str, str]` as its items in insertion order, plus the first-seen-wins fill loop. |
| `Records` | The API's departure records, the config entry data and options, and the unique id shared by the config flow and the sensors. |
| `Coordinator` | The coordinator of `__init__.py`. |
| `Sensor` | The slot sensor of `sensor.py`. |
| `ConfigFlow` | The flow of `config_flow.py`. |

Three choices shape the data model:

- **Missing JSON keys.** A key the JSON leaves out and a key whose value is
  `null` both read as `None`, as they do for `dict.get(key)`. Where the code
  passes a default the two differ; the one place where that matters is
  listed under "Left out".
- **`direction_code`.** It keeps its JSON kind: missing, `null`, a number
  or a string. This matters because `str(None)` is `"None"`.
- **Timestamps.** A timestamp is its text together with what parsing that
  text gives:
  - `None` when it does not parse;
  - a naive wall-clock second;
  - a zone-aware UTC second.

  Subtracting a naive time from an aware one fails, exactly as the
  `TypeError` the code catches.

Three facts about the code shape the sensor model:

- **Cancellation.** The `canceled` attribute reads the top-level `state`
  field (`sensor.py:180`).
- **Views.** The integration has one kind of sensor: the per-slot sensor.
- **Naive expected times.** `_calculate_minutes_until` subtracts the
  zone-aware `datetime.now(timezone.utc)`. A naive expected time therefore
  always gives 0 minutes.

Inputs the code reads from the outside world are parameters:

- the HTTP responses, given as `Result` (`Err` is a connection error);
- the current UTC time;
- the local UTC offset;
- the unique ids already configured.

## Model

| member | source | states |
|---|---|---|
| Coordinator.DeparturesCoordinator.constructor | custom_components/sl_departures/__init__.py:61-85 | A non-empty transport mode in the entry data gives the single-mode list. Otherwise the `transport_modes` option applies, defaulting to ["TRAIN"]. A non-empty line in the data wins over the `line_filter` option, which defaults to "". The direction code defaults to "". The scan interval defaults to 60. |
| Coordinator.DeparturesCoordinator.UpdateData | custom_components/sl_departures/__init__.py:104-157 | A failed fetch becomes "Error fetching data: …". Otherwise the three passes, run only when configured, give exactly the one-pass reference filter `Filtered` of the fetched list, where a missing "departures" key reads as []. |
| Coordinator.FilteredKeeps | custom_components/sl_departures/__init__.py:124-155 | The result is a subsequence of the fetched list. A record is kept iff it is fetched and passes every configured test. |
| Coordinator.FilteredRecordsMatch | custom_components/sl_departures/__init__.py:124-155 | Every kept record has a transport mode, and it is one of the configured modes. When a direction is set, the record's `str(direction_code)` equals it. When a line filter is set, the record's designation is one of the listed lines. |
| Coordinator.FilteredByModeOnly | custom_components/sl_departures/__init__.py:124-128 | With no direction code and no line filter, only the transport-mode pass acts. |
| Coordinator.FilteredIdempotent | custom_components/sl_departures/__init__.py:124-155 | Filtering an already filtered list changes nothing. |
| Coordinator.FilteredMissingKey | custom_components/sl_departures/__init__.py:115 | A response without "departures" gives an empty list. |
| Coordinator.LineNumbersOfJoin | custom_components/sl_departures/__init__.py:151 | A filter written as comma-joined entries lists exactly those entries, stripped, in order. |
| Coordinator.LineNumbersOfPadded | custom_components/sl_departures/__init__.py:151 | In a filter of two comma-separated entries, the spaces around each entry are dropped and the entries are kept in order, however much space surrounds them. |
| Coordinator.LineNumbersExample | custom_components/sl_departures/__init__.py:151 | The filter " 19, 19S " lists exactly "19" and "19S". |
| Coordinator.LineFilterExample | custom_components/sl_departures/__init__.py:150-155 | Under the filter " 19, 19S ", lines "19" and "19S" pass and line "19A" does not. |
| Records.BuildUniqueId | custom_components/sl_departures/config_flow.py:252-259 | Appending the non-empty mode, line and direction parts in turn gives the shared id `UniqueId`, which starts with "sl_departures_" followed by the site id. |
| Records.UniqueIdSeparatesDirections | custom_components/sl_departures/config_flow.py:252-262 | Two targets at the same site, mode and line but in different directions (or one direction and "all") never share a unique id, so the already-configured check tells them apart. |
| Sensor.MinutesTowardZero | custom_components/sl_departures/sensor.py:211 | `int(seconds / 60)` truncates toward zero: for non-negative seconds it is the floor, for negative ones the ceiling. |
| Sensor.DelayMinutes | custom_components/sl_departures/sensor.py:198-213 | It is defined iff both times are present, non-empty and parsable, and either both are naive or both are zone-aware. Its value is the difference in whole minutes, truncated toward zero. |
| Sensor.DelaySwapped | custom_components/sl_departures/sensor.py:198-213 | Swapping the scheduled and expected times negates the delay. |
| Sensor.DelayExample | custom_components/sl_departures/sensor.py:198-213 | A departure scheduled at 10:00:00Z and expected at 10:05:00Z is 5 minutes late. |
| Sensor.MinutesUntil | custom_components/sl_departures/sensor.py:215-227 | Never negative. It is positive only for a zone-aware expected time at least a minute ahead, and then equals the whole minutes ahead. |
| Sensor.Clock | custom_components/sl_departures/sensor.py:239 | "HH:MM" with two-digit fields, an hour below 24 and a minute below 60; reading it back gives the minute of the day. |
| Sensor.ClockMinutesInjective | custom_components/sl_departures/sensor.py:239 | Two "HH:MM" strings that denote the same minute of the day are equal, so the minute `Clock` and `FormatTime` state fixes the string shown. |
| Sensor.FormatTime | custom_components/sl_departures/sensor.py:229-241 | Defined iff the time is present, non-empty and parsable. A zone-aware time is shown at the local offset; a naive one as it stands. |
| Sensor.SlotDeparture | custom_components/sl_departures/sensor.py:125-130 | The slot has a departure iff the index is inside the data, and then it is the element at that index. |
| Sensor.NativeValue | custom_components/sl_departures/sensor.py:132-138 | The record's "display" for a non-empty record in range. Nothing outside the data. |
| Sensor.Available | custom_components/sl_departures/sensor.py:140-143 | Available iff the coordinator is available and the index is inside the data. |
| Sensor.Icon | custom_components/sl_departures/sensor.py:145-154 | The clock-alert icon iff the slot's record is non-empty and late by a positive number of minutes. Otherwise it is the mode's icon, with the train for unknown modes. |
| Sensor.DeviationMessages | custom_components/sl_departures/sensor.py:189-194 | Exactly the non-empty messages, in the order of the deviations: the list of messages with the empty and missing ones removed. |
| Sensor.DeviationMessagesExactly | custom_components/sl_departures/sensor.py:191-194 | No listed message is empty, every non-empty message is listed, and the list is empty iff no deviation has a message, so the `deviations` attribute is set exactly when some deviation has one. |
| Sensor.SlotAttributes | custom_components/sl_departures/sensor.py:156-196 | `{}` iff the slot has no record or an empty one. Otherwise: delay_minutes is the delay or 0; minutes_until is `MinutesUntil` of the expected time and time_formatted is `FormatTime` of it; canceled is iff state is "CANCELLED"; real_time is iff the prediction state is "NORMAL"; agency is "SL"; line, transport_mode, destination, direction, state, platform, stop_area and the two time texts are the record's own fields; deviations are present iff some deviation has a message, and then they are those messages in order. |
| Sensor.PositionLabelInjective | custom_components/sl_departures/sensor.py:113-123 | Different slots get different names ("Next", "2nd", "3rd", "4th", …). |
| Sensor.NumberedLabelEndsInTh | custom_components/sl_departures/sensor.py:122-123 | From the fourth slot on, a name ends in "th". |
| Sensor.SlotUniqueIdInjective | custom_components/sl_departures/sensor.py:69-78 | Different slots of one target get different unique ids. |
| Sensor.DepartureSensor.constructor | custom_components/sl_departures/sensor.py:62-111 | The unique id is the config flow's id for the entry followed by "_dep{index}". The name is the position label. The device id joins the site, mode, line and direction code with "_", skipping empty parts. The icon is the mode's icon. |
| Dicts.Get | custom_components/sl_departures/config_flow.py:106-108 | `dict.get` is defined iff the key is present, and gives the value stored under it. |
| Dicts.Project | custom_components/sl_departures/config_flow.py:347-356 | The first-seen fill loop gives a dict with each key once, holding exactly the keys some element gives. |
| Dicts.ProjectFirstWins | custom_components/sl_departures/config_flow.py:355-356 | The value kept for a key is the one from the first element that gives that key. |
| Dicts.PermutedEntries | custom_components/sl_departures/config_flow.py:112 | Sorting a dict's items lists every entry once, and each listed value is the one stored under its key. |
| ConfigFlow.ModeOptions | custom_components/sl_departures/config_flow.py:159-163 | The transport-mode selector offers exactly six options, in this order: TRAIN "Train (Pendeltåg)", METRO "Metro (Tunnelbana)", BUS "Bus", TRAM "Tram (Spårvagn)", SHIP "Ship", FERRY "Ferry". |
| ConfigFlow.MatchingSites | custom_components/sl_departures/config_flow.py:77-81 | A site matches iff the lower-cased search term occurs in its lower-cased name. |
| ConfigFlow.MatchingSitesKeepOrder | custom_components/sl_departures/config_flow.py:77-81 | The matches keep the site list's order, and each site occurs once. |
| Sorting.SortBy | custom_components/sl_departures/config_flow.py:112 | `sorted(..., key=...)` gives a list ordered by the key that is a permutation of its input. |
| ConfigFlow.NameCountPermutation | custom_components/sl_departures/config_flow.py:112-116 | The number of stops with a given name does not depend on the order of the list. |
| ConfigFlow.CountNames | custom_components/sl_departures/config_flow.py:114-116 | The `name_counts` loop maps exactly the names that occur, each to its number of occurrences. |
| ConfigFlow.NameCountPositive | custom_components/sl_departures/config_flow.py:115-117 | A name is counted a positive number of times iff some stop carries it, so the lookup `name_counts[name]` in the option loop always finds its key. |
| ConfigFlow.SiteOptionsSpec | custom_components/sl_departures/config_flow.py:112-125 | Every match is offered exactly once, in order of name. Each option is labelled with its site's name, with the id appended iff another match has the same name. |
| ConfigFlow.SiteOptions | custom_components/sl_departures/config_flow.py:112-125 | The option loop gives exactly the specified option list over the matches sorted by name. |
| ConfigFlow.SiteOptionsOver | custom_components/sl_departures/config_flow.py:119-125 | The loop over the stops sorted by name gives, element by element, the specified option for each stop in that order. |
| ConfigFlow.LinesOfKeys | custom_components/sl_departures/config_flow.py:344-358 | A designation is offered iff it is non-empty and some departure of the chosen mode carries it. Each designation is offered once. |
| ConfigFlow.LinesOfFirstSeen | custom_components/sl_departures/config_flow.py:344-358 | A line's group name is the one on the first departure of that line. |
| ConfigFlow.FetchLines | custom_components/sl_departures/config_flow.py:344-358 | The loop over the departures, with `continue` for other modes, computes exactly `LinesOf` of the response. |
| ConfigFlow.DirectionsOfKeys | custom_components/sl_departures/config_flow.py:371-390 | A direction code is offered iff it is non-empty and some departure carries it together with a non-empty destination. That departure must be of the chosen mode, and of the chosen line when one is chosen. Each code is offered once. |
| ConfigFlow.DirectionsOfFirstSeen | custom_components/sl_departures/config_flow.py:371-390 | A direction's destination is the one on the first departure with that code. |
| ConfigFlow.FetchDirections | custom_components/sl_departures/config_flow.py:371-390 | The loop over the departures computes exactly `DirectionsOf` of the response. |
| ConfigFlow.LineOptionsSpec | custom_components/sl_departures/config_flow.py:198-208 | "All lines" comes first. After it, every available line is offered exactly once, in strictly increasing order of designation. A line is labelled with its group name when that name is non-empty and differs from the designation. |
| ConfigFlow.LineOptions | custom_components/sl_departures/config_flow.py:198-208 | The option loop gives exactly the specified line option list. |
| ConfigFlow.SortedKeysIncrease | custom_components/sl_departures/config_flow.py:202-204 | Sorting a dict's items by key lists the keys in strictly increasing order. |
| ConfigFlow.LineOptionsOver | custom_components/sl_departures/config_flow.py:199-208 | The loop over the lines sorted by designation gives "All lines" followed by the specified option for each line in that order. |
| ConfigFlow.DirectionOptionsSpec | custom_components/sl_departures/config_flow.py:286-302 | "All directions" comes first. With no known direction, "Direction 1" and "Direction 2" follow. Otherwise every known direction follows exactly once, in strictly increasing order of code, labelled "→ destination". |
| ConfigFlow.DirectionOptions | custom_components/sl_departures/config_flow.py:286-302 | The option loop gives exactly the specified direction option list. |
| ConfigFlow.DirectionOptionsOver | custom_components/sl_departures/config_flow.py:287-302 | The loop over the sorted directions gives "All directions" followed by one "→ destination" option per direction, or the two fallback options when there is none. |
| ConfigFlow.EntryTitle | custom_components/sl_departures/config_flow.py:264-272 | The title starts with the stop name. " Line X" follows it when a line is chosen. It ends in " → destination", or in " Dir code" when the destination is unknown. With no direction it is the name plus the line part only. Its length is exactly the sum of those parts, so nothing else is in it. |
| ConfigFlow.Flow.constructor | custom_components/sl_departures/config_flow.py:38-48 | The flow starts with empty dicts, no site, mode "TRAIN", and no line and no direction. |
| ConfigFlow.Flow.StepUser | custom_components/sl_departures/config_flow.py:56-96 | No input shows the search form. A term of fewer than 2 characters after strip and lower gives "search_too_short" and changes nothing. Otherwise the search runs, as `Search` states. No other field changes. |
| ConfigFlow.Flow.Search | custom_components/sl_departures/config_flow.py:69-86 | The site list is fetched only when none is cached, and a failed fetch gives "cannot_connect" and keeps both the sites and the matches. Otherwise the matches are stored. No match gives "no_matches"; any match shows the select step with the stop options. |
| ConfigFlow.Flow.StepSelect | custom_components/sl_departures/config_flow.py:98-140 | No input shows the stop options. Input stores the chosen id and its name among the matches ("Site <id>" when it is not one), then shows the transport-mode options. |
| ConfigFlow.Flow.StepTransportMode | custom_components/sl_departures/config_flow.py:142-177 | Input stores the mode and that mode's lines (none when the fetch fails), then shows the line step as `LineStepShown` states. |
| ConfigFlow.Flow.StepLine | custom_components/sl_departures/config_flow.py:179-235 | With at most one line, the step is skipped: all lines, the mode's directions, then the direction form. Otherwise the line options are shown. Input maps "__all__" to "", fetches the directions of that mode and line (none on failure) and shows the direction options. |
| ConfigFlow.Flow.ShowDirections | custom_components/sl_departures/config_flow.py:213-221 | The stored directions are those fetched for the chosen mode and line (none on failure), and the direction form with their options is shown. |
| ConfigFlow.Flow.StepDirection | custom_components/sl_departures/config_flow.py:237-316 | Input maps "__all__" to "" and looks up the destination. The unique id is built from the site, mode, line and direction. An id already configured aborts with "already_configured". Otherwise the entry is created with that title and data, and the id the sensors rebuild from the entry's data is the flow's id. |

## Left out

- HTTP and JSON decoding are not modelled. Each fetch is a parameter holding its decoded body or an error. `_fetch_sites` (`config_flow.py:318-331`) is represented only by the site dict it returns.
- The coordinator's polling schedule and the retention of the last good data after a failed refresh are not modelled. Both belong to Home Assistant's `DataUpdateCoordinator`, whose code is not part of this model.
- Home Assistant glue is not modelled:
  - `async_setup_entry`, unload and reload, and the `num_departures` loop that creates the slots;
  - `hass.data`, schemas and selectors;
  - `DeviceInfo`;
  - the device display name at `sensor.py:87-91`, which carries an encoding artefact in place of the arrow.
- The options flow (`config_flow.py:393-448`) is not modelled. The options it saves are an input to the coordinator's constructor.
- `datetime.fromisoformat` (after replacing "Z") is not modelled. Each timestamp carries its parse result: naive or aware whole seconds, or a parse failure. Sub-second precision is dropped.
- The local time zone is a fixed UTC offset parameter. Daylight-saving changes are not modelled.
- `str.lower` is modelled for ASCII and Latin-1 letters only. Other scripts keep their case.
- A nested object (`line`, `journey`, `stop_point`, `stop_area`) that is JSON `null` is read as missing. Python would raise `AttributeError` on `.get` of `None`.
- Records.DeparturesOf: a "departures" value that is JSON `null` is read as missing, giving no departures. In the code, `data.get("departures", [])` then returns `None`: `len(departures)` (`__init__.py:120`) and the loops over it (`config_flow.py:347`, `config_flow.py:374`) raise `TypeError`. That error is not caught by the code, and what Home Assistant then does is not part of this model.
- A floating-point `direction_code` is not modelled: the code is missing, `null`, an integer or a string.
- Records.IsEmptyRecord: the `if not dep` test treats a record as empty only when none of the keys the integration reads is present. A record holding only unknown keys is not distinguished.
- ConfigFlow.SiteOptionsSpec: the order of stops that share a name is not stated. Python's `sorted` keeps the site list's order among them.
- ConfigFlow.DirectionOptions: `sorted(items())` orders by (code, destination), and the model sorts by code alone. Codes are distinct keys, so the order is the same.
- ConfigFlow.LineEntry: a line group that is JSON `null` is stored as "" where Python stores `None`. Both give the same label.
- ConfigFlow.Flow.constructor: `_selected_direction_name` starts as "". The source first assigns it in the direction step.
- ConfigFlow.Flow.StepDirection:
  - The already-configured check receives the set of configured unique ids as a parameter.
  - It requires a stop to have been selected. The flow reaches the direction step only through the select step.
- ConfigFlow.Flow.StepSelect, ConfigFlow.Flow.StepTransportMode, ConfigFlow.Flow.StepLine and ConfigFlow.Flow.StepDirection require the submitted form to hold their field. The schemas mark those fields as required.
- The site id passed to each fetch is not modelled, because the fetch result is a parameter.
