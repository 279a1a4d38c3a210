# Aviation weather integration: a verified model

This project models the deterministic core of a Home Assistant integration that
shows METAR (current conditions) and TAF (forecast) reports for a set of
airports. The reports come from the aviationweather.gov data API. The model
covers five parts:

- **the sensors** (`sensor.dfy`). There is one sensor per (ICAO code, feed).
  Each keeps the first record of a batch whose `icaoId` is exactly its
  upper-case code. From that record it derives its native value, its icon and
  its extra state attributes, or it clears all three. The file also holds the
  platform setup and the registry of sensors by code (`registry.dfy`). The
  setup fetches each selected feed at most once, for the whole code string. It
  then creates the sensors, METAR before TAF, and appends each one to the list
  of its code.
- **the API client** (`api.dfy`). It classifies the outcome of one HTTP
  exchange into a list of station records: only a 200 with a list body yields
  records, and every other outcome yields `[]`. It also computes the set of
  requested stations that are missing from the reply.
- **the configuration flow** (`config_flow.dfy`). ICAO code validation
  normalises the input, collects one reason per bad code and returns the
  sorted, duplicate-free, comma-joined codes. The user step splits the result
  into one entry plus import flows. The import step aborts on a duplicate. The
  options step rewrites an entry's feeds.
- **the airport table** (`airports.dfy`). It covers the lazily filled cache,
  case-insensitive lookup, code validity and the display label.
- **the integration entry points** (`integration.dfy`). The `update_weather`
  service resolves its targets against the registry and refreshes them one by
  one. A raise in one target does not stop the others. Unloading an entry
  removes its keys from the shared data.

`json.dfy` models decoded JSON values and Python truthiness: None, False, 0,
0.0, "", [] and {} are false. `text.dfy` models the Python string built-ins
the code uses: `strip`, `upper`, `isalpha`, `split`, `join` and
`sorted(set(...))`. `const.dfy` holds the integration's constants.

How the integration talks to the weather service:

- Only the platform setup batches requests. It sends one request per selected feed,
  carrying the whole code string (`sensor.py:82-88`).
- A service refresh makes each selected sensor fetch its own code alone
  (`sensor.py:198`, `sensor.py:297`). `Integration.RequestsFor` counts those
  requests.
- An unknown `icao_code` is logged, and the handler returns without updating
  anything. No error is raised.
- The user step creates one configuration entry per airport.

## Model

| member | source | states |
|---|---|---|
| Sensor.FirstMatch | custom_components/av_weather/sensor.py:139-144 | the index found is the first record whose `icaoId` equals the code exactly; no record before it matches |
| Sensor.FindStation | custom_components/av_weather/sensor.py:137-147 | the kept record is None exactly when no record of the batch matches the code, else it is the first matching one |
| Sensor.FoundRecordIsDisplayed | custom_components/av_weather/sensor.py:204-208 | a record kept for a code is never falsy, so a sensor with a record never takes the "no data" branch of `_update_state` |
| Sensor.MissingMeansNoRecord | custom_components/av_weather/api.py:34-44 | for a requested code other than "UNKNOWN", the code is in the logged missing set iff a sensor for it finds no record in the batch |
| Sensor.MetarIcon | custom_components/av_weather/sensor.py:212-223 | VFR gives sunny, IFR cloudy and LIFR fog; everything else (MVFR, absent, unknown) gives partly cloudy, each in both directions |
| Sensor.CloudLines | custom_components/av_weather/sensor.py:253-257 | truthy clouds format without raising iff they are a list of objects; a non-list or a list holding a non-object raises; otherwise there is one line per layer, in layer order |
| Sensor.LayerTextParts | custom_components/av_weather/sensor.py:255-256 | every cloud line ends in " ft AGL"; a missing cover reads "Unknown" and a missing base "N/A", but a cover present as None reads "None" |
| Sensor.MetarAttributesTable | custom_components/av_weather/sensor.py:225-271 | the METAR dictionary holds, under every key, exactly the value the per-key METAR table gives |
| Sensor.MetarKey | custom_components/av_weather/sensor.py:225-271 | the same, for one key |
| Sensor.TafAttributesTable | custom_components/av_weather/sensor.py:308-346 | the TAF dictionary holds, under every key, exactly the value the per-key TAF table gives |
| Sensor.PutPosition | custom_components/av_weather/sensor.py:264-271 | latitude and longitude are inserted together when both are non-None, and elevation when it is non-None; nothing else changes |
| Sensor.PutMetarHead | custom_components/av_weather/sensor.py:225-250 | the step-by-step inserts into a fresh dictionary end in the METAR head: observation time (parsed, else raw) iff `reportTime` is truthy, plus the eleven basic keys |
| Sensor.PutMetarAttributes | custom_components/av_weather/sensor.py:225-271 | the dictionary ends as the METAR attributes of the record, and the update raises exactly when the clouds are truthy but not a list of objects |
| Sensor.PutTafAttributes | custom_components/av_weather/sensor.py:308-346 | the step-by-step inserts end in the TAF attributes of the record, and the update raises exactly when a truthy valid time's conversion escapes its `try` |
| Sensor.AttributesForTable | custom_components/av_weather/sensor.py:202-208 | the dictionary holds, under every key, the entry of its feed's table, and without a record (None or empty) it holds no key |
| Sensor.MetarFixedKeys | custom_components/av_weather/sensor.py:226-250 | the eleven basic METAR keys are always present, `sea_level_pressure_mb` is None, `observation_time` is present iff `reportTime` is truthy, and no TAF key is present |
| Sensor.MetarConditionalKeys | custom_components/av_weather/sensor.py:252-271 | when the clouds format: `cloud_coverage` iff the clouds are truthy, one line per layer in order; `weather` iff `wxString` is truthy; latitude and longitude together iff both are non-None; elevation iff non-None |
| Sensor.MetarRaisedKeys | custom_components/av_weather/sensor.py:253-257 | when the cloud formatting raises, none of the keys inserted after it is present |
| Sensor.TafKeys | custom_components/av_weather/sensor.py:308-346 | when no conversion escapes: `raw_forecast` and `station_id` always; `issue_time`, `valid_time_from` and `valid_time_to` each iff the source value is truthy (so epoch 0 is left out); a valid time whose conversion is rejected is kept raw; position keys as for METAR; none of the thirteen METAR-only keys |
| Sensor.TafRaisedKeys | custom_components/av_weather/sensor.py:319-337 | when a valid-time conversion escapes, `raw_forecast`, `station_id`, `issue_time` (iff truthy) and, when only the `validTimeTo` conversion escapes, `valid_time_from` (iff truthy, raw when rejected) stay; no valid time after the escape, no position key and no METAR-only key is present |
| Sensor.Sensor.constructor | custom_components/av_weather/sensor.py:126-132 | the code is stored upper-cased, the name and the unique id are built from it and the feed, and there is no record yet |
| Sensor.Sensor.UpdateState | custom_components/av_weather/sensor.py:202-346 | the native value and the attributes become the functions of the kept record (cleared without one), the METAR icon follows the flight category or resets to partly cloudy, the TAF icon is kept, and the method raises exactly on malformed METAR clouds or on a TAF valid time whose conversion escapes its `try` |
| Sensor.Sensor.UpdateFromDataList | custom_components/av_weather/sensor.py:137-156 | the sensor keeps the first record matching its code, or None; it is available iff the batch has a record for its code; its state is re-derived from that record alone, so nothing of a previous record survives |
| Sensor.Sensor.Initialize | custom_components/av_weather/sensor.py:186-190 | the initial batch is applied, then the icon is forced to the kind's default, so a METAR sensor starts partly cloudy whatever its first record says |
| Sensor.Sensor.UpdateWeather | custom_components/av_weather/sensor.py:192-200 | when another feed is named, nothing changes and nothing is fetched; otherwise exactly one request is sent, for the sensor's own code on its feed's endpoint, and the reply is applied (the TAF twin is at sensor.py:291-299) |
| Sensor.NoLeftoverState | custom_components/av_weather/sensor.py:204-208 | a batch without a record for the code leaves no record, a None native value and no attribute |
| Sensor.StationAttributeIsCode | custom_components/av_weather/sensor.py:241 | a sensor that found a record shows its own code as `station_id` |
| Sensor.FormatAirportNameSync | custom_components/av_weather/sensor.py:29-55 | the device label starts with the code, and is the bare code when the cache is empty or lacks the code |
| Sensor.DeviceLabelOmitsName | custom_components/av_weather/sensor.py:29-55 | the device label is the configuration-flow label of the same airport with its name left out |
| Sensor.DomainData.constructor | custom_components/av_weather/__init__.py:29 | before any setup there is no domain data, no entry, no registry and no service |
| Sensor.OrEmpty | custom_components/av_weather/sensor.py:73-74 | a stored registry is used as it is; without one, a fresh registry with no codes |
| Sensor.Codes | custom_components/av_weather/sensor.py:92-93 | one code per comma-separated part, in order; no code holds a comma or starts or ends with whitespace; a string without a comma gives one code |
| Sensor.CodesOfAccepted | custom_components/av_weather/sensor.py:92-93 | reading the codes back from an accepted configuration string gives exactly the codes validation accepted, in the same order |
| Sensor.PlannedForMembers | custom_components/av_weather/sensor.py:94-108 | one code's sensors are exactly its selected feeds |
| Sensor.PlanMembers | custom_components/av_weather/sensor.py:92-108 | the planned sensors are exactly the (code, selected feed) pairs: a pair is planned iff its code is listed and its feed selected |
| Sensor.PlanPrefix | custom_components/av_weather/sensor.py:92-108 | the sensors of the first codes come first, in code order |
| Sensor.CreateSensor | custom_components/av_weather/sensor.py:95-103 | a new sensor holds the first record of its feed's batch for its upper-cased code, and starts with its kind's default icon unless the initial update raised |
| Sensor.FetchInitial | custom_components/av_weather/sensor.py:78-88 | each selected feed is fetched exactly once, METAR first, with the whole code string; an unselected feed gets an empty batch |
| Sensor.SetupCode | custom_components/av_weather/sensor.py:94-108 | one code's METAR sensor, then its TAF sensor, each set up and appended to the code's list right after creation; a raise stops before the append |
| Sensor.SetupNextCode | custom_components/av_weather/sensor.py:92-108 | one round of the entity loop extends the set-up sensors and the registry by the next code's sensors |
| Sensor.RegisterSensors | custom_components/av_weather/sensor.py:90-108 | the sensors made are the plan's first slots, each set up from its feed's batch; without a raise there is one per planned slot; the registry gets each under its code, in order |
| Sensor.SetupSensors | custom_components/av_weather/sensor.py:78-108 | the requests are the initial fetches (METAR first); the sensors are the plan's first slots, set up from the batches; the registry stays well formed and gets each sensor under its code, in order |
| Sensor.SetupEntry | custom_components/av_weather/sensor.py:58-110 | the client is stored under the entry id; the requests are the initial fetches; the sensors are set up as planned and registered, and the earlier sensors stay registered after a raise |
| Registry.EmptyOf | custom_components/av_weather/sensor.py:73-74 | a new registry is well formed and has no key |
| Registry.AddSpec | custom_components/av_weather/sensor.py:98-100 | appending creates the code's list if missing, puts the item at its end, adds a new code at the end of the key order and leaves the other lists alone |
| Registry.Remove | custom_components/av_weather/__init__.py:95-96 | popping a code removes it and keeps every other list; popping an absent code changes nothing |
| Registry.RemoveAll | custom_components/av_weather/__init__.py:93-96 | after popping a list of codes, exactly the other keys remain, with their lists and in their old relative order |
| Registry.AllMembers | custom_components/av_weather/__init__.py:55-57 | the "all entities" list holds exactly the registered sensors |
| Registry.RegisterAllKeys | custom_components/av_weather/sensor.py:92-108 | registering a batch adds exactly the batch's codes as keys |
| Registry.RegisterAllLists | custom_components/av_weather/sensor.py:92-108 | registering a batch appends, to each code's list, exactly that code's items, in batch order |
| Registry.RegisterAllAppend | custom_components/av_weather/sensor.py:92-108 | registering two batches in turn is registering their concatenation |
| Api.Classify | custom_components/av_weather/api.py:25-84 | a 200 reply whose body is a list of station objects yields that list unchanged; any other reply yields `[]`: a non-list or undecodable body, 204, 400, 429 and every other status, a timeout, a connection error, a client error, any other exception |
| Api.MissingStations | custom_components/av_weather/api.py:34-36 | the missing set holds requested stations only, and exactly those with no station id in the reply |
| Airports.AirportCache.constructor | custom_components/av_weather/airports.py:10 | the cache starts empty (None) |
| Airports.AirportCache.LoadAirports | custom_components/av_weather/airports.py:32-41 | the table is read only while the cache is None; afterwards the cached table is returned, even an empty one |
| Airports.GetAirportByIcao | custom_components/av_weather/airports.py:44-47 | an entry is found iff the upper-cased code is a key, and it is that key's entry |
| Airports.LookupIgnoresCase | custom_components/av_weather/airports.py:44-47 | a code and its upper-case form find the same entry |
| Airports.ValidateIcaoCode | custom_components/av_weather/airports.py:50-52 | a code is valid iff its upper-cased form is a key of the table |
| Airports.LabelHead | custom_components/av_weather/airports.py:72-75 | the first label part is the code alone iff there is no IATA code; otherwise the code followed by " (<IATA>)" |
| Airports.LocationParts | custom_components/av_weather/airports.py:77-83 | exactly the non-empty ones of name (default "Unknown"), city and country, one part each, in that order |
| Airports.JoinLabel | custom_components/av_weather/airports.py:85-88 | joining the head with the already joined location parts equals one " - " join of the head and every location part |
| Airports.FormatAirportLabel | custom_components/av_weather/airports.py:58-88 | with no entry or an empty one, the label is the code; otherwise it is the " - " join of the head and the location parts, starts with "<code> (<IATA>)" when there is a non-empty IATA code and never shows " (" after the code otherwise, and is the head alone without location parts |
| Airports.SuppliedDataSkipsLookup | custom_components/av_weather/airports.py:60-61 | with an entry supplied, the label does not depend on the table |
| ConfigFlow.CleanCodes | custom_components/av_weather/config_flow.py:28 | there are no more normalised codes than inputs, and none of them is empty |
| ConfigFlow.CleanCodesAppend | custom_components/av_weather/config_flow.py:28 | normalising two lists one after the other is normalising their concatenation, so the codes keep the inputs' order and multiplicity |
| ConfigFlow.CleanCodesMembers | custom_components/av_weather/config_flow.py:28 | a code is among the normalised codes iff it is the stripped, upper-cased form of a non-blank input |
| ConfigFlow.Normalize | custom_components/av_weather/config_flow.py:26-33 | a list or a string gives its cleaned codes (a string is split on "," first); a list with a non-string raises; any other value is invalid with the type message |
| ConfigFlow.Reason | custom_components/av_weather/config_flow.py:39-45 | a code draws no reason iff it is four letters and in the table; otherwise one reason, checked in order, with its exact message: "must be exactly 4 characters", then "must contain only letters", then "airport not found in database" |
| ConfigFlow.ReasonsCoverCodes | custom_components/av_weather/config_flow.py:38-49 | no reason is reported iff every code is acceptable; each reason belongs to a code of the list, and every unacceptable code's reason is reported |
| ConfigFlow.CollectReasons | custom_components/av_weather/config_flow.py:38-45 | the loop checks every code, even after a first rejection, and collects the reasons in order |
| ConfigFlow.ValidateIcaoCodes | custom_components/av_weather/config_flow.py:24-51 | the result is what validation defines; every error message is the type message, the empty-selection message or "Invalid ICAO code(s): " followed by the reasons |
| ConfigFlow.AcceptedIsClean | custom_components/av_weather/config_flow.py:40-45 | an accepted upper-cased code is four upper-case letters and a key of the table |
| ConfigFlow.AcceptedCodes | custom_components/av_weather/config_flow.py:51 | an accepted value yields a strictly sorted, non-empty list holding exactly its normalised codes, each four upper-case letters in the table, and the result is their comma join |
| ConfigFlow.CleanCodeIsNormal | custom_components/av_weather/config_flow.py:31 | a clean code is unchanged by strip and upper |
| ConfigFlow.CleanCodesOfClean | custom_components/av_weather/config_flow.py:31 | normalising clean codes gives them back |
| ConfigFlow.NormalizeJoined | custom_components/av_weather/config_flow.py:31 | a comma join of clean codes normalises back to the same list |
| ConfigFlow.CleanCodesPass | custom_components/av_weather/config_flow.py:38-49 | clean codes draw no rejection |
| ConfigFlow.ValidatedIdempotent | custom_components/av_weather/config_flow.py:24-51 | validating an accepted result again accepts it and returns it unchanged |
| ConfigFlow.AcceptedSplit | custom_components/av_weather/config_flow.py:66-67 | splitting the accepted string on "," gives back the accepted codes |
| ConfigFlow.StartImports | custom_components/av_weather/config_flow.py:70-88 | the loop over the codes after the first starts one import flow per code, in order |
| ConfigFlow.UserStep | custom_components/av_weather/config_flow.py:59-106 | no input shows the empty form; an invalid value shows its message and any other exception the generic one; an accepted value creates the entry of the smallest code with the submitted feeds, plus one import per other code |
| ConfigFlow.UserStepCoversCodes | custom_components/av_weather/config_flow.py:66-100 | the created entry and the imports hold every accepted code exactly once, the smallest first, all with the submitted feeds |
| ConfigFlow.ImportStep | custom_components/av_weather/config_flow.py:133-145 | the import aborts iff its code is already a configured unique id; otherwise it creates an entry with the imported data, titled by a label that starts with the code |
| ConfigFlow.OptionsStep | custom_components/av_weather/config_flow.py:161-174 | a submission keeps the entry's codes and replaces only its feeds; without one nothing changes |
| Integration.SetupIntegration | custom_components/av_weather/__init__.py:24-77 | the entry data is stored under its id, the sensor platform is set up as `Sensor.SetupEntry` states, and the service is registered |
| Integration.TargetsMembers | custom_components/av_weather/__init__.py:40-57 | with a registry, the handler targets exactly the named code's sensors (upper-cased code) or, with no code, exactly the registered sensors; without a registry it targets none |
| Integration.TargetsRegistered | custom_components/av_weather/__init__.py:44-57 | every target is a registered sensor |
| Integration.CollectTargets | custom_components/av_weather/__init__.py:55-57 | the loop over the registry's lists collects every sensor, code by code in registration order |
| Integration.RequestsFor | custom_components/av_weather/__init__.py:59-64 | a refresh sends at most one request per target, and exactly one per target when every target is selected |
| Integration.RequestsForMembers | custom_components/av_weather/__init__.py:59-64 | a request is sent iff some selected target asks for its own code on its feed's endpoint |
| Integration.UpdateNext | custom_components/av_weather/__init__.py:60-64 | one step of the update loop keeps the earlier targets refreshed and refreshes the next one if its feed is selected |
| Integration.UpdateAll | custom_components/av_weather/__init__.py:59-64 | every selected target ends refreshed from a fetch of its own code, whatever the others raise; unselected targets are unchanged; a target listed twice ends with the data of its last fetch |
| Integration.HandleUpdateWeather | custom_components/av_weather/__init__.py:35-64 | the targets are resolved as `Integration.Targets` states and refreshed as `Integration.UpdateAll` states; nothing else changes |
| Integration.UnloadKeys | custom_components/av_weather/__init__.py:92-94 | one key per comma-separated part, stripped and upper-cased |
| Integration.PopCodes | custom_components/av_weather/__init__.py:91-96 | the loop leaves the registry without the entry's keys; absent keys are skipped, and other codes keep their lists |
| Integration.UnloadEntry | custom_components/av_weather/__init__.py:80-104 | a failed platform unload changes nothing; otherwise the entry id and the entry's codes leave the shared data, and the domain and the service go only when nothing is left (never once the sensor platform has stored its client and registry keys) |
| Integration.UnloadRemovesSetupKeys | custom_components/av_weather/__init__.py:89-96 | for codes stored as the configuration flow stores them, unloading removes every key the platform setup registered for the entry |
| Text.Upper | custom_components/av_weather/config_flow.py:28 | upper-casing keeps the length and upper-cases each ASCII letter |
| Text.Strip | custom_components/av_weather/config_flow.py:28 | the stripped string has no whitespace at either end; it is empty iff the input is all whitespace; an input with no whitespace at its ends is unchanged |
| Text.StripIsSlice | custom_components/av_weather/config_flow.py:28 | the stripped string is the slice of the input between a prefix and a suffix that are all whitespace; together with `Text.Strip` (no whitespace left at either end) this is exactly the input without its leading and trailing whitespace |
| Text.Split | custom_components/av_weather/config_flow.py:31 | splitting gives at least one part, none of which contains the separator |
| Text.SplitJoin | custom_components/av_weather/config_flow.py:51-67 | splitting a comma join of comma-free parts gives the parts back |
| Text.SortUnique | custom_components/av_weather/config_flow.py:51 | `sorted(set(codes))` is strictly sorted and holds exactly the input's codes |
| Text.SortUniqueOfSorted | custom_components/av_weather/config_flow.py:51 | an already strictly sorted list is its own `sorted(set(...))` |
| Text.StrictlySortedUnique | custom_components/av_weather/config_flow.py:51 | two strictly sorted lists with the same elements are equal |
| Text.UpperIdempotent | custom_components/av_weather/airports.py:47 | upper-casing twice is upper-casing once |

## Left out

- HTTP is not modelled: aiohttp, the session, the 15-second timeout mechanics, `response.json()` and `response.text()`. An exchange is an abstract `Api.Reply` answered by the client's session function. A body that fails to decode is `None`.
- Logging is not modelled anywhere. This includes the missing-station message, which `Api.MissingStations` computes but nothing prints.
- async/await concurrency is not modelled. Every call runs to completion in turn.
- The Home Assistant host is not modelled: platform forwarding, `async_add_entities`, `async_write_ha_state`, `DeviceInfo`, the reload listener and the unloading of the platforms themselves. The unload result is a parameter of `Integration.UnloadEntry`. Service registration is a flag on the shared data.
- The config flow does not start import flows. It returns their data; `async_create_task` and `async_init` are not modelled.
- Voluptuous schemas and selector forms are not modelled. The service's `feed_type` is any optional string rather than one checked against METAR/TAF. The form payloads are reduced to the data they carry.
- Date-time parsing and formatting are not modelled. They are two opaque functions in `Sensor.TimeCodec`. For `parse_datetime`, a None result covers a None parse and a caught ValueError/TypeError. For `datetime.fromtimestamp`, a `Sensor.Conversion` says whether the text was produced, a ValueError/TypeError was caught, or another exception (OverflowError, OSError) escaped. An exception escaping `parse_datetime` other than those two is not modelled.
- The weather service is a function in `Api.Client`, so it answers the same request the same way within one run. `Integration.UpdateAll` therefore does not model a code listed twice in one refresh getting two different replies.
- Python's `str.upper`, `str.isalpha` and `str.strip` are modelled on ASCII only.
- Reading `airports.json` and its error handling are not modelled. The file's contents are a parameter of `Airports.AirportCache.LoadAirports`, an empty table when reading fails. Airport entries hold string fields.
- Numeric report fields are opaque JSON values and pass through unchanged. A float keeps the text Python prints for it.
- `Json.Show` prints a list or a dict inside a cloud layer as a fixed placeholder, not as Python's repr.
- The attribute dictionary is a record with one optional slot per key. The insertion order of its keys is not modelled.
- The "already configured" loop in the user step (config_flow.py:72-75) is not modelled. Its `continue` only advances the inner loop, so it skips nothing.
- The labels computed for the import flows (config_flow.py:78) are not modelled, because they are never used.
- A missing `feeds` key in the user step's input raises into the generic error branch. That case is not modelled: `ConfigFlow.UserInput` always carries feeds.
- Unloading never removes the client that the platform stored under `apis`. The model keeps that map as it is.
- `tests/test_api.py` is not part of this model: it is a live-network script with no assertions.
- `const.py` contributes only constants. They are copied into `const.dfy`.
