# Messana Home Assistant integration: a Dafny model

This project models the logic of the Messana radiant-system integration for Home
Assistant:

- The REST client builds URLs and sends one request per call. Its `_request` turns
  every transport, HTTP and decoding failure into `MessanaApiError`. The getters can
  raise more than that: `get_zone_count` raises `ValueError` when `count` is missing or
  unusable (api.py:76), and the getters that apply `int()` to a field raise `TypeError`
  or `ValueError` when the field is null or does not parse (api.py:61, 80, 86, 94, 143).
  The client wraps non-object bodies, applies per-field defaults and drops the
  temperature sentinel.
- The update coordinator fetches the system block, the H/C groups and the zones in a
  fixed order. Each cycle yields either a complete snapshot or the first error.
- The entity platforms (climate, select, sensor, binary sensor, button and switch)
  show views over that snapshot and issue fixed sequences of client calls.

The device is a total function from a request to a response: either a transport
failure or a status line with a body that did or did not decode. Python's string
parsing for `int()`/`float()` and `str()` on floats, lists and dicts are given as
uninterpreted functions in `Json.Parsers`. The coordinator and the entities see the
client as a `Calls.Backend`, a record holding what each client method returns.
`Calls.Connect` builds one from the REST client and a device.

Modules, in dependency order:

- `Wrappers`: `Option`, `Result`.
- `Text`: `str(int)`, `rstrip`, and splitting at a separator.
- `Json`: JSON values and `int()`, `float()`, `str()`.
- `Api`: the client.
- `Calls`: the backend and the call alphabet.
- `Coordinator`: the refresh cycle.
- `Commands`: running a handler's plan.
- `Entities`: shared views and ids.
- `Climate`, `ModeSelect`, `Sensor`, `BinarySensor`, `Button`, `Switch`: the platforms.

Details of the client's normalisers that the model keeps exactly as the code has them:

- The sentinel filter (values at or below -3000) applies only to temperature
  (api.py:109). Dew point and setpoint pass -3276.8 through (api.py:121-135).
- Humidity reads only the `value` field (api.py:115).
- The H/C group count defaults to 0 (api.py:80).
- A 401 leaves `_request` as a plain `MessanaApiError` with the text
  "Unauthorized (check API key)" (api.py:46-47, 55-56). The `MessanaAuthError` raised
  inside the `try` is caught and rewrapped by the generic handler.
- aiohttp's `raise_for_status` raises for every status of 400 or more (api.py:48).
  Statuses in the 1xx and 3xx ranges therefore count as answers too.

## Model

| member | source | states |
|---|---|---|
| Json.TruncateTowardZero | api.py:61 | `int()` of a number truncates toward zero, for negative values too |
| Json.PyInt | api.py:61 | `int()` of a decoded value: `TypeError` exactly for null, lists and objects; `ValueError` exactly for a string that does not parse; ints unchanged; booleans 1 and 0; floats truncated toward zero; a parsed string gives its parsed value |
| Json.PyFloat | api.py:108 | `float()` of a decoded value: `TypeError` exactly for null, lists and objects; `ValueError` exactly for a string that does not parse; ints and floats keep their value; booleans give 1.0 and 0.0; a parsed string gives its parsed value |
| Json.PyStr | api.py:69 | `str()` keeps a string as it is and renders an int in decimal |
| Text.RStrip | api.py:30 | `rstrip('/')` returns a prefix that does not end in '/' and removes only '/' characters |
| Text.RStripAbsorbsTrailing | api.py:30 | stripping twice is the same as once, and one more trailing '/' changes nothing |
| Api.NewClient | api.py:22-27 | a new client keeps its base URL and API key, and its timeout defaults to 10 seconds |
| Api.Url | api.py:29-30 | the URL is the base without its trailing slashes, followed by the path verbatim |
| Api.BuildRequest | api.py:32-44 | every request carries exactly one query parameter, `apikey`, plus the client's timeout, method, URL and JSON body |
| Api.Exchange | api.py:37-52 | inside the `try`: a 401 raises the auth error, other statuses of 400 or more raise the HTTP error, transport and decoding failures raise their own error, and a decoded body comes back as an object |
| Api.Handle | api.py:53-56 | the handlers always produce `MessanaApiError`: "HTTP error {status}: {reason}" for HTTP errors, the original text otherwise (the auth error included) |
| Api.Send | api.py:32-56 | `_request` fails only with `MessanaApiError`, and passes a successful exchange through unchanged |
| Api.SendClassification | api.py:46-56 | per response kind: 401 gives "Unauthorized (check API key)" as a plain API error, other statuses of 400 or more give the HTTP error text, transport and decode failures keep their text, and a decoded body comes back as an object |
| Api.AsObjectNormalises | api.py:49-52 | a non-object body becomes `{"value": body}`, an object is unchanged, and normalising is idempotent |
| Api.IntField | api.py:61 | `int(data.get(key, default))`: the default applies only when the key is absent; a present null or unparseable value raises a conversion error |
| Api.ReadingOf | api.py:113-119 | a reading is absent exactly when `value` is missing, null or unparseable; otherwise it is `float(value)` |
| Api.TemperatureOf | api.py:101-111 | a temperature is absent exactly when `value` is missing, null, unparseable or at most -3000, and any temperature it gives is above -3000 |
| Api.TemperatureIsFilteredReading | api.py:101-135 | the temperature normaliser is the reading normaliser of humidity, dew point and setpoint, plus the sentinel filter and nothing else |
| Api.SentinelBoundary | api.py:106-109 | -3000 and -3276.8 give no temperature; -2999.9 is a temperature; a plain reading keeps -3276.8 |
| Api.ReadingIgnoresValuesKey | api.py:115 | humidity reads only the `value` field; a body with just `values` has no reading |
| Api.ZoneCountOf | api.py:73-76 | the zone count is `int(count)`; a missing, null or unparseable `count` raises the zone-count `ValueError` carrying the response |
| Api.GetSystemStatus | api.py:59-61 | sends GET `/api/system/status`; a failed exchange gives `MessanaApiError`; an answer gives `int(value)` with default 0, or the conversion error |
| Api.SetSystemStatus | api.py:63-65 | sends exactly PUT `/api/system/status` with body `{"value": 1}` or `{"value": 0}` and the API key; succeeds exactly when the device answers, and otherwise fails with `MessanaApiError` |
| Api.GetTempUnit | api.py:67-69 | sends GET `/api/system/tempUnit`; a failed exchange gives `MessanaApiError`; an answer gives `str(value)`, "Celsius" when `value` is absent |
| Api.GetZoneCount | api.py:71-76 | sends GET `/api/system/zoneCount`; a failed exchange gives `MessanaApiError`; an answer gives `int(count)` or the zone-count `ValueError`, never anything else |
| Api.GetHcGroupCount | api.py:78-80 | sends GET `/api/system/HCgroupCount`; a failed exchange gives `MessanaApiError`; an answer gives `int(value)` with default 0, or the conversion error |
| Api.GetHcMode | api.py:83-86 | sends GET `/api/hc/mode/{id}`; a failed exchange gives `MessanaApiError`; an answer gives `int(value)` with default 2, or the conversion error |
| Api.SetHcMode | api.py:88-89 | sends exactly PUT `/api/hc/mode` with body `{"id": id, "value": mode}` and the API key; succeeds exactly when the device answers, and otherwise fails with `MessanaApiError` |
| Api.GetHcExecutiveSeason | api.py:91-94 | sends GET `/api/hc/executiveSeason/{id}`; a failed exchange gives `MessanaApiError`; an answer gives `int(value)` with default 0, or the conversion error |
| Api.GetZoneName | api.py:97-99 | sends GET `/api/zone/name/{id}`; a failed exchange gives `MessanaApiError`; an answer gives `str(name)`, "Zone {id}" when `name` is absent |
| Api.GetZoneTemperature | api.py:101-111 | sends GET `/api/zone/temperature/{id}`; a failed exchange gives `MessanaApiError`; an answer gives the filtered temperature of the body, which when present is above -3000 |
| Api.GetZoneHumidity | api.py:113-119 | sends GET `/api/zone/humidity/{id}`; a failed exchange gives `MessanaApiError`; an answer gives the reading of the body's `value` |
| Api.GetZoneDewpoint | api.py:121-127 | sends GET `/api/zone/dewpoint/{id}`; a failed exchange gives `MessanaApiError`; an answer gives the reading of the body's `value` |
| Api.GetZoneSetpoint | api.py:129-135 | sends GET `/api/zone/setpoint/{id}`; a failed exchange gives `MessanaApiError`; an answer gives the reading of the body's `value` |
| Api.SetZoneSetpoint | api.py:137-139 | sends exactly PUT `/api/zone/setpoint` with body `{"id": id, "value": temperature}` and the API key; succeeds exactly when the device answers, and otherwise fails with `MessanaApiError` |
| Api.GetZoneStatus | api.py:141-143 | sends GET `/api/zone/status/{id}`; a failed exchange gives `MessanaApiError`; an answer gives `int(value)` with default 0, or the conversion error |
| Api.SetZoneStatus | api.py:145-147 | sends exactly PUT `/api/zone/status` with body `{"id": id, "value": 1 or 0}` and the API key; succeeds exactly when the device answers, and otherwise fails with `MessanaApiError` |
| Api.SystemFieldDefaults | api.py:59-80 | with the field absent: system status 0, unit "Celsius", H/C group count 0; a missing zone `count` raises the zone-count error |
| Api.GroupFieldDefaults | api.py:83-94 | with the field absent: H/C mode 2 and executive season 0 |
| Api.ZoneFieldDefaults | api.py:97-143 | with the field absent: name "Zone {id}", zone status 0, and no temperature, humidity, dew point or setpoint |
| Api.SetterBodiesReadBack | api.py:63-147 | each setter body read back by its getter's normaliser gives what was written: power as 1/0, the mode as given, the setpoint as given (the temperature normaliser alone would drop it at or below -3000) |
| Calls.SequentialRunAppend | coordinator.py:33-57 | a run in which every call succeeded, followed by any run, is again a sequential run that stops at the first failure |
| Calls.FailingCallIsLast | coordinator.py:33-57 | in a run of the cycle's awaited calls, a call that raises is the last one made, and its error is the run's error |
| Calls.FirstFailureEndsRun | coordinator.py:33-57 | if a run follows a plan and plan step i is the first that raises, the run is exactly steps 0..i and ends with step i's error |
| Calls.MissingZoneExtras | coordinator.py:55-57 | the four zone methods the client lacks (thermal status, schedule on, schedule status, setting schedule on) raise `AttributeError` naming the method, for every zone |
| Calls.AsWrittenBackend | button.py:51 | the client exactly as defined: every thermal-status, schedule-on and schedule-status read and every `set_zone_schedule_on` raises `AttributeError` |
| Coordinator.ClampOverride | coordinator.py:30 | the stored override is never negative; it is positive exactly when a positive override was given, and then equal to it |
| Coordinator.NewSettings | coordinator.py:16-30 | the coordinator keeps the scan interval and stores the clamped override |
| Coordinator.EffectiveZoneCount | coordinator.py:39 | a positive override wins; otherwise the count the device reported |
| Coordinator.GroupPlan | coordinator.py:42-44 | the group loop makes two calls per group |
| Coordinator.ZonePlan | coordinator.py:48-57 | the zone loop makes nine calls per zone |
| Coordinator.GroupPlanIndex | coordinator.py:42-44 | call k of the group loop is call k mod 2 of group k div 2: mode before season, groups ascending |
| Coordinator.ZonePlanIndex | coordinator.py:48-57 | call k of the zone loop is call k mod 9 of zone k div 9: each zone's nine reads together, zones ascending |
| Coordinator.FetchGroup | coordinator.py:43-45 | mode then season; the calls are a prefix of that pair and stop at the first failure; on success the entry holds what the two calls returned |
| Coordinator.FetchGroups | coordinator.py:41-45 | the group loop stops at the first failure; on success its keys are exactly `0..n-1` and each entry holds what was fetched for that index |
| Coordinator.FetchZoneReadings | coordinator.py:49-53 | name, temperature, humidity, dew point, setpoint in order, stopping at the first failure; on success each field is what its call returned |
| Coordinator.FetchZoneStates | coordinator.py:54-57 | status, thermal status, schedule on, schedule status in order, stopping at the first failure; on success each field is what its call returned |
| Coordinator.FetchZone | coordinator.py:49-70 | the nine zone reads in order, stopping at the first failure; on success the record carries id `zid` and every field from the call made with `zid` |
| Coordinator.FetchZones | coordinator.py:47-70 | the zone loop stops at the first failure; on success its keys are exactly `0..n-1` and every entry comes from its own index |
| Coordinator.FetchSystem | coordinator.py:34-37 | status, unit, zone count, H/C count in that order, stopping at the first failure; on success the four values are what the calls returned |
| Coordinator.Collect | coordinator.py:33-91 | the calls made are a prefix of the planned order and stop at the first failure; on success: the system block is as fetched or computed, the count is 4 + 2·max(hc,0) + 9·max(zc,0), and both maps are dense and keyed by index with provenance |
| Coordinator.UpdateData | coordinator.py:32-94 | a `MessanaApiError` ends the cycle as `UpdateFailed` with the same message; any other exception passes unchanged; success publishes the snapshot |
| Coordinator.ZoneCountAlwaysFetched | coordinator.py:34-39 | once status and unit are read, the third call is always the zone count, whatever the override |
| Coordinator.NonPositiveCountsGiveEmptyMaps | coordinator.py:39-48 | a non-positive count gives an empty map, while the system block keeps the unclamped effective count |
| Coordinator.CollectFollowsPlan | coordinator.py:33-91 | the calls a cycle makes are a prefix of its planned order, form a run that stops at the first error, and are the whole plan when the cycle succeeds |
| Coordinator.CycleSucceedsIffPlannedCallsSucceed | coordinator.py:33-94 | a cycle succeeds exactly when every call in its planned order succeeds |
| Coordinator.PlannedCallBeforeZonesSucceeds | coordinator.py:34-45 | when the system reads and every group read succeed, every planned call before the zone loop succeeds |
| Coordinator.PlannedZoneCall | coordinator.py:47-57 | a planned call in the zone loop at position k is read `(k - start) mod 9` of zone `(k - start) div 9`, a zone below the effective count |
| Coordinator.PlannedCallsBeforeThermalSucceed | coordinator.py:34-55 | when the system, group and first six zone-0 reads succeed, the thermal-status read of zone 0 is planned right after them and every call before it succeeds |
| Coordinator.ThermalStatusFailureEndsCycle | coordinator.py:33-57 | in that situation a failing thermal-status read of zone 0 is the last call of the cycle, and the cycle ends with its error |
| Coordinator.ThermalReadEndsRun | coordinator.py:55 | when every thermal-status read raises the same error, any thermal read in a run is its last call and the run ends with that error |
| Coordinator.MissingThermalStatusRaises | coordinator.py:55-57 | with a client whose `get_zone_thermal_status` raises `AttributeError` and at least one zone, once the system, group and first six zone reads succeed, the cycle raises that `AttributeError` |
| Coordinator.AsWrittenZoneCycleRaises | coordinator.py:55-57 | with the client as defined and at least one zone, once the system, group and first six zone reads succeed, the cycle raises `AttributeError` for `get_zone_thermal_status` |
| Coordinator.MissingThermalStatusLeavesNoZones | coordinator.py:55-57 | with a client whose `get_zone_thermal_status` raises `AttributeError`, a cycle succeeds only when the effective count is not positive and the zone map is empty; once a thermal-status read is made it is the last call, and the cycle ends with that `AttributeError`, not with `UpdateFailed` |
| Coordinator.AsWrittenCycleHasNoZones | coordinator.py:55-57 | the client as defined is such a client, so the same holds for its cycles |
| Coordinator.CompleteClientCycleHasAllZones | coordinator.py:33-94 | with a client whose every system, group and zone read succeeds, the cycle succeeds; its group keys are `0..hc-1`, its zone keys are `0..effective-1`, and each zone has the thermal status the client returned |
| Coordinator.AllPlannedCallsSucceed | coordinator.py:33-70 | when every system, group and zone read succeeds, every planned call of the cycle succeeds |
| Commands.ThenRefresh | switch.py:39-41 | a handler's calls in order, followed by one refresh request |
| Commands.Run | climate.py:134-151 | a handler runs its plan in order and stops at the first call that raises; nothing after that call happens; it ends cleanly exactly when every call succeeds |
| Commands.RefreshIffAllCallsSucceed | climate.py:143-151 | a refresh is requested exactly when every call before it succeeded, and exactly when the handler ends without an error |
| Entities.HaTempUnit | climate.py:20-24 | Fahrenheit exactly when the unit name starts with 'f' or 'F'; Celsius otherwise, the empty name included |
| Entities.HaTempUnitCases | sensor.py:17-20 | "Fahrenheit" and "fahrenheit" give Fahrenheit; "Celsius", "" and "°F" give Celsius |
| Entities.ZoneNameOr | climate.py:76-79 | the stored zone name (even an empty one), else "Zone {id}" |
| Entities.GroupModeOr | climate.py:102-103 | group `gid`'s mode, or 2 when the group is missing |
| Entities.ZoneUniqueIdInjective | climate.py:73 | equal `messana_zone_{id}_{key}` ids have equal zone ids and equal keys |
| Entities.ZoneIds | climate.py:55-58 | setup iterates over the ids `0..effective_zone_count-1`, none when the count is not positive |
| Entities.ZoneIdsAreZoneKeys | climate.py:52-58 | for a snapshot with dense zone keys, as every published one has, the ids setup iterates over are exactly the zone map's keys |
| Climate.HvacModeFromHc | climate.py:27-35 | off exactly when the system is off; with it on, mode 0 is heat, 1 is cool, and every other value is heat/cool; always one of the four advertised modes |
| Climate.HvacModeRoundTrip | climate.py:27-35 | the mode value written for heat, cool or heat/cool maps back to that mode with the system on |
| Climate.SetHvacMode | climate.py:134-151 | off writes only `set_system_status(False)` and refreshes; heat, cool and heat/cool write status on, then group 0's mode 0/1/2, then refresh; other modes only switch the system on |
| Climate.SetHvacModeRoundTrip | climate.py:134-151 | for each advertised mode, once the device holds what was written, the mode view gives the requested mode back, whatever the mode was before |
| Climate.SetTemperature | climate.py:127-132 | no temperature: no call and no refresh; otherwise the setpoint write, then a refresh |
| Climate.SetTemperatureEffect | climate.py:127-131 | without a temperature nothing at all happens; with one, the body sent reads back as that temperature |
| Climate.HvacModeView | climate.py:98-104 | off exactly when the system status is 0; otherwise group 0's mode (2 when missing), out-of-range values shown as heat/cool |
| Climate.Available | climate.py:81-83 | available exactly when the last refresh succeeded and the zone is in the snapshot |
| Climate.TemperatureUnitView | climate.py:85-88 | Fahrenheit exactly when the system's unit name starts with 'f' or 'F' |
| Climate.CurrentTemperature | climate.py:90-92 | the zone's temperature when the zone is in the snapshot, `KeyError` for the zone id otherwise |
| Climate.TargetTemperature | climate.py:94-96 | the zone's setpoint when the zone is in the snapshot, `KeyError` for the zone id otherwise |
| Climate.Setup | climate.py:55-59 | one entity per zone id in `0..effective-1`, ascending, with unique id `messana_zone_{id}_climate` |
| Climate.SetupUniqueIdsDistinct | climate.py:73 | no two climate entities share a unique id |
| Climate.SetupEntitiesAvailable | climate.py:81-96 | for a snapshot a cycle published (dense zone keys, each zone fetched from the client), every climate entity is available, and its current and target temperatures are the values the client's temperature and setpoint reads returned for its zone |
| Climate.MissingZoneViews | climate.py:81-96 | for a zone missing from the snapshot, the entity is unavailable and both temperature views raise `KeyError` |
| ModeSelect.OptionTablesInverse | select.py:18-20 | the two tables are mutually inverse bijections between {Heating, Cooling, Auto} and {0, 1, 2} |
| ModeSelect.CurrentOption | select.py:55-58 | always one of the three options; "Heating" exactly for mode 0, "Cooling" exactly for mode 1, "Auto" for everything else and for a missing group |
| ModeSelect.SelectOption | select.py:60-63 | an unknown option raises `KeyError` before any call; a known one writes its value for the entity's own group, then refreshes |
| ModeSelect.SelectRoundTrip | select.py:57-62 | once the group holds the written value, the select shows the chosen option |
| ModeSelect.MinExists | select.py:39 | a non-empty set of group ids has a least element |
| ModeSelect.SortedKeys | select.py:39 | `sorted(keys)` gives every key exactly once, in strictly ascending order |
| ModeSelect.Setup | select.py:37-53 | one select per group key, in ascending key order, with unique id `messana_hc_group_{id}_mode` and name "H/C Group {id} Mode" |
| ModeSelect.ClimateAndSelectAgree | select.py:57-58 | with the system on, climate's heat, cool and heat/cool match group 0's "Heating", "Cooling" and "Auto" |
| Sensor.ZoneSensorIdsDistinct | sensor.py:65 | zone sensor unique ids never collide, within a zone or across zones |
| Sensor.ZoneSensorEntities | sensor.py:47-50 | humidity then dew point for each zone, zones ascending: 2n sensors |
| Sensor.NewDebugSensor | diagnostic.py:17-19 | the debug sensor's constructor succeeds exactly when it gets one argument after the coordinator |
| Sensor.SetupWith | sensor.py:36-55 | setup succeeds exactly when the debug constructor does; then it adds the 2n zone sensors followed by the debug sensor |
| Sensor.SetupAsWrittenAddsNothing | sensor.py:52 | as written, setup always raises `TypeError` and adds no sensor at all |
| Sensor.SetupWithEntryId | sensor.py:45-55 | with the entry id passed, setup adds 2n+1 sensors, the debug sensor last, with pairwise distinct zone sensor ids |
| Sensor.Name | sensor.py:68-72 | "{zone name} {suffix}", the zone name falling back to "Zone {id}" |
| Sensor.NativeUnit | sensor.py:74-79 | humidity is a percentage; dew point follows the system's unit by the starts-with-'f' rule |
| Sensor.DewpointUnitMatchesClimate | sensor.py:74-79 | the dew point sensor's unit is always the climate entities' temperature unit |
| Sensor.NativeValue | sensor.py:81-84 | the zone's humidity or dew point for the sensor's key, nothing when the zone is missing |
| BinarySensor.IsOn | binary_sensor.py:35-38 | on exactly when the zone exists and its thermal status is a non-zero number |
| BinarySensor.Name | binary_sensor.py:29-33 | "{zone name} Active", with a missing or empty name replaced by "Zone {id}" |
| BinarySensor.NameExtendsZoneName | binary_sensor.py:29-33 | for a non-empty zone name, the sensor's name is the climate entity's name followed by " Active" |
| BinarySensor.Setup | binary_sensor.py:40-54 | one sensor per zone id in `0..effective-1`, with unique id `messana_zone_{id}_active` |
| Button.Available | button.py:44-48 | available exactly when the zone exists and its `schedule_on` is 1 |
| Button.Press | button.py:50-52 | a press plans exactly `set_zone_schedule_on(zone, False)` followed by one refresh request |
| Button.PressRefreshesIffWriteSucceeds | button.py:50-52 | a press detaches the schedule, then refreshes; the refresh happens exactly when `set_zone_schedule_on` succeeds |
| Button.PressFailsWith | button.py:50-52 | when `set_zone_schedule_on` raises, the press ends with that error after that single call |
| Button.PressAsWrittenFails | button.py:51 | with the client as defined, every press raises `AttributeError` and requests no refresh |
| Button.Setup | button.py:14-28 | one button per zone id in `0..effective-1`, with unique id `messana_zone_{id}_detach_schedule` |
| Switch.Turn | switch.py:39-45 | turning on or off writes that system status, then refreshes |
| Switch.IsOn | switch.py:35-37 | on exactly when the system status is non-zero |
| Switch.PowerMatchesClimateMode | switch.py:35-37 | the switch is on exactly when the climate entities' mode is not off |
| Switch.TurnRoundTrip | switch.py:35-45 | once the device holds the written status, the switch reads the state it was turned to |
| Switch.Setup | switch.py:15-33 | exactly one switch, with unique id `messana_system_power` |

## Left out

- HTTP transport (the aiohttp session, timeouts, `raise_for_status`, JSON decoding) is represented by the `Device` function. It yields a transport failure, or a status, a reason and a decoded or undecodable body.
- Python's parsing of strings by `int()` and `float()`, and `str()` on floats, lists and dicts, are the uninterpreted functions of `Json.Parsers`. Numbers are exact reals rather than IEEE doubles: only the comparison with -3000 matters.
- `str.lower()` is modelled only for ASCII letters. No other character lowers to "f", so the starts-with-"f" rule is unaffected.
- Home Assistant's `DataUpdateCoordinator` machinery is outside the model: the timer, keeping the last snapshot after a failure, refresh coalescing and listeners. `last_update_success` is a parameter of the climate `available` view. The refresh request is an action that never raises.
- The views assume the coordinator holds a snapshot. The `coordinator.data is None` case before the first refresh is not modelled.
- The climate entity's `extra_state_attributes` and `hvac_modes` list are not modelled as views, and neither are the constant `_attr_*` settings. The advertised modes appear as `Climate.HvacModes`.
- The types of the zone methods the client lacks (thermal status, schedule on, schedule status) are not known from the code. They are modelled as an integer or nothing.
- `int(zone_count_override or 0)` is modelled for an integer or a missing override only. Strings and floats from the options form are not modelled.
- config_flow.py, __init__.py, the debug sensor's `native_value` JSON formatting in diagnostic.py, entity.py's device info, and logging are not part of this model.
- binary_sensor.py and button.py are not listed in `PLATFORMS` (const.py:15), so Home Assistant never loads them. Their logic is modelled as written.

## Findings

| source | as written | input that shows it | evidently intended | confidence | as-written member | corrected member |
|---|---|---|---|---|---|---|
| sensor.py:52 | `MessanaRawSampleSensor(coordinator)` omits the `entry_id` its constructor requires (diagnostic.py:17) | any setup of the sensor platform, even with zero zones | pass the entry id, so the 2n zone sensors and the debug sensor are added | not executed; high | Sensor.SetupAsWrittenAddsNothing | Sensor.SetupWithEntryId |
| coordinator.py:55-57 | the cycle calls `get_zone_thermal_status`, `get_zone_schedule_on` and `get_zone_schedule_status`, which api.py does not define | one zone, with the system reads, the group reads and the zone's first six reads succeeding: the seventh zone call raises `AttributeError("get_zone_thermal_status")`, which is not turned into `UpdateFailed` | a client that defines the three methods, so a cycle fills every zone | not executed; high | Coordinator.AsWrittenZoneCycleRaises | Coordinator.CompleteClientCycleHasAllZones |
| button.py:51 | `async_press` calls `set_zone_schedule_on`, which api.py does not define | any press of a detach-schedule button | a client that defines the method, so the press detaches the schedule and refreshes | not executed; high | Button.PressAsWrittenFails | Button.PressRefreshesIffWriteSucceeds |
