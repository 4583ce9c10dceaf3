# Tianqi weather integration — a Dafny model

This project models the core of the Home Assistant "tianqi" integration. The integration
reads weather from weather.com.cn: current conditions, alerts, daily and hourly
forecasts, minute-level rain and the last 24 hours of observations. It turns these into
Home Assistant entities.

The model covers these parts:

- **The client** (`TianqiClient`, module `Tianqi`, file `client.dfy`):
  - the registry of converters, keyed by attribute in registration order;
  - the decode pass that turns provider data into a payload, and `push_state`, which
    hands that payload to the entities that subscribe to one of its keys;
  - entity set-up through the registered platform setupers;
  - the URL builder.
  - Each of the six fetches (`update_summary`, `update_alarms`, `update_dailies`,
    `update_hourlies`, `update_minutely` and `update_observe`) is specified by its effect
    on the aggregate store, what it pushes and what it raises.
- **The station record** and the two station requests: the station lookup and the area
  search (module `Stations`).
- **The reconstruction of the 24-hour observation series** (module `Observe`). A reversed
  list of hourly records carries only hours. The clock of each record is replayed forward
  from a base timestamp, rolling over to the next day when the hour goes backwards.
- **The converters** (module `Converters`): plain, numeric and wind-speed. Each has its
  `decode` into a shared payload and its `encode`.
- **The sensor and binary-sensor entities** (module `Entities`): construction,
  `async_set_state`, restore and `async_added_to_hass`.
- **The weather entity** (module `Weather`):
  - the current conditions, alerts and indexes `update_from_client` reads;
  - the daily forecast;
  - the hourly forecast, capped at 48 rows and dropping rows older than 1.5 hours;
  - the Caiyun-style hourly series.
- **The configuration flow** (module `ConfigFlow`):
  - the user step: domain cleaning, area search, station lookup and the entry it creates;
  - the options step.

Supporting modules:

- `Values`: JSON values and Python truthiness, `or`, `dict.get`, `float()` and `int()`;
- `Text`: the string methods used;
- `Dates`: calendar dates and the `strptime` formats used;
- `Conditions`: the `ConditionCodes` table;
- `Wrappers`: Option and Result.

Python exceptions are modelled as `Result`/`Outcome` errors named after the exception
class. Provider replies, clock readings, dictionary iteration orders and the host's
coordinates are parameters.

## Model

| member | source | states |
|---|---|---|
| Tianqi.Lookup | custom_components/tianqi/__init__.py:312-313 | the converter found under an attribute carries that attribute; none is found only when no registered converter has it |
| Tianqi.Registered | custom_components/tianqi/__init__.py:312-313 | registering either keeps the registry's length (an attribute already present) or appends the converter |
| Tianqi.RegisteredLookup | custom_components/tianqi/__init__.py:312-313 | after `converters[conv.attr] = conv` the attribute yields the new converter, every other attribute yields what it did before, and attributes stay distinct |
| Tianqi.RegisteredAttrs | custom_components/tianqi/__init__.py:312-313 | the attributes present after registering are the old ones plus the new converter's |
| Tianqi.RegisteredNew | custom_components/tianqi/__init__.py:312-313 | a converter with a new attribute goes last, as a new dict key does |
| Tianqi.RegisteredAllNew | custom_components/tianqi/__init__.py:315-317 | registering converters with new, distinct attributes appends them in order |
| Tianqi.MeasureOption | custom_components/tianqi/__init__.py:232-266 | a measurement converter's option holds exactly a device class, the `measurement` state class and its unit |
| Tianqi.DefaultsDistinct | custom_components/tianqi/__init__.py:230-273 | the converter table names each attribute once, and every row can be built by the converter classes |
| Tianqi.Build | custom_components/tianqi/__init__.py:232-272 | builds the converter a table row describes (number, wind-speed or plain sensor converter with its option) |
| Tianqi.BuildAll | custom_components/tianqi/__init__.py:231-273 | builds the converters of a table, one per row, in order |
| Tianqi.DefaultConverters | custom_components/tianqi/__init__.py:230-273 | the converters the client starts with match the table row by row and have distinct attributes |
| Tianqi.SubscribeAttrs | custom_components/tianqi/__init__.py:319-324 | an entity subscribes to exactly its converter's attribute, that converter's children, and the attributes of the converters naming it as parent |
| Tianqi.WritesSubscribed | custom_components/tianqi/__init__.py:319-324 | every key a converter's decode can write is among the keys its entity subscribes to |
| Tianqi.Feed | custom_components/tianqi/__init__.py:329-337 | one converter's turn in the decode loop extends the pass over the registry by that converter |
| Tianqi.DecodePass | custom_components/tianqi/__init__.py:326-338 | the loop of `decode` computes the decode pass over the registry: payload and whether a converter raised |
| Tianqi.DecodeWritesOnly | custom_components/tianqi/__init__.py:326-338 | every key of the payload was written by a converter that was handed a value, and is one that converter writes |
| Tianqi.DecodeDelivers | custom_components/tianqi/__init__.py:326-338 | when nothing raises, a converter handed a value has its attribute in the payload with its decoded value, unless a later converter writes that key |
| Tianqi.DecodeFront | custom_components/tianqi/__init__.py:329-337 | the conditions for a converter's delivery carry over to the registry without its last converter |
| Tianqi.DecodeLast | custom_components/tianqi/__init__.py:337 | the last converter's write is what the payload holds for its attribute |
| Tianqi.DecodeKeeps | custom_components/tianqi/__init__.py:337 | the last converter leaves every key it does not write as it was |
| Tianqi.DecodeStop | custom_components/tianqi/__init__.py:329-337 | once a converter raises, the converters after it do not run |
| Tianqi.Deliver | custom_components/tianqi/__init__.py:347-353 | one entity's turn in `push_state`: it takes the payload exactly when it subscribes to one of its keys, every other entity is untouched, and it is written exactly when it took it and is added |
| Tianqi.DeliverAll | custom_components/tianqi/__init__.py:346-353 | every subscribed entity took the payload, the others are unchanged, and the written ones are those `Written` names |
| Tianqi.SetupPlan | custom_components/tianqi/__init__.py:355-366 | `setup_entities(only)` builds entities only for registered converters that are selected, have no entity yet and have a non-weather setuper; what it raises is a TypeError |
| Tianqi.SetupRaises | custom_components/tianqi/__init__.py:355-373 | `setup_entities` raises exactly when some selected converter without an entity reaches the weather setuper, whose `setup` takes no converter |
| Tianqi.SetupCovers | custom_components/tianqi/__init__.py:355-373 | when nothing raises, every selected converter without an entity and with a setuper gets one |
| Tianqi.SetupStop | custom_components/tianqi/__init__.py:358-366 | once `setup_entities` has raised, later converters are not looked at |
| Tianqi.AttrAhead | custom_components/tianqi/__init__.py:358-366 | with distinct attributes, the converter at a position has an attribute none of the earlier ones built has |
| Tianqi.ExtendedStep | custom_components/tianqi/__init__.py:364-366 | building one more entity for one more converter keeps the entities and hand-overs built so far and adds it |
| Tianqi.OrderStep | custom_components/tianqi/__init__.py:358-366 | building one more entity appends it to the hand-over order |
| Tianqi.Received | custom_components/tianqi/__init__.py:480-487 | an empty reply raises and changes nothing; otherwise `<facet>_text` holds the text exactly when the status is not 200, and no other key changes |
| Tianqi.Stored | custom_components/tianqi/__init__.py:526-527 | an absent marker changes nothing; a reply that does not parse raises; otherwise the key is set to the extracted field, or the default when that is falsy, and nothing else changes |
| Tianqi.Refreshed | custom_components/tianqi/__init__.py:515-545 | `update_dailies` and `update_hourlies`: the URL and empty-reply errors, the `_text` rule, the facet set to its field or `[]`, and every other key untouched; nothing is pushed |
| Tianqi.AfterAlarms | custom_components/tianqi/__init__.py:498-513 | `update_alarms`: its errors, the `_text` rule, `alarms` set to the `w` list or `[]`; after a successful extraction the whole new store is decoded, the payload is pushed exactly when the decode does not raise, and the decode's outcome is the result; without the marker nothing is pushed |
| Tianqi.AfterMinutely | custom_components/tianqi/__init__.py:547-565 | `update_minutely`: its errors, the `_text` rule, `minutely` set to the parsed reply or `{}`; that value is decoded, the payload is pushed exactly when the decode does not raise, and the decode's outcome is the result; a reply that is not JSON raises and pushes nothing |
| Tianqi.WithZs | custom_components/tianqi/__init__.py:493-494 | the `dataZS` step sets `dataZS` to the `zs` field or `{}`, raises on a malformed reply and keeps everything else, including what was pushed |
| Tianqi.AfterSummary | custom_components/tianqi/__init__.py:478-496 | `update_summary`: its errors and the `_text` rule; when `dataSK` is found it is stored, decoded and pushed exactly when the decode does not raise; a raising decode ends the update before `dataZS`; otherwise `dataZS` becomes its `zs` field or `{}` when found and is untouched when not; without `dataSK` nothing is pushed; no other key changes |
| Tianqi.AfterObserve | custom_components/tianqi/__init__.py:567-608 | `update_observe`: the store is changed only when some record was reconstructed; a URL error raises; no marker gives an empty result |
| Tianqi.Observation | custom_components/tianqi/__init__.py:574-608 | the loop of `update_observe` over the reversed records computes what `AfterObserve` describes |
| Tianqi.Client.Url | custom_components/tianqi/__init__.py:453-462 | building a page URL raises exactly when the domain is empty |
| Tianqi.Client.constructor | custom_components/tianqi/__init__.py:171-273 | a new client has an empty store, no entities, no setuper, nothing written, and the table's converters |
| Tianqi.Client.AddConverter | custom_components/tianqi/__init__.py:312-313 | registers one converter and changes nothing else |
| Tianqi.Client.AddConverters | custom_components/tianqi/__init__.py:315-317 | registers the converters one after another and changes nothing else |
| Tianqi.Client.Decode | custom_components/tianqi/__init__.py:326-338 | `decode(data)` is the decode pass over the registry at the current store |
| Tianqi.Client.PushState | custom_components/tianqi/__init__.py:340-353 | every subscribed entity takes the payload; the entities written are those subscribed and added; the store does not change |
| Tianqi.Client.Deliver | custom_components/tianqi/__init__.py:491 | the end of a fetch: the new store is kept, the payload (if any) is pushed, and the fetch's outcome is returned |
| Tianqi.Client.Setup | custom_components/tianqi/sensor.py:16-23 | the sensor and binary-sensor `setup(client, conv)`: an entity for the converter exists afterwards (an existing one is reused), and it is handed to Home Assistant only when not yet added |
| Tianqi.Client.SetupWeather | custom_components/tianqi/weather.py:27-33 | the weather `setup(client)`: the weather entity is reused or built, and handed over when not yet added |
| Tianqi.Client.SetupEntity | custom_components/tianqi/__init__.py:368-373 | no setuper changes nothing; the weather setuper raises TypeError; otherwise the platform's setup runs for the converter |
| Tianqi.Client.SetupNext | custom_components/tianqi/__init__.py:358-366 | one turn of the `setup_entities` loop follows `SetupPlan` for one more converter and keeps the entities built so far |
| Tianqi.Client.SetupEntities | custom_components/tianqi/__init__.py:355-366 | raises as `SetupPlan` says, and leaves one entity built for each converter `SetupPlan` lists |
| Tianqi.Client.AddSetuper | custom_components/tianqi/__init__.py:156-165 | a known domain changes nothing; a new one is registered; the weather one sets up the weather entity; a sensor platform runs `setup_entities` for its domain |
| Tianqi.Client.Register | custom_components/tianqi/weather.py:64-66 | the weather entity is stored under `weather`, replacing any sensor entity held there |
| Tianqi.Client.WeatherAdded | custom_components/tianqi/weather.py:64-69 | the weather entity marks itself added, registers and then updates from the client's store |
| Tianqi.Client.UpdateEntities | custom_components/tianqi/__init__.py:467-471 | only the weather entity updates from the client; without it nothing happens |
| Tianqi.Client.Receive | custom_components/tianqi/__init__.py:481-487 | applies the `_text` rule to the store, or raises on an empty reply and keeps the store |
| Tianqi.Client.Refresh | custom_components/tianqi/__init__.py:515-545 | a fetch without decode moves the store as `Refreshed` says |
| Tianqi.Client.UpdateDailies | custom_components/tianqi/__init__.py:515-529 | `update_dailies` stores the `f` list of the `fc` object under `dailies` |
| Tianqi.Client.UpdateHourlies | custom_components/tianqi/__init__.py:531-545 | `update_hourlies` stores the `jh` list of the `fc180` object under `hourlies` |
| Tianqi.Client.UpdateAlarms | custom_components/tianqi/__init__.py:498-513 | `update_alarms` moves the store and pushes as `AfterAlarms` says |
| Tianqi.Client.UpdateMinutely | custom_components/tianqi/__init__.py:547-565 | `update_minutely` moves the store and pushes as `AfterMinutely` says |
| Tianqi.Client.UpdateSummary | custom_components/tianqi/__init__.py:478-496 | `update_summary` moves the store and pushes as `AfterSummary` says |
| Tianqi.Client.UpdateObserve | custom_components/tianqi/__init__.py:567-608 | `update_observe` moves the store and returns as `AfterObserve` says |
| Stations.StationCode | custom_components/tianqi/__init__.py:398-400 | the station code is the English name, else the Chinese name, else the host's location name |
| Stations.StationName | custom_components/tianqi/__init__.py:402-404 | the station name is the Chinese name, else the station code |
| Stations.NameFallsBackToCode | custom_components/tianqi/__init__.py:398-404 | without a Chinese name the station name is the English name or the host's location name |
| Stations.ApiUrl | custom_components/tianqi/__init__.py:453-462 | building an URL raises exactly when the domain is empty |
| Stations.QuestionKept | custom_components/tianqi/__init__.py:457-460 | stripping leading slashes does not change whether the path holds a `?` |
| Stations.TimedQuery | custom_components/tianqi/__init__.py:457-461 | a timed query is the path, then `&` when it already has a query and `?` otherwise, then `_=` and an integer that reads back as the clock reading |
| Stations.WwwIsHttp | custom_components/tianqi/__init__.py:456-462 | a URL on the `www` node starts with `http://www.` |
| Stations.OtherNodeIsHttps | custom_components/tianqi/__init__.py:456-462 | on a node that cannot form `https://www`, the URL is `https://<node>.` followed by the rest with only its own `https://www` rewritten |
| Stations.StationQuery | custom_components/tianqi/__init__.py:408-415 | the station request asks by area id unless it is missing or `auto`; otherwise it asks by the host's coordinates; it raises when both coordinates are supplied |
| Stations.CoordinatesUnused | custom_components/tianqi/__init__.py:409-415 | coordinates passed to `get_station` never reach the request: two lookups that do not raise send the same request |
| Stations.Records | custom_components/tianqi/__init__.py:424-429 | a reply that does not raise gives a non-empty station record |
| Stations.MissingStation | custom_components/tianqi/__init__.py:427-429 | a reply without a station raises the missing-station error |
| Stations.StationLookup | custom_components/tianqi/__init__.py:406-433 | `get_station`: the empty-domain, invalid-argument and malformed-reply errors, and a found station holding the location keys overlaid by the station keys |
| Stations.LookupAreaId | custom_components/tianqi/__init__.py:430-433 | the area id comes from the station record when it has one, else from the location |
| Stations.AreaEntry | custom_components/tianqi/__init__.py:444-450 | a search result that is not a dict raises; an entry found has an area id of at most 9 characters |
| Stations.AreaEntryOfRef | custom_components/tianqi/__init__.py:446-450 | a `ref` with at least ten `~` fields and a short first field gives that area id and the name `<field 9>-<field 2>` |
| Stations.Areas | custom_components/tianqi/__init__.py:442-451 | every area id the search keeps has at most 9 characters |
| Stations.AreasFound | custom_components/tianqi/__init__.py:443-450 | every area the search lists comes from some result entry with that id and name |
| Stations.AreasKept | custom_components/tianqi/__init__.py:443-450 | every acceptable result entry's area id is listed |
| Stations.AreasStop | custom_components/tianqi/__init__.py:443-450 | once an entry raises, the later entries do not matter |
| Stations.SearchResult | custom_components/tianqi/__init__.py:435-451 | `search_areas`: the empty-domain and empty-reply errors, and results only from a reply whose text parses |
| Stations.SearchAreas | custom_components/tianqi/__init__.py:435-451 | the search method computes `SearchResult` |
| Stations.CollectAreas | custom_components/tianqi/__init__.py:442-451 | the loop over the parsed results computes `Areas` |
| Tianqi.UnimportedRe | custom_components/tianqi/__init__.py:489 | as written, `re.search` raises NameError in `update_summary`, `update_alarms`, `update_dailies`, `update_hourlies` and `update_observe`: after the `_text` rule nothing else is stored and nothing is pushed |
| Observe.Reversed | custom_components/tianqi/__init__.py:577 | reversing keeps the length |
| Observe.ReversedTwice | custom_components/tianqi/__init__.py:577 | reversing twice gives the list back |
| Observe.Reverse | custom_components/tianqi/__init__.py:577 | `lst.reverse()` reverses the array in place |
| Observe.HoursAhead | custom_components/tianqi/__init__.py:589-591 | the hours from one hour of the day to another, wrapping at midnight, lie in 0..23 |
| Observe.Advance | custom_components/tianqi/__init__.py:589-592 | `replace(hour=h)` followed by a day's roll-over when the clock went back: out-of-range hours raise ValueError, rolling past 9999-12-31 raises OverflowError, otherwise the hour is set and the date moves to the next day exactly when `h` is before the current hour |
| Observe.AdvanceMinutes | custom_components/tianqi/__init__.py:589-592 | each step moves the clock forward by under a day, by exactly the hours between the two hours of the day |
| Observe.ShiftMinutes | custom_components/tianqi/__init__.py:589-591 | setting a later date and hour moves the clock by the hours between them |
| Observe.ParsedRecord | custom_components/tianqi/__init__.py:593-605 | a record is kept exactly when its five numbers parse as floats |
| Observe.ParsedFields | custom_components/tianqi/__init__.py:594-603 | a kept record holds every original key plus the seven it adds, and keeps the other keys' values |
| Observe.ParsedValues | custom_components/tianqi/__init__.py:596-601 | a kept record's `temp`, `humi`, `rain`, `aqi` and `wind` are read from `od22`, `od27`, `od26` (0 when falsy), `od28` and `od24` |
| Observe.HourOf | custom_components/tianqi/__init__.py:589 | only a dict record yields an hour |
| Observe.Replay | custom_components/tianqi/__init__.py:588-605 | the replay keeps one clock reading per record, and its clock is the last one |
| Observe.ReplayLast | custom_components/tianqi/__init__.py:588-605 | one more record advances the clock by its hour, extends the trace, and sets its timestamp's entry when the record parses |
| Observe.StampedAt | custom_components/tianqi/__init__.py:589-592 | each record's clock is the previous clock advanced to that record's hour |
| Observe.Marks | custom_components/tianqi/__init__.py:593-605 | one kept-or-dropped mark per record |
| Observe.MarksAt | custom_components/tianqi/__init__.py:593-605 | the mark of a record says whether it is kept |
| Observe.LastWith | custom_components/tianqi/__init__.py:594 | the record found for a timestamp is a kept one |
| Observe.LastWithFound | custom_components/tianqi/__init__.py:594 | the record found for a timestamp carries that timestamp |
| Observe.LastWithIsLast | custom_components/tianqi/__init__.py:594 | no later kept record carries the same timestamp: a later write overwrites an earlier one |
| Observe.Entry | custom_components/tianqi/__init__.py:593-605 | a record gives an entry exactly when it is kept |
| Observe.ReplayFacts | custom_components/tianqi/__init__.py:588-605 | the reconstructed dict holds, for each timestamp, the entry of the last kept record at that timestamp, and only those timestamps |
| Observe.StampedMonotone | custom_components/tianqi/__init__.py:589-592 | the reconstructed clock never goes backwards |
| Observe.StampedWithinDay | custom_components/tianqi/__init__.py:589-592 | each record's clock is under a day after the previous one |
| Observe.ReplayExample | custom_components/tianqi/__init__.py:589-592 | the hours 23, 0, 1 from the base 202401010000 cross midnight once: 2024-01-01 23:00, then 00:00 and 01:00 of 2024-01-02 |
| Observe.ReplayStops | custom_components/tianqi/__init__.py:588-592 | once a record's hour raises, the later records do not matter |
| Observe.Reconstruct | custom_components/tianqi/__init__.py:588-605 | the loop of `update_observe` over an array of records computes the replay's kept entries or its error |
| Converters.Payload.constructor | custom_components/tianqi/__init__.py:328 | a payload starts empty |
| Converters.NumberValue | custom_components/tianqi/converters/base.py:47-49 | a float value passes the number conversion unchanged, while a list or dict does not parse |
| Converters.WithSiblings | custom_components/tianqi/converters/base.py:71-77 | the wind siblings are added when `dataSK` is a dict or falsy; otherwise AttributeError and the payload unchanged |
| Converters.Converter.Base | custom_components/tianqi/converters/base.py:9-22 | a `Converter` holds the fields it was built with, no children and no option |
| Converters.Converter.Sensor | custom_components/tianqi/converters/base.py:37-39 | a `SensorConv` is a converter of the `sensor` domain |
| Converters.Converter.NumberSensor | custom_components/tianqi/converters/base.py:42-45 | a `NumberSensorConv` is an enabled sensor converter with its unit and precision |
| Converters.Converter.WindSpeedSensor | custom_components/tianqi/converters/base.py:52-67 | the `WindSpeedSensorConv` reads `wse` in km/h, has the four wind children and the wind-speed option |
| Converters.Converter.Writes | custom_components/tianqi/converters/base.py:25-26 | a converter writes at least its own attribute |
| Converters.Converter.Input | custom_components/tianqi/__init__.py:330-336 | a converter that ignores its prop is handed the whole data; otherwise it gets the prop's value, or is skipped when the prop is absent |
| Converters.Converter.Decoded | custom_components/tianqi/converters/base.py:25-77 | decode only adds the keys the converter writes and keeps all others; a plain converter stores the value; a number converter raises ValueError exactly when the value does not parse, and otherwise stores the parsed number |
| Converters.Converter.Encoded | custom_components/tianqi/converters/base.py:29-30 | encode sets the converter's source key to the value and keeps every other key |
| Converters.Converter.Decode | custom_components/tianqi/converters/base.py:25-77 | the decode method changes the payload as `Decoded` says |
| Converters.Converter.Encode | custom_components/tianqi/converters/base.py:29-30 | the encode method changes the payload as `Encoded` says |
| Converters.Converter.WithOption | custom_components/tianqi/converters/base.py:32-34 | sets the option and returns the converter itself |
| Converters.EncodeThenInput | custom_components/tianqi/converters/base.py:29-30 | what encode writes is what the converter reads back |
| Converters.WindWrites | custom_components/tianqi/converters/base.py:69-77 | with a number and a `dataSK` dict, the wind converter writes its number and the four siblings |
| Converters.DefaultUnitDropsSpaces | custom_components/tianqi/converters/base.py:44-48 | with the default unit `' '`, no space is left in the text that is parsed |
| Converters.NumberExample | custom_components/tianqi/converters/base.py:47-49 | `' 10km '` with unit `km` decodes to 10.0 |
| Entities.SetExtra | custom_components/tianqi/__init__.py:663-669 | with `payload_attrs` every payload key is copied, otherwise only the subscribed ones; all other extra attributes are kept |
| Entities.SetExtraTwice | custom_components/tianqi/__init__.py:663-669 | copying the same payload twice leaves the extra attributes as copying it once |
| Entities.CopySubscribed | custom_components/tianqi/__init__.py:666-669 | the loop over the subscribed keys copies those the payload holds |
| Entities.RestoredValue | custom_components/tianqi/sensor.py:47-49 | a restored sensor value is the attribute named like the entity, else the state text |
| Entities.XEntity.constructor | custom_components/tianqi/__init__.py:617-637 | the given option overlaid by the converter's; display fields read from it, with the translation key defaulting to the attribute; enabled unless the converter says `False`; a sensor also reads its state class and unit (sensor.py:35-39); nothing added yet |
| Entities.XEntity.AppliedTwice | custom_components/tianqi/__init__.py:656-669 | taking the same payload twice leaves the entity as taking it once |
| Entities.XEntity.SetState | custom_components/tianqi/__init__.py:656-669 | `async_set_state`: the option is refreshed; state and picture are set only when the payload holds the entity's attribute; extra attributes are copied; a sensor mirrors its state into its value (sensor.py:41-44) and a binary sensor sets `is_on` (binary_sensor.py:39-43) |
| Entities.XEntity.RestoreLastState | custom_components/tianqi/binary_sensor.py:45-48 | a sensor restores its value from the attributes or the state (sensor.py:46-49); a binary sensor is on exactly when the state is `on`; both merge the attributes and change nothing else |
| Entities.XEntity.AddedToHass | custom_components/tianqi/__init__.py:639-648 | with a last state the entity restores it as its platform does (a sensor's native value from the state text, a binary sensor on exactly when the state is `on`), keeps its other fields and stays un-added; without one it is marked added and nothing else changes |
| Conditions.IsMember | custom_components/tianqi/weather.py:76 | a code is a member exactly when it is a string key of the table; a list or dict raises |
| Conditions.ItemCode | custom_components/tianqi/weather.py:140-142 | an item's code is `d` plus the printed value, and is found only when that is a table key |
| Conditions.HazeRows | custom_components/tianqi/weather.py:289-291 | the `d54` row holds precipitation 90 and cloud rate 0, unlike its neighbours |
| Conditions.ItemCodeExample | custom_components/tianqi/weather.py:192-194 | the string `07` finds the rainy row `d07`; the integer 7 prints as `7` and does not |
| Weather.StrippedFloat | custom_components/tianqi/weather.py:79-86 | `float(v.replace(unit, ''))`: a non-string raises AttributeError, otherwise the text without the unit is parsed |
| Weather.ShowBoth | custom_components/tianqi/weather.py:108 | the alert code is the two printed values joined, when both can be printed |
| Weather.AlertLink | custom_components/tianqi/weather.py:112 | the alert link is the referer's publish-area page for the printed area id |
| Weather.AlertOf | custom_components/tianqi/weather.py:104-113 | an alert entry needs a dict (AttributeError otherwise) and carries its code, title, description and link |
| Weather.AllOk | custom_components/tianqi/weather.py:104-115 | a list comprehension succeeds exactly when every element does, keeping order; otherwise the first error is raised |
| Weather.AlertListFacts | custom_components/tianqi/weather.py:104-115 | the alert list succeeds exactly when every alarm is a dict, with one entry per alarm in order |
| Weather.Alerts | custom_components/tianqi/weather.py:99-115 | without alarms the alert is empty with status `''`; with alarms the status is `ok` and the content is the alert list |
| Weather.IndexMap | custom_components/tianqi/weather.py:117-124 | every index key is hashable |
| Weather.IndexesFail | custom_components/tianqi/weather.py:117-124 | collecting indexes raises exactly when some index name with a description is a list or dict |
| Weather.IndexesFrom | custom_components/tianqi/weather.py:117-124 | every index comes from some `_name` key with a description, mapped to that description |
| Weather.IndexesKept | custom_components/tianqi/weather.py:117-124 | every `_name` key with a description has its name among the indexes |
| Weather.CollectIndexes | custom_components/tianqi/weather.py:117-124 | the loop over `dataZS` computes `IndexMap` |
| Weather.IndexesStop | custom_components/tianqi/weather.py:117-124 | once a key raises, the later keys do not matter |
| Weather.Measured | custom_components/tianqi/weather.py:75-87 | nothing is read exactly when the weather code is not a table member; otherwise the code's row is used |
| Weather.BaseExtra | custom_components/tianqi/weather.py:90-115 | the alert status is `ok` exactly when there are alarms; the skycon and area id are carried |
| Weather.WithIndexes | custom_components/tianqi/weather.py:125-126 | `indexes` is set exactly when some index was found, and nothing else changes |
| Weather.CurrentFacts | custom_components/tianqi/weather.py:71-126 | a reading's condition is a Home Assistant condition; its alert status is `ok` exactly with alarms; indexes are absent or non-empty |
| Weather.ConditionStates | custom_components/tianqi/weather.py:253-296 | every row of the condition table maps to a Home Assistant condition |
| Weather.DayInAnyYear | custom_components/tianqi/weather.py:149-153 | a month and day valid in 1900 are valid in every year |
| Weather.DailyRow | custom_components/tianqi/weather.py:139-176 | a non-dict item raises; a row has the code's condition and is timed at midnight of the parsed day in this year, with humidity and temperatures read from its fields |
| Weather.TodayRain | custom_components/tianqi/weather.py:157-160 | today's row takes the current rain when it is non-zero |
| Weather.DailyRows | custom_components/tianqi/weather.py:138-177 | at most one row per item, each at midnight of a day of this year |
| Weather.DailyStop | custom_components/tianqi/weather.py:139-176 | once an item raises, the later items do not matter |
| Weather.ForecastDaily | custom_components/tianqi/weather.py:134-177 | the loop of `async_forecast_daily` computes the daily rows of the stored `dailies` |
| Weather.Observation | custom_components/tianqi/weather.py:200-201 | the observation for a timestamp raises exactly when the key is unhashable |
| Weather.HourlyRow | custom_components/tianqi/weather.py:192-232 | a non-dict item raises |
| Weather.HourlyRowFacts | custom_components/tianqi/weather.py:192-214 | an hourly row has its code's condition and skycon, a whole hour of this year, and is at most 1.5 hours old |
| Weather.Capped | custom_components/tianqi/weather.py:189-191 | the hourly loop keeps at most one row per item and at most 49 rows |
| Weather.CappedStop | custom_components/tianqi/weather.py:189-191 | once an item raises or more than 48 rows are collected, the later items do not matter |
| Weather.CappedFull | custom_components/tianqi/weather.py:189-191 | when every item gives a row, the first 49 items are kept |
| Weather.CappedKeeps | custom_components/tianqi/weather.py:189-232 | a property every row has holds for every kept row |
| Weather.HourlyItem | custom_components/tianqi/weather.py:192-232 | one item's turn in the hourly loop computes its row |
| Weather.HourlyScan | custom_components/tianqi/weather.py:188-232 | the hourly loop keeps at most 49 rows |
| Weather.HourlyRecent | custom_components/tianqi/weather.py:213-214 | every hourly row kept is at most 1.5 hours old and carries its code's condition |
| Weather.HourlyFull | custom_components/tianqi/weather.py:189-191 | when every item gives a row, the first 49 are kept |
| Weather.Points | custom_components/tianqi/weather.py:234-250 | one point per row in each of the four series, carrying the row's time with its temperature, precipitation, skycon and cloud rate / 100 |
| Weather.CollectHourly | custom_components/tianqi/weather.py:188-232 | the loop of `async_forecast_hourly` computes the hourly scan |
| Weather.ReadCurrent | custom_components/tianqi/weather.py:72-126 | reads the current reading from the store |
| Weather.AssembleCurrent | custom_components/tianqi/weather.py:90-126 | the extra attributes, alerts and indexes assembled around the measurements |
| Weather.Shown | custom_components/tianqi/weather.py:78-101 | the entity shows the reading's condition and measurements and its extra attributes, and resets its hourly series |
| Weather.Extended | custom_components/tianqi/weather.py:183-251 | without Caiyun the hourly series are untouched; with it each of the four series is the old one (empty when missing) followed by the row points of that series, one per row in row order |
| Weather.WeatherEntity.constructor | custom_components/tianqi/weather.py:48-62 | the entity's code and name follow the station fallbacks; Caiyun support follows the config; nothing shown yet |
| Weather.WeatherEntity.ApplyCurrent | custom_components/tianqi/weather.py:76-101 | the reading is shown exactly when one was read; otherwise the entity is unchanged |
| Weather.WeatherEntity.UpdateFromClient | custom_components/tianqi/weather.py:71-132 | `update_from_client` moves the entity as `Updated` says; the state is written exactly when a reading was shown and nothing raised |
| Weather.WeatherEntity.UpdateWith | custom_components/tianqi/weather.py:76-132 | after the read, the forecasts are applied and the state is written |
| Weather.WeatherEntity.AddedToHass | custom_components/tianqi/weather.py:64-69 | marks the entity added and updates it from the client |
| Weather.WeatherEntity.ApplyForecasts | custom_components/tianqi/weather.py:128-130 | the daily forecast is stored, then the hourly one is computed |
| Weather.WeatherEntity.ForecastHourly | custom_components/tianqi/weather.py:179-251 | with Caiyun and no extra attributes, AttributeError and nothing changed; otherwise the rows or the error of the hourly scan, with the series extended by the rows |
| ConfigFlow.SchemeLength | custom_components/tianqi/config_flow.py:32 | the scheme prefix removed is part of the text |
| ConfigFlow.StripTrail | custom_components/tianqi/config_flow.py:32 | the trailing part removed is slashes and whitespace, and what is left does not end in a slash |
| ConfigFlow.CleanDomain | custom_components/tianqi/config_flow.py:32 | the cleaned domain is a prefix of the text after the scheme |
| ConfigFlow.CleanUrl | custom_components/tianqi/config_flow.py:32 | whitespace, an `http(s)://` scheme in any case, trailing slashes and whitespace are removed around the host |
| ConfigFlow.CleanBare | custom_components/tianqi/config_flow.py:32 | a domain without a scheme or trailing slashes is kept as it is |
| ConfigFlow.StripTrailOf | custom_components/tianqi/config_flow.py:32 | only trailing slashes followed by whitespace are removed |
| ConfigFlow.Defaulted | custom_components/tianqi/config_flow.py:35-39 | with a domain, the input holds the cleaned domain and `area_id` defaults to `auto`; all other keys are kept |
| ConfigFlow.Choices | custom_components/tianqi/config_flow.py:43-46 | the choices are `auto` and the areas found |
| ConfigFlow.Form | custom_components/tianqi/config_flow.py:71-86 | a form clears the message and shows the previous one, else the hint |
| ConfigFlow.UserDecideFacts | custom_components/tianqi/config_flow.py:41-86 | an entry exactly when no search is asked and the station of a non-empty area id is found, with the input without `search`; the step raises only from the search; search choices, not-found and lookup-error messages; every form defaults to the input's domain |
| ConfigFlow.UserStepEntry | custom_components/tianqi/config_flow.py:23-69 | an entry holds a non-empty cleaned domain, has no `search`, and keeps every other input key |
| ConfigFlow.OptionsStepFacts | custom_components/tianqi/config_flow.py:94-123 | an entry exactly when the domain is truthy and the station is found, merging the input into the data; a form keeps the data and shows the lookup error; the form's defaults take the input, then the options, then the data |
| ConfigFlow.OptionsForm | custom_components/tianqi/config_flow.py:109-123 | the options form shows the previous message, else the hint |
| ConfigFlow.Prepare | custom_components/tianqi/config_flow.py:29-39 | the cleaned domain and the defaulted input and area id |
| ConfigFlow.UserFlow.constructor | custom_components/tianqi/config_flow.py:23-28 | a new flow has no message, station or unique id |
| ConfigFlow.UserFlow.StepUser | custom_components/tianqi/config_flow.py:23-86 | `async_step_user` returns and moves the flow's context as `UserStep` says |
| ConfigFlow.UserFlow.StepSearch | custom_components/tianqi/config_flow.py:41-53 | the search branch |
| ConfigFlow.UserFlow.StepLookup | custom_components/tianqi/config_flow.py:55-69 | the area lookup branch |
| ConfigFlow.UserFlow.ShowUserForm | custom_components/tianqi/config_flow.py:71-86 | the form branch |
| ConfigFlow.OptionsFlow.constructor | custom_components/tianqi/config_flow.py:90-92 | the flow holds the entry's data and options and no message |
| ConfigFlow.OptionsFlow.StepInit | custom_components/tianqi/config_flow.py:94-123 | `async_step_init` returns and moves the entry data and message as `OptionsStep` says |
| ConfigFlow.OptionsFlow.Settle | custom_components/tianqi/config_flow.py:101-123 | the entry update, or the form with the lookup's message |
| ConfigFlow.OptionsFlow.ShowOptionsForm | custom_components/tianqi/config_flow.py:109-123 | the options form clears the message and keeps the data |
| Dates.NextDate | custom_components/tianqi/weather.py:150-153 | the next day is a valid date, in the same year or on January 1 of the next |
| Dates.AddDay | custom_components/tianqi/__init__.py:590-591 | adding a day overflows only after 9999-12-31 |
| Dates.Strptime | custom_components/tianqi/__init__.py:579 | a successful parse yields one number per field of the format |
| Dates.ParseStamp | custom_components/tianqi/__init__.py:579 | `strptime(s, '%Y%m%d%H%M')` yields a valid timestamp or raises |
| Dates.ParseMonthDay | custom_components/tianqi/weather.py:149 | `strptime(s, '%m/%d')` yields a day that exists in 1900 |
| Dates.FormatStamp | custom_components/tianqi/__init__.py:594 | `strftime('%Y%m%d%H%M')` gives digits only, 12 of them from year 1000 |
| Dates.StampRoundTrip | custom_components/tianqi/__init__.py:579-594 | parsing a formatted timestamp gives it back |
| Dates.MonthDayRoundTrip | custom_components/tianqi/weather.py:149 | parsing `MM/DD` of a day that exists in 1900 gives that day back |
| Text.TrimStart | custom_components/tianqi/config_flow.py:32 | `lstrip()` removes exactly the leading whitespace |
| Text.TrimEnd | custom_components/tianqi/config_flow.py:32 | `rstrip()` removes exactly the trailing whitespace |
| Text.Strip | custom_components/tianqi/converters/base.py:48 | `strip()` leaves no whitespace at either end |
| Text.LStripChar | custom_components/tianqi/__init__.py:457 | `lstrip('/')` removes exactly the leading slashes |
| Text.RStripChar | custom_components/tianqi/config_flow.py:32 | removing trailing slashes removes exactly those |
| Text.ReplaceAbsent | custom_components/tianqi/converters/base.py:48 | replacing a substring that does not occur changes nothing |
| Text.ReplaceAfter | custom_components/tianqi/__init__.py:462 | a replacement does not touch a prefix in which no match can start |
| Text.RemoveChar | custom_components/tianqi/converters/base.py:48 | removing a character removes all of it and no other |
| Text.Split | custom_components/tianqi/__init__.py:446 | `split('~')` gives at least one field, none holding the separator |
| Text.JoinSplit | custom_components/tianqi/__init__.py:446 | joining the fields of a split gives the text back |
| Text.SplitJoin | custom_components/tianqi/__init__.py:446 | splitting joined separator-free fields gives them back |
| Text.NatToString | custom_components/tianqi/__init__.py:461 | a number prints as digits without a leading zero |
| Text.DigitsOfNat | custom_components/tianqi/__init__.py:461 | the printed digits read back as the number |
| Text.ParseIntOfString | custom_components/tianqi/__init__.py:589 | `int()` of a printed integer gives it back |
| Text.ParseFloatOfString | custom_components/tianqi/__init__.py:597 | `float()` of a printed integer gives it as a float |
| Values.FloatOf | custom_components/tianqi/__init__.py:597-602 | `float(v)` raises ValueError for a string that does not parse and TypeError for None, a list or a dict |
| Values.IntOf | custom_components/tianqi/__init__.py:589 | `int(v)` raises ValueError for a string that does not parse and TypeError for None, a list or a dict |
| Values.ShowInt | custom_components/tianqi/__init__.py:446 | an integer prints as text that reads back as it |
| Values.IntThroughFloat | custom_components/tianqi/__init__.py:597 | an integer survives printing and `float()`, and `int()` of its float |

## Left out

- HTTP, the regular expressions that find the `dataSK`, `dataZS`, `alarmDZ`, `fc`,
  `fc180` and `observe24h_data` markers, and JSON parsing are not modelled. Their results,
  as they would be with `re` imported (see Findings), are parameters: the reply's text and status, the object found after a marker (or none),
  and what `json.loads` makes of the text.
- The clock (`time.time()`, `dt.now()`) is a parameter. So are the host's coordinates and
  location name, and `latest_domain`.
- Data coordinators, update intervals, listeners, `init` and `unload`, and
  `async_setup`'s service registration are not modelled.
- The bookkeeping in `hass.data` of `async_setup_entry`, `from_config` and the options
  update is not modelled.
- `device_info`, `entity_id` and `unique_id` strings are not modelled: they are display
  names only.
- Python dict iteration order is a parameter (`order` for `dataZS`). Entities are kept as
  a map, so `push_state` visits them in no particular order. This does not change its
  result, because an entity's update reads only itself and the payload.
- Python hash equality is not modelled. Index names are compared as JSON values (so `1`
  and `1.0`, or `True` and `1`, are different keys).
- `float()` and `int()` of strings accept sign, digits and an optional fraction. Exponents,
  `inf`, `nan` and underscores are not accepted.
- `float()` gives an exact decimal (`real`), not an IEEE double, so its rounding to 53
  bits is not modelled. The core only stores, compares and passes on these numbers.
- `round(val, precision)` in `NumberSensorConv.decode` is not modelled: the payload holds
  the unrounded number.
- The printed form (`f'{v}'`) of a float, list or dict is not modelled. The alert code
  and link, the index names and an item's condition code are absent (None) when they
  would need it. A number converter given such a value parses nothing from it.
- The error message of a failed observation parse, and the logged record, are not
  modelled. The model records that the parse failed and that `od2` was reversed in place.
- The `area_id` keyword of the fetches is not modelled: every fetch uses the station's
  area id.
- The `lat` and `lon` parameters of the minutely request are not modelled.
- `async_get_last_state` is given to `AddedToHass` as an optional last state. Neither
  `SensorEntity` (`sensor.py:34`) nor `BinarySensorEntity` (`binary_sensor.py:34`) mixes
  in a restore entity, so `hasattr(self, 'async_get_last_state')` is false in the
  program and only the case without a last state occurs. The restore branch is modelled
  as written for an entity that has one.
- `AlarmsBinarySensorConv` and `ForecastMinutelySensorConv` are not part of this model.
  Their definitions are not in the converters available, so the client registers only
  the other converters of its table.
- `update_summary_and_entities` is `update_summary` followed by `update_entities`. The
  model offers it as those two calls; it is not a method of its own.
- Writing an entity's state to Home Assistant is recorded as a multiset of entity keys.
  Home Assistant's state machine is not modelled.
- In the source, a weather entity that raises part-way through `update_from_client`
  keeps the attributes it already set. The model leaves the entity unchanged when reading
  the current conditions raises.
- Tianqi.Client.SetupEntities: does not state the initial fields of the entities it
  builds. It states only that they exist, belong to their converters and platforms, and
  are handed over in order.
- The user step's `async_set_unique_id` is modelled as the context's unique id.
  `_abort_if_unique_id_configured` (an abort when the area is already configured) is not
  modelled.
- Form schemas are not modelled. The model keeps the fields a form offers: the domain
  default, the area choices and the message shown.
- Message texts are modelled as `Tip` values, not as the Chinese strings.
- An exception's text `f'{exc}'` is taken to be non-empty.
- The user and options steps require a typed input (the string fields are strings),
  which the form's schema guarantees.
- The options step does not clean its domain, as in the source.
- `strptime` is modelled for the `%Y%m%d%H%M` and `%m/%d` formats only, following the
  shapes of Python's patterns for those directives. Only ASCII digits are accepted; Python's
  `\d` and `int()` also accept other Unicode decimal digits.

## Findings

| source | as written | input that shows it | evidently intended | confidence | as-written member | corrected member |
|---|---|---|---|---|---|---|
| custom_components/tianqi/__init__.py:489 | `re.search` is called in five fetches (lines 489, 493, 509, 526, 542 and 574), but `__init__.py` never imports `re`. The star import `from .converters.base import *` (line 29) brings it in only if `converters/base.py` does; the `base.py` shown imports only `dataclasses` and `typing`, but it is evidently not complete, since `__init__.py:268-269` builds `AlarmsBinarySensorConv` and `ForecastMinutelySensorConv`, which it does not define. So the bug holds only if `base.py` is exactly as shown | with `base.py` as shown, any reply with a non-empty body: the fetch raises NameError right after the `_text` rule, so `dataSK`, `dataZS`, `alarms`, `dailies`, `hourlies` and `observe` are never set and nothing is pushed | `import re` at the top of `__init__.py`, as `config_flow.py` has | not executed; low, because the complete `base.py` may import `re` | Tianqi.UnimportedRe | Tianqi.AfterSummary, Tianqi.AfterAlarms, Tianqi.Refreshed, Tianqi.AfterObserve |
