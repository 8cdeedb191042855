# Farm dashboard state store — a Dafny model

The farm-monitoring server keeps all of its state in memory: a greenhouse,
the outdoor weather and its history, animal pens, a sorting conveyor, a
tractor, two scenario switches and a notification log. A one-second callback
perturbs the weather, records history and runs two automatic scenarios (a
storm that opens every pen door, and a wrong RFID tag that sends the tractor
to the conveyor), each with a 60-second cooldown. HTTP handlers read the
store, ingest weather and greenhouse sensor reports, flip fields and delete
notifications.

The model has five modules:

- `FarmValues` (`farm_values.dfy`): `Option`, the dynamically typed property value `Val`, and the
  decimal rendering of whole numbers used to build the `ERR-<n>` tag.
- `FarmWorld` (`farm_world.dfy`): the entities, the whole-store value `World` with its
  invariant `Inv`, the initial store, and the pure bookkeeping: capped history
  append, notification append, trim and filter-by-id, and lookup of a pen by id.
- `Simulation` (`simulation.dfy`): the tick as a pure function `TickSpec` composed of its
  steps (perturbation, history, storm rule, wrong-tag rule, trim). It also holds the lemmas about one
  tick and about runs of ticks.
- `Server` (`server.dfy`): the class `Farm`, whose fields are the server's `state`,
  `cooldowns` and `notificationId`. Its methods change them in place: `Tick`
  (proved equal to `TickSpec`) and one method per handler. `Tick` and every handler keep `Valid()`.
- `Routes` (`routes.dfy`): the route table in registration order and Express's
  first-match dispatch. It proves that the light-colour route is shadowed.

Randomness and the clock are parameters. Every `Math.random()` result is a
`Random` (a real in [0, 1)) in a `Draws` record, and the tick receives `now`
in milliseconds and the two formatted local times as opaque strings.

Some behaviours of the code worth noting:

- The weather record is `{temp, wind, rain: bool}`, and a history entry is `{time, temp, wind, rain: 0|1}`.
- The cooldown test is strict (`now > cooldown`).
- `/json/data` replies with `{pump, lamp}` only.
- The trim removes at most one notification per tick, so the log can hold 21 or more entries (`BothRulesOverflowLog`).
- `POST /api/greenhouse/light/:color` is never reached. The generic route `/api/greenhouse/:param/:value`
  is registered first and sets `greenhouse.light = false` (`LightRouteShadowed`). `SetLightMode` is still modelled on its own.
- The three setters assign a request parameter as a property name. A parameter of `__proto__` sets the object's prototype rather than a field, and a boolean there is ignored, so the store is unchanged (`SetProperty`).
- `GET /api/state` sends `state` only. The cooldowns and the notification counter live outside it (`StateView`).

## Model

| member | source | states |
|---|---|---|
| FarmValues.Decimal | server.js:91 | the rendering of a number is a non-empty digit string without leading zeros |
| FarmValues.DecimalRoundTrip | server.js:91 | reading the rendering back gives the number |
| FarmWorld.Initial | server.js:11-36 | the starting store satisfies the invariant, with empty history and log |
| FarmWorld.Entry | server.js:62-67 | a history point carries the time, temperature and wind of the reading, and rain as 1 exactly when it rains, else 0 |
| FarmWorld.AppendCapped | server.js:61-73 | a push then drop-oldest over 180: within the cap it stays within it; the new entry is last and the newest old entries precede it |
| FarmWorld.PushNotification | server.js:79-80 | the appended entry carries the counter, the counter advances by one, the old entries stay, and the invariant is kept |
| FarmWorld.Trim | server.js:102 | the result is a suffix of the log (`IsSuffix`), one entry shorter exactly when the log held more than 20, otherwise the whole log |
| FarmWorld.Without | server.js:177-181 | the filtered log never grows |
| FarmWorld.WithoutMembers | server.js:177-181 | the filtered log holds exactly the entries whose id differs from the requested one (none when the id is NaN) |
| FarmWorld.WithoutIncreasing | server.js:177-181 | the filter keeps notification ids increasing |
| FarmWorld.WithoutConcat | server.js:179 | the filter keeps original order (it distributes over concatenation) |
| FarmWorld.WithoutAbsent | server.js:177-181 | deleting an id no entry carries is a no-op |
| FarmWorld.WithoutPresent | server.js:177-181 | with increasing ids, deleting a present id removes exactly that one entry |
| FarmWorld.FindPen | server.js:157 | the index found is the first pen whose id equals the parsed id; none found means no pen has it |
| FarmWorld.OpenDoor | server.js:78 | a pen's door becomes true and every other field is unchanged |
| FarmWorld.OpenDoors | server.js:78 | every pen is treated that way and the pen count is kept |
| FarmWorld.SetProperty | server.js:152-173 | assigning a primitive to an object key adds or overwrites that key and keeps every other key, except that `__proto__` ignores the assignment |
| Simulation.DriftTemp | server.js:45-46 | a perturbed temperature is an integer in [-5, 35] |
| Simulation.DriftWind | server.js:49-50 | a perturbed wind is at least 0, and a gust sets it to a value in [5, 39] |
| Simulation.Round | server.js:46-50 | `Math.round`: the result is the integer nearest the input, halves going up |
| Simulation.PerturbWeather | server.js:43-58 | without the 0.15 draw the weather is unchanged; with it the clamps hold and rain follows the 0.75/0.35 thresholds on the new wind |
| Simulation.Weathered | server.js:43-73 | the perturbation and history steps change only the weather and the history |
| Simulation.TempMovesSlowly | server.js:45-46 | inside the clamp, one perturbation moves the temperature by at most one degree |
| Simulation.WindMovesSlowly | server.js:49 | without a gust, one perturbation moves the wind by at most 3 |
| Simulation.RecordHistory | server.js:61-73 | only the history changes; an empty history always receives the current reading; a successful draw appends with the cap |
| Simulation.StormRule | server.js:76-86 | the storm rule touches only pens, the log, the counter and the storm cooldown |
| Simulation.WrongTagRule | server.js:88-100 | the wrong-tag rule touches only conveyor, tractor, the log, the counter and the wrong-tag cooldown |
| Simulation.StormRuleKeepsInv | server.js:76-86 | the storm rule keeps the history within 180 and the notification ids increasing and below the counter |
| Simulation.WrongTagRuleKeepsInv | server.js:88-100 | so does the wrong-RFID rule |
| Simulation.ErrorTag | server.js:91 | a wrong tag starts with `ERR-` and has at least one character after it; its full shape is `ErrorTagShape` |
| Simulation.TickSpec | server.js:39-104 | one callback: the weather is the perturbed weather, and the greenhouse and scenario switches are untouched; its other effects are the lemmas below |
| Simulation.ErrorTagShape | server.js:91 | a wrong tag is `ERR-` followed by a number from 0 to 998 without leading zeros |
| Simulation.TickKeepsInv | server.js:39-104 | a tick keeps the history within 180 and notification ids increasing and below the counter |
| Simulation.TickWeather | server.js:43-73 | a tick perturbs the weather and either keeps the history or appends the new reading with the cap; an empty history gets exactly that reading |
| Simulation.StormOutcome | server.js:76-86 | the rule fires only if enabled, off cooldown, wind > 25 and raining; then every door opens with other fields kept, its notification with the current counter survives the trim, and the cooldown is now + 60000; otherwise pens and cooldown are untouched |
| Simulation.WrongTagFiredTick | server.js:88-100 | when the wrong-RFID rule fires: wrong goes up by 1, the tag is `ErrorTag` of the rfid draw, the tractor goes to `conveyor`, the notification is kept, the cooldown is now + 60000 |
| Simulation.WrongTagOutcome | server.js:88-100 | the rule fires only if enabled, off cooldown and on a draw below 0.08; then wrong goes up by exactly 1, the tag is `ErrorTag` of the rfid draw (`ERR-n` with n ≤ 998 and no leading zero), the tractor goes to `conveyor`, one notification is kept, and the cooldown is now + 60000; otherwise conveyor, tractor and cooldown are untouched |
| Simulation.TickNotifications | server.js:79-102 | the counter advances by the number of firings; the log grows by that number less one exactly when it went over 20, losing only its oldest entry |
| Simulation.NotificationsStayCapped | server.js:102 | a log within 20 stays within 20 when at most one rule fired |
| Simulation.BothRulesOnFullLog | server.js:76-102 | a log of 20 to which both rules append ends the tick with 21 entries |
| Simulation.BothRulesOverflowLog | server.js:76-102 | a full log of 20 ends a tick with 21 entries when both rules fire |
| Simulation.TickStormCooldown | server.js:76-86 | the storm cooldown changes only on a firing, and then to now + 60000 with now past the old cooldown |
| Simulation.TickStormGate | server.js:76-86 | every tick sets the storm cooldown to now + 60000 when the rule fires and keeps it otherwise, and a firing needs now past the cooldown |
| Simulation.CooldownKept | server.js:76-86 | for any step that follows that gate, after a firing on tick i the cooldown stays at least tick i's time + 60000 for the rest of the run |
| Simulation.CooldownSpacing | server.js:76-86 | for any step that follows that gate, two firings in one run are more than 60000 ms apart |
| Simulation.StormSpacing | server.js:76-86 | two storm firings in one run are more than 60000 ms apart |
| Server.Farm.constructor | server.js:11-36 | the new store is the initial store and is valid |
| Server.Farm.OpenPenDoors | server.js:78 | the in-place loop opens the door of every pen |
| Server.Farm.Notify | server.js:79-83 | appends one entry with the counter's value and increments the counter |
| Server.Farm.PerturbStep | server.js:43-58 | the in-place perturbation leaves the weather `PerturbWeather` describes |
| Server.Farm.RecordStep | server.js:61-73 | the in-place history step is `RecordHistory` |
| Server.Farm.StormStep | server.js:76-86 | the in-place storm rule is `StormRule` |
| Server.Farm.WrongTagStep | server.js:88-100 | the in-place wrong-tag rule is `WrongTagRule` |
| Server.Farm.Tick | server.js:39-104 | one callback leaves exactly the store `TickSpec` gives and keeps the invariant |
| Server.Farm.WeatherHistory | server.js:108 | returns the stored history, at most 180 entries |
| Server.Farm.State | server.js:149 | returns the `state` object (`View` of the store: greenhouse, weather, history, pens, conveyor, tractor, scenarios, notifications; not the cooldowns or the counter); the store satisfies the invariant, so the history is within 180 and the ids increase |
| Server.Farm.UpdateWeather | server.js:111-128 | only provided readings change, exactly one entry with the new values is appended under the cap, and nothing else changes |
| Server.Stored | server.js:135-140 | a provided sensor value overwrites its one key; every other key keeps its value |
| Server.Ingested | server.js:131-147 | a whole report writes each provided reading to its own key; watering, lightMode, window and every other non-sensor key keep their values |
| Server.Farm.Report | server.js:135-140 | one key of a report written in place, as `Stored` gives it |
| Server.Farm.IngestSensors | server.js:131-147 | the greenhouse becomes the reported one (`Ingested`), nothing else changes, and the reply is the stored pump and lamp wishes, which a report never writes |
| Server.Farm.SetGreenhouseField | server.js:151-154 | any key other than `__proto__` becomes `value == "true"`; a `__proto__` write changes nothing; no other key and nothing else changes |
| Server.Farm.SetPenField | server.js:156-160 | no-op when no pen has the id; otherwise only the first matching pen changes, by `SetProperty` of the named field to `value == "true"` |
| Server.Farm.SetConveyor | server.js:162-165 | the conveyor runs exactly when the action is `on`; nothing else changes |
| Server.Farm.SetTractor | server.js:167-170 | the tractor position becomes the given place, whatever it is |
| Server.Farm.SetScenario | server.js:172-175 | the named flag (unless it is `__proto__`) becomes `enabled == "true"`; nothing else changes |
| Server.Farm.DeleteNotification | server.js:177-181 | the log becomes the filtered log and stays valid; nothing else changes |
| Server.Farm.SetLightMode | server.js:184-192 | succeeds exactly for off, red, blue and green and then sets lightMode; otherwise fails and changes nothing |
| Routes.FirstMatch | server.js:108-184 | the route chosen is the first registered one whose verb and pattern fit; none chosen means none fits |
| Routes.ParamsFrom | server.js:108-184 | the parameter positions of a route pattern, increasing, and every parameter position is among them |
| Routes.CapturesFrom | server.js:108-184 | `req.params`: the captured values are the request segments at the parameter positions, in order |
| Routes.Dispatch | server.js:108-184 | a request is not found exactly when no route fits it; otherwise the first route that fits, in registration order, takes it, with its captures as parameters |
| Routes.GenericCoversLight | server.js:151-184 | every request fitting the light-colour route fits the earlier generic greenhouse route |
| Routes.LightRouteShadowed | server.js:151-184 | `POST /api/greenhouse/light/<colour>` dispatches to the generic setter with parameters `light` and the colour |
| Routes.LightHandlerUnreachable | server.js:184-192 | no request is dispatched to the light-colour handler |

## Left out

- Express plumbing: static file serving, body parsing, JSON encoding, HTTP status codes and `app.listen`.
- Route matching works on already-split path segments. Express's case-insensitive matching, trailing slashes and URL-decoding of parameters are not modelled.
- `setInterval` scheduling is not modelled: `Tick` is called with the clock value. `Date.now()` and `toLocaleTimeString` become parameters. One clock reading serves both notifications of a tick, although the code formats the time once per notification.
- `Math.random()` draws are parameters in [0, 1); no distribution is modelled.
- Floating point: draws and the perturbation use exact real arithmetic, with IEEE rounding not modelled. Weather temperature and wind are whole numbers.
- `parseFloat`, `parseInt` and `Boolean` coercions happen before the model. Handlers receive `Option` values, where `None` is an absent field or a `NaN` id. NaN readings and fractional sensor values are not modelled.
- The `id` parameter of the pen and notification routes is passed as a parsed `Option<int>`. The dispatcher hands back raw segments and does not call the handlers.
- Only the storm rule has a run-level spacing lemma. The wrong-tag rule's cooldown gate is stated for one tick (`WrongTagOutcome`).
- The browser page (polling, chart and view lookups) is not part of this model.
