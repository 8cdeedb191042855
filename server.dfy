/**
 * The server's in-memory store as one object: the periodic tick and the
 * request handlers change its fields in place. Each method states its new
 * store as a change of the old one, and keeps `Inv`.
 */
module Server {
  import opened FarmValues
  import opened FarmWorld
  import opened Simulation

  /** The sensor fields a greenhouse controller may report (already parsed). */
  datatype SensorReadings = SensorReadings(
    soilTemp: Option<int>, soilHum: Option<int>, light: Option<int>,
    airTemp: Option<int>, airHum: Option<int>, airPress: Option<int>)

  /** The reply to a sensor report: the desired pump and lamp states (`None` is `undefined`). */
  datatype SensorReply = SensorReply(pump: Option<Val>, lamp: Option<Val>)

  /** The greenhouse keys a sensor report may write. */
  const SensorKeys: set<string> := {"soil_temp", "soil_hum", "light_level", "temp", "hum", "press"}

  const LightColors: set<string> := {"off", "red", "blue", "green"}

  /** A greenhouse key after a report: the reported value if there is one, else as before. */
  function Reported(before: Option<Val>, v: Option<int>): Option<Val>
  {
    if v.Some? then Some(VNum(v.value)) else before
  }

  /** `if (v !== undefined) g[key] = v`: one key of a sensor report. */
  function Stored(g: Fields, key: string, v: Option<int>): (r: Fields)
    ensures Lookup(r, key) == Reported(Lookup(g, key), v)
    ensures forall k :: k != key ==> Lookup(r, k) == Lookup(g, k)
  {
    if v.Some? then g[key := VNum(v.value)] else g
  }

  /**
   * The greenhouse after a whole sensor report, key by key in the handler's
   * order: each provided reading lands on its own key, every other key keeps its value.
   */
  function Ingested(g: Fields, r: SensorReadings): (h: Fields)
    ensures Lookup(h, "soil_temp") == Reported(Lookup(g, "soil_temp"), r.soilTemp)
    ensures Lookup(h, "soil_hum") == Reported(Lookup(g, "soil_hum"), r.soilHum)
    ensures Lookup(h, "light_level") == Reported(Lookup(g, "light_level"), r.light)
    ensures Lookup(h, "temp") == Reported(Lookup(g, "temp"), r.airTemp)
    ensures Lookup(h, "hum") == Reported(Lookup(g, "hum"), r.airHum)
    ensures Lookup(h, "press") == Reported(Lookup(g, "press"), r.airPress)
    ensures forall k :: k !in SensorKeys ==> Lookup(h, k) == Lookup(g, k)
  {
    var g1 := Stored(g, "soil_temp", r.soilTemp);
    var g2 := Stored(g1, "soil_hum", r.soilHum);
    var g3 := Stored(g2, "light_level", r.light);
    var g4 := Stored(g3, "temp", r.airTemp);
    var g5 := Stored(g4, "hum", r.airHum);
    Stored(g5, "press", r.airPress)
  }

  class Farm {
    var greenhouse: Fields
    var weather: Weather
    var weatherHistory: seq<HistoryEntry>
    var pens: seq<Fields>
    var conveyor: Conveyor
    var tractor: Tractor
    var scenarios: map<string, bool>
    var notifications: seq<Notification>
    var cooldowns: Cooldowns
    var notificationId: nat

    function Snapshot(): World
      reads this
    {
      World(greenhouse, weather, weatherHistory, pens, conveyor, tractor,
            scenarios, notifications, cooldowns, notificationId)
    }

    predicate Valid()
      reads this
    {
      Inv(Snapshot())
    }

    constructor ()
      ensures Valid() && Snapshot() == Initial()
    {
      var w := Initial();
      greenhouse, weather, weatherHistory, pens := w.greenhouse, w.weather, w.weatherHistory, w.pens;
      conveyor, tractor, scenarios := w.conveyor, w.tractor, w.scenarios;
      notifications, cooldowns, notificationId := w.notifications, w.cooldowns, w.nextId;
    }

    // ------------------------------------------------------------ the tick

    /** Sets `door` on every pen, one pen at a time. */
    method OpenPenDoors()
      modifies this`pens
      ensures |pens| == |old(pens)|
      ensures forall i :: 0 <= i < |pens| ==> pens[i] == OpenDoor(old(pens)[i])
    {
      var i := 0;
      while i < |pens|
        invariant 0 <= i <= |pens| == |old(pens)|
        invariant forall j :: 0 <= j < i ==> pens[j] == OpenDoor(old(pens)[j])
        invariant forall j :: i <= j < |pens| ==> pens[j] == old(pens)[j]
      {
        pens := pens[i := OpenDoor(pens[i])];
        i := i + 1;
      }
    }

    /** Appends a notification carrying the counter, and advances the counter. */
    method Notify(time: string, msg: string)
      modifies this`notifications, this`notificationId
      ensures notifications == old(notifications) + [Notification(old(notificationId), time, msg)]
      ensures notificationId == old(notificationId) + 1
    {
      notifications := notifications + [Notification(notificationId, time, msg)];
      notificationId := notificationId + 1;
    }

    /** Moves temperature and wind, maybe gusts, and redraws rain. */
    method PerturbStep(d: Draws)
      modifies this`weather
      ensures weather == PerturbWeather(old(weather), d)
    {
      if d.perturb < 0.15 {
        var temp := weather.temp as real + (d.tempNoise * 2.0 - 1.0) * 0.8;
        weather := weather.(temp := Round(MaxReal(-5.0, MinReal(35.0, temp))));
        weather := weather.(wind := Round(MaxReal(0.0, weather.wind as real + (d.windNoise * 6.0 - 3.0))));
        if d.gust < 0.25 {
          weather := weather.(wind := (d.gustSpeed * 35.0).Floor + 5);
        }
        if weather.wind > 18 {
          weather := weather.(rain := d.rain < 0.75);
        } else {
          weather := weather.(rain := d.rain < 0.35);
        }
      }
    }

    /** Records the current reading on a successful draw or into an empty history. */
    method RecordStep(shortTime: string, roll: Random)
      modifies this`weatherHistory
      ensures Snapshot() == RecordHistory(old(Snapshot()), shortTime, roll)
    {
      if roll < 0.12 || |weatherHistory| == 0 {
        weatherHistory := weatherHistory + [Entry(weather, shortTime)];
        if |weatherHistory| > HistoryCap {
          weatherHistory := weatherHistory[1..];
        }
      }
    }

    /** The storm rule. */
    method StormStep(now: int, longTime: string)
      modifies this`pens, this`notifications, this`notificationId, this`cooldowns
      ensures Snapshot() == StormRule(old(Snapshot()), now, longTime)
    {
      if Enabled(scenarios, "storm") && now > cooldowns.storm {
        if weather.wind > 25 && weather.rain {
          OpenPenDoors();
          Notify(longTime, StormMessage);
          cooldowns := cooldowns.(storm := now + CooldownMs);
        }
      }
    }

    /** The wrong-RFID rule. */
    method WrongTagStep(now: int, longTime: string, d: Draws)
      modifies this`conveyor, this`tractor, this`notifications, this`notificationId, this`cooldowns
      ensures Snapshot() == WrongTagRule(old(Snapshot()), now, longTime, d)
    {
      if Enabled(scenarios, "wrongVeg") && now > cooldowns.wrongVeg {
        if d.wrongTag < 0.08 {
          conveyor := conveyor.(wrong := conveyor.wrong + 1);
          conveyor := conveyor.(lastRfid := "ERR-" + NumberString((d.rfid * 999.0).Floor));
          tractor := tractor.(position := "conveyor");
          Notify(longTime, WrongTagMessage);
          cooldowns := cooldowns.(wrongVeg := now + CooldownMs);
        }
      }
    }

    /** One run of the periodic callback at clock `now`. */
    method Tick(now: int, shortTime: string, longTime: string, d: Draws)
      requires Valid()
      modifies this
      ensures Valid()
      ensures Snapshot() == TickSpec(old(Snapshot()), TickInput(now, shortTime, longTime, d))
    {
      ghost var t := TickInput(now, shortTime, longTime, d);
      PerturbStep(d);
      RecordStep(shortTime, d.record);
      assert Snapshot() == Weathered(old(Snapshot()), t);
      StormStep(now, longTime);
      WrongTagStep(now, longTime, d);
      if |notifications| > NotificationCap {
        notifications := notifications[1..];
      }
      TickKeepsInv(old(Snapshot()), t);
    }

    // ------------------------------------------------------- the handlers

    /** `GET /api/weather/history`. */
    method WeatherHistory() returns (h: seq<HistoryEntry>)
      requires Valid()
      ensures h == weatherHistory && |h| <= HistoryCap
    {
      h := weatherHistory;
    }

    /** `GET /api/state`. */
    method State() returns (v: StateView)
      requires Valid()
      ensures v == View(Snapshot())
      ensures Inv(Snapshot())
      ensures |v.weatherHistory| <= HistoryCap && IdsIncreasing(v.notifications)
    {
      v := StateView(greenhouse, weather, weatherHistory, pens, conveyor, tractor, scenarios, notifications);
    }

    /** `POST /api/weather/update`: overwrite the provided readings and record them at once. */
    method UpdateWeather(temp: Option<int>, wind: Option<int>, rain: Option<bool>, shortTime: string)
      requires Valid()
      modifies this
      ensures Valid()
      ensures weather.temp == (if temp.Some? then temp.value else old(weather.temp))
      ensures weather.wind == (if wind.Some? then wind.value else old(weather.wind))
      ensures weather.rain == (if rain.Some? then rain.value else old(weather.rain))
      ensures weatherHistory == AppendCapped(old(weatherHistory), Entry(weather, shortTime))
      ensures Snapshot() == old(Snapshot()).(weather := weather, weatherHistory := weatherHistory)
    {
      if temp.Some? { weather := weather.(temp := temp.value); }
      if wind.Some? { weather := weather.(wind := wind.value); }
      if rain.Some? { weather := weather.(rain := rain.value); }
      weatherHistory := weatherHistory + [Entry(weather, shortTime)];
      if |weatherHistory| > HistoryCap {
        weatherHistory := weatherHistory[1..];
      }
    }

    /** One sensor key of a report, written in place. */
    method Report(key: string, v: Option<int>)
      modifies this`greenhouse
      ensures greenhouse == Stored(old(greenhouse), key, v)
    {
      if v.Some? { greenhouse := greenhouse[key := VNum(v.value)]; }
    }

    /** `POST /json/data`: store the reported sensor values; reply with the desired pump and lamp. */
    method IngestSensors(r: SensorReadings) returns (reply: SensorReply)
      requires Valid()
      modifies this
      ensures Valid()
      ensures greenhouse == Ingested(old(greenhouse), r)
      ensures reply == SensorReply(Lookup(greenhouse, "watering"), Lookup(greenhouse, "lightMode"))
      ensures Snapshot() == old(Snapshot()).(greenhouse := greenhouse)
    {
      Report("soil_temp", r.soilTemp);
      Report("soil_hum", r.soilHum);
      Report("light_level", r.light);
      Report("temp", r.airTemp);
      Report("hum", r.airHum);
      Report("press", r.airPress);
      reply := SensorReply(Lookup(greenhouse, "watering"), Lookup(greenhouse, "lightMode"));
    }

    /** `POST /api/greenhouse/:param/:value`: any key but `__proto__`, set to whether `value` is `"true"`. */
    method SetGreenhouseField(param: string, value: string)
      requires Valid()
      modifies this
      ensures Valid()
      ensures param != ProtoKey ==> Lookup(greenhouse, param) == Some(VBool(value == "true"))
      ensures param == ProtoKey ==> greenhouse == old(greenhouse)
      ensures forall k :: k != param ==> Lookup(greenhouse, k) == Lookup(old(greenhouse), k)
      ensures Snapshot() == old(Snapshot()).(greenhouse := greenhouse)
    {
      greenhouse := SetProperty(greenhouse, param, VBool(value == "true"));
    }

    /** `POST /api/pen/:id/:param/:value`: the first pen with that id, if any, gets the field. */
    method SetPenField(id: Option<int>, param: string, value: string)
      requires Valid()
      modifies this
      ensures Valid()
      ensures |pens| == |old(pens)|
      ensures FindPen(old(pens), id).None? ==> pens == old(pens)
      ensures FindPen(old(pens), id).Some? ==>
        var k := FindPen(old(pens), id).value;
        && pens[k] == SetProperty(old(pens)[k], param, VBool(value == "true"))
        && forall j :: 0 <= j < |pens| && j != k ==> pens[j] == old(pens)[j]
      ensures Snapshot() == old(Snapshot()).(pens := pens)
    {
      var found := FindPen(pens, id);
      if found.Some? {
        var k := found.value;
        pens := pens[k := SetProperty(pens[k], param, VBool(value == "true"))];
      }
    }

    /** `POST /api/conveyor/:action`: the conveyor runs exactly when `action` is `"on"`. */
    method SetConveyor(action: string)
      requires Valid()
      modifies this
      ensures Valid()
      ensures conveyor == old(conveyor).(on := action == "on")
      ensures Snapshot() == old(Snapshot()).(conveyor := conveyor)
    {
      conveyor := conveyor.(on := action == "on");
    }

    /** `POST /api/tractor/goto/:place`: any place is accepted. */
    method SetTractor(place: string)
      requires Valid()
      modifies this
      ensures Valid()
      ensures tractor.position == place
      ensures Snapshot() == old(Snapshot()).(tractor := tractor)
    {
      tractor := tractor.(position := place);
    }

    /** `POST /api/scenario/:name/:enabled`: any name but `__proto__`, enabled exactly when `"true"`. */
    method SetScenario(name: string, enabled: string)
      requires Valid()
      modifies this
      ensures Valid()
      ensures name != ProtoKey ==> Enabled(scenarios, name) == (enabled == "true")
      ensures scenarios == SetProperty(old(scenarios), name, enabled == "true")
      ensures Snapshot() == old(Snapshot()).(scenarios := scenarios)
    {
      scenarios := SetProperty(scenarios, name, enabled == "true");
    }

    /** `DELETE /api/notification/:id`: keep exactly the entries with another id. */
    method DeleteNotification(id: Option<int>)
      requires Valid()
      modifies this
      ensures Valid()
      ensures notifications == Without(old(notifications), id)
      ensures Snapshot() == old(Snapshot()).(notifications := notifications)
    {
      WithoutMembers(notifications, id);
      WithoutIncreasing(notifications, id);
      notifications := Without(notifications, id);
      assert forall i :: 0 <= i < |notifications| ==> notifications[i] in old(notifications);
    }

    /** `POST /api/greenhouse/light/:color`: only the four known colours are accepted. */
    method SetLightMode(color: string) returns (ok: bool)
      requires Valid()
      modifies this
      ensures Valid()
      ensures ok <==> color in LightColors
      ensures ok ==> greenhouse == old(greenhouse)["lightMode" := VStr(color)]
      ensures !ok ==> greenhouse == old(greenhouse)
      ensures Snapshot() == old(Snapshot()).(greenhouse := greenhouse)
    {
      if color in LightColors {
        greenhouse := greenhouse["lightMode" := VStr(color)];
        ok := true;
      } else {
        ok := false;
      }
    }
  }
}
