/**
 * The periodic tick as a pure function on the store: weather perturbation,
 * history append, the storm rule, the wrong-RFID rule and the notification
 * trim, in that order. Each `Math.random()` result is a parameter and the
 * clock is read from the tick's input.
 */
module Simulation {
  import opened FarmValues
  import opened FarmWorld

  /** A result of `Math.random()`. */
  type Random = x: real | 0.0 <= x < 1.0

  /** The random draws one tick may consume. */
  datatype Draws = Draws(
    perturb: Random,    // weather is perturbed when below 0.15
    tempNoise: Random,  // temperature moves by (r * 2 - 1) * 0.8
    windNoise: Random,  // wind moves by r * 6 - 3
    gust: Random,       // a gust resets the wind when below 0.25
    gustSpeed: Random,  // the gust speed is floor(r * 35) + 5
    rain: Random,       // rain when below 0.75 (strong wind) or 0.35
    record: Random,     // the reading is recorded when below 0.12
    wrongTag: Random,   // a wrong tag is read when below 0.08
    rfid: Random)       // the wrong tag number is floor(r * 999)

  /** One tick's input: the clock in ms, the two formatted times, and the draws. */
  datatype TickInput = TickInput(now: int, shortTime: string, longTime: string, draws: Draws)

  const StormMessage: string := "Сильный ветер и дождь! Двери загонов автоматически открыты."
  const WrongTagMessage: string := "Неправильная метка RFID! Трактор отправлен к конвейеру."

  /** `Math.round`: the nearest integer, halves rounded up. */
  function Round(x: real): (r: int)
    ensures r as real - 0.5 <= x < r as real + 0.5
  {
    (x + 0.5).Floor
  }

  function MaxReal(a: real, b: real): real { if a >= b then a else b }

  function MinReal(a: real, b: real): real { if a <= b then a else b }

  /** The temperature after a perturbation: moved by the noise, clamped to [-5, 35], rounded. */
  function DriftTemp(temp: int, noise: Random): (r: int)
    ensures -5 <= r <= 35
  {
    Round(MaxReal(-5.0, MinReal(35.0, temp as real + (noise * 2.0 - 1.0) * 0.8)))
  }

  /** The wind after a perturbation: moved by the noise, never below 0, rounded; a gust replaces it. */
  function DriftWind(wind: int, d: Draws): (r: int)
    ensures r >= 0
    ensures d.gust < 0.25 ==> 5 <= r <= 39
  {
    var drifted := Round(MaxReal(0.0, wind as real + (d.windNoise * 6.0 - 3.0)));
    if d.gust < 0.25 then (d.gustSpeed * 35.0).Floor + 5 else drifted
  }

  /** The weather perturbation step of a tick. */
  function PerturbWeather(w: Weather, d: Draws): (r: Weather)
    ensures d.perturb >= 0.15 ==> r == w
    ensures d.perturb < 0.15 ==> -5 <= r.temp <= 35 && r.wind >= 0
    ensures d.perturb < 0.15 && d.gust < 0.25 ==> 5 <= r.wind <= 39
    ensures d.perturb < 0.15 && r.wind > 18 ==> (r.rain <==> d.rain < 0.75)
    ensures d.perturb < 0.15 && r.wind <= 18 ==> (r.rain <==> d.rain < 0.35)
  {
    if d.perturb < 0.15 then
      var temp := DriftTemp(w.temp, d.tempNoise);
      var wind := DriftWind(w.wind, d);
      Weather(temp, wind, if wind > 18 then d.rain < 0.75 else d.rain < 0.35)
    else w
  }

  /** The temperature moves by at most one degree per perturbation while it lies within the clamp. */
  lemma TempMovesSlowly(temp: int, noise: Random)
    requires -5 <= temp <= 35
    ensures temp - 1 <= DriftTemp(temp, noise) <= temp + 1
  {
    var t := temp as real + (noise * 2.0 - 1.0) * 0.8;
    assert temp as real - 0.8 <= t < temp as real + 0.8;
  }

  /** Without a gust the wind moves by at most 3 and stays non-negative. */
  lemma WindMovesSlowly(wind: int, d: Draws)
    requires d.gust >= 0.25 && wind >= 0
    ensures wind - 3 <= DriftWind(wind, d) <= wind + 3
  {
    var x := wind as real + (d.windNoise * 6.0 - 3.0);
    assert wind as real - 3.0 <= x < wind as real + 3.0;
  }

  /** The history step: record on a successful draw, and always into an empty history. */
  function RecordHistory(w: World, time: string, roll: Random): (r: World)
    ensures r == w.(weatherHistory := r.weatherHistory)
    ensures w.weatherHistory == [] ==> r.weatherHistory == [Entry(w.weather, time)]
    ensures roll < 0.12 ==> r.weatherHistory == AppendCapped(w.weatherHistory, Entry(w.weather, time))
    ensures roll >= 0.12 && w.weatherHistory != [] ==> r.weatherHistory == w.weatherHistory
  {
    if roll < 0.12 || |w.weatherHistory| == 0 then
      w.(weatherHistory := AppendCapped(w.weatherHistory, Entry(w.weather, time)))
    else w
  }

  /** The store as the scenario rules see it: weather perturbed and possibly recorded. */
  function Weathered(w: World, t: TickInput): (r: World)
    ensures r == w.(weather := r.weather, weatherHistory := r.weatherHistory)
  {
    RecordHistory(w.(weather := PerturbWeather(w.weather, t.draws)), t.shortTime, t.draws.record)
  }

  predicate StormFires(w: World, now: int)
  {
    Enabled(w.scenarios, "storm") && now > w.cooldowns.storm && w.weather.wind > 25 && w.weather.rain
  }

  /** The storm rule: open every pen door, notify, and start the cooldown. */
  function StormRule(w: World, now: int, time: string): (r: World)
    ensures r == w.(pens := r.pens, notifications := r.notifications, nextId := r.nextId, cooldowns := r.cooldowns)
    ensures r.cooldowns.wrongVeg == w.cooldowns.wrongVeg
  {
    if StormFires(w, now) then
      PushNotification(w.(pens := OpenDoors(w.pens)), time, StormMessage)
        .(cooldowns := w.cooldowns.(storm := now + CooldownMs))
    else w
  }

  predicate WrongTagFires(w: World, now: int, roll: Random)
  {
    Enabled(w.scenarios, "wrongVeg") && now > w.cooldowns.wrongVeg && roll < 0.08
  }

  /** The tag recorded for a wrong read: `'ERR-' + floor(r * 999)`. */
  function ErrorTag(roll: Random): (tag: string)
    ensures |tag| >= 5 && tag[..4] == "ERR-"
  {
    "ERR-" + NumberString((roll * 999.0).Floor)
  }

  /** A wrong tag reads as `ERR-` and a number from 0 to 998, without leading zeros. */
  lemma ErrorTagShape(roll: Random)
    ensures var tag := ErrorTag(roll);
      && |tag| >= 5 && tag[..4] == "ERR-" && AllDigits(tag[4..])
      && ParseDecimal(tag[4..]) <= 998
      && (tag[4] == '0' ==> tag == "ERR-0")
  {
    var n := (roll * 999.0).Floor;
    assert 0 <= n <= 998;
    var tag := ErrorTag(roll);
    assert tag[4..] == Decimal(n);
    DecimalRoundTrip(n);
  }

  /** The wrong-RFID rule: count the wrong read, send the tractor, notify, start the cooldown. */
  function WrongTagRule(w: World, now: int, time: string, d: Draws): (r: World)
    ensures r == w.(conveyor := r.conveyor, tractor := r.tractor, notifications := r.notifications,
                    nextId := r.nextId, cooldowns := r.cooldowns)
    ensures r.cooldowns.storm == w.cooldowns.storm
  {
    if WrongTagFires(w, now, d.wrongTag) then
      PushNotification(
        w.(conveyor := w.conveyor.(wrong := w.conveyor.wrong + 1, lastRfid := ErrorTag(d.rfid)),
           tractor := w.tractor.(position := "conveyor")),
        time, WrongTagMessage)
        .(cooldowns := w.cooldowns.(wrongVeg := now + CooldownMs))
    else w
  }

  /** The storm rule keeps the history capped and the notification ids increasing and issued. */
  lemma StormRuleKeepsInv(w: World, now: int, time: string)
    requires Inv(w)
    ensures Inv(StormRule(w, now, time))
  {
  }

  /** So does the wrong-RFID rule. */
  lemma WrongTagRuleKeepsInv(w: World, now: int, time: string, d: Draws)
    requires Inv(w)
    ensures Inv(WrongTagRule(w, now, time, d))
  {
  }

  /** One whole tick; it never touches the greenhouse or the scenario switches. */
  function TickSpec(w: World, t: TickInput): (r: World)
    ensures r.weather == PerturbWeather(w.weather, t.draws)
    ensures r.greenhouse == w.greenhouse && r.scenarios == w.scenarios
  {
    var s := StormRule(Weathered(w, t), t.now, t.longTime);
    var g := WrongTagRule(s, t.now, t.longTime, t.draws);
    g.(notifications := Trim(g.notifications))
  }

  /** How many notifications a tick appends. */
  function Fired(w: World, t: TickInput): nat
  {
    (if StormFires(Weathered(w, t), t.now) then 1 else 0)
    + (if WrongTagFires(w, t.now, t.draws.wrongTag) then 1 else 0)
  }

  // ------------------------------------------------------------ properties

  /** A tick keeps the history capped and the notification ids increasing and issued. */
  lemma TickKeepsInv(w: World, t: TickInput)
    requires Inv(w)
    ensures Inv(TickSpec(w, t))
  {
    var m := Weathered(w, t);
    assert Inv(m);
    var s := StormRule(m, t.now, t.longTime);
    StormRuleKeepsInv(m, t.now, t.longTime);
    var g := WrongTagRule(s, t.now, t.longTime, t.draws);
    WrongTagRuleKeepsInv(s, t.now, t.longTime, t.draws);
  }

  /** The weather and history effect of a tick. */
  lemma TickWeather(w: World, t: TickInput)
    ensures var r := TickSpec(w, t); var e := Entry(PerturbWeather(w.weather, t.draws), t.shortTime);
      && r.weather == PerturbWeather(w.weather, t.draws)
      && (r.weatherHistory == w.weatherHistory || r.weatherHistory == AppendCapped(w.weatherHistory, e))
      && (w.weatherHistory == [] ==> r.weatherHistory == [e])
      && (t.draws.record < 0.12 ==> r.weatherHistory == AppendCapped(w.weatherHistory, e))
      && r.greenhouse == w.greenhouse && r.scenarios == w.scenarios
  {
  }

  /** The storm rule fires only when enabled, off cooldown, windy (> 25) and raining; then it opens every door. */
  lemma StormOutcome(w: World, t: TickInput)
    ensures var m := Weathered(w, t); var r := TickSpec(w, t);
      if StormFires(m, t.now) then
        && Enabled(w.scenarios, "storm") && t.now > w.cooldowns.storm
        && m.weather.wind > 25 && m.weather.rain
        && |r.pens| == |w.pens|
        && (forall i :: 0 <= i < |w.pens| ==> r.pens[i] == OpenDoor(w.pens[i]))
        && Notification(w.nextId, t.longTime, StormMessage) in r.notifications
        && r.cooldowns.storm == t.now + CooldownMs
      else
        r.pens == w.pens && r.cooldowns.storm == w.cooldowns.storm
  {
    var m := Weathered(w, t);
    var s := StormRule(m, t.now, t.longTime);
    var g := WrongTagRule(s, t.now, t.longTime, t.draws);
    if StormFires(m, t.now) {
      var n := Notification(w.nextId, t.longTime, StormMessage);
      var k := |w.notifications|;
      assert s.notifications[k] == n;
      assert g.notifications[k] == n;
      if |g.notifications| > NotificationCap {
        assert Trim(g.notifications)[k - 1] == n;
      }
    }
  }

  /** What a tick does when the wrong-RFID rule fires, apart from the shape of the tag. */
  lemma WrongTagFiredTick(w: World, t: TickInput)
    requires WrongTagFires(w, t.now, t.draws.wrongTag)
    ensures var r := TickSpec(w, t); var s := StormRule(Weathered(w, t), t.now, t.longTime);
      && r.conveyor == w.conveyor.(wrong := w.conveyor.wrong + 1, lastRfid := ErrorTag(t.draws.rfid))
      && r.tractor.position == "conveyor"
      && Notification(s.nextId, t.longTime, WrongTagMessage) in r.notifications
      && r.cooldowns.wrongVeg == t.now + CooldownMs
  {
    var s := StormRule(Weathered(w, t), t.now, t.longTime);
    assert s.scenarios == w.scenarios && s.cooldowns.wrongVeg == w.cooldowns.wrongVeg;
    assert s.conveyor == w.conveyor && s.tractor == w.tractor;
    var g := WrongTagRule(s, t.now, t.longTime, t.draws);
    assert TickSpec(w, t) == g.(notifications := Trim(g.notifications));
    var n := Notification(s.nextId, t.longTime, WrongTagMessage);
    var k := |s.notifications|;
    assert g.notifications[k] == n;
    if |g.notifications| > NotificationCap {
      assert Trim(g.notifications)[k - 1] == n;
    }
  }

  /** The wrong-RFID rule fires only when enabled, off cooldown and on a successful draw. */
  lemma WrongTagOutcome(w: World, t: TickInput)
    ensures var r := TickSpec(w, t); var s := StormRule(Weathered(w, t), t.now, t.longTime);
      if WrongTagFires(w, t.now, t.draws.wrongTag) then
        && r.conveyor == w.conveyor.(wrong := w.conveyor.wrong + 1, lastRfid := r.conveyor.lastRfid)
        && r.conveyor.lastRfid == ErrorTag(t.draws.rfid)
        && |r.conveyor.lastRfid| >= 5 && r.conveyor.lastRfid[..4] == "ERR-"
        && AllDigits(r.conveyor.lastRfid[4..]) && ParseDecimal(r.conveyor.lastRfid[4..]) <= 998
        && (r.conveyor.lastRfid[4] == '0' ==> r.conveyor.lastRfid == "ERR-0")
        && r.tractor.position == "conveyor"
        && Notification(s.nextId, t.longTime, WrongTagMessage) in r.notifications
        && r.cooldowns.wrongVeg == t.now + CooldownMs
      else
        r.conveyor == w.conveyor && r.tractor == w.tractor && r.cooldowns.wrongVeg == w.cooldowns.wrongVeg
  {
    if WrongTagFires(w, t.now, t.draws.wrongTag) {
      WrongTagFiredTick(w, t);
      ErrorTagShape(t.draws.rfid);
    } else {
      var s := StormRule(Weathered(w, t), t.now, t.longTime);
      assert s.scenarios == w.scenarios && s.cooldowns.wrongVeg == w.cooldowns.wrongVeg;
      assert s.conveyor == w.conveyor && s.tractor == w.tractor;
    }
  }

  /**
   * Every notification a tick appends takes the next counter value; afterwards
   * at most the oldest entry is gone, and only when the log went over 20.
   */
  lemma TickNotifications(w: World, t: TickInput)
    ensures var r := TickSpec(w, t); var k := Fired(w, t); var n := |w.notifications|;
      && r.nextId == w.nextId + k
      && |r.notifications| == (if n + k > NotificationCap then n + k - 1 else n + k)
      && (n + k > NotificationCap ==> r.notifications[..n - 1] == w.notifications[1..])
      && (n + k <= NotificationCap ==> r.notifications[..n] == w.notifications)
  {
    var m := Weathered(w, t);
    var s := StormRule(m, t.now, t.longTime);
    var g := WrongTagRule(s, t.now, t.longTime, t.draws);
    var n := |w.notifications|;
    assert s.nextId == w.nextId + (if StormFires(m, t.now) then 1 else 0);
    assert |s.notifications| == n + (if StormFires(m, t.now) then 1 else 0);
    assert s.notifications[..n] == w.notifications;
    assert s.scenarios == w.scenarios && s.cooldowns.wrongVeg == w.cooldowns.wrongVeg;
    assert |g.notifications| == n + Fired(w, t) && g.nextId == w.nextId + Fired(w, t);
    assert g.notifications[..n] == w.notifications;
    assert TickSpec(w, t) == g.(notifications := Trim(g.notifications));
    if n + Fired(w, t) > NotificationCap {
      assert Trim(g.notifications) == g.notifications[1..];
    }
  }

  /** If the log was within its cap and at most one rule fired, it is still within its cap. */
  lemma NotificationsStayCapped(w: World, t: TickInput)
    requires |w.notifications| <= NotificationCap && Fired(w, t) <= 1
    ensures |TickSpec(w, t).notifications| <= NotificationCap
  {
    TickNotifications(w, t);
  }

  /** A full log to which both rules append ends one entry over its cap. */
  lemma BothRulesOnFullLog(w: World, t: TickInput)
    requires |w.notifications| == NotificationCap && Fired(w, t) == 2
    ensures |TickSpec(w, t).notifications| == NotificationCap + 1
  {
    TickNotifications(w, t);
  }

  /** The trim removes one entry per tick only: when both rules fire on a full log, it ends at 21. */
  lemma BothRulesOverflowLog()
    ensures var w := Initial().(
        weather := Weather(30, 30, true),
        notifications := seq(20, i requires 0 <= i < 20 => Notification(i + 1, "", "")),
        nextId := 21);
      var t := TickInput(1, "", "", Draws(0.5, 0.0, 0.0, 0.5, 0.0, 0.0, 0.5, 0.0, 0.0));
      Inv(w) && Fired(w, t) == 2 && |TickSpec(w, t).notifications| == NotificationCap + 1
  {
    var w := Initial().(
        weather := Weather(30, 30, true),
        notifications := seq(20, i requires 0 <= i < 20 => Notification(i + 1, "", "")),
        nextId := 21);
    var t := TickInput(1, "", "", Draws(0.5, 0.0, 0.0, 0.5, 0.0, 0.0, 0.5, 0.0, 0.0));
    assert Weathered(w, t).weather == w.weather;
    assert Fired(w, t) == 2;
    BothRulesOnFullLog(w, t);
  }

  // ------------------------------------------------------------------ runs

  /** The store after the first `k` ticks of `ts`, each taken by `step`. */
  function RunWith(step: (World, TickInput) -> World, w: World, ts: seq<TickInput>, k: nat): World
    requires k <= |ts|
  {
    if k == 0 then w else step(RunWith(step, w, ts, k - 1), ts[k - 1])
  }

  /** The store after the first `k` ticks of `ts`. */
  function Run(w: World, ts: seq<TickInput>, k: nat): World
    requires k <= |ts|
  {
    RunWith(TickSpec, w, ts, k)
  }

  /** The storm rule fires on the `i`-th tick of `ts`. */
  predicate StormFiresAt(w: World, ts: seq<TickInput>, i: nat)
    requires i < |ts|
  {
    StormFires(Weathered(Run(w, ts, i), ts[i]), ts[i].now)
  }

  /** The storm cooldown moves only when the rule fires, and then past its old value. */
  lemma TickStormCooldown(w: World, t: TickInput)
    ensures var c := TickSpec(w, t).cooldowns.storm;
      if StormFires(Weathered(w, t), t.now) then c == t.now + CooldownMs && t.now > w.cooldowns.storm
      else c == w.cooldowns.storm
  {
  }

  /** Every tick sets the storm cooldown to `now + 60 s` when the rule fires and keeps it otherwise. */
  lemma TickStormGate()
    ensures forall v: World, t: TickInput :: (TickSpec(v, t).cooldowns.storm ==
      if StormFires(Weathered(v, t), t.now) then t.now + CooldownMs else v.cooldowns.storm)
    ensures forall v: World, t: TickInput :: StormFires(Weathered(v, t), t.now) ==> t.now > v.cooldowns.storm
  {
    forall v: World, t: TickInput
      ensures TickSpec(v, t).cooldowns.storm ==
        (if StormFires(Weathered(v, t), t.now) then t.now + CooldownMs else v.cooldowns.storm)
      ensures StormFires(Weathered(v, t), t.now) ==> t.now > v.cooldowns.storm
    {
      TickStormCooldown(v, t);
    }
  }

  /**
   * A step that follows the storm gate: when `fires` holds, the tick's time
   * is past the cooldown and the cooldown becomes that time plus 60 s;
   * otherwise the cooldown is kept.
   */
  ghost predicate GatedStep(step: (World, TickInput) -> World, fires: (World, TickInput) -> bool)
  {
    && (forall v: World, t: TickInput :: (step(v, t).cooldowns.storm ==
          if fires(v, t) then t.now + CooldownMs else v.cooldowns.storm))
    && (forall v: World, t: TickInput :: fires(v, t) ==> t.now > v.cooldowns.storm)
  }

  /** Under a gated step, after a firing on tick `i` the cooldown stays at least that tick's time plus 60 s. */
  lemma {:induction false} CooldownKept(
    step: (World, TickInput) -> World, fires: (World, TickInput) -> bool,
    w: World, ts: seq<TickInput>, i: nat, j: nat)
    requires GatedStep(step, fires)
    requires i < j <= |ts| && fires(RunWith(step, w, ts, i), ts[i])
    ensures RunWith(step, w, ts, j).cooldowns.storm >= ts[i].now + CooldownMs
    decreases j
  {
    if j > i + 1 {
      CooldownKept(step, fires, w, ts, i, j - 1);
    }
  }

  /** Under a gated step, a firing needs the tick's time past the cooldown. */
  lemma FiringPassesCooldown(
    step: (World, TickInput) -> World, fires: (World, TickInput) -> bool, v: World, t: TickInput)
    requires GatedStep(step, fires) && fires(v, t)
    ensures t.now > v.cooldowns.storm
  {
  }

  /** Under a gated step, two firings in one run are more than 60 s apart. */
  lemma CooldownSpacing(
    step: (World, TickInput) -> World, fires: (World, TickInput) -> bool,
    w: World, ts: seq<TickInput>, i: nat, j: nat)
    requires GatedStep(step, fires)
    requires i < j < |ts| && fires(RunWith(step, w, ts, i), ts[i]) && fires(RunWith(step, w, ts, j), ts[j])
    ensures ts[j].now > ts[i].now + CooldownMs
  {
    CooldownKept(step, fires, w, ts, i, j);
    FiringPassesCooldown(step, fires, RunWith(step, w, ts, j), ts[j]);
  }

  /** Two firings of the storm rule in one run are more than 60 s apart. */
  lemma StormSpacing(w: World, ts: seq<TickInput>, i: nat, j: nat)
    requires i < j < |ts| && StormFiresAt(w, ts, i) && StormFiresAt(w, ts, j)
    ensures ts[j].now > ts[i].now + CooldownMs
  {
    var fires := (v, t) => StormFires(Weathered(v, t), t.now);
    TickStormGate();
    assert GatedStep(TickSpec, fires);
    CooldownSpacing(TickSpec, fires, w, ts, i, j);
  }
}
