/**
 * The entities of the farm state store and the whole-store snapshot `World`,
 * together with the pure pieces of bookkeeping on them: the bounded weather
 * history, the notification log (append, filter by id, trim) and the pen
 * lookup by id.
 */
module FarmWorld {
  import opened FarmValues

  /** An object whose keys a request may add or overwrite. */
  type Fields = map<string, Val>

  datatype Weather = Weather(temp: int, wind: int, rain: bool)

  /** One point of the weather history; `rain` is 1 or 0. */
  datatype HistoryEntry = HistoryEntry(time: string, temp: int, wind: int, rain: int)

  datatype Conveyor = Conveyor(on: bool, count: int, wrong: nat, lastRfid: string)

  datatype Tractor = Tractor(position: string)

  /** Time (in ms) after which each scenario rule may fire again. */
  datatype Cooldowns = Cooldowns(storm: int, wrongVeg: int)

  datatype Notification = Notification(id: nat, time: string, msg: string)

  /** Everything the server keeps in memory: `state`, `cooldowns` and `notificationId`. */
  datatype World = World(
    greenhouse: Fields,
    weather: Weather,
    weatherHistory: seq<HistoryEntry>,
    pens: seq<Fields>,
    conveyor: Conveyor,
    tractor: Tractor,
    scenarios: map<string, bool>,
    notifications: seq<Notification>,
    cooldowns: Cooldowns,
    nextId: nat)

  /** What `GET /api/state` sends: the `state` object, without the cooldowns and the counter. */
  datatype StateView = StateView(
    greenhouse: Fields,
    weather: Weather,
    weatherHistory: seq<HistoryEntry>,
    pens: seq<Fields>,
    conveyor: Conveyor,
    tractor: Tractor,
    scenarios: map<string, bool>,
    notifications: seq<Notification>)

  function View(w: World): StateView
  {
    StateView(w.greenhouse, w.weather, w.weatherHistory, w.pens, w.conveyor, w.tractor,
              w.scenarios, w.notifications)
  }

  const HistoryCap: nat := 180
  const NotificationCap: nat := 20
  const CooldownMs: int := 60000

  predicate IdsIncreasing(ns: seq<Notification>)
  {
    forall i, j :: 0 <= i < j < |ns| ==> ns[i].id < ns[j].id
  }

  predicate IdsBelow(ns: seq<Notification>, bound: nat)
  {
    forall i :: 0 <= i < |ns| ==> ns[i].id < bound
  }

  /** What every operation keeps: a capped history, and notification ids increasing and all issued. */
  predicate Inv(w: World)
  {
    && |w.weatherHistory| <= HistoryCap
    && IdsIncreasing(w.notifications)
    && IdsBelow(w.notifications, w.nextId)
  }

  /** The store as the server starts it. */
  function Initial(): (w: World)
    ensures Inv(w) && w.notifications == [] && w.weatherHistory == []
  {
    World(
      map["temp" := VNum(24), "hum" := VNum(65), "press" := VNum(1013),
          "soil_temp" := VNum(20), "soil_hum" := VNum(50), "light_level" := VNum(1000),
          "window" := VBool(false), "watering" := VBool(false), "lightMode" := VStr("off")],
      Weather(16, 8, false),
      [],
      [map["id" := VNum(1), "door" := VBool(false), "water" := VNum(68), "pump" := VBool(false)],
       map["id" := VNum(2), "door" := VBool(false), "water" := VNum(45), "pump" := VBool(false)]],
      Conveyor(false, 13, 0, "VEG-001"),
      Tractor("warehouse"),
      map["storm" := true, "wrongVeg" := true],
      [],
      Cooldowns(0, 0),
      1)
  }

  /** A scenario flag read as `state.scenarios[name]`: a missing flag is off. */
  predicate Enabled(scenarios: map<string, bool>, name: string)
  {
    name in scenarios && scenarios[name]
  }

  // ---------------------------------------------------------------- history

  /** The history point recording `w` at `time`; rain is stored as 1 or 0. */
  function Entry(w: Weather, time: string): (e: HistoryEntry)
    ensures e.time == time && e.temp == w.temp && e.wind == w.wind
    ensures 0 <= e.rain <= 1 && (e.rain == 1 <==> w.rain)
  {
    HistoryEntry(time, w.temp, w.wind, if w.rain then 1 else 0)
  }

  /** Push `e` and, when the history then exceeds its cap, drop the oldest entry. */
  function AppendCapped(h: seq<HistoryEntry>, e: HistoryEntry): (r: seq<HistoryEntry>)
    ensures |h| <= HistoryCap ==> |r| <= HistoryCap
    ensures |r| == if |h| < HistoryCap then |h| + 1 else |h|
    ensures r[|r| - 1] == e
    ensures r[..|r| - 1] == h[|h| - (|r| - 1)..]
  {
    var pushed := h + [e];
    if |pushed| > HistoryCap then pushed[1..] else pushed
  }

  // ---------------------------------------------------------- notifications

  /** Append a notification carrying the counter, then advance the counter. */
  function PushNotification(w: World, time: string, msg: string): (r: World)
    ensures Inv(w) ==> Inv(r)
    ensures r == w.(notifications := r.notifications, nextId := r.nextId)
    ensures r.nextId == w.nextId + 1
    ensures |r.notifications| == |w.notifications| + 1
    ensures r.notifications[..|w.notifications|] == w.notifications
    ensures r.notifications[|w.notifications|] == Notification(w.nextId, time, msg)
  {
    w.(notifications := w.notifications + [Notification(w.nextId, time, msg)], nextId := w.nextId + 1)
  }

  /** `r` is what is left of `ns` after dropping some of its oldest entries. */
  predicate IsSuffix<T(==)>(r: seq<T>, ns: seq<T>)
  {
    |r| <= |ns| && r == ns[|ns| - |r|..]
  }

  /** Drop the oldest notification once, if the log is over its cap. */
  function Trim(ns: seq<Notification>): (r: seq<Notification>)
    ensures |r| == if |ns| > NotificationCap then |ns| - 1 else |ns|
    ensures IsSuffix(r, ns)
  {
    if |ns| > NotificationCap then ns[1..] else ns
  }

  /** True when `n` carries the id parsed from a request (`None` is NaN, which matches nothing). */
  predicate HasId(n: Notification, id: Option<int>)
  {
    id.Some? && n.id == id.value
  }

  /** `notifications.filter(n => n.id !== id)`. */
  function Without(ns: seq<Notification>, id: Option<int>): (r: seq<Notification>)
    ensures |r| <= |ns|
  {
    if ns == [] then []
    else if HasId(ns[0], id) then Without(ns[1..], id)
    else [ns[0]] + Without(ns[1..], id)
  }

  /** The filter keeps exactly the entries that carry another id. */
  lemma {:induction false} WithoutMembers(ns: seq<Notification>, id: Option<int>)
    ensures forall n :: n in Without(ns, id) <==> n in ns && !HasId(n, id)
  {
    if ns != [] {
      WithoutMembers(ns[1..], id);
      assert ns == [ns[0]] + ns[1..];
    }
  }

  /** The filter keeps notification ids increasing. */
  lemma {:induction false} WithoutIncreasing(ns: seq<Notification>, id: Option<int>)
    requires IdsIncreasing(ns)
    ensures IdsIncreasing(Without(ns, id))
  {
    if ns != [] {
      var rest := Without(ns[1..], id);
      WithoutIncreasing(ns[1..], id);
      if !HasId(ns[0], id) {
        WithoutMembers(ns[1..], id);
        var r := [ns[0]] + rest;
        forall i, j | 0 <= i < j < |r| ensures r[i].id < r[j].id {
          if i == 0 {
            assert r[j] == rest[j - 1];
            assert rest[j - 1] in ns[1..];
          } else {
            assert r[i] == rest[i - 1] && r[j] == rest[j - 1];
          }
        }
      }
    }
  }

  /** The filter on a log with a first entry `x`. */
  lemma WithoutCons(x: Notification, rest: seq<Notification>, id: Option<int>)
    ensures Without([x] + rest, id) == (if HasId(x, id) then [] else [x]) + Without(rest, id)
  {
    assert ([x] + rest)[1..] == rest;
  }

  /** The filter keeps order: it distributes over concatenation. */
  lemma {:induction false} WithoutConcat(a: seq<Notification>, b: seq<Notification>, id: Option<int>)
    ensures Without(a + b, id) == Without(a, id) + Without(b, id)
  {
    if a == [] {
      assert a + b == b;
    } else {
      var x, rest := a[0], a[1..];
      assert a == [x] + rest && a + b == [x] + (rest + b);
      WithoutCons(x, rest + b, id);
      WithoutCons(x, rest, id);
      WithoutConcat(rest, b, id);
      var head := if HasId(x, id) then [] else [x];
      assert head + (Without(rest, id) + Without(b, id)) == (head + Without(rest, id)) + Without(b, id);
    }
  }

  /** Deleting an id nobody carries leaves the log as it is. */
  lemma {:induction false} WithoutAbsent(ns: seq<Notification>, id: Option<int>)
    requires forall i :: 0 <= i < |ns| ==> !HasId(ns[i], id)
    ensures Without(ns, id) == ns
  {
    if ns != [] {
      WithoutAbsent(ns[1..], id);
      assert [ns[0]] + ns[1..] == ns;
    }
  }

  /** With increasing ids, deleting a present id removes exactly one entry. */
  lemma {:induction false} WithoutPresent(ns: seq<Notification>, k: nat, id: Option<int>)
    requires IdsIncreasing(ns) && k < |ns| && HasId(ns[k], id)
    ensures Without(ns, id) == ns[..k] + ns[k + 1..]
  {
    var tail := ns[1..];
    assert IdsIncreasing(tail) by {
      forall i, j | 0 <= i < j < |tail| ensures tail[i].id < tail[j].id {
        assert tail[i] == ns[i + 1] && tail[j] == ns[j + 1];
      }
    }
    if k == 0 {
      forall i | 0 <= i < |tail| ensures !HasId(tail[i], id) {
        assert tail[i] == ns[i + 1];
      }
      WithoutAbsent(tail, id);
    } else {
      assert ns[0].id < ns[k].id;
      WithoutPresent(tail, k - 1, id);
      assert tail[..k - 1] + tail[k..] == ns[1..k] + ns[k + 1..];
      assert [ns[0]] + (ns[1..k] + ns[k + 1..]) == ns[..k] + ns[k + 1..];
    }
  }

  // ------------------------------------------------------------------- pens

  /** The one key whose assignment of a primitive value JavaScript ignores. */
  const ProtoKey: string := "__proto__"

  /** `m[key] = v` on a plain object, `v` a primitive: `__proto__` ignores it, any other key takes it. */
  function SetProperty<V>(m: map<string, V>, key: string, v: V): (r: map<string, V>)
    ensures r.Keys == if key == ProtoKey then m.Keys else m.Keys + {key}
    ensures key != ProtoKey ==> r[key] == v
    ensures forall k :: k in m && k != key ==> r[k] == m[k]
  {
    if key == ProtoKey then m else m[key := v]
  }

  /** True when pen `p` matches `p.id === parseInt(...)`. */
  predicate PenHasId(p: Fields, id: Option<int>)
  {
    id.Some? && "id" in p && p["id"] == VNum(id.value)
  }

  /** `pens.find(p => p.id === id)`, as the index of the first match. */
  function FindPen(pens: seq<Fields>, id: Option<int>): (r: Option<nat>)
    ensures r.Some? ==> r.value < |pens| && PenHasId(pens[r.value], id)
    ensures r.Some? ==> forall j :: 0 <= j < r.value ==> !PenHasId(pens[j], id)
    ensures r.None? ==> forall j :: 0 <= j < |pens| ==> !PenHasId(pens[j], id)
  {
    if pens == [] then None
    else if PenHasId(pens[0], id) then Some(0)
    else match FindPen(pens[1..], id)
      case None => None
      case Some(i) => Some(i + 1)
  }

  /** Sets the `door` field of one pen; the other fields stay. */
  function OpenDoor(p: Fields): (r: Fields)
    ensures "door" in r && r["door"] == VBool(true)
    ensures r.Keys == p.Keys + {"door"}
    ensures forall k :: k in p && k != "door" ==> r[k] == p[k]
  {
    p["door" := VBool(true)]
  }

  function OpenDoors(pens: seq<Fields>): (r: seq<Fields>)
    ensures |r| == |pens|
    ensures forall i :: 0 <= i < |pens| ==> r[i] == OpenDoor(pens[i])
  {
    seq(|pens|, i requires 0 <= i < |pens| => OpenDoor(pens[i]))
  }
}
