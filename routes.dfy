/**
 * The server's route table and Express's first-match dispatch over it, on a
 * request path already split into segments. Routes are tried in the order
 * they are registered; the first whose verb and pattern fit handles the request.
 */
module Routes {
  import opened FarmValues

  datatype Verb = Get | Post | Delete

  /** A pattern segment: a literal, or a `:name` parameter taking one non-empty segment. */
  datatype Seg = Lit(text: string) | Param

  datatype Handler =
    | WeatherHistory | WeatherUpdate | SensorData | State
    | GreenhouseField | PenField | ConveyorPower | TractorGoto
    | Scenario | DeleteNotification | LightColor

  datatype Route = Route(verb: Verb, pattern: seq<Seg>, handler: Handler)

  /** The routes in registration order. */
  const Table: seq<Route> := [
    Route(Get, [Lit("api"), Lit("weather"), Lit("history")], WeatherHistory),
    Route(Post, [Lit("api"), Lit("weather"), Lit("update")], WeatherUpdate),
    Route(Post, [Lit("json"), Lit("data")], SensorData),
    Route(Get, [Lit("api"), Lit("state")], State),
    Route(Post, [Lit("api"), Lit("greenhouse"), Param, Param], GreenhouseField),
    Route(Post, [Lit("api"), Lit("pen"), Param, Param, Param], PenField),
    Route(Post, [Lit("api"), Lit("conveyor"), Param], ConveyorPower),
    Route(Post, [Lit("api"), Lit("tractor"), Lit("goto"), Param], TractorGoto),
    Route(Post, [Lit("api"), Lit("scenario"), Param, Param], Scenario),
    Route(Delete, [Lit("api"), Lit("notification"), Param], DeleteNotification),
    Route(Post, [Lit("api"), Lit("greenhouse"), Lit("light"), Param], LightColor)
  ]

  predicate SegFits(p: Seg, s: string)
  {
    match p
    case Lit(t) => s == t
    case Param => s != ""
  }

  predicate Fits(pattern: seq<Seg>, segs: seq<string>)
  {
    |pattern| == |segs| && forall i :: 0 <= i < |segs| ==> SegFits(pattern[i], segs[i])
  }

  predicate Matches(r: Route, verb: Verb, segs: seq<string>)
  {
    r.verb == verb && Fits(r.pattern, segs)
  }

  /** The positions from `i` on that hold a parameter of `pattern`, in increasing order. */
  function ParamsFrom(pattern: seq<Seg>, i: nat): (ix: seq<nat>)
    requires i <= |pattern|
    ensures forall k :: 0 <= k < |ix| ==> i <= ix[k] < |pattern| && pattern[ix[k]].Param?
    ensures forall k, l :: 0 <= k < l < |ix| ==> ix[k] < ix[l]
    ensures forall j :: i <= j < |pattern| && pattern[j].Param? ==> j in ix
    decreases |pattern| - i
  {
    if i == |pattern| then []
    else (if pattern[i].Param? then [i] else []) + ParamsFrom(pattern, i + 1)
  }

  /** The segments taken by the parameters of `pattern` from position `i` on, in order. */
  function CapturesFrom(pattern: seq<Seg>, segs: seq<string>, i: nat): (ps: seq<string>)
    requires |pattern| == |segs| && i <= |pattern|
    ensures |ps| == |ParamsFrom(pattern, i)|
    ensures forall k :: 0 <= k < |ps| ==> ps[k] == segs[ParamsFrom(pattern, i)[k]]
    decreases |pattern| - i
  {
    if i == |pattern| then []
    else (if pattern[i].Param? then [segs[i]] else []) + CapturesFrom(pattern, segs, i + 1)
  }

  /** `req.params`: the segments at the parameter positions of `pattern`, in order. */
  function Captures(pattern: seq<Seg>, segs: seq<string>): seq<string>
    requires |pattern| == |segs|
  {
    CapturesFrom(pattern, segs, 0)
  }

  /** The index of the first route that fits the request. */
  function FirstMatch(routes: seq<Route>, verb: Verb, segs: seq<string>): (r: Option<nat>)
    ensures r.Some? ==> r.value < |routes| && Matches(routes[r.value], verb, segs)
    ensures r.Some? ==> forall j :: 0 <= j < r.value ==> !Matches(routes[j], verb, segs)
    ensures r.None? ==> forall j :: 0 <= j < |routes| ==> !Matches(routes[j], verb, segs)
  {
    if routes == [] then None
    else if Matches(routes[0], verb, segs) then Some(0)
    else match FirstMatch(routes[1..], verb, segs)
      case None => None
      case Some(i) => Some(i + 1)
  }

  datatype Dispatched = Handled(handler: Handler, params: seq<string>) | NotFound

  /** The first route that fits takes the request, with its captures as parameters; not found exactly when no route fits. */
  function Dispatch(verb: Verb, segs: seq<string>): (d: Dispatched)
    ensures d.NotFound? <==> forall i :: 0 <= i < |Table| ==> !Matches(Table[i], verb, segs)
    ensures d.Handled? ==> exists i :: (0 <= i < |Table| && Matches(Table[i], verb, segs)
      && (forall j :: 0 <= j < i ==> !Matches(Table[j], verb, segs))
      && d.handler == Table[i].handler && d.params == Captures(Table[i].pattern, segs))
  {
    match FirstMatch(Table, verb, segs)
    case None => NotFound
    case Some(i) => Handled(Table[i].handler, Captures(Table[i].pattern, segs))
  }

  /** Whatever fits the light-colour route fits the generic greenhouse route, registered earlier. */
  lemma GenericCoversLight(verb: Verb, segs: seq<string>)
    ensures Matches(Table[10], verb, segs) ==> Matches(Table[4], verb, segs)
  {
  }

  /** `POST /api/greenhouse/light/<colour>` is taken by the generic greenhouse field setter. */
  lemma LightRouteShadowed(color: string)
    requires color != ""
    ensures Dispatch(Post, ["api", "greenhouse", "light", color]) == Handled(GreenhouseField, ["light", color])
  {
    var segs := ["api", "greenhouse", "light", color];
    var pattern := Table[4].pattern;
    assert Matches(Table[4], Post, segs);
    assert forall j :: 0 <= j < 4 ==> !Matches(Table[j], Post, segs);
    assert FirstMatch(Table, Post, segs) == Some(4);
    assert CapturesFrom(pattern, segs, 3) == [color];
    assert CapturesFrom(pattern, segs, 2) == ["light", color];
    assert CapturesFrom(pattern, segs, 1) == ["light", color];
  }

  /** No request reaches the light-colour handler. */
  lemma LightHandlerUnreachable(verb: Verb, segs: seq<string>)
    ensures Dispatch(verb, segs).Handled? ==> Dispatch(verb, segs).handler != LightColor
  {
    GenericCoversLight(verb, segs);
    assert forall i :: 0 <= i < |Table| && Table[i].handler == LightColor ==> i == 10;
  }
}
