/**
 * Road requests of MyMapView.swift: the `road`, `draw#multi#road` and
 * `drawRoad#manually` handlers turn a request into a travel mode, a waypoint
 * list and a road style, and turn the routing results into replies. The
 * routing backend (RoadManager.getRoad) is outside the model: its results are
 * inputs here.
 */
module Roads {
  import opened Optional
  import opened GeoMarkers

  datatype RoadType = Car | Bike | Foot

  /** The `roadType` switch of drawRoad: unknown names fall back to car. */
  function ToRoadType(roadType: string): (t: RoadType)
    ensures t == Bike <==> roadType == "bike"
    ensures t == Foot <==> roadType == "foot"
    ensures t == Car <==> roadType != "bike" && roadType != "foot"
  {
    match roadType
    case "car" => Car
    case "bike" => Bike
    case "foot" => Foot
    case _ => Car
  }

  /** `points.insert(contentsOf: middle, at: 1)`: the via-points go right after the origin. */
  function InsertAfterFirst(points: seq<Coordinate>, middle: seq<Coordinate>): (r: seq<Coordinate>)
    requires 1 <= |points|
    ensures |r| == |points| + |middle|
    ensures r[0] == points[0]
    ensures r[1..1 + |middle|] == middle
    ensures r[1 + |middle|..] == points[1..]
  {
    points[..1] + middle + points[1..]
  }

  /** drawRoad splices `middlePoints` whenever the key is present, even an empty list. */
  function RoadWaypoints(points: seq<Coordinate>, middle: Option<seq<Coordinate>>): (r: seq<Coordinate>)
    requires middle.Some? ==> 1 <= |points|
    ensures middle.None? ==> r == points
    ensures middle.Some? ==> |r| == |points| + |middle.value| && r[0] == points[0]
    ensures middle.Some? ==> r[1..1 + |middle.value|] == middle.value && r[1 + |middle.value|..] == points[1..]
  {
    if middle.Some? then InsertAfterFirst(points, middle.value) else points
  }

  /** drawMultiRoad splices only a present, non-empty `middlePoints`. */
  function BatchWaypoints(points: seq<Coordinate>, middle: Option<seq<Coordinate>>): (r: seq<Coordinate>)
    requires middle.Some? && |middle.value| > 0 ==> 1 <= |points|
    ensures middle.None? || middle.value == [] ==> r == points
    ensures middle.Some? && middle.value != [] ==> |r| == |points| + |middle.value| && r[0] == points[0]
    ensures middle.Some? && middle.value != [] ==>
      r[1..1 + |middle.value|] == middle.value && r[1 + |middle.value|..] == points[1..]
  {
    if middle.Some? && |middle.value| > 0 then InsertAfterFirst(points, middle.value) else points
  }

  /** The two splice rules produce the same waypoints wherever both are defined. */
  lemma BatchAndSingleSpliceAgree(points: seq<Coordinate>, middle: Option<seq<Coordinate>>)
    requires middle.Some? ==> 1 <= |points|
    ensures BatchWaypoints(points, middle) == RoadWaypoints(points, middle)
  {
    if middle.Some? && middle.value == [] {
      var r := InsertAfterFirst(points, []);
      assert r == [r[0]] + r[1..];
      assert points == [points[0]] + points[1..];
    }
  }

  /** The fields of a `road` request, and of each entry of a `draw#multi#road` request. */
  datatype RoadRequest = RoadRequest(
    key: string,
    wayPoints: seq<Coordinate>,
    middlePoints: Option<seq<Coordinate>>,
    roadType: string,
    roadColor: Option<string>,
    roadWidth: Option<string>,
    roadBorderColor: Option<string>,
    roadBorderWidth: Option<string>,
    zoomIntoRegion: bool)

  /**
   * How a road is drawn. The border fields are None where the source uses the
   * two-argument RoadData initialiser, whose defaults are declared elsewhere.
   */
  datatype RoadData = RoadData(
    roadColor: string,
    roadWidth: string,
    roadBorderWidth: Option<string>,
    roadBorderColor: Option<string>)

  const DefaultRoadWidth := "5px"
  const DefaultBorderWidth := "0px"
  /** The colour drawRoad#manually falls back to, independently of `colorRoad`. */
  const ManualRoadColor := "#ff0000"

  /** The style drawRoad resolves for a single road. */
  function RoadStyle(req: RoadRequest, colorRoad: string): (d: RoadData)
    ensures req.roadColor.None? ==> d.roadColor == colorRoad
    ensures req.roadColor.Some? ==> d.roadColor == req.roadColor.value
    ensures req.roadBorderColor.None? ==> d.roadBorderColor == Some(d.roadColor)
    ensures req.roadBorderColor.Some? ==> d.roadBorderColor == req.roadBorderColor
    ensures req.roadWidth.None? ==> d.roadWidth == DefaultRoadWidth
    ensures req.roadWidth.Some? ==> d.roadWidth == req.roadWidth.value
    ensures req.roadBorderWidth.None? ==> d.roadBorderWidth == Some(DefaultBorderWidth)
    ensures req.roadBorderWidth.Some? ==> d.roadBorderWidth == req.roadBorderWidth
  {
    var color := req.roadColor.GetOr(colorRoad);
    RoadData(color, req.roadWidth.GetOr(DefaultRoadWidth),
             Some(req.roadBorderWidth.GetOr(DefaultBorderWidth)), Some(req.roadBorderColor.GetOr(color)))
  }

  /** The border colour follows the resolved road colour, not `colorRoad`. */
  lemma BorderColorFollowsRoadColor(req: RoadRequest, colorRoad: string)
    requires req.roadBorderColor.None? && req.roadColor.Some? && req.roadColor.value != colorRoad
    ensures RoadStyle(req, colorRoad).roadBorderColor == Some(req.roadColor.value)
    ensures RoadStyle(req, colorRoad).roadBorderColor != Some(colorRoad)
  {
  }

  /** The style of one entry of a batch: colour and width only. */
  function BatchRoadData(req: RoadRequest, colorRoad: string): (d: RoadData)
    ensures d.roadBorderWidth.None? && d.roadBorderColor.None?
  {
    RoadData(req.roadColor.GetOr(colorRoad), req.roadWidth.GetOr(DefaultRoadWidth), None, None)
  }

  /** A batch entry gets the same colour and width a single road request would get. */
  lemma BatchStyleAgreesWithSingle(req: RoadRequest, colorRoad: string)
    ensures BatchRoadData(req, colorRoad).roadColor == RoadStyle(req, colorRoad).roadColor
    ensures BatchRoadData(req, colorRoad).roadWidth == RoadStyle(req, colorRoad).roadWidth
  {
  }

  /** The fields of a `drawRoad#manually` request. */
  datatype ManualRoadRequest = ManualRoadRequest(
    key: string,
    road: string,
    roadColor: Option<string>,
    roadWidth: Option<string>,
    zoomIntoRegion: bool)

  function ManualRoadData(req: ManualRoadRequest): (d: RoadData)
    ensures req.roadColor.None? ==> d.roadColor == ManualRoadColor
    ensures req.roadColor.Some? ==> d.roadColor == req.roadColor.value
    ensures req.roadWidth.None? ==> d.roadWidth == DefaultRoadWidth
    ensures req.roadWidth.Some? ==> d.roadWidth == req.roadWidth.value
    ensures d.roadBorderWidth.None? && d.roadBorderColor.None?
  {
    RoadData(req.roadColor.GetOr(ManualRoadColor), req.roadWidth.GetOr(DefaultRoadWidth), None, None)
  }

  /**
   * The manual default colour is the literal red that MyMapView's `colorRoad`
   * holds, so with that colour a manual road without a colour is drawn like a
   * routed one.
   */
  lemma ManualDefaultMatchesColorRoad(req: ManualRoadRequest, batch: RoadRequest, colorRoad: string)
    requires req.roadColor.None? && batch.roadColor.None? && colorRoad == "#ff0000"
    ensures ManualRoadData(req).roadColor == BatchRoadData(batch, colorRoad).roadColor
    ensures ManualRoadData(req).roadColor == RoadStyle(batch, colorRoad).roadColor
  {
  }

  /** One entry of `roadConfigs`. */
  datatype RoadConfig = RoadConfig(
    wayPoints: seq<Coordinate>,
    intersectPoints: Option<seq<Coordinate>>,
    roadData: RoadData,
    roadType: RoadType)

  function ConfigOf(req: RoadRequest, colorRoad: string): RoadConfig {
    RoadConfig(req.wayPoints, req.middlePoints, BatchRoadData(req, colorRoad), ToRoadType(req.roadType))
  }

  /** The first loop of drawMultiRoad: one keyed configuration per request, in request order. */
  method BuildRoadConfigs(items: seq<RoadRequest>, colorRoad: string) returns (configs: seq<(string, RoadConfig)>)
    ensures |configs| == |items|
    ensures forall i :: 0 <= i < |items| ==> configs[i] == (items[i].key, ConfigOf(items[i], colorRoad))
  {
    configs := [];
    for n := 0 to |items|
      invariant |configs| == n
      invariant forall i :: 0 <= i < n ==> configs[i] == (items[i].key, ConfigOf(items[i], colorRoad))
    {
      configs := configs + [(items[n].key, ConfigOf(items[n], colorRoad))];
    }
  }

  /** A call to the routing backend: the waypoints, the mode, and the key its completion reports. */
  datatype FetchRequest = FetchRequest(key: string, wayPoints: seq<Coordinate>, roadType: RoadType)

  predicate BatchSpliceable(config: RoadConfig) {
    config.intersectPoints.Some? && |config.intersectPoints.value| > 0 ==> 1 <= |config.wayPoints|
  }

  function ConfigWaypoints(config: RoadConfig): seq<Coordinate>
    requires BatchSpliceable(config)
  {
    BatchWaypoints(config.wayPoints, config.intersectPoints)
  }

  /** The second loop of drawMultiRoad: one routing call per configuration, in configuration order. */
  method FetchRequests(configs: seq<(string, RoadConfig)>) returns (requests: seq<FetchRequest>)
    requires forall i :: 0 <= i < |configs| ==> BatchSpliceable(configs[i].1)
    ensures |requests| == |configs|
    ensures forall i :: 0 <= i < |configs| ==>
      requests[i] == FetchRequest(configs[i].0, ConfigWaypoints(configs[i].1), configs[i].1.roadType)
  {
    requests := [];
    for n := 0 to |configs|
      invariant |requests| == n
      invariant forall i :: 0 <= i < n ==>
        requests[i] == FetchRequest(configs[i].0, ConfigWaypoints(configs[i].1), configs[i].1.roadType)
    {
      var (key, config) := configs[n];
      var wayPoints := config.wayPoints;
      if config.intersectPoints.Some? && |config.intersectPoints.value| > 0 {
        wayPoints := InsertAfterFirst(wayPoints, config.intersectPoints.value);
      }
      requests := requests + [FetchRequest(key, wayPoints, config.roadType)];
    }
  }

  /** A route found by the routing backend. */
  datatype Road = Road(distance: real, duration: real, mRouteHigh: string)

  datatype RoadInformation = RoadInformation(distance: real, seconds: real, encodedRoute: string)

  function InfoOf(road: Road): (info: RoadInformation)
    ensures info.distance == road.distance && info.seconds == road.duration
    ensures info.encodedRoute == road.mRouteHigh
  {
    RoadInformation(road.distance, road.duration, road.mRouteHigh)
  }

  /** A road handed to the road manager for drawing, under a key, with a style. */
  datatype RoadToDraw = RoadToDraw(key: string, road: Road, roadData: RoadData)

  /**
   * The aggregation of drawMultiRoad as written: `results` is in completion
   * order, each result carries the key its request was issued with, and the
   * style is taken from the configuration at the same position.
   */
  function AggregateAsWritten(configs: seq<(string, RoadConfig)>, results: seq<(string, Option<Road>)>)
    : (r: (seq<Option<RoadInformation>>, seq<Option<RoadToDraw>>))
    requires |results| <= |configs|
    ensures |r.0| == |results| && |r.1| == |results|
    ensures forall i :: 0 <= i < |results| ==> (r.0[i].None? <==> results[i].1.None?)
    ensures forall i :: 0 <= i < |results| ==> (r.1[i].None? <==> results[i].1.None?)
    ensures forall i :: 0 <= i < |results| && results[i].1.Some? ==>
      && r.0[i] == Some(InfoOf(results[i].1.value))
      && r.1[i].value.key == results[i].0
      && r.1[i].value.road == results[i].1.value
      && r.1[i].value.roadData == configs[i].1.roadData
  {
    (seq(|results|, i requires 0 <= i < |results| =>
           if results[i].1.Some? then Some(InfoOf(results[i].1.value)) else None),
     seq(|results|, i requires 0 <= i < |results| =>
           if results[i].1.Some?
           then Some(RoadToDraw(results[i].0, results[i].1.value, configs[i].1.roadData))
           else None))
  }

  /** The loop of drawMultiRoad's completion block. */
  method AggregateResults(configs: seq<(string, RoadConfig)>, results: seq<(string, Option<Road>)>)
    returns (information: seq<Option<RoadInformation>>, roads: seq<Option<RoadToDraw>>)
    requires |results| <= |configs|
    ensures (information, roads) == AggregateAsWritten(configs, results)
  {
    information, roads := [], [];
    for index := 0 to |results|
      invariant |information| == index && |roads| == index
      invariant information == AggregateAsWritten(configs, results).0[..index]
      invariant roads == AggregateAsWritten(configs, results).1[..index]
    {
      var roadInfo: Option<RoadInformation> := None;
      var routeToDraw: Option<RoadToDraw> := None;
      var (key, road) := results[index];
      if road.Some? {
        routeToDraw := Some(RoadToDraw(key, road.value, configs[index].1.roadData));
        roadInfo := Some(InfoOf(road.value));
      }
      information := information + [roadInfo];
      roads := roads + [routeToDraw];
    }
    assert AggregateAsWritten(configs, results).0[..|results|] == AggregateAsWritten(configs, results).0;
    assert AggregateAsWritten(configs, results).1[..|results|] == AggregateAsWritten(configs, results).1;
  }

  /**
   * The aggregation as intended: the result of request i is kept in slot i,
   * so each road is drawn under its own request's key and with its own style.
   */
  function AggregateBySlot(configs: seq<(string, RoadConfig)>, slots: seq<Option<Road>>)
    : (r: (seq<Option<RoadInformation>>, seq<Option<RoadToDraw>>))
    requires |slots| == |configs|
    ensures |r.0| == |configs| && |r.1| == |configs|
    ensures forall i :: 0 <= i < |configs| ==> (r.0[i].None? <==> slots[i].None?)
    ensures forall i :: 0 <= i < |configs| ==> (r.1[i].None? <==> slots[i].None?)
    ensures forall i :: 0 <= i < |configs| && slots[i].Some? ==>
      && r.0[i] == Some(InfoOf(slots[i].value))
      && r.1[i].value.key == configs[i].0
      && r.1[i].value.roadData == configs[i].1.roadData
      && r.1[i].value.road == slots[i].value
  {
    (seq(|slots|, i requires 0 <= i < |slots| => if slots[i].Some? then Some(InfoOf(slots[i].value)) else None),
     seq(|slots|, i requires 0 <= i < |slots| =>
           if slots[i].Some? then Some(RoadToDraw(configs[i].0, slots[i].value, configs[i].1.roadData)) else None))
  }

  /** When the routes complete in request order, the code as written does what was intended. */
  lemma InOrderCompletionIsCorrect(configs: seq<(string, RoadConfig)>, results: seq<(string, Option<Road>)>)
    requires |results| == |configs|
    requires forall i :: 0 <= i < |results| ==> results[i].0 == configs[i].0
    ensures AggregateAsWritten(configs, results)
         == AggregateBySlot(configs, seq(|results|, i requires 0 <= i < |results| => results[i].1))
  {
    var slots := seq(|results|, i requires 0 <= i < |results| => results[i].1);
    var w, c := AggregateAsWritten(configs, results), AggregateBySlot(configs, slots);
    assert w.0 == c.0;
    assert w.1 == c.1;
  }

  /**
   * Two requests, "a" in red and "b" in blue; b's route arrives first. The
   * code as written hands road "b" to the road manager with a's red style.
   */
  lemma OutOfOrderCompletionSwapsStyles()
    ensures var red := RoadData("#ff0000", DefaultRoadWidth, None, None);
      var blue := RoadData("#0000ff", DefaultRoadWidth, None, None);
      var route := Road(1200.0, 300.0, "abc123");
      var configs := [("a", RoadConfig([], None, red, Car)), ("b", RoadConfig([], None, blue, Car))];
      var drawn := AggregateAsWritten(configs, [("b", Some(route)), ("a", Some(route))]).1;
      && drawn[0] == Some(RoadToDraw("b", route, red))
      && drawn[0].value.roadData != configs[1].1.roadData
  {
  }

  /** The non-nil entries of a list, in order (`filter { $0 != nil }.map { $0! }`). */
  function Somes<T>(xs: seq<Option<T>>): (r: seq<T>)
    ensures |r| <= |xs|
  {
    if xs == [] then []
    else (if xs[0].Some? then [xs[0].value] else []) + Somes(xs[1..])
  }

  lemma {:induction false} SomesMembers<T>(xs: seq<Option<T>>, x: T)
    ensures x in Somes(xs) <==> Some(x) in xs
  {
    if xs != [] {
      SomesMembers(xs[1..], x);
      assert xs == [xs[0]] + xs[1..];
    }
  }

  lemma {:induction false} SomesAppend<T>(xs: seq<Option<T>>, ys: seq<Option<T>>)
    ensures Somes(xs + ys) == Somes(xs) + Somes(ys)
  {
    if xs != [] {
      SomesAppend(xs[1..], ys);
      assert (xs + ys)[1..] == xs[1..] + ys;
    } else {
      assert xs + ys == ys;
    }
  }

  lemma {:induction false} SomesEmpty<T>(xs: seq<Option<T>>)
    ensures Somes(xs) == [] <==> forall i :: 0 <= i < |xs| ==> xs[i].None?
  {
    if xs != [] {
      SomesEmpty(xs[1..]);
      assert forall i :: 1 <= i < |xs| ==> xs[i] == xs[1..][i - 1];
    }
  }

  datatype MultiRoadReply =
    | MultiRoadError(code: string)
    | MultiRoadInfos(infos: seq<RoadInformation>, drawn: seq<RoadToDraw>)

  /** The completion of the `draw#multi#road` handler. */
  function MultiRoadResult(information: seq<Option<RoadInformation>>, roads: seq<Option<RoadToDraw>>)
    : (reply: MultiRoadReply)
    ensures reply.MultiRoadError? <==> |information| == 0 && |roads| == 0
    ensures reply.MultiRoadError? ==> reply.code == "400"
    ensures reply.MultiRoadInfos? ==> reply.infos == Somes(information) && reply.drawn == Somes(roads)
  {
    if |information| == 0 && |roads| == 0 then MultiRoadError("400")
    else MultiRoadInfos(Somes(information), Somes(roads))
  }

  /**
   * A batch ends in the 400 error only when it had no requests; a batch whose
   * every route failed succeeds with no information; otherwise the
   * information of the routes found is returned in result order.
   */
  lemma BatchReply(configs: seq<(string, RoadConfig)>, results: seq<(string, Option<Road>)>)
    requires |results| <= |configs|
    ensures var (information, roads) := AggregateAsWritten(configs, results);
      var reply := MultiRoadResult(information, roads);
      && (reply.MultiRoadError? <==> |results| == 0)
      && ((forall i :: 0 <= i < |results| ==> results[i].1.None?) && |results| > 0
          ==> reply == MultiRoadInfos([], []))
      && (reply.MultiRoadInfos? ==>
            forall road :: InfoOf(road) in reply.infos <==>
              exists i :: 0 <= i < |results| && results[i].1.Some? && InfoOf(results[i].1.value) == InfoOf(road))
  {
    var (information, roads) := AggregateAsWritten(configs, results);
    SomesEmpty(information);
    SomesEmpty(roads);
    forall road: Road
      ensures InfoOf(road) in Somes(information) <==>
        exists i :: 0 <= i < |results| && results[i].1.Some? && InfoOf(results[i].1.value) == InfoOf(road)
    {
      SomesMembers(information, InfoOf(road));
      if Some(InfoOf(road)) in information {
        var i :| 0 <= i < |information| && information[i] == Some(InfoOf(road));
        assert results[i].1.Some?;
      }
      if exists i :: 0 <= i < |results| && results[i].1.Some? && InfoOf(results[i].1.value) == InfoOf(road) {
        var i :| 0 <= i < |results| && results[i].1.Some? && InfoOf(results[i].1.value) == InfoOf(road);
        assert information[i] == Some(InfoOf(road));
      }
    }
  }

  /** The bounding box of a decoded route; decoding is not modelled. */
  datatype Bounds = Bounds(southWest: Coordinate, northEast: Coordinate)

  /** What drawRoad's routing callback reports. */
  datatype RoadCompletion =
    | RoadFailed
    | RoadReady(info: RoadInformation, road: Road, data: RoadData, box: Option<Bounds>)

  /** The routing call drawRoad issues. */
  function SingleFetch(req: RoadRequest): (f: FetchRequest)
    requires req.middlePoints.Some? ==> 1 <= |req.wayPoints|
    ensures f.roadType == ToRoadType(req.roadType)
    ensures req.middlePoints.Some? ==>
      f.wayPoints == [req.wayPoints[0]] + req.middlePoints.value + req.wayPoints[1..]
    ensures req.middlePoints.None? ==> f.wayPoints == req.wayPoints
  {
    FetchRequest(req.key, RoadWaypoints(req.wayPoints, req.middlePoints), ToRoadType(req.roadType))
  }

  /**
   * drawRoad's routing callback as intended: no route is one failure report;
   * a route is reported with its information, the resolved style and, when
   * zooming was asked for, the bounds of the decoded route.
   */
  function DrawRoadCallback(req: RoadRequest, colorRoad: string, road: Option<Road>, decodedBox: Option<Bounds>)
    : (c: RoadCompletion)
    ensures c.RoadFailed? <==> road.None?
    ensures c.RoadReady? ==> c.info == InfoOf(road.value) && c.road == road.value
    ensures c.RoadReady? ==> c.data == RoadStyle(req, colorRoad)
    ensures c.RoadReady? ==> c.box == (if req.zoomIntoRegion then decodedBox else None)
  {
    if road.None? then RoadFailed
    else RoadReady(InfoOf(road.value), road.value, RoadStyle(req, colorRoad),
                   if req.zoomIntoRegion then decodedBox else None)
  }

  /** The completions a callback run delivers, and whether it then traps on a nil force-unwrap. */
  datatype CallbackRun = CallbackRun(completions: seq<RoadCompletion>, trapped: bool)

  /**
   * drawRoad's routing callback as written: with no route it reports the
   * error but does not return, and the next line force-unwraps the nil road.
   */
  function DrawRoadCallbackAsWritten(req: RoadRequest, colorRoad: string, road: Option<Road>,
                                     decodedBox: Option<Bounds>): (run: CallbackRun)
    ensures |run.completions| == 1
    ensures run.trapped <==> road.None?
    ensures run.completions[0].RoadFailed? <==> road.None?
  {
    if road.None? then CallbackRun([RoadFailed], true)
    else CallbackRun([DrawRoadCallback(req, colorRoad, road, decodedBox)], false)
  }

  /** With no route, the callback as written reports the error and then traps. */
  lemma NoRouteTrapsAfterError(req: RoadRequest, colorRoad: string, decodedBox: Option<Bounds>)
    ensures DrawRoadCallbackAsWritten(req, colorRoad, None, decodedBox) == CallbackRun([RoadFailed], true)
  {
  }

  /** The intended callback delivers what the written one delivers first, and never traps. */
  lemma CallbackAgreesUntilTrap(req: RoadRequest, colorRoad: string, road: Option<Road>, decodedBox: Option<Bounds>)
    ensures var run := DrawRoadCallbackAsWritten(req, colorRoad, road, decodedBox);
      && 1 <= |run.completions|
      && run.completions[0] == DrawRoadCallback(req, colorRoad, road, decodedBox)
      && (run.trapped <==> road.None?)
  {
  }

  datatype RoadReply =
    | RoadError(code: string)
    | RoadDrawn(info: RoadInformation, draw: RoadToDraw, fitCamera: Option<Bounds>)

  /** The completion of the `road` handler: an error code, or the road drawn under the request key. */
  function RoadResult(key: string, completion: RoadCompletion): (reply: RoadReply)
    ensures reply.RoadError? <==> completion.RoadFailed?
    ensures reply.RoadError? ==> reply.code == "400"
    ensures reply.RoadDrawn? ==>
      reply.info == completion.info && reply.draw == RoadToDraw(key, completion.road, completion.data)
      && reply.fitCamera == completion.box
  {
    match completion
    case RoadFailed => RoadError("400")
    case RoadReady(info, road, data, box) => RoadDrawn(info, RoadToDraw(key, road, data), box)
  }

  /** A `road` request fails exactly when no route is found; a found route is reported and drawn under the key. */
  lemma SingleRoadReply(req: RoadRequest, colorRoad: string, road: Option<Road>, decodedBox: Option<Bounds>)
    ensures var reply := RoadResult(req.key, DrawRoadCallback(req, colorRoad, road, decodedBox));
      && (reply.RoadError? <==> road.None?)
      && (reply.RoadDrawn? ==>
            && reply.info == InfoOf(road.value)
            && reply.draw == RoadToDraw(req.key, road.value, RoadStyle(req, colorRoad))
            && reply.fitCamera == (if req.zoomIntoRegion then decodedBox else None))
  {
  }

  /** What drawRoad#manually hands to the road manager and the camera. */
  datatype ManualDraw = ManualDraw(draw: RoadToDraw, fitCamera: Option<Bounds>)

  /**
   * drawRoad#manually: the encoded route is drawn as given, with no distance
   * or duration, under the request key. `decodedBox` is the bounds of the
   * decoded route, which the source force-unwraps when zooming.
   */
  function DrawRoadManually(req: ManualRoadRequest, decodedBox: Bounds): (m: ManualDraw)
    ensures m.draw.key == req.key && m.draw.road.mRouteHigh == req.road
    ensures m.draw.road.distance == 0.0 && m.draw.road.duration == 0.0
    ensures m.draw.roadData == ManualRoadData(req)
    ensures m.fitCamera == (if req.zoomIntoRegion then Some(decodedBox) else None)
  {
    ManualDraw(RoadToDraw(req.key, Road(0.0, 0.0, req.road), ManualRoadData(req)),
               if req.zoomIntoRegion then Some(decodedBox) else None)
  }
}
