/**
 * The fields of the plugin's MyMapView and the handlers that change them:
 * the custom-tile state, the zoom step rule, the advanced picker, marker
 * removal, static marker clusters, get#geopoints and the user-location flags.
 * The method-channel replies a handler sends are returned as values.
 */
module MapViewHandlers {
  import opened Optional
  import opened Text
  import opened GeoMarkers
  import opened MapSurface

  /** The arguments of the `Zoom` call: a step or an absolute level. */
  datatype ZoomArgs = StepZoom(stepZoom: real) | ZoomLevel(zoomLevel: real)

  /** One point of a `staticPosition` call; the angle is already in degrees. */
  datatype StaticPoint = StaticPoint(coordinate: Coordinate, angle: Option<int>)

  /**
   * What one location update sends out: the `receiveUserLocation` call, the
   * camera flight to the user, and the reply to a pending `user#position`
   * (Some(None) is the reply without a position).
   */
  datatype LocationEffect = LocationEffect(
    sentLocation: Option<Coordinate>,
    flyTo: Option<Coordinate>,
    positionReply: Option<Option<Coordinate>>)

  const NoEffect := LocationEffect(None, None, None)

  /** The step `Zoom` applies for a `stepZoom` argument, given the stored step. */
  function EffectiveStep(stored: real, stepZ: real): (step: real)
    ensures stepZ == 0.0 ==> step == stored
    ensures stepZ == -1.0 ==> step == -stored
    ensures stepZ != 0.0 && stepZ != -1.0 ==> step == stepZ
  {
    if stepZ == 0.0 || stepZ == -1.0 then
      (if stepZ == -1.0 then -stored else stored)
    else stepZ
  }

  /** zoomMap's range guard: a step whose target leaves `[lo, hi]` leaves the zoom where it is. */
  function GuardedZoom(zoom: real, lo: real, hi: real, step: real): (z: real)
    ensures lo <= zoom + step <= hi ==> z == zoom + step
    ensures !(lo <= zoom + step <= hi) ==> z == zoom
  {
    if zoom + step < lo || zoom + step > hi then zoom else zoom + step
  }

  /** A guarded step never takes a zoom inside the limits outside them. */
  lemma GuardedZoomStaysInRange(zoom: real, lo: real, hi: real, step: real)
    requires lo <= zoom <= hi
    ensures lo <= GuardedZoom(zoom, lo, hi, step) <= hi
  {
  }

  /**
   * `Zoom` in (argument 0) and then out (argument -1) returns to the same
   * level whenever the zoom-in was allowed by the range guard.
   */
  lemma ZoomInOutCancel(stored: real, zoom: real, lo: real, hi: real)
    requires lo <= zoom <= hi && lo <= zoom + stored <= hi
    ensures GuardedZoom(GuardedZoom(zoom, lo, hi, EffectiveStep(stored, 0.0)), lo, hi, EffectiveStep(stored, -1.0)) == zoom
  {
  }

  /**
   * At the maximum the zoom-in is refused but the zoom-out is applied, so
   * in-then-out ends one step below where it started.
   */
  lemma ZoomInOutAtMaximumDrifts()
    ensures GuardedZoom(GuardedZoom(20.0, 2.0, 20.0, EffectiveStep(1.0, 0.0)), 2.0, 20.0, EffectiveStep(1.0, -1.0)) == 19.0
  {
  }

  /** What `change#tile` does: the new `oldCustomTile` and the scene reload it asks for, if any. */
  datatype TileStep = TileStep(remembered: Option<CustomTile>, reload: Option<Option<CustomTile>>)

  function ChangeTileStep(current: Option<CustomTile>, args: Option<CustomTile>): (r: TileStep)
    ensures args.None? ==> r.remembered.None?
    ensures args.None? ==> (r.reload.Some? <==> current.Some?) && (r.reload.Some? ==> r.reload.value.None?)
    ensures args.Some? ==> (r.reload.Some? <==> current.None? || current.value.tileURL != args.value.tileURL)
    ensures args.Some? && r.reload.Some? ==> r.remembered == args && r.reload.value == args
    ensures args.Some? && r.reload.None? ==> r.remembered == current
  {
    match args
    case None =>
      if current.Some? then TileStep(None, Some(None)) else TileStep(None, None)
    case Some(tile) =>
      if current.None? || current.value.tileURL != tile.tileURL then TileStep(args, Some(args))
      else TileStep(current, None)
  }

  /** Repeating a `change#tile` call with the same arguments reloads nothing and changes nothing. */
  lemma ChangeTileSettles(current: Option<CustomTile>, args: Option<CustomTile>)
    ensures var r := ChangeTileStep(current, args);
      ChangeTileStep(r.remembered, args) == TileStep(r.remembered, None)
  {
  }

  /** The marker a placed description becomes on the map. */
  function PlacedMarker(g: GeoPointMap, id: MarkerId): (m: Marker)
    ensures m.id == id && m.point == Location(g) && m.stylingString == g.styleMarker && m.visible
  {
    Marker(id, g.styleMarker, g.coordinate, g.markerIcon.image, None, true)
  }

  /** Identity of the user-location marker, if one is on the map. */
  function LocationMarkerIds(u: Option<MyLocationMarker>): set<MarkerId> {
    if u.Some? && u.value.base.marker.Some? then {u.value.base.marker.value} else {}
  }

  function OptionIds(id: Option<MarkerId>): set<MarkerId> {
    if id.Some? then {id.value} else {}
  }

  /** Identities of the placed markers of a static cluster. */
  function ClusterIds(cluster: seq<StaticGeoPMarker>): set<MarkerId> {
    set k | 0 <= k < |cluster| && cluster[k].base.marker.Some? :: cluster[k].base.marker.value
  }

  /** Every coordinate of every static cluster. */
  function ClusterCoordinates(clusters: map<string, seq<StaticGeoPMarker>>): set<Coordinate> {
    set id, k | id in clusters && 0 <= k < |clusters[id]| :: clusters[id][k].base.coordinate
  }

  /** The cluster `staticPosition` builds: one interactive marker per point, placed with consecutive identities. */
  function StaticCluster(icon: MarkerIconData, points: seq<StaticPoint>, firstId: MarkerId): (r: seq<StaticGeoPMarker>)
    ensures |r| == |points|
    ensures forall k :: 0 <= k < |points| ==>
      r[k].base.coordinate == points[k].coordinate && r[k].angle == points[k].angle.GetOr(0)
      && r[k].base.interactive && r[k].base.marker == Some(firstId + k)
  {
    seq(|points|, k requires 0 <= k < |points| => PlacedStatic(icon, points[k], firstId + k))
  }

  /** One static marker of a `staticPosition` call, placed under identity `id`. */
  function PlacedStatic(icon: MarkerIconData, point: StaticPoint, id: MarkerId): (s: StaticGeoPMarker)
    ensures s.base.coordinate == point.coordinate && s.angle == point.angle.GetOr(0)
    ensures s.base.interactive && s.base.marker == Some(id)
  {
    var angle := point.angle.GetOr(0);
    StaticGeoPMarker(NewGeoPointMap(icon, point.coordinate, true, None, angle).(marker := Some(id)), angle)
  }

  /** Every marker of a static cluster is an interactive 'points' marker carrying its own angle. */
  lemma StaticClusterStyle(icon: MarkerIconData, points: seq<StaticPoint>, firstId: MarkerId)
    ensures forall k :: 0 <= k < |points| ==>
      var s := StaticCluster(icon, points, firstId)[k].base.styleMarker;
      IsPointsStyle(s) && Contains(s, InteractiveField(true)) && Contains(s, AngleField(points[k].angle.GetOr(0)))
  {
    forall k | 0 <= k < |points|
      ensures var s := StaticCluster(icon, points, firstId)[k].base.styleMarker;
        IsPointsStyle(s) && Contains(s, InteractiveField(true)) && Contains(s, AngleField(points[k].angle.GetOr(0)))
    {
      DefaultStyleDescribesMarker(true, icon, points[k].angle.GetOr(0));
    }
  }

  lemma StaticClusterGrows(icon: MarkerIconData, points: seq<StaticPoint>, k: nat, firstId: MarkerId)
    requires k < |points|
    ensures StaticCluster(icon, points[..k + 1], firstId)
         == StaticCluster(icon, points[..k], firstId) + [PlacedStatic(icon, points[k], firstId + k)]
  {
    var longer := StaticCluster(icon, points[..k + 1], firstId);
    var shorter := StaticCluster(icon, points[..k], firstId);
    forall j | 0 <= j < k ensures longer[j] == shorter[j] {
      assert points[..k + 1][j] == points[..k][j];
    }
  }

  lemma ClusterMarkersGrow(cluster: seq<StaticGeoPMarker>, placed: StaticGeoPMarker, firstId: MarkerId)
    ensures ClusterMarkers(cluster + [placed], firstId)
         == ClusterMarkers(cluster, firstId) + [PlacedMarker(placed.base, firstId + |cluster|)]
  {
  }

  function ClusterMarkers(cluster: seq<StaticGeoPMarker>, firstId: MarkerId): (r: seq<Marker>)
    ensures |r| == |cluster|
    ensures forall k :: 0 <= k < |cluster| ==> r[k] == PlacedMarker(cluster[k].base, firstId + k)
  {
    seq(|cluster|, k requires 0 <= k < |cluster| => PlacedMarker(cluster[k].base, firstId + k))
  }

  lemma {:induction false} IdsOfPrefix(ms: seq<Marker>, i: nat)
    requires i < |ms|
    ensures IdsOf(ms[..i + 1]) == IdsOf(ms[..i]) + {ms[i].id}
  {
    assert ms[..i + 1] == ms[..i] + [ms[i]];
  }

  class MyMapView {
    const mapView: MapView
    /** The default road colour; the source never reassigns it. */
    const colorRoad: string
    /** The `customTile` argument the view was created with. */
    const customTiles: Option<CustomTile>
    var stepZoom: real
    var initZoom: real
    var oldCustomTile: Option<CustomTile>
    var markerIcon: Option<MarkerIconData>
    var personMarkerIcon: Option<MarkerIconData>
    var arrowDirectionIcon: Option<MarkerIconData>
    var homeMarker: Option<MarkerId>
    var isAdvancedPicker: bool
    /** Whether `pickerMarker` holds an image view. */
    var pickerMarkerSet: bool
    /** Whether the image view `pickerMarker` names is shown over the map. */
    var pickerShown: bool
    /**
     * Picker image views still shown over the map that `pickerMarker` no
     * longer names: `advancedPicker#marker#icon` replaces the view without
     * taking the shown one off the map, and nothing removes it afterwards.
     */
    var strayPickerImages: nat
    var cacheMarkers: seq<Marker>
    var dictClusterAnnotation: map<string, seq<StaticGeoPMarker>>
    var dictIconClusterAnnotation: map<string, MarkerIconData>
    var userLocation: Option<MyLocationMarker>
    var canGetLastUserLocation: bool
    var canTrackUserLocation: bool
    var retrieveLastUserLocation: bool
    /** Whether `resultFlutter` holds the reply of a `user#position` call. */
    var pendingPositionReply: bool
    var enableStopFollowInDrag: bool
    var canSkipFollow: bool

    /**
     * Gestures reach the view exactly when the picker is off, the image view
     * `pickerMarker` names is shown only while it is on, a position request
     * always has a reply to send, and the user-location marker, once created,
     * is on the map.
     */
    ghost predicate Valid()
      reads this, mapView
    {
      mapView.Valid()
      && (isAdvancedPicker <==> !mapView.gestureDelegateSet)
      && (pickerShown ==> isAdvancedPicker)
      && (retrieveLastUserLocation ==> pendingPositionReply)
      && (userLocation.Some? ==> userLocation.value.base.marker.Some?)
    }

    /** The remembered tile is the one the current scene was loaded with. */
    ghost predicate TileInSync()
      reads this, mapView
    {
      oldCustomTile.Some? ==> mapView.sceneTile.Some? && mapView.sceneTile.value.tileURL == oldCustomTile.value.tileURL
    }

    ghost predicate ZoomInRange()
      reads mapView
    {
      mapView.minimumZoomLevel <= mapView.zoom <= mapView.maximumZoomLevel
    }

    constructor (customTile: Option<CustomTile>, zoom: real, minimumZoomLevel: real, maximumZoomLevel: real)
      ensures Valid() && fresh(mapView)
      ensures mapView.markers == [] && mapView.zoom == zoom
      ensures mapView.minimumZoomLevel == minimumZoomLevel && mapView.maximumZoomLevel == maximumZoomLevel
      ensures colorRoad == "#ff0000" && stepZoom == 1.0 && initZoom == 10.0
      ensures customTiles == customTile && oldCustomTile.None?
      ensures !isAdvancedPicker && !pickerShown && strayPickerImages == 0
      ensures !canGetLastUserLocation && !canTrackUserLocation && !retrieveLastUserLocation
      ensures userLocation.None? && homeMarker.None? && dictClusterAnnotation == map[]
    {
      mapView := new MapView(zoom, minimumZoomLevel, maximumZoomLevel);
      colorRoad := "#ff0000";
      customTiles := customTile;
      stepZoom := 1.0;
      initZoom := 10.0;
      oldCustomTile := None;
      markerIcon := None;
      personMarkerIcon := None;
      arrowDirectionIcon := None;
      homeMarker := None;
      isAdvancedPicker := false;
      pickerMarkerSet := false;
      pickerShown := false;
      strayPickerImages := 0;
      cacheMarkers := [];
      dictClusterAnnotation := map[];
      dictIconClusterAnnotation := map[];
      userLocation := None;
      canGetLastUserLocation := false;
      canTrackUserLocation := false;
      retrieveLastUserLocation := false;
      pendingPositionReply := false;
      enableStopFollowInDrag := false;
      canSkipFollow := false;
      new;
      mapView.gestureDelegateSet := true;
    }

    /** `init#ios#map`: load the scene with the view's custom tile, remembering it when none is yet. */
    method InitIosMap(sceneZoom: real)
      requires Valid()
      modifies this`oldCustomTile, mapView`markers, mapView`sceneTile, mapView`zoom
      ensures Valid()
      ensures mapView.sceneTile == customTiles && mapView.markers == [] && mapView.zoom == sceneZoom
      ensures oldCustomTile == if customTiles.Some? && old(oldCustomTile).None? then customTiles else old(oldCustomTile)
      ensures old(oldCustomTile).None? ==> TileInSync()
    {
      if customTiles.Some? {
        if oldCustomTile.None? {
          oldCustomTile := customTiles;
        }
      }
      mapView.LoadScene(customTiles, sceneZoom);
    }

    /** `change#tile` */
    method ChangeTile(args: Option<CustomTile>, sceneZoom: real)
      requires Valid()
      modifies this`oldCustomTile, mapView`markers, mapView`nextMarkerId, mapView`sceneTile, mapView`zoom
      ensures Valid()
      ensures var step := ChangeTileStep(old(oldCustomTile), args);
        && oldCustomTile == step.remembered
        && (step.reload.None? ==> unchanged(mapView))
        && (step.reload.Some? ==>
              && mapView.sceneTile == step.reload.value
              && mapView.markers == Reloaded(old(mapView.markers), old(mapView.nextMarkerId))
              && mapView.zoom == old(mapView.zoom))
      ensures old(TileInSync()) ==> TileInSync()
    {
      if args.None? && oldCustomTile.Some? {
        mapView.UpdateOrResetScene(None, sceneZoom);
        oldCustomTile := None;
      }
      if args.Some? {
        var tile := args.value;
        if oldCustomTile.None? || (oldCustomTile.Some? && oldCustomTile.value.tileURL != tile.tileURL) {
          mapView.UpdateOrResetScene(args, sceneZoom);
          oldCustomTile := args;
        }
      }
    }

    /** `zoomMap`: a step is applied only when it keeps the zoom within the limits; a level is applied as given. */
    method ZoomMap(step: Option<real>, level: Option<real>)
      requires Valid()
      requires step.None? ==> level.Some?
      modifies mapView`zoom
      ensures Valid()
      ensures step.Some? ==>
        mapView.zoom == GuardedZoom(old(mapView.zoom), mapView.minimumZoomLevel, mapView.maximumZoomLevel, step.value)
      ensures step.None? ==> mapView.zoom == level.value
      ensures step.Some? && old(ZoomInRange()) ==> ZoomInRange()
    {
      var zoomLevel: real;
      if step.Some? {
        zoomLevel := mapView.zoom + step.value;
        if zoomLevel < mapView.minimumZoomLevel || zoomLevel > mapView.maximumZoomLevel {
          return;
        }
      } else {
        zoomLevel := level.value;
      }
      mapView.FlyToZoom(zoomLevel);
    }

    /** `Zoom` */
    method Zoom(args: ZoomArgs)
      requires Valid()
      modifies mapView`zoom
      ensures Valid()
      ensures args.StepZoom? ==>
        mapView.zoom == GuardedZoom(old(mapView.zoom), mapView.minimumZoomLevel, mapView.maximumZoomLevel,
                                    EffectiveStep(stepZoom, args.stepZoom))
      ensures args.ZoomLevel? ==> mapView.zoom == args.zoomLevel
      ensures args.StepZoom? && old(ZoomInRange()) ==> ZoomInRange()
    {
      match args
      case StepZoom(stepZ) =>
        var step := stepZoom;
        if stepZ == 0.0 || stepZ == -1.0 {
          if stepZ == -1.0 {
            step := -step;
          }
        } else {
          step := stepZ;
        }
        ZoomMap(Some(step), None);
      case ZoomLevel(levelZoom) =>
        ZoomMap(None, Some(levelZoom));
    }

    /** `config#Zoom` */
    method ConfigZoom(step: real, init: real, minZoomLevel: real, maxZoomLevel: real)
      requires Valid()
      modifies this`stepZoom, this`initZoom, mapView`minimumZoomLevel, mapView`maximumZoomLevel
      ensures Valid()
      ensures stepZoom == step && initZoom == init
      ensures mapView.minimumZoomLevel == minZoomLevel && mapView.maximumZoomLevel == maxZoomLevel
    {
      stepZoom := step;
      initZoom := init;
      mapView.minimumZoomLevel := minZoomLevel;
      mapView.maximumZoomLevel := maxZoomLevel;
    }

    /** `change#stepZoom` */
    method ChangeStepZoom(step: real)
      modifies this`stepZoom
      ensures stepZoom == step
    {
      stepZoom := step;
    }

    /** `marker#icon` */
    method SetMarkerIcon(icon: MarkerIconData)
      modifies this`markerIcon
      ensures markerIcon == Some(icon)
    {
      markerIcon := Some(icon);
    }

    /**
     * `advancedPicker#marker#icon`: `pickerMarker` names a new image view,
     * not yet shown; a view that was shown stays over the map as a stray.
     */
    method SetCustomIconMarker()
      requires Valid()
      modifies this`pickerMarkerSet, this`pickerShown, this`strayPickerImages
      ensures Valid()
      ensures pickerMarkerSet && !pickerShown
      ensures strayPickerImages == old(strayPickerImages) + (if old(pickerShown) then 1 else 0)
    {
      if pickerShown {
        strayPickerImages := strayPickerImages + 1;
      }
      pickerShown := false;
      pickerMarkerSet := true;
    }

    /** `user#locationMarkers`: each icon given replaces the stored one. */
    method SetUserLocationMarker(personIcon: Option<MarkerIconData>, arrowIcon: Option<MarkerIconData>)
      modifies this`personMarkerIcon, this`arrowDirectionIcon
      ensures personMarkerIcon == if personIcon.Some? then personIcon else old(personMarkerIcon)
      ensures arrowDirectionIcon == if arrowIcon.Some? then arrowIcon else old(arrowDirectionIcon)
    {
      if personIcon.Some? {
        personMarkerIcon := personIcon;
      }
      if arrowIcon.Some? {
        arrowDirectionIcon := arrowIcon;
      }
    }

    /** `staticPosition#IconMarker` */
    method SetMarkerStaticGeoPIcon(id: string, icon: MarkerIconData)
      modifies this`dictIconClusterAnnotation
      ensures dictIconClusterAnnotation == old(dictIconClusterAnnotation)[id := icon]
    {
      dictIconClusterAnnotation := dictIconClusterAnnotation[id := icon];
    }

    /** `setupMarker`: put a marker description on the map and keep its handle. */
    method SetupMarker(g: GeoPointMap) returns (placed: GeoPointMap)
      requires mapView.Valid()
      modifies mapView`markers, mapView`nextMarkerId
      ensures mapView.Valid()
      ensures placed == g.(marker := Some(old(mapView.nextMarkerId)))
      ensures mapView.nextMarkerId == old(mapView.nextMarkerId) + 1
      ensures mapView.markers == old(mapView.markers) + [PlacedMarker(g, old(mapView.nextMarkerId))]
    {
      var id := mapView.MarkerAdd(g.styleMarker, g.coordinate, g.markerIcon.image, None);
      placed := g.(marker := Some(id));
    }

    /** The loops that set `visible` on every marker of the map. */
    method SetMarkersVisible(v: bool)
      requires mapView.Valid()
      modifies mapView`markers
      ensures mapView.Valid()
      ensures mapView.markers == WithVisibility(old(mapView.markers), v)
    {
      var saved := mapView.markers;
      for i := 0 to |saved|
        invariant mapView.Valid()
        invariant |mapView.markers| == |saved|
        invariant forall j :: 0 <= j < i ==> mapView.markers[j] == saved[j].(visible := v)
        invariant forall j :: i <= j < |saved| ==> mapView.markers[j] == saved[j]
      {
        mapView.SetVisibleAt(i, v);
      }
      assert mapView.markers == WithVisibility(saved, v);
    }

    /** `deactivateTrackMe`: stop tracking and take the user-location marker off the map. */
    method DeactivateTrackMe()
      requires mapView.Valid()
      modifies this`canTrackUserLocation, this`userLocation, mapView`markers
      ensures mapView.Valid()
      ensures !canTrackUserLocation && userLocation.None?
      ensures mapView.markers == WithoutIds(old(mapView.markers), LocationMarkerIds(old(userLocation)))
    {
      canTrackUserLocation := false;
      if userLocation.Some? && userLocation.value.base.marker.Some? {
        mapView.MarkerRemove(userLocation.value.base.marker.value);
      } else {
        WithoutIdsEmpty(mapView.markers);
      }
      userLocation := None;
    }

    /**
     * `advanced#selection`: only when the picker is off, hide every marker,
     * stop tracking, take gestures away from the view and show the picker.
     * The reply is sent only then.
     */
    method StartAdvancedPicker() returns (replied: bool)
      requires Valid()
      requires !isAdvancedPicker ==> pickerMarkerSet
      modifies this`isAdvancedPicker, this`pickerShown, this`canTrackUserLocation, this`userLocation
      modifies mapView`markers, mapView`gestureDelegateSet
      ensures Valid()
      ensures replied <==> !old(isAdvancedPicker)
      ensures old(isAdvancedPicker) ==> unchanged(this) && unchanged(mapView)
      ensures !old(isAdvancedPicker) ==>
        && isAdvancedPicker && pickerShown && !mapView.gestureDelegateSet
        && !canTrackUserLocation
        && (forall m | m in mapView.markers :: !m.visible)
        && (old(canTrackUserLocation) ==>
              (userLocation.None? &&
               mapView.markers == WithoutIds(WithVisibility(old(mapView.markers), false), LocationMarkerIds(old(userLocation)))))
        && (!old(canTrackUserLocation) ==>
              (userLocation == old(userLocation) && mapView.markers == WithVisibility(old(mapView.markers), false)))
    {
      replied := false;
      if !isAdvancedPicker {
        isAdvancedPicker := true;
        SetMarkersVisible(false);
        if canTrackUserLocation {
          ghost var hidden := mapView.markers;
          DeactivateTrackMe();
          forall m | m in mapView.markers ensures !m.visible {
            WithoutIdsMembers(hidden, LocationMarkerIds(old(userLocation)), m);
          }
        }
        mapView.gestureDelegateSet := false;
        pickerShown := true;
        replied := true;
      }
    }

    /** `cancelAdvancedPickerMarker`: only when the picker is on, show every marker again and give gestures back. */
    method CancelAdvancedPickerMarker()
      requires Valid()
      modifies this`isAdvancedPicker, this`pickerShown, this`cacheMarkers
      modifies mapView`markers, mapView`gestureDelegateSet
      ensures Valid()
      ensures !old(isAdvancedPicker) ==> unchanged(this) && unchanged(mapView)
      ensures old(isAdvancedPicker) ==>
        && !isAdvancedPicker && !pickerShown && mapView.gestureDelegateSet && cacheMarkers == []
        && mapView.markers == WithVisibility(old(mapView.markers), true)
    {
      if isAdvancedPicker {
        pickerShown := false;
        SetMarkersVisible(true);
        mapView.gestureDelegateSet := true;
        cacheMarkers := [];
        isAdvancedPicker := false;
      }
    }

    /**
     * `get#position#advanced#selection` and `confirm#advanced#selection`:
     * while the picker is on, reply with the map's centre; on confirmation,
     * replace the home marker by one at the centre and leave the picker.
     */
    method GetCenterSelection(center: Coordinate, isFinished: bool) returns (reply: Option<Coordinate>)
      requires Valid()
      requires isAdvancedPicker && isFinished ==> markerIcon.Some?
      modifies this`homeMarker, this`isAdvancedPicker, this`pickerShown, this`cacheMarkers
      modifies mapView`markers, mapView`nextMarkerId, mapView`gestureDelegateSet
      ensures Valid()
      ensures reply == if old(isAdvancedPicker) then Some(center) else None
      ensures !(old(isAdvancedPicker) && isFinished) ==> unchanged(this) && unchanged(mapView)
      ensures old(isAdvancedPicker) && isFinished ==>
        var home := NewGeoPointMap(markerIcon.value, center, true, None, 0);
        && !isAdvancedPicker && !pickerShown && mapView.gestureDelegateSet
        && homeMarker == Some(old(mapView.nextMarkerId))
        && mapView.markers == WithVisibility(
             WithoutIds(old(mapView.markers), OptionIds(old(homeMarker))) + [PlacedMarker(home, old(mapView.nextMarkerId))],
             true)
    {
      reply := None;
      if isAdvancedPicker {
        reply := Some(center);
        if isFinished {
          if homeMarker.Some? {
            mapView.MarkerRemove(homeMarker.value);
            homeMarker := None;
          } else {
            WithoutIdsEmpty(mapView.markers);
          }
          var geoMarker := NewGeoPointMap(markerIcon.value, center, true, None, 0);
          var placed := SetupMarker(geoMarker);
          homeMarker := placed.marker;
          CancelAdvancedPickerMarker();
          isAdvancedPicker := false;
        }
      }
    }

    /** `markerRemove` of every marker in `doomed`, one after another. */
    method RemoveMarkers(doomed: seq<Marker>)
      requires mapView.Valid()
      modifies mapView`markers
      ensures mapView.Valid()
      ensures mapView.markers == WithoutIds(old(mapView.markers), IdsOf(doomed))
    {
      var saved := mapView.markers;
      WithoutIdsEmpty(saved);
      assert IdsOf(doomed[..0]) == {};
      for i := 0 to |doomed|
        invariant mapView.Valid()
        invariant mapView.markers == WithoutIds(saved, IdsOf(doomed[..i]))
      {
        mapView.MarkerRemove(doomed[i].id);
        WithoutIdsTwice(saved, IdsOf(doomed[..i]), {doomed[i].id});
        IdsOfPrefix(doomed, i);
      }
      assert doomed[..|doomed|] == doomed;
    }

    /** `user#removeMarkerPosition`: remove exactly the markers at `point`. */
    method RemoveMarkerFromMap(point: Coordinate)
      requires Valid()
      modifies mapView`markers
      ensures Valid()
      ensures mapView.markers == WithoutPoints(old(mapView.markers), [point])
      ensures forall m :: m in mapView.markers <==> m in old(mapView.markers) && m.point != point
    {
      var markers := AtPoints(mapView.markers, [point]);
      RemovingSelectedMarkers(mapView.markers, [point]);
      ghost var saved := mapView.markers;
      RemoveMarkers(markers);
      forall m ensures m in mapView.markers <==> m in saved && m.point != point {
        WithoutPointsExact(saved, [point], m);
      }
    }

    /** `delete#markers`: remove exactly the markers whose point is one of `points`. */
    method DeleteMarkers(points: seq<Coordinate>)
      requires Valid()
      modifies mapView`markers
      ensures Valid()
      ensures mapView.markers == WithoutPoints(old(mapView.markers), points)
      ensures forall m :: m in mapView.markers <==> m in old(mapView.markers) && m.point !in points
    {
      var markers := AtPoints(mapView.markers, points);
      RemovingSelectedMarkers(mapView.markers, points);
      ghost var saved := mapView.markers;
      RemoveMarkers(markers);
      forall m ensures m in mapView.markers <==> m in saved && m.point !in points {
        WithoutPointsExact(saved, points, m);
      }
    }

    /**
     * `staticPosition`: remove the markers of the cluster `id` and replace the
     * cluster by one interactive marker per point, with that cluster's icon.
     */
    method SetStaticGeoPoint(id: string, points: seq<StaticPoint>)
      requires Valid()
      requires |points| > 0 ==> id in dictIconClusterAnnotation
      modifies this`dictClusterAnnotation, mapView`markers, mapView`nextMarkerId
      ensures Valid()
      ensures var icon := if id in dictIconClusterAnnotation then dictIconClusterAnnotation[id] else EmptyIcon;
        var cluster := StaticCluster(icon, points, old(mapView.nextMarkerId));
        && dictClusterAnnotation == old(dictClusterAnnotation)[id := cluster]
        && mapView.markers ==
             WithoutIds(old(mapView.markers), if id in old(dictClusterAnnotation) then ClusterIds(old(dictClusterAnnotation)[id]) else {})
             + ClusterMarkers(cluster, old(mapView.nextMarkerId))
      ensures forall k :: 0 <= k < |points| ==> points[k].coordinate in ClusterCoordinates(dictClusterAnnotation)
      ensures forall k :: 0 <= k < |points| ==> points[k].coordinate !in GetGeoPoints()
    {
      if id in dictClusterAnnotation {
        RemoveClusterMarkers(dictClusterAnnotation[id]);
      } else {
        WithoutIdsEmpty(mapView.markers);
      }
      var icon := if id in dictIconClusterAnnotation then dictIconClusterAnnotation[id] else EmptyIcon;
      var listGeos := AddStaticGeos(icon, points);
      dictClusterAnnotation := dictClusterAnnotation[id := listGeos];
      forall k | 0 <= k < |points| ensures points[k].coordinate in ClusterCoordinates(dictClusterAnnotation) {
        assert dictClusterAnnotation[id][k].base.coordinate == points[k].coordinate;
      }
    }

    /** The removal loop of `staticPosition` over the previous cluster's placed markers. */
    method RemoveClusterMarkers(cluster: seq<StaticGeoPMarker>)
      requires mapView.Valid()
      modifies mapView`markers
      ensures mapView.Valid()
      ensures mapView.markers == WithoutIds(old(mapView.markers), ClusterIds(cluster))
    {
      var saved := mapView.markers;
      var removed: set<MarkerId> := {};
      WithoutIdsEmpty(saved);
      for i := 0 to |cluster|
        invariant mapView.Valid()
        invariant removed == ClusterIds(cluster[..i])
        invariant mapView.markers == WithoutIds(saved, removed)
      {
        var handle := cluster[i].base.marker;
        assert ClusterIds(cluster[..i + 1]) == removed + (if handle.Some? then {handle.value} else {});
        if handle.Some? {
          mapView.MarkerRemove(handle.value);
          WithoutIdsTwice(saved, removed, {handle.value});
          removed := removed + {handle.value};
        }
      }
      assert cluster[..|cluster|] == cluster;
    }

    /** `addStaticGeosToMapView` for one point: a static marker placed on the map. */
    method AddStaticGeo(icon: MarkerIconData, point: StaticPoint) returns (placed: StaticGeoPMarker)
      requires mapView.Valid()
      modifies mapView`markers, mapView`nextMarkerId
      ensures mapView.Valid()
      ensures placed == PlacedStatic(icon, point, old(mapView.nextMarkerId))
      ensures mapView.nextMarkerId == old(mapView.nextMarkerId) + 1
      ensures mapView.markers == old(mapView.markers) + [PlacedMarker(placed.base, old(mapView.nextMarkerId))]
    {
      var angle := point.angle.GetOr(0);
      var geo := NewStaticGeoPMarker(icon, point.coordinate, angle);
      var base := SetupMarker(geo.base);
      placed := geo.(base := base);
    }

    /** The mapping loop of `staticPosition`: one placed static marker per point, in order. */
    method AddStaticGeos(icon: MarkerIconData, points: seq<StaticPoint>) returns (listGeos: seq<StaticGeoPMarker>)
      requires mapView.Valid()
      modifies mapView`markers, mapView`nextMarkerId
      ensures mapView.Valid()
      ensures listGeos == StaticCluster(icon, points, old(mapView.nextMarkerId))
      ensures mapView.markers == old(mapView.markers) + ClusterMarkers(listGeos, old(mapView.nextMarkerId))
    {
      var firstId := mapView.nextMarkerId;
      var kept := mapView.markers;
      listGeos := [];
      for k := 0 to |points|
        invariant mapView.Valid()
        invariant mapView.nextMarkerId == firstId + k
        invariant listGeos == StaticCluster(icon, points[..k], firstId)
        invariant mapView.markers == kept + ClusterMarkers(listGeos, firstId)
      {
        var placed := AddStaticGeo(icon, points[k]);
        StaticClusterGrows(icon, points, k, firstId);
        ClusterMarkersGrow(listGeos, placed, firstId);
        listGeos := listGeos + [placed];
      }
      assert points[..|points|] == points;
    }

    /** `get#geopoints`: the points of the 'points'-styled markers that belong to no static cluster. */
    function GetGeoPoints(): (r: seq<Coordinate>)
      reads this, mapView
      ensures forall p :: p in r <==>
        p !in ClusterCoordinates(dictClusterAnnotation)
        && exists i :: 0 <= i < |mapView.markers| && IsPointsStyle(mapView.markers[i].stylingString) && mapView.markers[i].point == p
    {
      UserGeoPointsCharacterised(mapView.markers, ClusterCoordinates(dictClusterAnnotation));
      UserGeoPoints(mapView.markers, ClusterCoordinates(dictClusterAnnotation))
    }

    /** `currentLocation` */
    method CurrentUserLocation()
      requires Valid()
      modifies this`canGetLastUserLocation
      ensures Valid() && canGetLastUserLocation
    {
      canGetLastUserLocation := true;
    }

    /** `trackMe`: start tracking; the argument says whether a drag stops following the user. */
    method TrackMe(enableStopFollow: Option<bool>)
      requires Valid()
      modifies this`enableStopFollowInDrag, this`canTrackUserLocation
      ensures Valid()
      ensures canTrackUserLocation && enableStopFollowInDrag == enableStopFollow.GetOr(false)
    {
      enableStopFollowInDrag := enableStopFollow.GetOr(false);
      canTrackUserLocation := true;
    }

    /** `user#position`: the reply waits for the next location update. */
    method RequestUserPosition()
      requires Valid()
      modifies this`retrieveLastUserLocation, this`pendingPositionReply
      ensures Valid() && retrieveLastUserLocation && pendingPositionReply
    {
      retrieveLastUserLocation := true;
      pendingPositionReply := true;
    }

    /** The completion of the flight to the user's position. */
    method FollowFlightEnded()
      requires Valid()
      modifies this`canSkipFollow
      ensures Valid()
      ensures canSkipFollow == (old(canSkipFollow) || enableStopFollowInDrag)
    {
      if enableStopFollowInDrag {
        canSkipFollow := true;
      }
    }

    /** The tracking step of a location update: the user marker is placed on first use, then moved. */
    method TrackUserMarker(location: Coordinate)
      requires Valid()
      modifies this`userLocation, mapView`markers, mapView`nextMarkerId
      ensures Valid()
      ensures
        var created := NewMyLocationMarker(location, personMarkerIcon, arrowDirectionIcon, Person, 0);
        var added := if old(userLocation).None? then [PlacedMarker(created.base, old(mapView.nextMarkerId))] else [];
        && userLocation == (if old(userLocation).None?
                            then Some(created.(base := created.base.(marker := Some(old(mapView.nextMarkerId)))))
                            else old(userLocation))
        && mapView.markers == MoveMarker(old(mapView.markers) + added, userLocation.value.base.marker.value, location)
    {
      if userLocation.None? {
        var created := NewMyLocationMarker(location, personMarkerIcon, arrowDirectionIcon, Person, 0);
        var placed := SetupMarker(created.base);
        userLocation := Some(created.(base := placed));
      }
      mapView.SetMarkerPoint(userLocation.value.base.marker.value, location);
    }

    /** The last location while a one-shot location or tracking is requested. */
    method FollowLastLocation(location: Coordinate) returns (effect: LocationEffect)
      requires Valid()
      modifies this`userLocation, this`canGetLastUserLocation, mapView`markers, mapView`nextMarkerId
      ensures Valid()
      ensures !canGetLastUserLocation && effect.positionReply.None?
      ensures effect.sentLocation == (if canTrackUserLocation then Some(location) else None)
      ensures effect.flyTo == (if !canSkipFollow && !enableStopFollowInDrag then Some(location) else None)
      ensures !canTrackUserLocation ==> userLocation == old(userLocation) && unchanged(mapView)
      ensures canTrackUserLocation ==>
        var created := NewMyLocationMarker(location, personMarkerIcon, arrowDirectionIcon, Person, 0);
        var added := if old(userLocation).None? then [PlacedMarker(created.base, old(mapView.nextMarkerId))] else [];
        && userLocation == (if old(userLocation).None?
                            then Some(created.(base := created.base.(marker := Some(old(mapView.nextMarkerId)))))
                            else old(userLocation))
        && mapView.markers == MoveMarker(old(mapView.markers) + added, userLocation.value.base.marker.value, location)
    {
      effect := NoEffect;
      if canTrackUserLocation {
        TrackUserMarker(location);
        effect := effect.(sentLocation := Some(location));
      }
      if canGetLastUserLocation {
        canGetLastUserLocation := false;
      }
      if !canSkipFollow && !enableStopFollowInDrag {
        effect := effect.(flyTo := Some(location));
      }
    }

    /**
     * `locationManager(_:didUpdateLocations:)`: while a one-shot location or
     * tracking is requested, the last location moves the user marker (adding
     * it on first use), is sent to Dart when tracking, and is followed by the
     * camera unless following was stopped; otherwise it answers a pending
     * `user#position`.
     */
    method DidUpdateLocations(locations: seq<Coordinate>) returns (effect: LocationEffect)
      requires Valid()
      modifies this`userLocation, this`canGetLastUserLocation, this`retrieveLastUserLocation, this`pendingPositionReply
      modifies mapView`markers, mapView`nextMarkerId
      ensures Valid()
      ensures old(canGetLastUserLocation || canTrackUserLocation) ==>
        && effect.positionReply.None?
        && retrieveLastUserLocation == old(retrieveLastUserLocation)
        && pendingPositionReply == old(pendingPositionReply)
      ensures old(canGetLastUserLocation || canTrackUserLocation) && |locations| == 0 ==>
        effect == NoEffect && unchanged(this) && unchanged(mapView)
      ensures old(canGetLastUserLocation || canTrackUserLocation) && |locations| > 0 ==>
        var p := locations[|locations| - 1];
        && !canGetLastUserLocation
        && effect.sentLocation == (if canTrackUserLocation then Some(p) else None)
        && effect.flyTo == (if !canSkipFollow && !enableStopFollowInDrag then Some(p) else None)
      ensures old(canGetLastUserLocation) && !canTrackUserLocation ==>
        userLocation == old(userLocation) && unchanged(mapView)
      ensures canTrackUserLocation && |locations| > 0 ==>
        var p := locations[|locations| - 1];
        var created := NewMyLocationMarker(p, personMarkerIcon, arrowDirectionIcon, Person, 0);
        var added := if old(userLocation).None? then [PlacedMarker(created.base, old(mapView.nextMarkerId))] else [];
        && userLocation == (if old(userLocation).None?
                            then Some(created.(base := created.base.(marker := Some(old(mapView.nextMarkerId)))))
                            else old(userLocation))
        && mapView.markers == MoveMarker(old(mapView.markers) + added, userLocation.value.base.marker.value, p)
      ensures !old(canGetLastUserLocation || canTrackUserLocation) && old(retrieveLastUserLocation) ==>
        && effect.sentLocation.None? && effect.flyTo.None?
        && effect.positionReply == Some(if |locations| > 0 then Some(locations[|locations| - 1]) else None)
        && retrieveLastUserLocation == (|locations| == 0)
        && pendingPositionReply == (|locations| == 0)
        && userLocation == old(userLocation) && unchanged(mapView)
      ensures !old(canGetLastUserLocation || canTrackUserLocation || retrieveLastUserLocation) ==>
        effect == NoEffect && unchanged(this) && unchanged(mapView)
    {
      effect := NoEffect;
      if canGetLastUserLocation || canTrackUserLocation {
        if |locations| > 0 {
          effect := FollowLastLocation(locations[|locations| - 1]);
        }
      } else if retrieveLastUserLocation {
        if |locations| > 0 {
          var location := locations[|locations| - 1];
          effect := effect.(positionReply := Some(Some(location)));
          retrieveLastUserLocation := false;
          pendingPositionReply := false;
        } else {
          effect := effect.(positionReply := Some(None));
        }
      }
    }
  }
}
