/**
 * The part of the TangramMap view (TGMapView) that MyMapView.swift reads and
 * changes: the list of markers, the zoom and its limits, the scene's custom
 * tile and whether gestures are delegated. Rendering, the camera animation
 * and projection are not modelled; a TGMarker is a value with an identity.
 */
module MapSurface {
  import opened Optional
  import opened GeoMarkers

  /** Identity of a TGGeoPolyline attached to a line marker. */
  type PolylineId = nat

  /** A TGMarker: identity, styling string, point, icon, polyline and visibility. */
  datatype Marker = Marker(
    id: MarkerId,
    stylingString: string,
    point: Coordinate,
    icon: Option<Image>,
    polyline: Option<PolylineId>,
    visible: bool)

  /** The tile-server settings a scene is loaded with (CustomTiles). */
  datatype CustomTile = CustomTile(tileURL: string, subDomains: string, tileSize: int, maxZoom: int)

  predicate DistinctIds(ms: seq<Marker>) {
    forall i, j :: 0 <= i < j < |ms| ==> ms[i].id != ms[j].id
  }

  predicate IdsBelow(ms: seq<Marker>, bound: nat) {
    forall i :: 0 <= i < |ms| ==> ms[i].id < bound
  }

  function IdsOf(ms: seq<Marker>): set<MarkerId> {
    set m | m in ms :: m.id
  }

  /** The markers left after `markerRemove` of every marker whose identity is in `ids`. */
  function WithoutIds(ms: seq<Marker>, ids: set<MarkerId>): (r: seq<Marker>)
    ensures |r| <= |ms|
  {
    if ms == [] then []
    else (if ms[0].id in ids then [] else [ms[0]]) + WithoutIds(ms[1..], ids)
  }

  /** `markers.filter { points.contains($0.point) }` */
  function AtPoints(ms: seq<Marker>, points: seq<Coordinate>): (r: seq<Marker>)
    ensures |r| <= |ms|
  {
    if ms == [] then []
    else (if ms[0].point in points then [ms[0]] else []) + AtPoints(ms[1..], points)
  }

  /** The markers whose point is not in `points`, in their order. */
  function WithoutPoints(ms: seq<Marker>, points: seq<Coordinate>): (r: seq<Marker>)
    ensures |r| <= |ms|
  {
    if ms == [] then []
    else (if ms[0].point in points then [] else [ms[0]]) + WithoutPoints(ms[1..], points)
  }

  /** Every marker with its `visible` flag set to `v`. */
  function WithVisibility(ms: seq<Marker>, v: bool): (r: seq<Marker>)
    ensures |r| == |ms|
    ensures forall i :: 0 <= i < |ms| ==> r[i] == ms[i].(visible := v)
  {
    seq(|ms|, i requires 0 <= i < |ms| => ms[i].(visible := v))
  }

  /** The marker with identity `id`, if on the map, moved to `p`. */
  function MoveMarker(ms: seq<Marker>, id: MarkerId, p: Coordinate): (r: seq<Marker>)
    ensures |r| == |ms|
    ensures forall i :: 0 <= i < |ms| ==> r[i] == if ms[i].id == id then ms[i].(point := p) else ms[i]
  {
    seq(|ms|, i requires 0 <= i < |ms| => if ms[i].id == id then ms[i].(point := p) else ms[i])
  }

  /**
   * The marker updateOrResetScene creates in place of `m` after the scene
   * reload: new identity, same styling, point and icon, the polyline only for
   * a 'lines' style, and the new marker's default visibility.
   */
  function ReAdded(m: Marker, id: MarkerId): (r: Marker)
    ensures r.id == id && r.visible
    ensures r.stylingString == m.stylingString && r.point == m.point && r.icon == m.icon
    ensures r.polyline == (if IsLinesStyle(m.stylingString) then m.polyline else None)
  {
    Marker(id, m.stylingString, m.point, m.icon, if IsLinesStyle(m.stylingString) then m.polyline else None, true)
  }

  function Reloaded(ms: seq<Marker>, firstId: MarkerId): (r: seq<Marker>)
    ensures |r| == |ms|
    ensures forall i :: 0 <= i < |ms| ==> r[i] == ReAdded(ms[i], firstId + i)
  {
    seq(|ms|, i requires 0 <= i < |ms| => ReAdded(ms[i], firstId + i))
  }

  lemma {:induction false} WithoutIdsMembers(ms: seq<Marker>, ids: set<MarkerId>, m: Marker)
    ensures m in WithoutIds(ms, ids) <==> m in ms && m.id !in ids
  {
    if ms != [] {
      WithoutIdsMembers(ms[1..], ids, m);
      assert ms == [ms[0]] + ms[1..];
    }
  }

  /** Removing markers keeps the identities distinct and below the bound. */
  lemma {:induction false} WithoutIdsValid(ms: seq<Marker>, ids: set<MarkerId>, bound: nat)
    requires DistinctIds(ms) && IdsBelow(ms, bound)
    ensures DistinctIds(WithoutIds(ms, ids)) && IdsBelow(WithoutIds(ms, ids), bound)
  {
    if ms != [] {
      WithoutIdsValid(ms[1..], ids, bound);
      var rest := WithoutIds(ms[1..], ids);
      forall m | m in rest ensures m.id != ms[0].id && m.id < bound {
        WithoutIdsMembers(ms[1..], ids, m);
        var k :| 0 <= k < |ms[1..]| && ms[1..][k] == m;
        assert ms[k + 1] == m;
      }
    }
  }

  lemma {:induction false} WithoutIdsEmpty(ms: seq<Marker>)
    ensures WithoutIds(ms, {}) == ms
  {
    if ms != [] {
      WithoutIdsEmpty(ms[1..]);
      assert ms == [ms[0]] + ms[1..];
    }
  }

  /** `markerRemove` one identity after another is removing them all at once. */
  lemma {:induction false} WithoutIdsTwice(ms: seq<Marker>, ids: set<MarkerId>, more: set<MarkerId>)
    ensures WithoutIds(WithoutIds(ms, ids), more) == WithoutIds(ms, ids + more)
  {
    if ms != [] {
      WithoutIdsTwice(ms[1..], ids, more);
      var once := WithoutIds(ms, ids);
      if ms[0].id in ids {
        assert once == WithoutIds(ms[1..], ids);
      } else {
        assert once == [ms[0]] + WithoutIds(ms[1..], ids);
        assert once[0] == ms[0] && once[1..] == WithoutIds(ms[1..], ids);
        assert WithoutIds(once, more) == (if ms[0].id in more then [] else [ms[0]]) + WithoutIds(once[1..], more);
      }
    }
  }

  lemma {:induction false} WithoutIdsIgnoresAbsent(ms: seq<Marker>, ids: set<MarkerId>, x: MarkerId)
    requires x !in IdsOf(ms)
    ensures WithoutIds(ms, ids + {x}) == WithoutIds(ms, ids)
  {
    if ms != [] {
      assert ms[0] in ms;
      assert forall m | m in ms[1..] :: m in ms;
      WithoutIdsIgnoresAbsent(ms[1..], ids, x);
    }
  }

  /**
   * The reload gives every marker a new identity, so an identity handed out
   * before it names no marker any more: moving or removing the marker under
   * it changes nothing.
   */
  lemma StaleIdentityAfterReload(ms: seq<Marker>, firstId: MarkerId, stale: MarkerId, p: Coordinate)
    requires stale < firstId
    ensures stale !in IdsOf(Reloaded(ms, firstId))
    ensures MoveMarker(Reloaded(ms, firstId), stale, p) == Reloaded(ms, firstId)
    ensures WithoutIds(Reloaded(ms, firstId), {stale}) == Reloaded(ms, firstId)
  {
    var r := Reloaded(ms, firstId);
    forall m | m in r ensures m.id != stale {
      var k :| 0 <= k < |r| && r[k] == m;
    }
    WithoutIdsIgnoresAbsent(r, {}, stale);
    WithoutIdsEmpty(r);
    assert {} + {stale} == {stale};
  }

  lemma {:induction false} AtPointsIds(ms: seq<Marker>, points: seq<Coordinate>)
    ensures IdsOf(AtPoints(ms, points)) <= IdsOf(ms)
  {
    if ms != [] {
      AtPointsIds(ms[1..], points);
      var selected := AtPoints(ms, points);
      forall x | x in IdsOf(selected) ensures x in IdsOf(ms) {
        var m :| m in selected && m.id == x;
        if m == ms[0] {
          assert ms[0] in ms;
        } else {
          assert m in AtPoints(ms[1..], points);
          assert x in IdsOf(ms[1..]);
          var m' :| m' in ms[1..] && m'.id == x;
          var k :| 0 <= k < |ms[1..]| && ms[1..][k] == m';
          assert ms[k + 1] == m';
        }
      }
    }
  }

  /**
   * With distinct identities, removing every marker the point filter selects
   * leaves exactly the markers at other points.
   */
  lemma {:induction false} RemovingSelectedMarkers(ms: seq<Marker>, points: seq<Coordinate>)
    requires DistinctIds(ms)
    ensures WithoutIds(ms, IdsOf(AtPoints(ms, points))) == WithoutPoints(ms, points)
  {
    if ms != [] {
      var head, rest := ms[0], ms[1..];
      assert DistinctIds(rest);
      RemovingSelectedMarkers(rest, points);
      var restIds := IdsOf(AtPoints(rest, points));
      assert head.id !in IdsOf(rest) by {
        forall m | m in rest ensures m.id != head.id {
          var k :| 0 <= k < |rest| && rest[k] == m;
          assert ms[k + 1] == m;
        }
      }
      AtPointsIds(rest, points);
      if head.point in points {
        assert AtPoints(ms, points) == [head] + AtPoints(rest, points);
        assert IdsOf(AtPoints(ms, points)) == restIds + {head.id};
        WithoutIdsIgnoresAbsent(rest, restIds, head.id);
      } else {
        assert AtPoints(ms, points) == AtPoints(rest, points);
      }
    }
  }

  /** The point filter removes exactly the markers at the given points; all others remain, in order. */
  lemma {:induction false} WithoutPointsExact(ms: seq<Marker>, points: seq<Coordinate>, m: Marker)
    ensures m in WithoutPoints(ms, points) <==> m in ms && m.point !in points
    ensures m in AtPoints(ms, points) <==> m in ms && m.point in points
    ensures |WithoutPoints(ms, points)| + |AtPoints(ms, points)| == |ms|
  {
    if ms != [] {
      WithoutPointsExact(ms[1..], points, m);
      assert ms == [ms[0]] + ms[1..];
    }
  }

  /**
   * The points get#geopoints reports: points of 'points'-styled markers that
   * are not one of the `excluded` coordinates, in marker order.
   */
  function UserGeoPoints(ms: seq<Marker>, excluded: set<Coordinate>): (r: seq<Coordinate>)
    ensures |r| <= |ms|
  {
    if ms == [] then []
    else (if IsPointsStyle(ms[0].stylingString) && ms[0].point !in excluded then [ms[0].point] else [])
         + UserGeoPoints(ms[1..], excluded)
  }

  lemma {:induction false} UserGeoPointsMembers(ms: seq<Marker>, excluded: set<Coordinate>, p: Coordinate)
    ensures p in UserGeoPoints(ms, excluded) <==>
      p !in excluded && exists i :: 0 <= i < |ms| && IsPointsStyle(ms[i].stylingString) && ms[i].point == p
  {
    if ms != [] {
      UserGeoPointsMembers(ms[1..], excluded, p);
      if exists i :: 0 <= i < |ms| && IsPointsStyle(ms[i].stylingString) && ms[i].point == p {
        var i :| 0 <= i < |ms| && IsPointsStyle(ms[i].stylingString) && ms[i].point == p;
        if i > 0 {
          assert ms[1..][i - 1] == ms[i];
        }
      }
    }
  }

  lemma UserGeoPointsCharacterised(ms: seq<Marker>, excluded: set<Coordinate>)
    ensures forall p :: p in UserGeoPoints(ms, excluded) <==>
      p !in excluded && exists i :: 0 <= i < |ms| && IsPointsStyle(ms[i].stylingString) && ms[i].point == p
  {
    forall p ensures p in UserGeoPoints(ms, excluded) <==>
      p !in excluded && exists i :: 0 <= i < |ms| && IsPointsStyle(ms[i].stylingString) && ms[i].point == p
    {
      UserGeoPointsMembers(ms, excluded, p);
    }
  }

  /** Hiding or showing markers does not change what get#geopoints reports. */
  lemma {:induction false} UserGeoPointsIgnoreVisibility(ms: seq<Marker>, excluded: set<Coordinate>, v: bool)
    ensures UserGeoPoints(WithVisibility(ms, v), excluded) == UserGeoPoints(ms, excluded)
  {
    if ms != [] {
      UserGeoPointsIgnoreVisibility(ms[1..], excluded, v);
      assert WithVisibility(ms, v)[1..] == WithVisibility(ms[1..], v);
    }
  }

  /** A scene reload re-adds the markers so that get#geopoints reports the same points. */
  lemma {:induction false} UserGeoPointsSurviveReload(ms: seq<Marker>, excluded: set<Coordinate>, firstId: MarkerId)
    ensures UserGeoPoints(Reloaded(ms, firstId), excluded) == UserGeoPoints(ms, excluded)
    decreases |ms|
  {
    if ms != [] {
      UserGeoPointsSurviveReload(ms[1..], excluded, firstId + 1);
      assert Reloaded(ms, firstId)[1..] == Reloaded(ms[1..], firstId + 1);
    }
  }

  /** The TGMapView state the plugin uses. */
  class MapView {
    var markers: seq<Marker>
    var nextMarkerId: nat
    var zoom: real
    var minimumZoomLevel: real
    var maximumZoomLevel: real
    /** The custom tile the current scene was loaded with; None for the plugin's own style. */
    var sceneTile: Option<CustomTile>
    /** Whether `gestureDelegate` is set to the plugin's view. */
    var gestureDelegateSet: bool

    ghost predicate Valid()
      reads this
    {
      DistinctIds(markers) && IdsBelow(markers, nextMarkerId)
    }

    constructor (zoom: real, minimumZoomLevel: real, maximumZoomLevel: real)
      ensures Valid()
      ensures markers == [] && this.zoom == zoom
      ensures this.minimumZoomLevel == minimumZoomLevel && this.maximumZoomLevel == maximumZoomLevel
      ensures sceneTile == None && !gestureDelegateSet
    {
      markers := [];
      nextMarkerId := 0;
      this.zoom := zoom;
      this.minimumZoomLevel := minimumZoomLevel;
      this.maximumZoomLevel := maximumZoomLevel;
      sceneTile := None;
      gestureDelegateSet := false;
    }

    /** `markerAdd()` followed by setting the new marker's fields. */
    method MarkerAdd(stylingString: string, point: Coordinate, icon: Option<Image>, polyline: Option<PolylineId>)
      returns (id: MarkerId)
      requires Valid()
      modifies this`markers, this`nextMarkerId
      ensures Valid()
      ensures id == old(nextMarkerId) && nextMarkerId == old(nextMarkerId) + 1
      ensures id !in IdsOf(old(markers))
      ensures markers == old(markers) + [Marker(id, stylingString, point, icon, polyline, true)]
    {
      id := nextMarkerId;
      markers := markers + [Marker(id, stylingString, point, icon, polyline, true)];
      nextMarkerId := nextMarkerId + 1;
    }

    /** `markerRemove(marker)` */
    method MarkerRemove(id: MarkerId)
      requires Valid()
      modifies this`markers
      ensures Valid()
      ensures markers == WithoutIds(old(markers), {id})
    {
      WithoutIdsValid(markers, {id}, nextMarkerId);
      markers := WithoutIds(markers, {id});
    }

    /** `marker.visible = v` on the marker at position `i`. */
    method SetVisibleAt(i: nat, v: bool)
      requires Valid() && i < |markers|
      modifies this`markers
      ensures Valid()
      ensures markers == old(markers)[i := old(markers)[i].(visible := v)]
    {
      markers := markers[i := markers[i].(visible := v)];
    }

    /** `marker.point = p` on the marker with this identity, if it is on the map. */
    method SetMarkerPoint(id: MarkerId, p: Coordinate)
      requires Valid()
      modifies this`markers
      ensures Valid()
      ensures markers == MoveMarker(old(markers), id, p)
    {
      markers := MoveMarker(markers, id, p);
    }

    /**
     * `loadScene(from:with:)`: the new scene starts with no markers and with
     * the zoom the scene sets.
     */
    method LoadScene(tile: Option<CustomTile>, sceneZoom: real)
      requires Valid()
      modifies this`markers, this`sceneTile, this`zoom
      ensures Valid()
      ensures markers == [] && sceneTile == tile && zoom == sceneZoom
    {
      markers := [];
      sceneTile := tile;
      zoom := sceneZoom;
    }

    /** `updateOrResetScene`: reload the scene, re-add every marker in order, restore the zoom. */
    method UpdateOrResetScene(customTile: Option<CustomTile>, sceneZoom: real)
      requires Valid()
      modifies this`markers, this`nextMarkerId, this`sceneTile, this`zoom
      ensures Valid()
      ensures sceneTile == customTile && zoom == old(zoom)
      ensures markers == Reloaded(old(markers), old(nextMarkerId))
      ensures nextMarkerId == old(nextMarkerId) + |old(markers)|
    {
      var saved := markers;
      var zoomLevel := zoom;
      var firstId := nextMarkerId;
      LoadScene(customTile, sceneZoom);
      for i := 0 to |saved|
        invariant Valid()
        invariant sceneTile == customTile
        invariant nextMarkerId == firstId + i
        invariant markers == Reloaded(saved[..i], firstId)
      {
        var oldMarker := saved[i];
        var polyline := if IsLinesStyle(oldMarker.stylingString) then oldMarker.polyline else None;
        var id := MarkerAdd(oldMarker.stylingString, oldMarker.point, oldMarker.icon, polyline);
        assert Reloaded(saved[..i + 1], firstId) == Reloaded(saved[..i], firstId) + [ReAdded(oldMarker, id)];
      }
      assert saved[..|saved|] == saved;
      zoom := zoomLevel;
    }

    /** The step rule's target zoom, when the camera flies there. */
    method FlyToZoom(level: real)
      modifies this`zoom
      ensures zoom == level
    {
      zoom := level;
    }
  }
}
