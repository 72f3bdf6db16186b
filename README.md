# osm_flutter iOS map view: a Dafny model

This project models the iOS side of the `flutter_osm_plugin` map view.
`MyMapView` receives method-channel calls from Dart and drives a TangramMap
view (`TGMapView`). `GeoPointMap` and its subclasses describe the markers the
view places. The model covers the decision logic inside that glue:

- **Markers** (`geo_point_map.dfy`, module `GeoMarkers`). A `GeoPointMap`, a
  `MyLocationMarker` or a `StaticGeoPMarker` is built as a value. The model
  gives the default 'points' styling string, the sprite-or-icon decision table
  of the user-location marker, and the interactive style of static markers.
  Swift's `\(Int)` and `\(Bool)` interpolation is written out in `text.dfy`
  (module `Text`), together with a parser that proves the printed angle and
  size can be read back.
- **Roads** (`roads.dfy`, module `Roads`):
  - how the `road`, `draw#multi#road` and `drawRoad#manually` handlers turn a
    request into a travel mode, a waypoint list and a road style;
  - how the routing results become a reply.
  The routing backend's answers are inputs.
- **The map view** (`map_surface.dfy`, module `MapSurface`). This is the
  `TGMapView` state the plugin touches: the marker list, the zoom and its
  limits, the scene's custom tile and the gesture delegate. It includes the
  `updateOrResetScene` extension, which reloads the scene and re-adds every
  marker.
- **The handlers** (`my_map_view.dfy`, module `MapViewHandlers`). Class
  `MyMapView` holds the plugin's fields and has one method per handler:
  - custom tiles and the zoom step rule;
  - the advanced picker;
  - marker removal, static marker clusters and `get#geopoints`;
  - the user-location flags driven by CoreLocation updates.

A `TGMarker` is modelled as a value with an identity (`MarkerId`). The view's
marker list is a sequence that the methods reassign. The class invariant
`MyMapView.Valid` says:

- the identities are distinct;
- gestures reach the view exactly when the picker is off;
- the image view `pickerMarker` names is shown only while the picker is on.
  An image replaced by `advancedPicker#marker#icon` while it is shown stays on
  the map for good; `strayPickerImages` counts these views;
- a pending `user#position` always has a reply to send;
- the user-location marker, once created, has been placed.

## Model

Source paths are relative to the plugin repository root.

| member | source | states |
|---|---|---|
| Text.NatToStringRoundTrip | git-packages/osm_flutter/ios/Classes/GeoPointMap.swift:41 | the decimal digits Swift prints for a non-negative Int parse back to that number |
| Text.IntToStringRoundTrip | git-packages/osm_flutter/ios/Classes/GeoPointMap.swift:80-83 | the text interpolated for any Int (sign included) parses back to it |
| Text.IntToStringInjective | git-packages/osm_flutter/ios/Classes/GeoPointMap.swift:41 | different angles or sizes give different interpolated text |
| GeoMarkers.DefaultStyleDescribesMarker | git-packages/osm_flutter/ios/Classes/GeoPointMap.swift:41 | the default style is a 'points' style and contains the interactive flag, the icon's first and last size (48 when missing) and the angle |
| GeoMarkers.DefaultStyle | git-packages/osm_flutter/ios/Classes/GeoPointMap.swift:41 | the default style starts with the 'points' head; what else it carries is stated by `DefaultStyleDescribesMarker` and `DefaultStyleDeterminesAngle` |
| GeoMarkers.DefaultStyleDeterminesAngle | git-packages/osm_flutter/ios/Classes/GeoPointMap.swift:41 | for a given interactive flag and icon, two default styles are equal only when their angles are, so the style identifies the angle |
| GeoMarkers.NewGeoPointMap | git-packages/osm_flutter/ios/Classes/GeoPointMap.swift:28-42 | the coordinate, icon and interactive flag are stored as given; an explicit style is kept verbatim, otherwise the default style is used; the marker starts unplaced |
| GeoMarkers.LocationIsGivenCoordinate | git-packages/osm_flutter/ios/Classes/GeoPointMap.swift:37-46 | `location` reports exactly the latitude and longitude given to the initialiser |
| GeoMarkers.NewMyLocationMarker | git-packages/osm_flutter/ios/Classes/GeoPointMap.swift:64-95 | the location marker keeps its coordinate, both optional icons, its type and its angle, and is interactive |
| GeoMarkers.BothIconsUseSprite | git-packages/osm_flutter/ios/Classes/GeoPointMap.swift:77-85 | with both icons present the icon is empty and the style is exactly `{ ` + the sprite style of the marker's type + ` , angle: ` + the angle + ` } ` (two spaces before the brace for the arrow) |
| GeoMarkers.LocationSpriteStyle | git-packages/osm_flutter/ios/Classes/GeoPointMap.swift:80-83 | the sprite style starts with `{ ` and the sprite of the marker's type; `LocationSpriteStyleDeterminesAngle` shows it identifies the angle |
| GeoMarkers.LocationSpriteStyleDeterminesAngle | git-packages/osm_flutter/ios/Classes/GeoPointMap.swift:80-83 | two sprite styles of the same marker type are equal only when their angles are, so the style identifies the angle |
| GeoMarkers.OneIconUsesDefaultStyle | git-packages/osm_flutter/ios/Classes/GeoPointMap.swift:86-93 | with at most one icon, a person marker takes the arrow icon and an arrow marker the person icon (else empty); the style is the default 'points' style |
| GeoMarkers.NewStaticGeoPMarker | git-packages/osm_flutter/ios/Classes/GeoPointMap.swift:103-111 | a static marker is always interactive, keeps its angle, and its 'points' style carries `interactive: true` and that angle |
| Roads.ToRoadType | git-packages/osm_flutter/ios/Classes/MyMapView.swift:757-771 | "bike" gives bike, "foot" gives foot, every other string (including "car") gives car |
| Roads.InsertAfterFirst | git-packages/osm_flutter/ios/Classes/MyMapView.swift:775-778 | splicing keeps the first point, puts the middle points right after it and the remaining points after them, and the length grows by the number of middle points |
| Roads.RoadWaypoints | git-packages/osm_flutter/ios/Classes/MyMapView.swift:775-778 | drawRoad splices the middle points after the first waypoint whenever the key is present, even for an empty list, and keeps the waypoints otherwise |
| Roads.BatchWaypoints | git-packages/osm_flutter/ios/Classes/MyMapView.swift:726-729 | drawMultiRoad splices only a present, non-empty middle list after the first waypoint, and keeps the waypoints otherwise |
| Roads.BatchAndSingleSpliceAgree | git-packages/osm_flutter/ios/Classes/MyMapView.swift:726-729 | the batch rule (splice only a non-empty list) and the single-road rule (splice whenever given) give the same waypoints |
| Roads.SingleFetch | git-packages/osm_flutter/ios/Classes/MyMapView.swift:756-803 | the routing call of `road` uses the mapped travel mode and `[p0] ++ middle ++ rest` when middle points are given |
| Roads.RoadStyle | git-packages/osm_flutter/ios/Classes/MyMapView.swift:779-794 | a missing colour becomes `colorRoad`, a missing border colour the resolved colour, a missing width "5px" and a missing border width "0px"; given values are used as is |
| Roads.BorderColorFollowsRoadColor | git-packages/osm_flutter/ios/Classes/MyMapView.swift:783-786 | with no border colour the border takes the request's colour, not `colorRoad` |
| Roads.BatchRoadData | git-packages/osm_flutter/ios/Classes/MyMapView.swift:708-718 | a batch entry's style has colour and width only |
| Roads.BatchStyleAgreesWithSingle | git-packages/osm_flutter/ios/Classes/MyMapView.swift:708-718 | a batch entry gets the same colour and width a single road request would get |
| Roads.ManualRoadData | git-packages/osm_flutter/ios/Classes/MyMapView.swift:828-840 | a manual road falls back to "#ff0000" and "5px" |
| Roads.ManualDefaultMatchesColorRoad | git-packages/osm_flutter/ios/Classes/MyMapView.swift:828-835 | with `colorRoad` at its value "#ff0000", a manual road without a colour gets the same colour as a routed one |
| Roads.DrawRoadManually | git-packages/osm_flutter/ios/Classes/MyMapView.swift:824-849 | the encoded route is drawn as given under the request key with the manual style; the camera is fitted to the decoded route's bounds exactly when `zoomIntoRegion` is set, and not otherwise |
| Roads.ConfigOf | git-packages/osm_flutter/ios/Classes/MyMapView.swift:716-719 | one batch entry's configuration: its waypoints, middle points, batch style and travel mode |
| Roads.BuildRoadConfigs | git-packages/osm_flutter/ios/Classes/MyMapView.swift:705-721 | one keyed configuration per request, in request order |
| Roads.FetchRequests | git-packages/osm_flutter/ios/Classes/MyMapView.swift:725-735 | one routing call per configuration, in order, with the batch splice rule |
| Roads.InfoOf | git-packages/osm_flutter/ios/Classes/MyMapView.swift:744 | a road's information carries its distance, duration and encoded route |
| Roads.AggregateAsWritten | git-packages/osm_flutter/ios/Classes/MyMapView.swift:737-749 | both output lists have one entry per result; entry i is nil exactly when result i has no road; otherwise it holds that road's information, and the road is drawn under the key the result came with, with the style of the configuration at the same position i |
| Roads.AggregateResults | git-packages/osm_flutter/ios/Classes/MyMapView.swift:736-749 | the completion loop builds exactly `AggregateAsWritten` |
| Roads.AggregateBySlot | git-packages/osm_flutter/ios/Classes/MyMapView.swift:723-749 | the intended aggregation: slot i holds request i's road under request i's key and style |
| Roads.InOrderCompletionIsCorrect | git-packages/osm_flutter/ios/Classes/MyMapView.swift:732-744 | when routes complete in request order, the code as written equals the intended aggregation |
| Roads.OutOfOrderCompletionSwapsStyles | git-packages/osm_flutter/ios/Classes/MyMapView.swift:732-743 | two requests whose routes complete in reverse order: road "b" is handed over with request "a"'s style |
| Roads.SomesMembers | git-packages/osm_flutter/ios/Classes/MyMapView.swift:285-298 | `filter { $0 != nil }` keeps exactly the non-nil values |
| Roads.SomesAppend | git-packages/osm_flutter/ios/Classes/MyMapView.swift:285-298 | the nil filter distributes over concatenation |
| Roads.SomesEmpty | git-packages/osm_flutter/ios/Classes/MyMapView.swift:285-298 | the nil filter is empty exactly when every entry is nil |
| Roads.Somes | git-packages/osm_flutter/ios/Classes/MyMapView.swift:285-300 | the nil filter is never longer than its input; `SomesMembers`, `SomesAppend` and `SomesEmpty` state what it keeps and in which order |
| Roads.MultiRoadResult | git-packages/osm_flutter/ios/Classes/MyMapView.swift:281-302 | the reply is the "400" error exactly when both lists are empty; otherwise it returns the non-nil information and draws the non-nil roads, each in list order |
| Roads.BatchReply | git-packages/osm_flutter/ios/Classes/MyMapView.swift:281-302 | the 400 error happens exactly for an empty batch; an all-failed non-empty batch succeeds with no information; the information returned is that of the routes found |
| Roads.DrawRoadCallback | git-packages/osm_flutter/ios/Classes/MyMapView.swift:803-820 | the intended callback: it fails exactly when there is no road; otherwise it reports the road's information and the resolved style, and, when zooming was asked for, exactly the decoded route's bounds (none otherwise) |
| Roads.DrawRoadCallbackAsWritten | git-packages/osm_flutter/ios/Classes/MyMapView.swift:803-820 | the callback as written delivers exactly one completion, which is the failure exactly when there is no road, and traps exactly when there is no road |
| Roads.NoRouteTrapsAfterError | git-packages/osm_flutter/ios/Classes/MyMapView.swift:805-810 | with no route, the callback as written reports the error and then traps on the force-unwrap |
| Roads.CallbackAgreesUntilTrap | git-packages/osm_flutter/ios/Classes/MyMapView.swift:803-820 | the callback as written first delivers what the intended one delivers, and traps exactly when there is no road |
| Roads.RoadResult | git-packages/osm_flutter/ios/Classes/MyMapView.swift:262-279 | the `road` reply is the "400" error exactly for a failed completion; otherwise it is the road's information, drawn under the request key with the completion's style and bounds |
| Roads.SingleRoadReply | git-packages/osm_flutter/ios/Classes/MyMapView.swift:262-279 | a `road` request fails exactly when no route is found; a found route is reported and drawn under its key with the resolved style, and the camera is fitted to the decoded route's bounds exactly when zooming was asked for |
| MapSurface.WithoutIds | git-packages/osm_flutter/ios/Classes/MyMapView.swift:499-519 | removing markers by identity never lengthens the list; `WithoutIdsMembers` states which markers remain |
| MapSurface.AtPoints | git-packages/osm_flutter/ios/Classes/MyMapView.swift:499-519 | the `filter` on points never lengthens the list; `WithoutPointsExact` states which markers it selects |
| MapSurface.WithoutPoints | git-packages/osm_flutter/ios/Classes/MyMapView.swift:499-519 | the markers at other points never outnumber the list; `WithoutPointsExact` states which markers remain |
| MapSurface.WithoutIdsMembers | git-packages/osm_flutter/ios/Classes/MyMapView.swift:504-506 | after `markerRemove` of a set of identities, a marker remains exactly when it was there and its identity is not in the set |
| MapSurface.WithoutIdsValid | git-packages/osm_flutter/ios/Classes/MyMapView.swift:504-506 | removing markers keeps identities distinct and allocated |
| MapSurface.WithoutIdsTwice | git-packages/osm_flutter/ios/Classes/MyMapView.swift:499-519 | removing markers one after another equals removing them all at once |
| MapSurface.RemovingSelectedMarkers | git-packages/osm_flutter/ios/Classes/MyMapView.swift:499-519 | with distinct identities, removing every marker the point filter selects leaves exactly the markers at other points, in order |
| MapSurface.WithoutPointsExact | git-packages/osm_flutter/ios/Classes/MyMapView.swift:499-519 | the markers kept are exactly those not at the given points, the markers selected are exactly those at them, and together they account for every marker |
| MapSurface.UserGeoPoints | git-packages/osm_flutter/ios/Classes/MyMapView.swift:377-391 | `get#geopoints` reports at most one point per marker; `UserGeoPointsMembers` states which points |
| MapSurface.UserGeoPointsMembers | git-packages/osm_flutter/ios/Classes/MyMapView.swift:377-391 | a point is reported exactly when some 'points'-styled marker is there and it is not a static cluster point |
| MapSurface.UserGeoPointsIgnoreVisibility | git-packages/osm_flutter/ios/Classes/MyMapView.swift:377-391 | hiding or showing the markers (advanced picker) does not change what `get#geopoints` reports |
| MapSurface.UserGeoPointsSurviveReload | git-packages/osm_flutter/ios/Classes/MyMapView.swift:1063-1086 | a tile change re-adds the markers so that `get#geopoints` reports the same points |
| MapSurface.MapView.MarkerAdd | git-packages/osm_flutter/ios/Classes/MyMapView.swift:1077-1083 | a new marker gets a fresh identity and is appended; nothing else changes |
| MapSurface.MapView.MarkerRemove | git-packages/osm_flutter/ios/Classes/MyMapView.swift:504-506 | removes exactly the marker with that identity |
| MapSurface.MapView.SetMarkerPoint | git-packages/osm_flutter/ios/Classes/MyMapView.swift:881 | `marker.point = location` moves the marker with that identity and leaves every other marker as it was |
| MapSurface.MapView.LoadScene | git-packages/osm_flutter/ios/Classes/MyMapView.swift:1075 | the new scene has no markers, uses the given tile and starts at the scene's zoom |
| MapSurface.ReAdded | git-packages/osm_flutter/ios/Classes/MyMapView.swift:1076-1084 | a re-added marker gets the new identity and is visible, keeps the style, point and icon, keeps its polyline when its style is a 'lines' style and has none otherwise |
| MapSurface.Reloaded | git-packages/osm_flutter/ios/Classes/MyMapView.swift:1063-1086 | the reloaded list has one re-added marker per old marker, in order, with consecutive identities from the first new one |
| MapSurface.StaleIdentityAfterReload | git-packages/osm_flutter/ios/Classes/MyMapView.swift:1076-1083 | after a tile change every marker has a new identity, so an identity stored before it (the home marker, the user-location marker, a static cluster) names no marker: moving or removing under it changes nothing. Location updates then no longer move the user marker, and `DeactivateTrackMe`, a confirmed selection or a new cluster leave the old marker on the map |
| MapSurface.MapView.UpdateOrResetScene | git-packages/osm_flutter/ios/Classes/MyMapView.swift:1063-1086 | the scene gets the new tile; every marker is re-added in order with a fresh identity, its style, point and icon, and its polyline only for a 'lines' style; the zoom is restored |
| MapViewHandlers.EffectiveStep | git-packages/osm_flutter/ios/Classes/MyMapView.swift:216-227 | a step argument of 0 uses the stored step, -1 uses its negation, any other value is used as is |
| MapViewHandlers.GuardedZoom | git-packages/osm_flutter/ios/Classes/MyMapView.swift:539-546 | a step whose target is inside `[minimumZoomLevel, maximumZoomLevel]` is applied; any other step leaves the zoom as it was |
| MapViewHandlers.GuardedZoomStaysInRange | git-packages/osm_flutter/ios/Classes/MyMapView.swift:539-546 | a guarded step keeps a zoom that is within the limits within them |
| MapViewHandlers.ZoomInOutCancel | git-packages/osm_flutter/ios/Classes/MyMapView.swift:214-233 | `Zoom` in (argument 0) and then out (argument -1) returns to the starting level whenever the zoom-in is allowed by the range guard |
| MapViewHandlers.ZoomInOutAtMaximumDrifts | git-packages/osm_flutter/ios/Classes/MyMapView.swift:214-233 | at the maximum the zoom-in is refused but the zoom-out is applied: from 20 with limits 2 and 20 and step 1, in-then-out ends at 19 |
| MapViewHandlers.ChangeTileStep | git-packages/osm_flutter/ios/Classes/MyMapView.swift:138-149 | no tile with a remembered tile resets the scene and forgets the tile; a tile with no remembered tile or a different URL reloads with it and remembers it; the same URL changes nothing |
| MapViewHandlers.ChangeTileSettles | git-packages/osm_flutter/ios/Classes/MyMapView.swift:138-149 | repeating a `change#tile` call reloads nothing and changes nothing |
| MapViewHandlers.StaticClusterStyle | git-packages/osm_flutter/ios/Classes/MyMapView.swift:612-621 | every marker of a static cluster is an interactive 'points' marker carrying its own angle (0 when none is given) |
| MapViewHandlers.StaticCluster | git-packages/osm_flutter/ios/Classes/MyMapView.swift:612-621 | a cluster has one marker per point, with that point's coordinate and angle, interactive, placed with consecutive identities |
| MapViewHandlers.PlacedStatic | git-packages/osm_flutter/ios/Classes/MyMapView.swift:612-621 | one static marker keeps its point's coordinate and angle (0 when none), is interactive and is placed under the given identity |
| MapViewHandlers.MyMapView.constructor | git-packages/osm_flutter/ios/Classes/MyMapView.swift:60-99 | the view starts with no markers, the given zoom limits and custom tile, no remembered tile, `colorRoad` "#ff0000", step 1 and initial zoom 10, gestures on, picker and location tracking off, no clusters |
| MapViewHandlers.MyMapView.InitIosMap | git-packages/osm_flutter/ios/Classes/MyMapView.swift:104-134 | the scene is loaded with the view's custom tile; the tile is remembered only when none was remembered |
| MapViewHandlers.MyMapView.ChangeTile | git-packages/osm_flutter/ios/Classes/MyMapView.swift:136-151 | follows `ChangeTileStep`; a reload re-adds the markers and keeps the zoom; the remembered tile stays the one the scene uses |
| MapViewHandlers.MyMapView.ZoomMap | git-packages/osm_flutter/ios/Classes/MyMapView.swift:539-553 | a step leaving `[minimumZoomLevel, maximumZoomLevel]` leaves the zoom unchanged; an allowed step or a level is applied; stepping keeps the zoom in range |
| MapViewHandlers.MyMapView.Zoom | git-packages/osm_flutter/ios/Classes/MyMapView.swift:214-236 | the `Zoom` handler applies `EffectiveStep` under the range guard, or the given level |
| MapViewHandlers.MyMapView.ConfigZoom | git-packages/osm_flutter/ios/Classes/MyMapView.swift:1028-1034 | sets the stored step, the initial zoom and the zoom limits |
| MapViewHandlers.MyMapView.ChangeStepZoom | git-packages/osm_flutter/ios/Classes/MyMapView.swift:240-243 | `change#stepZoom` stores the given step |
| MapViewHandlers.MyMapView.SetMarkerIcon | git-packages/osm_flutter/ios/Classes/MyMapView.swift:248-253 | `marker#icon` stores the given icon as the default marker icon |
| MapViewHandlers.MyMapView.SetCustomIconMarker | git-packages/osm_flutter/ios/Classes/MyMapView.swift:566-573 | `pickerMarker` names a new image view that is not shown; if the old one was shown, it stays on the map as one more stray image, which no later call removes |
| MapViewHandlers.MyMapView.SetUserLocationMarker | git-packages/osm_flutter/ios/Classes/MyMapView.swift:575-587 | each icon given replaces the stored one; a missing one keeps it |
| MapViewHandlers.MyMapView.SetMarkerStaticGeoPIcon | git-packages/osm_flutter/ios/Classes/MyMapView.swift:590-596 | the icon of cluster `id` is set to the given icon; the icons of other clusters are kept |
| MapViewHandlers.MyMapView.SetupMarker | git-packages/osm_flutter/ios/Classes/MyMapView.swift:665-669 | a marker description is placed on the map as one new visible marker under the next identity, and the description records that identity |
| MapViewHandlers.MyMapView.SetMarkersVisible | git-packages/osm_flutter/ios/Classes/MyMapView.swift:628-701 | the loops of the picker methods set the visibility of every marker and changes nothing else |
| MapViewHandlers.MyMapView.DeactivateTrackMe | git-packages/osm_flutter/ios/Classes/MyMapView.swift:555-564 | tracking stops, the marker under the stored user-location identity leaves the map, and the user location is forgotten |
| MapViewHandlers.MyMapView.StartAdvancedPicker | git-packages/osm_flutter/ios/Classes/MyMapView.swift:628-651 | acts and replies only when the picker is off: every marker is hidden, tracking stops, gestures are taken from the view, the picker is shown |
| MapViewHandlers.MyMapView.CancelAdvancedPickerMarker | git-packages/osm_flutter/ios/Classes/MyMapView.swift:676-701 | acts only when the picker is on: every marker is shown, gestures come back, `cacheMarkers` is emptied, the picker is off |
| MapViewHandlers.MyMapView.GetCenterSelection | git-packages/osm_flutter/ios/Classes/MyMapView.swift:653-674 | replies with the centre only while picking; confirming removes the marker under the stored home identity, places a new home marker at the centre and leaves the picker with every marker shown |
| MapViewHandlers.MyMapView.RemoveMarkers | git-packages/osm_flutter/ios/Classes/MyMapView.swift:499-519 | the `forEach` removal loop removes exactly the given identities |
| MapViewHandlers.MyMapView.RemoveMarkerFromMap | git-packages/osm_flutter/ios/Classes/MyMapView.swift:499-507 | exactly the markers at the point are removed; all others remain, in order |
| MapViewHandlers.MyMapView.DeleteMarkers | git-packages/osm_flutter/ios/Classes/MyMapView.swift:509-519 | exactly the markers at one of the points are removed; all others remain, in order |
| MapViewHandlers.MyMapView.SetStaticGeoPoint | git-packages/osm_flutter/ios/Classes/MyMapView.swift:599-626 | the markers under the cluster's stored identities leave the map; the new cluster (one marker per point, with the cluster's icon) is placed and stored under its id; no point of it is reported by `get#geopoints` |
| MapViewHandlers.MyMapView.RemoveClusterMarkers | git-packages/osm_flutter/ios/Classes/MyMapView.swift:603-610 | the loop over the previous cluster removes exactly the placed markers of that cluster |
| MapViewHandlers.MyMapView.AddStaticGeo | git-packages/osm_flutter/ios/Classes/MyMapView.swift:612-621 | one point becomes a static marker placed under the next identity |
| MapViewHandlers.MyMapView.AddStaticGeos | git-packages/osm_flutter/ios/Classes/MyMapView.swift:612-621 | the mapping loop places one static marker per point, in order, with consecutive identities, and returns exactly that cluster |
| MapViewHandlers.MyMapView.GetGeoPoints | git-packages/osm_flutter/ios/Classes/MyMapView.swift:377-391 | reports exactly the points of 'points'-styled markers that are not in any static cluster |
| MapViewHandlers.MyMapView.CurrentUserLocation | git-packages/osm_flutter/ios/Classes/MyMapView.swift:521-526 | `currentLocation` asks for one location: the one-shot flag is set |
| MapViewHandlers.MyMapView.TrackMe | git-packages/osm_flutter/ios/Classes/MyMapView.swift:184-188 | tracking starts; the stop-follow-on-drag flag is the argument, false when missing |
| MapViewHandlers.MyMapView.RequestUserPosition | git-packages/osm_flutter/ios/Classes/MyMapView.swift:189-194 | a position request waits for the next location update with its reply kept |
| MapViewHandlers.MyMapView.FollowFlightEnded | git-packages/osm_flutter/ios/Classes/MyMapView.swift:892-897 | after the flight to the user, following may be skipped from then on only when stop-on-drag is enabled |
| MapViewHandlers.MyMapView.TrackUserMarker | git-packages/osm_flutter/ios/Classes/MyMapView.swift:873-880 | while tracking, the user marker is created and placed under the next identity when there is none yet, then the marker under the stored identity is moved to the location |
| MapViewHandlers.MyMapView.FollowLastLocation | git-packages/osm_flutter/ios/Classes/MyMapView.swift:871-897 | the last location clears the one-shot flag, is sent to Dart exactly when tracking, and is flown to exactly when following is not stopped |
| MapViewHandlers.MyMapView.DidUpdateLocations | git-packages/osm_flutter/ios/Classes/MyMapView.swift:868-912 | if a one-shot location or tracking is requested, the last location clears the one-shot flag; when tracking it moves (or first creates) the user marker and is sent to Dart; the camera follows unless following is stopped. Otherwise a pending position request is answered, with nil when there is no location, and cleared only when a location arrived |

## Left out

- Method-channel plumbing: handler dispatch and the `FlutterResult`/`FlutterError` delivery are not modelled. A handler's reply is returned as a value.
- TangramMap rendering, scene loading over the network, projection (`coordinate(fromViewPosition:)`), `cameraThatFitsBounds`, marker picking and gestures are not modelled. The centre coordinate, a scene's zoom and a decoded route's bounds are parameters.
- MapSurface.MapView.LoadScene: the model assumes that loading a scene drops every marker. The re-add loop of `updateOrResetScene` relies on this.
- MapViewHandlers.MyMapView.ZoomMap: camera flights (`fly`, duration 0.2 s) are treated as completing at once. The bearing, pitch and centre of the camera are not modelled.
- Zoom levels are reals. The `CGFloat` conversions are not modelled.
- RoadManager (`getRoad`, `drawRoadOnMap`, `removeLastRoad`, `removeRoadByKey`, `clearRoads`) is not part of this model. Routing results are inputs, and drawing is the `RoadToDraw` value handed over.
- The `toRoadType` extension used by `draw#multi#road` is not part of this model. It is assumed to map names like drawRoad's switch (`Roads.ToRoadType`).
- The declarations of `RoadData`, `Road`, `RoadConfig`, `RoadInformation`, `MarkerIconData` and `CustomTiles` are not part of this model. Fields filled by the two-argument `RoadData` initialiser are `None`. A `Road()` built by `drawRoad#manually` has distance and duration 0.
- `setupMarker`, `addStaticGeosToMapView`, `addUserLocation` and `removeUserLocation` are not part of this model.
  - Each of the first three is modelled as one `markerAdd` carrying the description's style, point and icon.
  - `removeUserLocation` is modelled as `markerRemove`.
- Encoded-polyline decoding and `toBounds` are left out (a third-party library). The bounds are a parameter.
- `DispatchGroup` concurrency is left out. The batch is aggregated over a given sequence of results in completion order.
- CoreLocation permission handling (`checkLocationPermission`, authorisation callbacks), `requestLocation` and `startUpdatingLocation` are left out. The request closure runs at once, and location updates are the input of `DidUpdateLocations`.
- MapViewHandlers.MyMapView.DidUpdateLocations: the heading-based `rotateMarker` call is not modelled, because the heading and `toDegrees` conversion are platform values. A newly created user-location marker uses the person type and angle 0.
- Image decoding (`convertImage`, base64) is left out. An icon is an opaque image handle.
- The `"%F,%F"` waypoint formatting and the `toDegrees` angle conversion are left out (floating-point formatting). Waypoints stay coordinates, and static angles arrive in degrees.
- Two hide-before-remove steps are not modelled, because each marker leaves the map right after, so the flag has no effect:
  - `homeMarker?.visible = false` in `getCenterSelection`;
  - `staticMarkers.marker?.visible = false` on each marker of the previous cluster in `setStaticGeoPoint`.
- MapSurface.MapView.MarkerAdd: a TGMarker returned by `markerAdd()` is assumed to be visible. The SDK's default is not part of this model. `MapSurface.ReAdded` relies on the same assumption for re-added markers.
- Handlers outside the modelled core are not part of this model:
  - `initMap`, which moves the camera to the given point at `initZoom` with no range guard;
  - `setDefaultIOSIcon`, `get#Zoom`, `map#center`, `map#bounds`, `limitArea`, `remove#limitArea`;
  - `changePosition`, `goto#position`, `add#Marker`, `update#Marker`, `change#Marker`, `map#orientation`, `zoomToRegion`, `user#pickPosition`;
  - the tap and pick delegates, and the road deletion handlers `delete#road` and `clear#roads`.
- A batch in which every route failed does not fail with the 400 error. The handler checks only whether both lists are empty, and that happens only for an empty batch. The model follows the code (`Roads.BatchReply`).

- MapViewHandlers.MyMapView.StartAdvancedPicker: requires a picker image when the picker starts, because `mainView.addSubview(pickerMarker!)` (MyMapView.swift line 648) traps without one. The trap itself is not modelled.
- MapViewHandlers.MyMapView.GetCenterSelection: requires a marker icon when a selection is confirmed, because `markerIcon!` (line 667) traps without one. The trap itself is not modelled.
- MapViewHandlers.MyMapView.SetStaticGeoPoint: requires an icon for cluster `id` when points are given, because `dictIconClusterAnnotation[id]!` (line 617) traps without one. The trap itself is not modelled.
- Roads.InsertAfterFirst: requires at least one waypoint, because `insert(contentsOf:at: 1)` (lines 728 and 777) traps on an empty array. The trap itself is not modelled.
- Roads.RoadWaypoints: requires at least one waypoint when middle points are given, for the same trap at line 777.
- Roads.BatchWaypoints: requires at least one waypoint when non-empty middle points are given, for the same trap at line 728.
- Roads.FetchRequests: requires, for every configuration, at least one waypoint when non-empty middle points are given, for the same trap at line 728. `Roads.ConfigWaypoints` carries the same requirement.
- Roads.SingleFetch: requires at least one waypoint when middle points are given, for the same trap at line 777.
- Roads.DrawRoadManually: takes the decoded route's bounds as a value, because `route.coordinates!` (line 846) traps on a route that does not decode when `zoomIntoRegion` is set. The trap itself is not modelled.

## Findings

| source | as written | input that shows it | evidently intended | confidence | as-written member | corrected member |
|---|---|---|---|---|---|---|
| git-packages/osm_flutter/ios/Classes/MyMapView.swift:805-810 | when the routing backend returns no road, the callback reports the error but does not return, and the next line force-unwraps the nil road | any `road` request for which no route is found | return right after reporting the error | high (not executed) | Roads.NoRouteTrapsAfterError | Roads.DrawRoadCallback |
| git-packages/osm_flutter/ios/Classes/MyMapView.swift:732-743 | results are appended in completion order but paired with `roadConfigs[index]` in request order, so a road can be drawn with another request's style | requests "a" (red) and "b" (blue) whose routes complete b first: road "b" gets a's red style | pair each result with its own request's configuration | high (not executed) | Roads.OutOfOrderCompletionSwapsStyles | Roads.AggregateBySlot |
