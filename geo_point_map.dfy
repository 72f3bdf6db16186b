/**
 * The marker descriptions of GeoPointMap.swift: a plain geo point marker, the
 * user-location marker and the static-cluster marker. Each initialiser only
 * computes a style string and an icon from its arguments, so each is a
 * function returning a value; the `marker` handle is filled in later, when
 * the description is placed on the map.
 */
module GeoMarkers {
  import opened Optional
  import opened Text

  /** CLLocationCoordinate2D: latitude and longitude in degrees. */
  datatype Coordinate = Coordinate(latitude: real, longitude: real)

  /** A decoded UIImage, by identity; decoding is not modelled. */
  datatype Image = Image(handle: nat)

  /** Identity of a TGMarker placed on the map. */
  type MarkerId = nat

  /** An icon image (absent for `MarkerIconData(image: nil)`) and its size list. */
  datatype MarkerIconData = MarkerIconData(image: Option<Image>, size: seq<int>)

  /** `MarkerIconData(image: nil)`: no image, no size entries. */
  const EmptyIcon := MarkerIconData(None, [])

  /** The side length used when the icon gives no size. */
  const DefaultIconSide := 48

  /** `icon.size.first ?? 48` */
  function IconWidth(icon: MarkerIconData): int {
    if |icon.size| > 0 then icon.size[0] else DefaultIconSide
  }

  /** `icon.size.last ?? 48` */
  function IconHeight(icon: MarkerIconData): int {
    if |icon.size| > 0 then icon.size[|icon.size| - 1] else DefaultIconSide
  }

  /** The map view tells point markers from line markers by these words in the styling string. */
  predicate IsPointsStyle(styling: string) {
    Contains(styling, "points")
  }

  predicate IsLinesStyle(styling: string) {
    Contains(styling, "lines")
  }

  /** The fields of the default style that depend on the marker. */
  function InteractiveField(interactive: bool): string {
    "interactive: " + BoolText(interactive) + ","
  }

  function SizeField(icon: MarkerIconData): string {
    "size: [" + IntToString(IconWidth(icon)) + "px," + IntToString(IconHeight(icon)) + "px]"
  }

  function AngleField(angle: int): string {
    "angle : " + IntToString(angle) + " }"
  }

  const DefaultStyleHead := " { style: 'points', "
  const DefaultStyleMid1 := " color: 'white',"
  const DefaultStyleMid2 := ", order: 1000, collide: false , "
  const DefaultStyleEnd := " "

  /** The style a GeoPointMap gets when no `styleMarker` is given. */
  function DefaultStyle(interactive: bool, icon: MarkerIconData, angle: int): (s: string)
    ensures DefaultStyleHead <= s
  {
    DefaultStyleHead + InteractiveField(interactive) + DefaultStyleMid1
    + SizeField(icon) + DefaultStyleMid2 + AngleField(angle) + DefaultStyleEnd
  }

  /** The fixed head of the default style names the 'points' style. */
  lemma DefaultStyleHeadIsPoints()
    ensures Contains(DefaultStyleHead, "points")
  {
    assert OccursAt(DefaultStyleHead, "points", 11);
  }

  /**
   * The default style is a 'points' style and carries the interactive flag,
   * the icon's first and last size entries (48 when absent) and the angle.
   */
  lemma DefaultStyleDescribesMarker(interactive: bool, icon: MarkerIconData, angle: int)
    ensures IsPointsStyle(DefaultStyle(interactive, icon, angle))
    ensures Contains(DefaultStyle(interactive, icon, angle), InteractiveField(interactive))
    ensures Contains(DefaultStyle(interactive, icon, angle), SizeField(icon))
    ensures Contains(DefaultStyle(interactive, icon, angle), AngleField(angle))
  {
    var f1, f3, f5 := InteractiveField(interactive), SizeField(icon), AngleField(angle);
    DefaultStyleHeadIsPoints();
    ContainsFromFirstPiece(DefaultStyleHead, f1, DefaultStyleMid1, f3, DefaultStyleMid2, f5, DefaultStyleEnd, "points");
    ContainsAlternatePieces(DefaultStyleHead, f1, DefaultStyleMid1, f3, DefaultStyleMid2, f5, DefaultStyleEnd);
  }

  /** For a given flag and icon, the default style determines the angle written into it. */
  lemma DefaultStyleDeterminesAngle(interactive: bool, icon: MarkerIconData, a: int, b: int)
    requires DefaultStyle(interactive, icon, a) == DefaultStyle(interactive, icon, b)
    ensures a == b
  {
    var head := DefaultStyleHead + InteractiveField(interactive) + DefaultStyleMid1 + SizeField(icon) + DefaultStyleMid2;
    SameBetween(head, AngleField(a), AngleField(b), DefaultStyleEnd);
    SameBetween("angle : ", IntToString(a), IntToString(b), " }");
    IntToStringInjective(a, b);
  }

  /** The common part of every marker description: GeoPointMap's stored fields. */
  datatype GeoPointMap = GeoPointMap(
    coordinate: Coordinate,
    styleMarker: string,
    markerIcon: MarkerIconData,
    interactive: bool,
    marker: Option<MarkerId>)

  /** `GeoPointMap.init`: an explicit style is kept verbatim, otherwise the default 'points' style. */
  function NewGeoPointMap(icon: MarkerIconData, coordinate: Coordinate, interactive: bool,
                          styleMarker: Option<string>, angle: int): (g: GeoPointMap)
    ensures g.coordinate == coordinate && g.markerIcon == icon && g.interactive == interactive
    ensures g.marker == None
    ensures styleMarker.Some? ==> g.styleMarker == styleMarker.value
    ensures styleMarker.None? ==> g.styleMarker == DefaultStyle(interactive, icon, angle)
  {
    GeoPointMap(coordinate, styleMarker.GetOr(DefaultStyle(interactive, icon, angle)), icon, interactive, None)
  }

  /** `GeoPointMap.location`: the stored latitude and longitude. */
  function Location(g: GeoPointMap): Coordinate {
    Coordinate(g.coordinate.latitude, g.coordinate.longitude)
  }

  /** The location reported is the coordinate the initialiser was given. */
  lemma LocationIsGivenCoordinate(icon: MarkerIconData, coordinate: Coordinate, interactive: bool,
                                  styleMarker: Option<string>, angle: int)
    ensures Location(NewGeoPointMap(icon, coordinate, interactive, styleMarker, angle)) == coordinate
  {
  }

  datatype UserLocationMarkerType = Person | Arrow

  const PersonStyle := "style: 'ux-location-gem-overlay',sprite: ux-current-location, interactive: false,color: 'white',order: 2000, collide: false  "
  const ArrowStyle := "style: 'ux-location-gem-overlay',sprite: ux-route-arrow, interactive: false,color: 'white',order: 2000, collide: false  "

  /** The sprite of a location marker type. */
  function SpriteStyle(t: UserLocationMarkerType): string {
    match t
    case Person => PersonStyle
    case Arrow => ArrowStyle
  }

  /** The style used when both location icons are present: sprite, angle, and a closing brace. */
  function LocationSpriteStyle(t: UserLocationMarkerType, angle: int): (s: string)
    ensures "{ " + SpriteStyle(t) <= s
  {
    "{ " + SpriteStyle(t) + SpriteAngleField(angle) + SpriteClose(t)
  }

  function SpriteAngleField(angle: int): string {
    " , angle: " + IntToString(angle)
  }

  /** The arrow variant closes with one more space than the person variant. */
  function SpriteClose(t: UserLocationMarkerType): string {
    match t
    case Person => " } "
    case Arrow => "  } "
  }

  datatype MyLocationMarker = MyLocationMarker(
    base: GeoPointMap,
    personIcon: Option<MarkerIconData>,
    arrowDirectionIcon: Option<MarkerIconData>,
    markerType: UserLocationMarkerType,
    angle: int)

  /** `MyLocationMarker.init`: chooses a sprite style or an icon from the icons present and the type. */
  function NewMyLocationMarker(coordinate: Coordinate, personIcon: Option<MarkerIconData>,
                               arrowDirectionIcon: Option<MarkerIconData>,
                               markerType: UserLocationMarkerType, angle: int): (m: MyLocationMarker)
    ensures m.base.coordinate == coordinate && m.base.interactive && m.base.marker == None
    ensures m.personIcon == personIcon && m.arrowDirectionIcon == arrowDirectionIcon
    ensures m.markerType == markerType && m.angle == angle
  {
    var bothIcons := arrowDirectionIcon.Some? && personIcon.Some?;
    var style: Option<string> := if bothIcons then Some(LocationSpriteStyle(markerType, angle)) else None;
    var icon :=
      if bothIcons then EmptyIcon
      else if arrowDirectionIcon.Some? && markerType == Person then arrowDirectionIcon.value
      else if personIcon.Some? && markerType == Arrow then personIcon.value
      else EmptyIcon;
    MyLocationMarker(NewGeoPointMap(icon, coordinate, true, style, angle),
                     personIcon, arrowDirectionIcon, markerType, angle)
  }

  /**
   * With both icons present the marker draws the sprite of its type, with the
   * angle, and carries no icon image.
   */
  lemma BothIconsUseSprite(coordinate: Coordinate, personIcon: Option<MarkerIconData>,
                           arrowDirectionIcon: Option<MarkerIconData>,
                           markerType: UserLocationMarkerType, angle: int)
    requires personIcon.Some? && arrowDirectionIcon.Some?
    ensures var m := NewMyLocationMarker(coordinate, personIcon, arrowDirectionIcon, markerType, angle);
      && m.base.markerIcon == EmptyIcon
      && m.base.styleMarker == "{ " + SpriteStyle(markerType) + " , angle: " + IntToString(angle) + SpriteClose(markerType)
  {
  }

  /** The sprite style of a location marker type determines the angle written into it. */
  lemma LocationSpriteStyleDeterminesAngle(t: UserLocationMarkerType, a: int, b: int)
    requires LocationSpriteStyle(t, a) == LocationSpriteStyle(t, b)
    ensures a == b
  {
    SameBetween("{ " + SpriteStyle(t), SpriteAngleField(a), SpriteAngleField(b), SpriteClose(t));
    SameAfter(" , angle: ", IntToString(a), IntToString(b));
    IntToStringInjective(a, b);
  }

  /**
   * With at most one icon present the marker uses the default 'points' style;
   * a person marker shows the arrow icon and an arrow marker the person icon,
   * and otherwise the icon is empty.
   */
  lemma OneIconUsesDefaultStyle(coordinate: Coordinate, personIcon: Option<MarkerIconData>,
                                arrowDirectionIcon: Option<MarkerIconData>,
                                markerType: UserLocationMarkerType, angle: int)
    requires !(personIcon.Some? && arrowDirectionIcon.Some?)
    ensures var m := NewMyLocationMarker(coordinate, personIcon, arrowDirectionIcon, markerType, angle);
      && (markerType == Person && arrowDirectionIcon.Some? ==> m.base.markerIcon == arrowDirectionIcon.value)
      && (markerType == Arrow && personIcon.Some? ==> m.base.markerIcon == personIcon.value)
      && (markerType == Person && arrowDirectionIcon.None? ==> m.base.markerIcon == EmptyIcon)
      && (markerType == Arrow && personIcon.None? ==> m.base.markerIcon == EmptyIcon)
      && m.base.styleMarker == DefaultStyle(true, m.base.markerIcon, angle)
      && IsPointsStyle(m.base.styleMarker)
  {
    var m := NewMyLocationMarker(coordinate, personIcon, arrowDirectionIcon, markerType, angle);
    DefaultStyleDescribesMarker(true, m.base.markerIcon, angle);
  }

  /** A marker of a static-position cluster, with its rotation angle. */
  datatype StaticGeoPMarker = StaticGeoPMarker(base: GeoPointMap, angle: int)

  /** `StaticGeoPMarker.init`: always interactive, default style carrying its angle. */
  function NewStaticGeoPMarker(icon: MarkerIconData, coordinate: Coordinate, angle: int): (s: StaticGeoPMarker)
    ensures s.base.interactive && s.base.coordinate == coordinate && s.base.markerIcon == icon
    ensures s.angle == angle && s.base.marker == None
    ensures IsPointsStyle(s.base.styleMarker)
    ensures Contains(s.base.styleMarker, InteractiveField(true))
    ensures Contains(s.base.styleMarker, AngleField(angle))
  {
    DefaultStyleDescribesMarker(true, icon, angle);
    StaticGeoPMarker(NewGeoPointMap(icon, coordinate, true, None, angle), angle)
  }
}
