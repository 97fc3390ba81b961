/** The mission map (app/components/LeafletMapComponent.tsx): one styled
    marker per mission waypoint, the planned-route polyline, the flown-path
    polyline and the real-time position marker. Coordinates are reals. */
module LeafletMap {
  import opened Wrappers

  datatype WaypointKind = Takeoff | Waypoint | Land | Rtl

  datatype MissionWaypoint = MissionWaypoint(id: int, lat: real, lng: real, alt: real, kind: WaypointKind, completed: bool)

  datatype LatLng = LatLng(lat: real, lng: real)

  /** The reported position of the vehicle. */
  datatype DronePosition = DronePosition(lat: real, lon: real, absAlt: real)

  /** The part of a waypoint's SVG icon that varies: the circle's fill and
      opacity, the label (the waypoint id) and the checkmark path. */
  datatype WaypointIcon = WaypointIcon(fill: string, opacity: string, idText: int, checkmark: bool)

  /** The `colors` table, indexed by kind and completion. */
  function KindColour(kind: WaypointKind, completed: bool): string
  {
    match kind
    case Takeoff => if completed then "#10B981" else "#059669"
    case Waypoint => if completed then "#3B82F6" else "#2563EB"
    case Land => if completed then "#F59E0B" else "#D97706"
    case Rtl => if completed then "#EF4444" else "#DC2626"
  }

  /** All eight colours differ, so the fill tells both the kind and whether
      the waypoint is completed. */
  lemma KindColourInjective(k1: WaypointKind, c1: bool, k2: WaypointKind, c2: bool)
    requires KindColour(k1, c1) == KindColour(k2, c2)
    ensures k1 == k2 && c1 == c2
  {
    var s := KindColour(k1, c1);
    // the second and third characters already tell the colours apart
    assert s[1] == KindColour(k2, c2)[1] && s[2] == KindColour(k2, c2)[2];
  }

  /** `createWaypointIcon`, reduced to the values it puts into the SVG. */
  function CreateWaypointIcon(w: MissionWaypoint): (icon: WaypointIcon)
    ensures icon.fill == KindColour(w.kind, w.completed)
    ensures icon.idText == w.id
    ensures w.completed ==> icon.opacity == "0.7" && icon.checkmark
    ensures !w.completed ==> icon.opacity == "1" && !icon.checkmark
  {
    WaypointIcon(KindColour(w.kind, w.completed), if w.completed then "0.7" else "1", w.id, w.completed)
  }

  /** Icons of a completed and a pending waypoint of the same kind always differ in fill. */
  lemma CompletionChangesFill(w: MissionWaypoint)
    ensures CreateWaypointIcon(w).fill != CreateWaypointIcon(w.(completed := !w.completed)).fill
  {
    if KindColour(w.kind, w.completed) == KindColour(w.kind, !w.completed) {
      KindColourInjective(w.kind, w.completed, w.kind, !w.completed);
    }
  }

  datatype Marker = Marker(position: LatLng, icon: WaypointIcon)

  /** `missionWaypoints.map(...)` into markers: one per waypoint, in order,
      at its own position with its own icon. */
  function WaypointMarkers(ws: seq<MissionWaypoint>): (ms: seq<Marker>)
    ensures |ms| == |ws|
    ensures forall i :: 0 <= i < |ws| ==>
              ms[i].position == LatLng(ws[i].lat, ws[i].lng) && ms[i].icon == CreateWaypointIcon(ws[i])
  {
    seq(|ws|, i requires 0 <= i < |ws| => Marker(LatLng(ws[i].lat, ws[i].lng), CreateWaypointIcon(ws[i])))
  }

  /** The planned route: one vertex per waypoint, in list order. */
  function MissionPath(ws: seq<MissionWaypoint>): (path: seq<LatLng>)
    ensures |path| == |ws|
    ensures forall i :: 0 <= i < |ws| ==> path[i] == LatLng(ws[i].lat, ws[i].lng)
  {
    if ws == [] then [] else [LatLng(ws[0].lat, ws[0].lng)] + MissionPath(ws[1..])
  }

  /** The route and the markers agree vertex by vertex. */
  lemma MissionPathThroughMarkers(ws: seq<MissionWaypoint>)
    ensures |MissionPath(ws)| == |WaypointMarkers(ws)|
    ensures forall i :: 0 <= i < |ws| ==> MissionPath(ws)[i] == WaypointMarkers(ws)[i].position
  {
  }

  /** The flown path is drawn only when it has two points or more. */
  predicate DrawsFlightPath(flightPath: seq<LatLng>)
  {
    |flightPath| > 1
  }

  /** A drawn polyline: its vertices and the colour and weight of its stroke. */
  datatype Polyline = Polyline(positions: seq<LatLng>, color: string, weight: nat)

  /** The planned route is always drawn, green and two pixels wide. */
  function MissionPolyline(ws: seq<MissionWaypoint>): (line: Polyline)
    ensures line.positions == MissionPath(ws)
    ensures line.color == "#10B981" && line.weight == 2
  {
    Polyline(MissionPath(ws), "#10B981", 2)
  }

  /** The flown route, when drawn, is red, three pixels wide and passes
      through the recorded points in order. */
  function FlightPolyline(flightPath: seq<LatLng>): (line: Option<Polyline>)
    ensures line.Some? <==> |flightPath| >= 2
    ensures line.Some? ==> line.value.positions == flightPath && line.value.color == "#EF4444" && line.value.weight == 3
  {
    if DrawsFlightPath(flightPath) then Some(Polyline(flightPath, "#EF4444", 3)) else None
  }

  /** No flown line for an empty path or a single fix, and a drawn one is
      never confused with the planned route: they differ in colour and weight. */
  lemma FlightPathDrawnFromTwoPoints(flightPath: seq<LatLng>, p: LatLng, ws: seq<MissionWaypoint>)
    ensures FlightPolyline([]).None? && FlightPolyline([p]).None?
    ensures FlightPolyline(flightPath + [p]).Some? <==> flightPath != []
    ensures FlightPolyline(flightPath).Some? ==>
              FlightPolyline(flightPath).value.color != MissionPolyline(ws).color &&
              FlightPolyline(flightPath).value.weight > MissionPolyline(ws).weight
  {
    assert "#EF4444"[1] != "#10B981"[1];
  }

  function Abs(x: real): real
  {
    if x < 0.0 then -x else x
  }

  /** The separation below which the real-time marker is hidden. */
  const MarkerTolerance: real := 0.00001

  /** The real-time marker is shown for a reported position with non-zero
      latitude and longitude that is more than the tolerance away from the
      map coordinates in one of them. */
  predicate ShowsRealTimeMarker(dronePosition: Option<DronePosition>, coordinates: LatLng)
  {
    dronePosition.Some? && dronePosition.value.lat != 0.0 && dronePosition.value.lon != 0.0 &&
    (Abs(dronePosition.value.lat - coordinates.lat) > MarkerTolerance ||
     Abs(dronePosition.value.lon - coordinates.lng) > MarkerTolerance)
  }

  /** The real-time marker, when shown, is at the reported position. */
  function RealTimeMarker(dronePosition: Option<DronePosition>, coordinates: LatLng): (m: Option<LatLng>)
    ensures m.Some? <==> ShowsRealTimeMarker(dronePosition, coordinates)
    ensures m.Some? ==> m.value == LatLng(dronePosition.value.lat, dronePosition.value.lon)
    // never shown without a fix, or on top of the map coordinates
    ensures dronePosition.None? ==> m.None?
    ensures dronePosition.Some? && (dronePosition.value.lat == 0.0 || dronePosition.value.lon == 0.0) ==> m.None?
    ensures dronePosition.Some? && dronePosition.value.lat == coordinates.lat && dronePosition.value.lon == coordinates.lng ==> m.None?
  {
    if ShowsRealTimeMarker(dronePosition, coordinates)
    then Some(LatLng(dronePosition.value.lat, dronePosition.value.lon))
    else None
  }
}
