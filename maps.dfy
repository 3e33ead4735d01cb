/** The browser-side `MapManager`: the list of markers it has placed, the
    coordinate range check, the marker icon chosen by visit status and the
    split of a waypoint list into a directions request. Calls into the
    mapping SDK are reduced to the values they are given. */
module Maps {
  import opened Common
  import opened VisitModel
  import Location
  import VisitsUi

  datatype LatLng = LatLng(lat: real, lng: real)

  datatype Marker = Marker(position: LatLng, title: string, icon: Option<string>)

  /** The customer handed to `addCustomerMarker`: its location may be
      missing and its fields may not be numbers. */
  datatype MapCustomer = MapCustomer(name: string, address: string, location: Option<Coords>)

  /** A directions request: `optimizeWaypoints` lets the service reorder
      the stopovers; the request itself lists them in the given order. */
  datatype RouteRequest = RouteRequest(origin: LatLng, destination: LatLng, stopovers: seq<LatLng>)

  /** A latitude/longitude box. */
  datatype Bounds = Bounds(south: real, west: real, north: real, east: real)

  const IconBase: string := "https://maps.google.com/mapfiles/ms/icons/"
  const CurrentLocationIcon: string := "https://maps.google.com/mapfiles/ms/icons/red-dot.png"
  const CurrentLocationTitle: string := "Mevcut Konumunuz"

  /** Whether a box holds a point, its edges included. */
  predicate Contains(b: Bounds, p: LatLng) {
    b.south <= p.lat <= b.north && b.west <= p.lng <= b.east
  }

  /** The whole globe as a latitude/longitude box. */
  const World: Bounds := Bounds(-90.0, -180.0, 90.0, 180.0)

  /** `validateCoordinates`: the point lies on the globe, edges included. */
  function ValidateCoordinates(lat: real, lng: real): (ok: bool)
    ensures ok <==> Contains(World, LatLng(lat, lng))
  {
    (lat >= -90.0 && lat <= 90.0) && (lng >= -180.0 && lng <= 180.0)
  }

  /** The guard of `addCustomerMarker`: a location whose two coordinates
      are numbers. */
  predicate Placeable(location: Option<Coords>) {
    location.Some? && location.value.lat.Number? && location.value.lng.Number?
  }

  /** The icon file for a visit status: blue for planned, orange for in
      progress, green for completed, and blue for anything else. */
  function IconFile(visitStatus: string): (file: string)
    ensures visitStatus == "in-progress" <==> file == "orange-dot.png"
    ensures visitStatus == "completed" <==> file == "green-dot.png"
    ensures visitStatus !in {"in-progress", "completed"} <==> file == "blue-dot.png"
  {
    if visitStatus == "planned" then "blue-dot.png"
    else if visitStatus == "in-progress" then "orange-dot.png"
    else if visitStatus == "completed" then "green-dot.png"
    else "blue-dot.png"
  }

  /** The map's `getStatusText` knows only three statuses. */
  function StatusText(status: string): (text: string)
    ensures status == "planned" ==> text == "Planlandı"
    ensures status == "in-progress" ==> text == "Devam Ediyor"
    ensures status == "completed" ==> text == "Tamamlandı"
    ensures status !in {"planned", "in-progress", "completed"} ==> text == status
  {
    if status == "planned" then "Planlandı"
    else if status == "in-progress" then "Devam Ediyor"
    else if status == "completed" then "Tamamlandı"
    else status
  }

  /** The map and the visit list agree on three statuses and disagree on
      `cancelled`, which the map shows untranslated. */
  lemma StatusTextsAgreeExceptCancelled(status: string)
    ensures status != "cancelled" ==> StatusText(status) == VisitsUi.StatusText(status)
    ensures StatusText("cancelled") == "cancelled" != VisitsUi.StatusText("cancelled")
  {
    assert VisitsUi.StatusText("cancelled")[0] == 'İ';
  }

  /** `calculateRoute`: nothing for fewer than two waypoints; otherwise the
      first is the origin, the last the destination and the ones between
      are the stopovers, in order. */
  function RouteFor(waypoints: seq<LatLng>): (r: Option<RouteRequest>)
    ensures r.None? <==> |waypoints| < 2
    ensures r.Some? ==> [r.value.origin] + r.value.stopovers + [r.value.destination] == waypoints
  {
    if |waypoints| < 2 then None
    else Some(RouteRequest(waypoints[0], waypoints[|waypoints| - 1], waypoints[1..|waypoints| - 1]))
  }

  /** The box a `LatLngBounds` grows to when extended by every point: it
      contains them all and each side touches one of them. */
  function BoundsOf(ps: seq<LatLng>): (b: Bounds)
    requires |ps| > 0
    ensures forall i :: 0 <= i < |ps| ==> Contains(b, ps[i])
    ensures exists i :: 0 <= i < |ps| && ps[i].lat == b.south
    ensures exists i :: 0 <= i < |ps| && ps[i].lat == b.north
    ensures exists i :: 0 <= i < |ps| && ps[i].lng == b.west
    ensures exists i :: 0 <= i < |ps| && ps[i].lng == b.east
  {
    if |ps| == 1 then Bounds(ps[0].lat, ps[0].lng, ps[0].lat, ps[0].lng)
    else
      var b := BoundsOf(ps[..|ps| - 1]);
      var p := ps[|ps| - 1];
      assert forall i :: 0 <= i < |ps| - 1 ==> ps[..|ps| - 1][i] == ps[i];
      Bounds(
        if p.lat < b.south then p.lat else b.south,
        if p.lng < b.west then p.lng else b.west,
        if p.lat > b.north then p.lat else b.north,
        if p.lng > b.east then p.lng else b.east)
  }

  /** A box fitted to points on the globe stays on the globe. */
  lemma FittedBoxOnGlobe(ps: seq<LatLng>)
    requires |ps| > 0
    requires forall i :: 0 <= i < |ps| ==> ValidateCoordinates(ps[i].lat, ps[i].lng)
    ensures var b := BoundsOf(ps);
            Contains(World, LatLng(b.south, b.west)) && Contains(World, LatLng(b.north, b.east))
  {
  }

  /** The positions of markers, in list order. */
  function Positions(ms: seq<Marker>): (ps: seq<LatLng>)
    ensures |ps| == |ms|
    ensures forall i :: 0 <= i < |ms| ==> ps[i] == ms[i].position
  {
    seq(|ms|, i requires 0 <= i < |ms| => ms[i].position)
  }

  class MapManager {
    var markers: seq<Marker>

    constructor()
      ensures markers == []
    {
      markers := [];
    }

    /** `addMarker`: the new marker goes at the end of the list. */
    method AddMarker(position: LatLng, title: string, icon: Option<string>) returns (m: Marker)
      modifies this
      ensures m == Marker(position, title, icon)
      ensures markers == old(markers) + [m]
    {
      m := Marker(position, title, icon);
      markers := markers + [m];
    }

    /** `addCustomerMarker`: null, with the list unchanged, when the
        location is missing or either coordinate is not a number, or when
        the SDK throws while building the marker (`sdkFails`); otherwise
        the marker, with the status-coloured icon, is appended. */
    method AddCustomerMarker(customer: MapCustomer, sdkFails: bool, visitStatus: string := "planned")
      returns (m: Option<Marker>)
      modifies this
      ensures var ok := Placeable(customer.location) && !sdkFails;
              && (!ok ==> m == None && markers == old(markers))
              && (ok ==> m == Some(Marker(LatLng(customer.location.value.lat.n, customer.location.value.lng.n),
                                          customer.name, Some(IconBase + IconFile(visitStatus))))
                         && markers == old(markers) + [m.value])
    {
      if !Placeable(customer.location) {
        return None;
      }
      if sdkFails {
        return None;
      }
      var loc := customer.location.value;
      var marker := Marker(LatLng(loc.lat.n, loc.lng.n), customer.name, Some(IconBase + IconFile(visitStatus)));
      markers := markers + [marker];
      m := Some(marker);
    }

    /** `addCurrentLocationMarker`: a red marker at the current fix, or
        nothing when there is no fix. */
    method AddCurrentLocationMarker(current: Option<Location.Fix>) returns (m: Option<Marker>)
      modifies this
      ensures current.None? ==> m == None && markers == old(markers)
      ensures current.Some? ==>
                && m == Some(Marker(LatLng(current.value.lat, current.value.lng), CurrentLocationTitle, Some(CurrentLocationIcon)))
                && markers == old(markers) + [m.value]
    {
      if current.None? {
        return None;
      }
      var marker := AddMarker(LatLng(current.value.lat, current.value.lng), CurrentLocationTitle, Some(CurrentLocationIcon));
      m := Some(marker);
    }

    /** `clearMarkers`: every marker is taken off the map and the list emptied. */
    method ClearMarkers()
      modifies this
      ensures markers == []
    {
      markers := [];
    }

    /** `fitToMarkers`: nothing to fit on an empty list; otherwise the
        bounds extended by each marker's position in turn. */
    method FitToMarkers() returns (b: Option<Bounds>)
      ensures b.None? <==> markers == []
      ensures b.Some? ==> b.value == BoundsOf(Positions(markers))
      ensures b.Some? ==> forall i :: 0 <= i < |markers| ==> Contains(b.value, markers[i].position)
    {
      if |markers| == 0 {
        return None;
      }
      b := Some(BoundsOf(Positions(markers)));
    }
  }
}
