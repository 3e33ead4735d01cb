/** The browser-side `LocationManager`: the last position fix, the
    watch-position tracking switch, the haversine distance and the
    "near enough" test, which the manager defines but no page calls. */
module Location {
  import opened Common

  /** A position fix as the manager stores it. */
  datatype Fix = Fix(lat: real, lng: real, accuracy: real, timestamp: Time)

  /** What the browser's geolocation API hands to a `getCurrentPosition`
      call: a position (with the clock reading taken on arrival) or an
      error code. */
  datatype PositionOutcome =
    | Position(fix: Fix)
    | PositionError(code: int)

  /** The floating-point library the haversine formula calls. Nothing is
      assumed about these functions beyond what `Lawful` states. */
  datatype Trig = Trig(
    sin: real -> real,
    cos: real -> real,
    sqrt: real -> real,
    atan2: (real, real) -> real,
    pi: real)

  /** The facts about the library that the model relies on; each holds of
      the mathematical functions. */
  ghost predicate Lawful(t: Trig) {
    && t.sin(0.0) == 0.0
    && t.sqrt(0.0) == 0.0
    && t.sqrt(1.0) == 1.0
    && (forall x :: t.sqrt(x) >= 0.0)
    && (forall x :: x > 0.0 ==> t.atan2(0.0, x) == 0.0)
    && (forall y, x :: y >= 0.0 ==> t.atan2(y, x) >= 0.0)
  }

  /** Earth radius in metres. */
  const EarthRadius: real := 6371000.0

  /** The default proximity threshold, in metres. */
  const DefaultMaxDistance: real := 500.0

  const UnsupportedMessage: string := "GPS desteklenmiyor"
  const DeniedMessage: string := "Konum erişimi reddedildi"
  const UnavailableMessage: string := "Konum bilgisi alınamadı"
  const TimeoutMessage: string := "Konum alma zaman aşımı"
  const GenericMessage: string := "Konum alınamadı"

  function ToRad(t: Trig, degrees: real): real {
    degrees * (t.pi / 180.0)
  }

  /** The unrounded great-circle distance in metres. */
  function Haversine(t: Trig, lat1: real, lng1: real, lat2: real, lng2: real): (d: real)
    requires Lawful(t)
    ensures d >= 0.0
  {
    var dLat := ToRad(t, lat2 - lat1);
    var dLng := ToRad(t, lng2 - lng1);
    var a := t.sin(dLat / 2.0) * t.sin(dLat / 2.0)
             + t.cos(ToRad(t, lat1)) * t.cos(ToRad(t, lat2)) * t.sin(dLng / 2.0) * t.sin(dLng / 2.0);
    var c := 2.0 * t.atan2(t.sqrt(a), t.sqrt(1.0 - a));
    EarthRadius * c
  }

  /** `Math.round`: the nearest integer, halves rounded up. */
  function Round(x: real): (n: int)
    ensures n as real - 0.5 <= x < n as real + 0.5
  {
    (x + 0.5).Floor
  }

  /** A rounded value is at most a threshold exactly when the unrounded
      one lies below the threshold's floor plus one half. */
  lemma RoundAtMost(x: real, m: real)
    ensures Round(x) as real <= m <==> x < m.Floor as real + 0.5
  {
    var n := Round(x);
    assert n as real <= m <==> n <= m.Floor;
  }

  /** `calculateDistance`: the haversine distance rounded to whole metres. */
  function CalculateDistance(t: Trig, lat1: real, lng1: real, lat2: real, lng2: real): (d: int)
    requires Lawful(t)
    ensures d >= 0
    ensures d as real - 0.5 <= Haversine(t, lat1, lng1, lat2, lng2) < d as real + 0.5
  {
    Round(Haversine(t, lat1, lng1, lat2, lng2))
  }

  /** A point is at distance 0 from itself: both differences are 0, so the
      haversine term `a` and the central angle `c` are 0. */
  lemma DistanceToSelf(t: Trig, lat: real, lng: real)
    requires Lawful(t)
    ensures Haversine(t, lat, lng, lat, lng) == 0.0
    ensures CalculateDistance(t, lat, lng, lat, lng) == 0
  {
    assert ToRad(t, lat - lat) == 0.0;
    assert ToRad(t, lng - lng) == 0.0;
    var a := t.sin(0.0) * t.sin(0.0)
             + t.cos(ToRad(t, lat)) * t.cos(ToRad(t, lat)) * t.sin(0.0) * t.sin(0.0);
    assert a == 0.0;
    assert t.atan2(t.sqrt(a), t.sqrt(1.0 - a)) == 0.0;
  }

  /** The message a failed `getCurrentLocation` rejects with. */
  function ErrorMessage(code: int): (msg: string)
    ensures code == 1 ==> msg == DeniedMessage
    ensures code == 2 ==> msg == UnavailableMessage
    ensures code == 3 ==> msg == TimeoutMessage
    ensures code !in {1, 2, 3} ==> msg == GenericMessage
  {
    if code == 1 then DeniedMessage
    else if code == 2 then UnavailableMessage
    else if code == 3 then TimeoutMessage
    else GenericMessage
  }

  /** Two codes get the same message exactly when they are equal or both
      are outside the three known codes. */
  lemma ErrorMessagesDistinct(c1: int, c2: int)
    ensures ErrorMessage(c1) == ErrorMessage(c2) <==> c1 == c2 || (c1 !in {1, 2, 3} && c2 !in {1, 2, 3})
  {
    assert DeniedMessage[6] != UnavailableMessage[6];
    assert DeniedMessage[6] != TimeoutMessage[6];
    assert UnavailableMessage[6] != TimeoutMessage[6];
    assert |GenericMessage| != |DeniedMessage| && |GenericMessage| != |UnavailableMessage|;
    assert |GenericMessage| != |TimeoutMessage|;
  }

  class LocationManager {
    var currentLocation: Option<Fix>
    var watchId: Option<int>
    var isTracking: bool

    constructor()
      ensures currentLocation == None && watchId == None && !isTracking
    {
      currentLocation := None;
      watchId := None;
      isTracking := false;
    }

    /** `if (this.watchId)`: a missing id and the id 0 both read as unset. */
    predicate HasWatch()
      reads this
    {
      watchId.Some? && watchId.value != 0
    }

    /** `getCurrentLocation`; `geolocation` says whether the browser offers
        the API at all. A position becomes the current location; an error
        leaves it as it was. */
    method GetCurrentLocation(geolocation: bool, outcome: PositionOutcome) returns (r: Result<Fix, string>)
      modifies this`currentLocation
      ensures !geolocation ==> r == Err(UnsupportedMessage) && currentLocation == old(currentLocation)
      ensures geolocation && outcome.Position? ==>
                r == Ok(outcome.fix) && currentLocation == Some(outcome.fix)
      ensures geolocation && outcome.PositionError? ==>
                r == Err(ErrorMessage(outcome.code)) && currentLocation == old(currentLocation)
    {
      if !geolocation {
        return Err(UnsupportedMessage);
      }
      match outcome
      case Position(fix) =>
        currentLocation := Some(fix);
        r := Ok(fix);
      case PositionError(code) =>
        r := Err(ErrorMessage(code));
    }

    /** `startTracking`: registers a position watch whose id the browser
        returns as `newWatchId`; a no-op without the API or while tracking. */
    method StartTracking(geolocation: bool, newWatchId: int)
      modifies this`watchId, this`isTracking
      ensures !geolocation || old(isTracking) ==>
                watchId == old(watchId) && isTracking == old(isTracking)
      ensures geolocation && !old(isTracking) ==> watchId == Some(newWatchId) && isTracking
    {
      if !geolocation || isTracking {
        return;
      }
      watchId := Some(newWatchId);
      isTracking := true;
    }

    /** The watch callback: every reported position replaces the current one. */
    method OnWatchPosition(fix: Fix)
      modifies this`currentLocation
      ensures currentLocation == Some(fix)
    {
      currentLocation := Some(fix);
    }

    /** `stopTracking`: clears the watch only when the id is truthy. */
    method StopTracking()
      modifies this`watchId, this`isTracking
      ensures old(HasWatch()) ==> watchId == None && !isTracking
      ensures !old(HasWatch()) ==> watchId == old(watchId) && isTracking == old(isTracking)
    {
      if HasWatch() {
        watchId := None;
        isTracking := false;
      }
    }

    /** `requestLocationPermission`: one fix, then tracking; false when the fix fails. */
    method RequestLocationPermission(geolocation: bool, outcome: PositionOutcome, newWatchId: int)
      returns (granted: bool)
      modifies this
      ensures granted <==> geolocation && outcome.Position?
      ensures granted ==> currentLocation == Some(outcome.fix) && isTracking
      ensures granted && !old(isTracking) ==> watchId == Some(newWatchId)
      ensures granted && old(isTracking) ==> watchId == old(watchId)
      ensures !granted ==> currentLocation == old(currentLocation) && watchId == old(watchId)
                           && isTracking == old(isTracking)
    {
      var r := GetCurrentLocation(geolocation, outcome);
      if r.Err? {
        return false;
      }
      StartTracking(geolocation, newWatchId);
      granted := true;
    }

    /** `isLocationNearby`: false without a fix; otherwise the distance,
        rounded to whole metres, is compared with `<=` to the threshold.
        The threshold may be any number; a whole number of metres is at
        most it exactly when it is at most its floor, so the raw distance
        may fall short of that floor plus 0.5. */
    function IsLocationNearby(t: Trig, targetLat: real, targetLng: real,
                              maxDistance: real := DefaultMaxDistance): (r: bool)
      reads this
      requires Lawful(t)
      ensures currentLocation.None? ==> !r
      ensures currentLocation.Some? ==>
                (r <==> Haversine(t, currentLocation.value.lat, currentLocation.value.lng, targetLat, targetLng)
                          < maxDistance.Floor as real + 0.5)
    {
      if currentLocation.None? then false
      else
        var here := currentLocation.value;
        RoundAtMost(Haversine(t, here.lat, here.lng, targetLat, targetLng), maxDistance);
        CalculateDistance(t, here.lat, here.lng, targetLat, targetLng) as real <= maxDistance
    }
  }

  /** With the default threshold a fix is near a target exactly when the
      raw distance is below 500.5 metres; a fix at the target is near it. */
  lemma DefaultThreshold(m: LocationManager, t: Trig, targetLat: real, targetLng: real)
    requires Lawful(t)
    requires m.currentLocation.Some?
    ensures m.IsLocationNearby(t, targetLat, targetLng) <==>
              Haversine(t, m.currentLocation.value.lat, m.currentLocation.value.lng, targetLat, targetLng) < 500.5
    ensures m.currentLocation.value.lat == targetLat && m.currentLocation.value.lng == targetLng ==>
              m.IsLocationNearby(t, targetLat, targetLng)
  {
    var here := m.currentLocation.value;
    DistanceToSelf(t, here.lat, here.lng);
  }
}
