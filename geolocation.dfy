/**
 * The distance engine and the hospital proximity filter of `GeolocationService`:
 * great-circle distance, the miles and travel-time figures derived from it, the
 * per-mode travel time, and the radius filter sorted nearest first.
 */
module Geolocation {
  import opened Wrappers
  import StableSort

  type NonNegReal = r: real | 0.0 <= r

  /**
   * The central angle, in radians, between two points given in degrees as
   * (lat1, lon1, lat2, lon2): the `2 * asin(sqrt(a))` of the haversine formula.
   * It needs sin, cos, asin and sqrt, so the caller supplies it; its result type
   * records the one fact the model relies on, that the angle is never negative.
   */
  type CentralAngle = (real, real, real, real) -> NonNegReal

  const EarthRadiusKm: real := 6371.0
  const KmToMiles: real := 0.621371
  /** Average urban driving speed assumed by `calculate_distance`. */
  const DefaultSpeedKmh: real := 50.0

  datatype Location = Location(latitude: real, longitude: real)

  datatype DistanceResult = DistanceResult(distanceKm: real, distanceMiles: real, travelMinutes: int)

  /** A hospital as the persistence layer supplies it. */
  datatype Hospital = Hospital(id: int, name: string, latitude: real, longitude: real)

  function LocationOf(h: Hospital): Location
  {
    Location(h.latitude, h.longitude)
  }

  /** Python's `int()` on a float: truncation toward zero. */
  function Trunc(x: real): (n: int)
    ensures 0.0 <= x ==> 0 <= n && n as real <= x < n as real + 1.0
    ensures x < 0.0 ==> n <= 0 && x <= n as real < x + 1.0
  {
    if 0.0 <= x then x.Floor else -((-x).Floor)
  }

  lemma TruncMonotone(x: real, y: real)
    requires 0.0 <= x <= y
    ensures Trunc(x) <= Trunc(y)
  {
  }

  /** Great-circle distance in kilometres on a sphere of radius 6371 km. */
  function HaversineDistance(arc: CentralAngle, lat1: real, lon1: real, lat2: real, lon2: real): (km: real)
    ensures 0.0 <= km
    ensures km == 0.0 <==> arc(lat1, lon1, lat2, lon2) == 0.0
  {
    EarthRadiusKm * arc(lat1, lon1, lat2, lon2)
  }

  /** Whole minutes to cover `km` at `speedKmh`, rounded down. */
  function TravelMinutes(km: real, speedKmh: real): (m: int)
    requires 0.0 <= km && 0.0 < speedKmh
    ensures 0 <= m
    ensures m as real <= km / speedKmh * 60.0 < m as real + 1.0
  {
    assert 0.0 <= km / speedKmh;
    Trunc(km / speedKmh * 60.0)
  }

  /** The figures derived from one distance at one speed. */
  function Derive(km: NonNegReal, speedKmh: real): (r: DistanceResult)
    requires 0.0 < speedKmh
    ensures r.distanceKm == km
    ensures r.distanceMiles == km * KmToMiles && 0.0 <= r.distanceMiles
    ensures 0 <= r.travelMinutes
    ensures r.travelMinutes as real <= km / speedKmh * 60.0 < r.travelMinutes as real + 1.0
  {
    DistanceResult(km, km * KmToMiles, TravelMinutes(km, speedKmh))
  }

  /** `calculate_distance`: great-circle distance, miles, and driving minutes at 50 km/h. */
  function CalculateDistance(arc: CentralAngle, from: Location, to: Location): (r: DistanceResult)
    ensures r.distanceKm == HaversineDistance(arc, from.latitude, from.longitude, to.latitude, to.longitude)
    ensures 0.0 <= r.distanceKm
    ensures r.distanceMiles == r.distanceKm * KmToMiles && 0.0 <= r.distanceMiles
    ensures 0 <= r.travelMinutes
    ensures r.travelMinutes as real <= r.distanceKm / 50.0 * 60.0 < r.travelMinutes as real + 1.0
  {
    Derive(HaversineDistance(arc, from.latitude, from.longitude, to.latitude, to.longitude), DefaultSpeedKmh)
  }

  /** Speed in km/h per transport mode; modes not listed travel at 50 km/h. */
  const SpeedTable: map<string, real> :=
    map["driving" := 50.0, "walking" := 5.0, "cycling" := 15.0, "public_transport" := 30.0]

  function SpeedKmh(mode: string): (s: real)
    ensures 5.0 <= s <= DefaultSpeedKmh
    ensures mode !in SpeedTable ==> s == DefaultSpeedKmh
  {
    if mode in SpeedTable then SpeedTable[mode] else DefaultSpeedKmh
  }

  /** `calculate_route_time`: the straight-line distance at the mode's speed. It never
      returns `None`. */
  function CalculateRouteTime(arc: CentralAngle, startLat: real, startLon: real, endLat: real, endLon: real,
                              mode: string): (r: Option<DistanceResult>)
    ensures r.Some?
    ensures r.value.distanceKm == HaversineDistance(arc, startLat, startLon, endLat, endLon)
    ensures r.value.distanceMiles == r.value.distanceKm * KmToMiles
    ensures 0 <= r.value.travelMinutes
    ensures r.value.travelMinutes as real <= r.value.distanceKm / SpeedKmh(mode) * 60.0
                                           < r.value.travelMinutes as real + 1.0
  {
    Some(Derive(HaversineDistance(arc, startLat, startLon, endLat, endLon), SpeedKmh(mode)))
  }

  /** For driving, and for any mode without its own speed, the route time is the
      `calculate_distance` result for the same endpoints. */
  lemma RouteTimeAgreesWithDistance(arc: CentralAngle, startLat: real, startLon: real, endLat: real, endLon: real,
                                    mode: string)
    requires mode == "driving" || mode !in SpeedTable
    ensures CalculateRouteTime(arc, startLat, startLon, endLat, endLon, mode)
         == Some(CalculateDistance(arc, Location(startLat, startLon), Location(endLat, endLon)))
  {
    assert SpeedKmh(mode) == DefaultSpeedKmh;
  }

  /** A slower mode never gives a shorter travel time for the same endpoints. */
  lemma SlowerModeNeverFaster(arc: CentralAngle, startLat: real, startLon: real, endLat: real, endLon: real,
                              slow: string, fast: string)
    requires SpeedKmh(slow) <= SpeedKmh(fast)
    ensures CalculateRouteTime(arc, startLat, startLon, endLat, endLon, fast).value.travelMinutes
         <= CalculateRouteTime(arc, startLat, startLon, endLat, endLon, slow).value.travelMinutes
  {
  }

  /** One (hospital, distance) pair of the result of `find_nearest_hospitals`. */
  type Ranked = (Hospital, DistanceResult)

  function DistanceKey(e: Ranked): real
  {
    e.1.distanceKm
  }

  /** The hospitals within `maxKm` of `user`, each paired with its distance, in input
      order: the list the loop of `find_nearest_hospitals` builds before sorting. */
  function Nearby(arc: CentralAngle, user: Location, hospitals: seq<Hospital>, maxKm: real): (r: seq<Ranked>)
    ensures |r| <= |hospitals|
    ensures forall i :: 0 <= i < |r| ==>
              r[i].1 == CalculateDistance(arc, user, LocationOf(r[i].0)) && r[i].1.distanceKm <= maxKm
    decreases |hospitals|
  {
    if hospitals == [] then []
    else
      var h := hospitals[|hospitals| - 1];
      var d := CalculateDistance(arc, user, LocationOf(h));
      Nearby(arc, user, hospitals[..|hospitals| - 1], maxKm) + (if d.distanceKm <= maxKm then [(h, d)] else [])
  }

  /** Every hospital within the radius appears in `Nearby` exactly as often as in the
      input, and every hospital outside it not at all. */
  lemma {:induction false} NearbyCounts(arc: CentralAngle, user: Location, hospitals: seq<Hospital>, maxKm: real,
                                        h: Hospital)
    ensures var d := CalculateDistance(arc, user, LocationOf(h));
            multiset(Nearby(arc, user, hospitals, maxKm))[(h, d)]
            == if d.distanceKm <= maxKm then multiset(hospitals)[h] else 0
  {
    if hospitals != [] {
      var n := |hospitals| - 1;
      assert hospitals == hospitals[..n] + [hospitals[n]];
      NearbyCounts(arc, user, hospitals[..n], maxKm, h);
    }
  }

  /** `find_nearest_hospitals`: scans the hospitals, keeps those within `maxKm`, then
      sorts them by distance with a stable sort. */
  method FindNearestHospitals(arc: CentralAngle, userLat: real, userLon: real, hospitals: seq<Hospital>,
                              maxKm: real)
    returns (nearby: seq<Ranked>)
    ensures nearby == StableSort.Sort(Nearby(arc, Location(userLat, userLon), hospitals, maxKm), DistanceKey)
    ensures forall i :: 0 <= i < |nearby| ==>
              nearby[i].1 == CalculateDistance(arc, Location(userLat, userLon), LocationOf(nearby[i].0))
              && nearby[i].1.distanceKm <= maxKm
    ensures multiset(nearby) == multiset(Nearby(arc, Location(userLat, userLon), hospitals, maxKm))
    ensures forall i, j :: 0 <= i < j < |nearby| ==> nearby[i].1.distanceKm <= nearby[j].1.distanceKm
    ensures forall k :: StableSort.WithKey(nearby, DistanceKey, k)
                     == StableSort.WithKey(Nearby(arc, Location(userLat, userLon), hospitals, maxKm), DistanceKey, k)
    ensures hospitals == [] ==> nearby == []
  {
    var user := Location(userLat, userLon);
    nearby := [];
    var i := 0;
    while i < |hospitals|
      invariant 0 <= i <= |hospitals|
      invariant nearby == Nearby(arc, user, hospitals[..i], maxKm)
    {
      var h := hospitals[i];
      var d := CalculateDistance(arc, user, LocationOf(h));
      if d.distanceKm <= maxKm {
        nearby := nearby + [(h, d)];
      }
      assert hospitals[..i + 1][..i] == hospitals[..i];
      i := i + 1;
    }
    assert hospitals[..i] == hospitals;
    ghost var filtered := nearby;
    nearby := StableSort.Sort(nearby, DistanceKey);
    StableSort.SortAscending(filtered, DistanceKey);
    forall k
      ensures StableSort.WithKey(nearby, DistanceKey, k) == StableSort.WithKey(filtered, DistanceKey, k)
    {
      StableSort.SortStable(filtered, DistanceKey, k);
    }
    forall i | 0 <= i < |nearby|
      ensures nearby[i].1 == CalculateDistance(arc, user, LocationOf(nearby[i].0)) && nearby[i].1.distanceKm <= maxKm
    {
      assert nearby[i] in multiset(filtered);
    }
  }

  /** `get_coordinates_from_address`: geocoding is not implemented; always `None`. */
  function GetCoordinatesFromAddress(address: string): Option<Location>
  {
    None
  }
}
