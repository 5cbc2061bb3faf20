/**
 * `RoutingService`: the placeholder two-leg route between two points, its
 * emergency variant, the priority score of a route, and the ranking of several
 * hospitals by that score. The clock is an integer count of seconds supplied by
 * the caller.
 */
module Routing {
  import opened Geolocation
  import StableSort

  /** A (latitude, longitude) pair. */
  type Coordinate = (real, real)

  datatype RouteStep = RouteStep(instruction: string, distanceMeters: real, durationSeconds: int,
                                 startLocation: Coordinate, endLocation: Coordinate)

  datatype Route = Route(startLocation: Coordinate, endLocation: Coordinate, totalDistanceKm: real,
                         totalDurationMinutes: int, steps: seq<RouteStep>, transportMode: string,
                         estimatedArrival: int)

  const FirstInstruction: string := "Start navigation to destination"
  const SecondInstruction: string := "Continue to hospital destination"

  /** Arithmetic midpoint of the two coordinates (not the geodesic one). */
  function Midpoint(a: Coordinate, b: Coordinate): (m: Coordinate)
    ensures m.0 - a.0 == b.0 - m.0 && m.1 - a.1 == b.1 - m.1
  {
    ((a.0 + b.0) / 2.0, (a.1 + b.1) / 2.0)
  }

  function SumMeters(steps: seq<RouteStep>): real
    decreases |steps|
  {
    if steps == [] then 0.0 else SumMeters(steps[..|steps| - 1]) + steps[|steps| - 1].distanceMeters
  }

  /** A route whose legs chain from its start to its end, whose figures are
      non-negative and whose legs add up to its total distance. */
  ghost predicate WellFormed(r: Route)
  {
    && |r.steps| > 0
    && r.steps[0].startLocation == r.startLocation
    && r.steps[|r.steps| - 1].endLocation == r.endLocation
    && (forall i :: 0 < i < |r.steps| ==> r.steps[i - 1].endLocation == r.steps[i].startLocation)
    && (forall i :: 0 <= i < |r.steps| ==> 0.0 <= r.steps[i].distanceMeters && 0 <= r.steps[i].durationSeconds)
    && 0.0 <= r.totalDistanceKm && 0 <= r.totalDurationMinutes
    && SumMeters(r.steps) == r.totalDistanceKm * 1000.0
  }

  /** `_create_simplified_route_steps`: two legs through the midpoint, each carrying
      half the distance in metres and `int(metres / 1000 * 60)` seconds. */
  function CreateSimplifiedRouteSteps(startLat: real, startLon: real, endLat: real, endLon: real,
                                      totalKm: real): (steps: seq<RouteStep>)
    ensures |steps| == 2
    ensures steps[0].instruction == FirstInstruction && steps[1].instruction == SecondInstruction
    ensures steps[0].startLocation == (startLat, startLon)
    ensures steps[0].endLocation == steps[1].startLocation == Midpoint((startLat, startLon), (endLat, endLon))
    ensures steps[1].endLocation == (endLat, endLon)
    ensures steps[0].distanceMeters == steps[1].distanceMeters
    ensures steps[0].distanceMeters + steps[1].distanceMeters == totalKm * 1000.0
    ensures 0.0 <= totalKm ==>
              forall i :: 0 <= i < 2 ==>
                && 0 <= steps[i].durationSeconds
                && steps[i].durationSeconds as real <= steps[i].distanceMeters / 1000.0 * 60.0
                && steps[i].distanceMeters / 1000.0 * 60.0 < steps[i].durationSeconds as real + 1.0
  {
    var mid := Midpoint((startLat, startLon), (endLat, endLon));
    var meters := totalKm * 0.5 * 1000.0;
    var seconds := Trunc(meters / 1000.0 * 60.0);
    [ RouteStep(FirstInstruction, meters, seconds, (startLat, startLon), mid),
      RouteStep(SecondInstruction, meters, seconds, mid, (endLat, endLon)) ]
  }

  /** `get_route`: the totals are those of `calculate_distance` (driving speed, whatever
      the mode), the mode is only recorded, and arrival is `now` plus the duration. */
  function GetRoute(arc: CentralAngle, startLat: real, startLon: real, endLat: real, endLon: real,
                    mode: string, now: int): (r: Route)
    ensures var d := CalculateDistance(arc, Location(startLat, startLon), Location(endLat, endLon));
            r.totalDistanceKm == d.distanceKm && r.totalDurationMinutes == d.travelMinutes
    ensures r.startLocation == (startLat, startLon) && r.endLocation == (endLat, endLon)
    ensures r.transportMode == mode
    ensures r.estimatedArrival == now + 60 * r.totalDurationMinutes
    ensures |r.steps| == 2 && r.steps[0].instruction == FirstInstruction
    ensures WellFormed(r)
  {
    var d := CalculateDistance(arc, Location(startLat, startLon), Location(endLat, endLon));
    var steps := CreateSimplifiedRouteSteps(startLat, startLon, endLat, endLon, d.distanceKm);
    assert SumMeters(steps) == steps[0].distanceMeters + steps[1].distanceMeters by {
      assert steps[..1][..0] == [];
      assert SumMeters(steps[..1]) == steps[0].distanceMeters;
    }
    Route((startLat, startLon), (endLat, endLon), d.distanceKm, d.travelMinutes, steps, mode,
          now + 60 * d.travelMinutes)
  }

  /** The transport mode changes nothing but the recorded mode. */
  lemma RouteIgnoresMode(arc: CentralAngle, startLat: real, startLon: real, endLat: real, endLon: real,
                         mode1: string, mode2: string, now: int)
    ensures GetRoute(arc, startLat, startLon, endLat, endLon, mode1, now).(transportMode := mode2)
         == GetRoute(arc, startLat, startLon, endLat, endLon, mode2, now)
  {
  }

  /** The emergency view of a route returned by `get_emergency_route`. */
  datatype EmergencyRoute = EmergencyRoute(startLocation: Coordinate, endLocation: Coordinate,
                                           totalDistanceKm: real, totalDurationMinutes: int,
                                           transportMode: string, estimatedArrival: int,
                                           timeSavedMinutes: int, steps: seq<RouteStep>)

  /** Scales a whole number of time units by 0.8 and truncates, as `int(x * 0.8)` does. */
  function EmergencyScale(x: int): (y: int)
    requires 0 <= x
    ensures 0 <= y <= x
    ensures y as real <= x as real * 0.8 < y as real + 1.0
  {
    Trunc(x as real * 0.8)
  }

  function EmergencyStep(s: RouteStep): RouteStep
    requires 0 <= s.durationSeconds
  {
    s.(durationSeconds := EmergencyScale(s.durationSeconds))
  }

  /** `get_emergency_route`: the standard route made 20% faster, in whole minutes and
      whole seconds rounded down, with the time saved reported. */
  function GetEmergencyRoute(arc: CentralAngle, userLat: real, userLon: real, hospitalLat: real,
                             hospitalLon: real, now: int): (e: EmergencyRoute)
    ensures var std := GetRoute(arc, userLat, userLon, hospitalLat, hospitalLon, "emergency", now);
            && e.startLocation == std.startLocation && e.endLocation == std.endLocation
            && e.totalDistanceKm == std.totalDistanceKm
            && 0 <= e.totalDurationMinutes <= std.totalDurationMinutes
            && e.totalDurationMinutes as real <= std.totalDurationMinutes as real * 0.8
            && std.totalDurationMinutes as real * 0.8 < e.totalDurationMinutes as real + 1.0
            && e.timeSavedMinutes == std.totalDurationMinutes - e.totalDurationMinutes
            && e.estimatedArrival == now + 60 * e.totalDurationMinutes
            && |e.steps| == |std.steps|
            && forall i :: 0 <= i < |e.steps| ==>
                 && e.steps[i].(durationSeconds := std.steps[i].durationSeconds) == std.steps[i]
                 && 0 <= e.steps[i].durationSeconds <= std.steps[i].durationSeconds
                 && e.steps[i].durationSeconds as real <= std.steps[i].durationSeconds as real * 0.8
                 && std.steps[i].durationSeconds as real * 0.8 < e.steps[i].durationSeconds as real + 1.0
    ensures e.transportMode == "emergency"
    ensures 0 <= e.timeSavedMinutes
  {
    var route := GetRoute(arc, userLat, userLon, hospitalLat, hospitalLon, "emergency", now);
    var minutes := EmergencyScale(route.totalDurationMinutes);
    EmergencyRoute(route.startLocation, route.endLocation, route.totalDistanceKm, minutes, "emergency",
                   now + 60 * minutes, route.totalDurationMinutes - minutes,
                   seq(|route.steps|, i requires 0 <= i < |route.steps| => EmergencyStep(route.steps[i])))
  }

  /** The emergency duration never exceeds the standard driving route's. */
  lemma EmergencyNoSlowerThanDriving(arc: CentralAngle, userLat: real, userLon: real, hospitalLat: real,
                                     hospitalLon: real, now: int)
    ensures GetEmergencyRoute(arc, userLat, userLon, hospitalLat, hospitalLon, now).totalDurationMinutes
         <= GetRoute(arc, userLat, userLon, hospitalLat, hospitalLon, "driving", now).totalDurationMinutes
  {
    RouteIgnoresMode(arc, userLat, userLon, hospitalLat, hospitalLon, "emergency", "driving", now);
  }

  /** Neutral hospital reputation; no real signal is wired in. */
  const HospitalFactor: real := 0.5

  function Clip0(x: real): (y: real)
    ensures 0.0 <= y && x <= y && (y == 0.0 || y == x)
  {
    if x > 0.0 then x else 0.0
  }

  /** `_calculate_route_priority`: 40% distance (zero from 500 km), 40% time (zero from
      300 minutes) and 20% hospital factor. */
  function CalculateRoutePriority(route: Route): (p: real)
    ensures 0.1 <= p
    ensures 0.0 <= route.totalDistanceKm && 0 <= route.totalDurationMinutes ==> p <= 0.9
    ensures route.totalDistanceKm >= 500.0 && route.totalDurationMinutes >= 300 ==> p == 0.1
    ensures route.totalDistanceKm == 0.0 && route.totalDurationMinutes == 0 ==> p == 0.9
  {
    var distanceFactor := Clip0(1.0 - route.totalDistanceKm / 500.0);
    var timeFactor := Clip0(1.0 - route.totalDurationMinutes as real / 300.0);
    distanceFactor * 0.4 + timeFactor * 0.4 + HospitalFactor * 0.2
  }

  /** The priority never increases with distance or duration. */
  lemma PriorityNonIncreasing(r1: Route, r2: Route)
    requires r1.totalDistanceKm <= r2.totalDistanceKm
    requires r1.totalDurationMinutes <= r2.totalDurationMinutes
    ensures CalculateRoutePriority(r2) <= CalculateRoutePriority(r1)
  {
  }

  /** One ranked candidate of `get_multiple_routes`. */
  datatype RouteEntry = RouteEntry(hospital: Hospital, totalDistanceKm: real, totalDurationMinutes: int,
                                   estimatedArrival: int, priorityScore: real)

  function EntryFor(arc: CentralAngle, userLat: real, userLon: real, h: Hospital, now: int): RouteEntry
  {
    var route := GetRoute(arc, userLat, userLon, h.latitude, h.longitude, "driving", now);
    RouteEntry(h, route.totalDistanceKm, route.totalDurationMinutes, route.estimatedArrival,
               CalculateRoutePriority(route))
  }

  /** A hospital no farther away never ranks lower: the duration grows with the
      distance, so the priority follows the distance. */
  lemma NearerRanksNoLower(arc: CentralAngle, userLat: real, userLon: real, near: Hospital, far: Hospital,
                           now: int)
    requires EntryFor(arc, userLat, userLon, near, now).totalDistanceKm
          <= EntryFor(arc, userLat, userLon, far, now).totalDistanceKm
    ensures EntryFor(arc, userLat, userLon, far, now).priorityScore
         <= EntryFor(arc, userLat, userLon, near, now).priorityScore
  {
    var r1 := GetRoute(arc, userLat, userLon, near.latitude, near.longitude, "driving", now);
    var r2 := GetRoute(arc, userLat, userLon, far.latitude, far.longitude, "driving", now);
    TruncMonotone(r1.totalDistanceKm / 50.0 * 60.0, r2.totalDistanceKm / 50.0 * 60.0);
    PriorityNonIncreasing(r1, r2);
  }

  /** The entries in input order, before ranking. */
  function Entries(arc: CentralAngle, userLat: real, userLon: real, hospitals: seq<Hospital>, now: int)
    : (es: seq<RouteEntry>)
    ensures |es| == |hospitals|
    ensures forall i :: 0 <= i < |es| ==> es[i].hospital == hospitals[i]
  {
    seq(|hospitals|, i requires 0 <= i < |hospitals| => EntryFor(arc, userLat, userLon, hospitals[i], now))
  }

  /** Sort key: ascending on the negated score is descending on the score. */
  function Rank(e: RouteEntry): real
  {
    -e.priorityScore
  }

  /** `get_multiple_routes`: one entry per hospital, ranked by priority, highest
      first, equal scores in input order. */
  method GetMultipleRoutes(arc: CentralAngle, userLat: real, userLon: real, hospitals: seq<Hospital>, now: int)
    returns (routes: seq<RouteEntry>)
    ensures routes == StableSort.Sort(Entries(arc, userLat, userLon, hospitals, now), Rank)
    ensures |routes| == |hospitals|
    ensures multiset(routes) == multiset(Entries(arc, userLat, userLon, hospitals, now))
    ensures forall i, j :: 0 <= i < j < |routes| ==> routes[i].priorityScore >= routes[j].priorityScore
    ensures forall k :: StableSort.WithKey(routes, Rank, k)
                     == StableSort.WithKey(Entries(arc, userLat, userLon, hospitals, now), Rank, k)
  {
    routes := [];
    var i := 0;
    while i < |hospitals|
      invariant 0 <= i <= |hospitals|
      invariant |routes| == i
      invariant forall k :: 0 <= k < i ==> routes[k] == EntryFor(arc, userLat, userLon, hospitals[k], now)
    {
      var route := GetRoute(arc, userLat, userLon, hospitals[i].latitude, hospitals[i].longitude, "driving", now);
      var info := RouteEntry(hospitals[i], route.totalDistanceKm, route.totalDurationMinutes,
                             route.estimatedArrival, CalculateRoutePriority(route));
      routes := routes + [info];
      i := i + 1;
    }
    ghost var unsorted := routes;
    assert unsorted == Entries(arc, userLat, userLon, hospitals, now);
    routes := StableSort.Sort(routes, Rank);
    StableSort.SortAscending(unsorted, Rank);
    assert forall i, j :: 0 <= i < j < |routes| ==> Rank(routes[i]) <= Rank(routes[j]);
    forall k
      ensures StableSort.WithKey(routes, Rank, k) == StableSort.WithKey(unsorted, Rank, k)
    {
      StableSort.SortStable(unsorted, Rank, k);
    }
  }
}
