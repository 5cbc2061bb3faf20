# Hospital geolocation and routing, modelled in Dafny

This project models the geolocation and routing layer of a prototype organ-transplant
backend. It has five parts:

- **Distance engine** (`GeolocationService`): great-circle distance, miles, and travel
  minutes at 50 km/h or at a per-mode speed.
- **Proximity filter** (`find_nearest_hospitals`): the hospitals within a radius,
  nearest first, ties in input order.
- **Compatibility scorer** (`OrganSearchService`): the ABO/Rh recipient→donor table and
  the availability score of an organ record (0.5 base + blood-type bonus + condition
  bonus, capped at 1.0).
- **Route synthesizer** (`RoutingService`): a two-leg route through the arithmetic
  midpoint, its 20%-faster emergency variant, a priority score, and the ranking of
  several hospitals by that score.
- **Navigation session table** (`NavigationService`): a class holding a
  `map<string, Session>`, with start, update and end.

Modules, one per component: `Geolocation` (geolocation.dfy), `OrganSearch`
(organ_search.dfy), `Routing` (routing.dfy), `Navigation` (navigation.dfy), plus
`StableSort` (stable_sort.dfy, the stable `list.sort`) and `Wrappers` (`Option`).

Modelling choices:

- Python floats are `real`s. Python's `int()` is `Geolocation.Trunc` (truncation toward
  zero), which equals the floor on non-negative values.
- The trigonometric part of the haversine formula, `2 * asin(sqrt(a))`, is a function
  value of type `CentralAngle` passed in by the caller. Its result type is the
  non-negative reals, which records the one fact the model uses. The distance is
  `6371.0` times that angle.
- `list.sort(key=...)` is stable; it is modelled by a stable insertion sort on sequences.
  `sort(..., reverse=True)` is also stable in Python, so it is the ascending sort on the
  negated key.
- The clock is a caller-supplied count of seconds (`now`).
  `estimated_arrival` is `now + 60 * minutes`.
- The navigation id is supplied by the caller. As in the source, starting a session
  under an id already in the table replaces that session. This is why
  `Evolves` exempts that one id in `StartNavigation`.

Behaviour of the source worth noting:

- `get_organ_availability_score`'s docstring (geolocation.py:161) says the score is
  between 0 and 1. It actually lies in [0.5, 1.0], and the cap at geolocation.py:180
  never takes effect.
- An exact blood-type match (geolocation.py:167-168) earns 0.3 for any non-empty
  string, even one outside the compatibility table.
- Ending an already completed session (routing_service.py:359-374) sets a new end time
  and reports the minutes up to that time. It is not idempotent.
- `update_navigation` computes the remaining time with `calculate_distance`
  (routing_service.py:343), so at a fixed 50 km/h whatever the session's transport mode.
- Each route leg's `duration_seconds` is `int(metres / 1000 * 60)`
  (routing_service.py:231-232, 243-244), which is 60 s per km (60 km/h). The route
  total uses 50 km/h. The model keeps both as written.

## Model

| member | source | states |
|---|---|---|
| `Geolocation.Trunc` | geolocation.py:59 | `int()` truncates toward zero: for x ≥ 0 the result is the largest integer ≤ x; for x < 0 it lies in [x, x+1) |
| `Geolocation.HaversineDistance` | geolocation.py:29-47 | the great-circle distance is never negative, and is zero exactly when the central angle is zero |
| `Geolocation.TravelMinutes` | geolocation.py:58-59 | travel minutes are the whole minutes, rounded down, that the distance takes at the given speed; never negative |
| `Geolocation.Derive` | geolocation.py:56-65 | miles are km × 0.621371; minutes are the floor of km / speed × 60 |
| `Geolocation.CalculateDistance` | geolocation.py:49-65 | km is the haversine distance; miles = km × 0.621371; minutes = floor(km / 50 × 60); all three non-negative |
| `Geolocation.SpeedKmh` | geolocation.py:112-118 | every mode's speed lies in [5, 50] km/h; a mode missing from the table travels at 50 |
| `Geolocation.CalculateRouteTime` | geolocation.py:99-126 | never `None`; km is the haversine distance, miles km × 0.621371, minutes floor(km / speed(mode) × 60) |
| `Geolocation.RouteTimeAgreesWithDistance` | geolocation.py:110-126 | for "driving" and for any unlisted mode the route time equals `calculate_distance` for the same endpoints |
| `Geolocation.SlowerModeNeverFaster` | geolocation.py:112-120 | a mode with a lower speed never gives fewer minutes (walking ≥ cycling ≥ public transport ≥ driving) |
| `Geolocation.Nearby` | geolocation.py:76-84 | the filtered list: each entry pairs a hospital with its own distance result, and that distance is within the radius |
| `Geolocation.NearbyCounts` | geolocation.py:79-84 | a hospital within the radius appears exactly as often as in the input; one outside it does not appear |
| `Geolocation.FindNearestHospitals` | geolocation.py:67-88 | the result is the stably sorted filtered list: every entry within the radius with its own distance, a permutation of the filtered list, ascending by distance, ties in input order, empty for empty input |
| `StableSort.Insert` | geolocation.py:87 | insertion adds exactly the one element (multiset) |
| `StableSort.Sort` | geolocation.py:87 | the sort returns a permutation of its input |
| `StableSort.SortAscending` | geolocation.py:86-87 | the sorted result is ascending by key |
| `StableSort.SortStable` | routing_service.py:209-210 | stability: for every key value, the elements with that key keep their input order |
| `OrganSearch.IsBloodTypeCompatible` | geolocation.py:182-196 | a recipient outside the eight listed types is compatible with no donor, and no unlisted donor is ever accepted |
| `OrganSearch.CompatibleIffAntigensIncluded` | geolocation.py:185-196 | the table is exactly the ABO/Rh rule: compatible iff both types are listed and the donor carries no antigen (A, B, RhD) the recipient lacks |
| `OrganSearch.ExtremeRecipients` | geolocation.py:185-196 | "O-" accepts only "O-"; "AB+" accepts exactly the eight listed types |
| `OrganSearch.SelfAndUniversalDonor` | geolocation.py:185-194 | each listed type accepts itself, and accepts donor "O-" |
| `OrganSearch.BloodTypeBonus` | geolocation.py:165-170 | the blood-type bonus is 0, 0.2 or 0.3 |
| `OrganSearch.ConditionBonus` | geolocation.py:172-178 | the condition bonus lies in [0, 0.2] |
| `OrganSearch.GetOrganAvailabilityScore` | geolocation.py:156-180 | the score always lies in [0.5, 1.0] |
| `OrganSearch.BloodTypeBonusCases` | geolocation.py:166-170 | an exact match adds 0.3 (taking precedence over compatibility); a different type adds 0.2 iff compatible; a missing or empty type on either side adds nothing |
| `OrganSearch.ConditionBonusCases` | geolocation.py:173-178 | excellent adds 0.2, good 0.1, fair 0.05, any other condition 0 |
| `OrganSearch.ScoreNeverCapped` | geolocation.py:163-180 | the cap at 1.0 never changes the score: it is exactly 0.5 plus the two bonuses |
| `OrganSearch.ScoreOrdersByCompatibility` | geolocation.py:163-180 | with the same condition, an exact match scores ≥ a compatible type, which scores strictly more than an incompatible one |
| `Routing.Midpoint` | routing_service.py:226-228 | the midpoint is equidistant, in each coordinate, from both ends |
| `Routing.CreateSimplifiedRouteSteps` | routing_service.py:214-254 | exactly two legs with the two fixed instructions: start → midpoint → end; equal halves summing to total km × 1000 m; each leg's seconds are floor(metres / 1000 × 60), non-negative for a non-negative total |
| `Routing.GetRoute` | routing_service.py:39-73 | totals equal `calculate_distance` for the endpoints; endpoints and mode stored unchanged; arrival = now + duration; the route is well formed (legs chain start to end, non-negative figures, legs sum to the total) |
| `Routing.RouteIgnoresMode` | routing_service.py:54-73 | two routes between the same points differ only in the recorded transport mode |
| `Routing.EmergencyScale` | routing_service.py:136 | `int(x * 0.8)` of a non-negative whole number is floor(0.8x), between 0 and x |
| `Routing.GetEmergencyRoute` | routing_service.py:124-181 | same endpoints and distance; minutes = floor(standard × 0.8) ≤ standard; time saved = standard − emergency ≥ 0; each leg changed only in its seconds, floor(0.8 × original) ≤ original; mode "emergency" |
| `Routing.EmergencyNoSlowerThanDriving` | routing_service.py:133-136 | the emergency duration never exceeds the standard driving route's duration |
| `Routing.Clip0` | routing_service.py:261 | `max(0, x)` is the least non-negative value ≥ x |
| `Routing.CalculateRoutePriority` | routing_service.py:256-276 | the score is ≥ 0.1, ≤ 0.9 for non-negative distance and duration, 0.9 at zero, 0.1 from 500 km and 300 min |
| `Routing.PriorityNonIncreasing` | routing_service.py:261-276 | the score never increases with distance or with duration |
| `Routing.NearerRanksNoLower` | routing_service.py:192-205 | a hospital no farther away never gets a lower priority score |
| `Routing.Entries` | routing_service.py:190-207 | one entry per hospital, in input order |
| `Routing.GetMultipleRoutes` | routing_service.py:183-212 | one entry per hospital (a permutation of the unsorted entries), priority descending, equal scores in input order |
| `Navigation.ElapsedMinutes` | routing_service.py:373 | for a non-decreasing clock the minutes are the whole minutes elapsed, rounded down, and never negative |
| `Navigation.NavigationService.constructor` | routing_service.py:281-283 | the table starts empty |
| `Navigation.NavigationService.StartNavigation` | routing_service.py:285-325 | files an active session at step 0 with the `get_route` route under the id; other sessions are unchanged; the reply carries the first leg, "Start navigation to destination" |
| `Navigation.NavigationService.UpdateNavigation` | routing_service.py:327-357 | unknown id: the not-found error and an unchanged table; otherwise only position and last update change; it reports the remaining `calculate_distance` and the unchanged step, with status "active"; no session is removed and a completed one stays completed |
| `Navigation.NavigationService.EndNavigation` | routing_service.py:359-374 | unknown id: the not-found error and an unchanged table; otherwise status becomes completed with the end time, nothing is removed, and it reports the elapsed whole minutes |
| `Navigation.StartThenEnd` | routing_service.py:285-374 | starting a session and ending it at the same instant yields the first-leg instruction, then "completed" with 0 minutes |

## Left out

- Geolocation.HaversineDistance: the trigonometric body (degree-to-radian conversion, sin, cos, asin, sqrt) is not modelled. It is supplied as a non-negative function, so symmetry, zero distance between identical points and fixture values such as Delhi to Mumbai are not proved.
- Floating-point rounding is not modelled. Real arithmetic is exact, so e.g. 0.5 + 0.3 + 0.2 is exactly 1.0.
- `round(..., 2)`, f-string summaries, ISO-8601 timestamps and the JSON-shaped dicts are presentation only. That covers `get_directions_to_hospital` as a whole and the recommendation texts and "HIGH" priority of `get_emergency_route`.
- Default arguments (`max_distance_km=500.0`, `transport_mode="driving"`, `user_blood_type=None`) become explicit parameters of the model's operations.
- `datetime.now()` is the caller's `now` (integer seconds). Where the source reads the clock twice in one call, the model uses one reading.
- The navigation id `nav_<user>_<timestamp>` is supplied by the caller. Concurrency around the session table is out of scope.
- `Location.address` and `DistanceResult.route_summary` are always `None` in the core and are not modelled. The unused `hospital` argument of `_calculate_route_priority` and the unused `earth_radius_miles` are dropped.
- OrganSearch.SearchOrgansNearby and Geolocation.GetCoordinatesFromAddress are the constant stubs of the source (always empty, always `None`). They carry no property beyond that.
- The database layer (engine, sessions, table creation, random sample data) is not part of this model; hospitals and organ records arrive as values.
