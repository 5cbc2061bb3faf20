/**
 * `NavigationService`: the in-memory table of navigation sessions, keyed by session
 * id. Sessions are started, updated with the traveller's position, and ended; no
 * operation removes one. The session id and the clock (integer seconds) are
 * supplied by the caller.
 */
module Navigation {
  import opened Wrappers
  import opened Geolocation
  import opened Routing

  datatype Status = Active | Completed

  datatype Session = Session(id: string, userId: string, route: Route, currentStep: int, startedAt: int,
                             status: Status, lastUpdate: Option<int>, currentPosition: Option<Coordinate>,
                             endedAt: Option<int>)

  const NotFoundMessage: string := "Navigation session not found"

  /** Reply of `start_navigation`: the route totals and the first leg. */
  datatype StartReply = StartReply(navigationId: string, totalDistanceKm: real, totalDurationMinutes: int,
                                   estimatedArrival: int, instruction: string, distanceMeters: real,
                                   durationSeconds: int, status: string)

  /** Reply of `update_navigation`: the not-found error or the progress report. */
  datatype UpdateReply =
    | UpdateError(error: string)
    | Progress(navigationId: string, remainingDistanceKm: real, remainingMinutes: int, currentStep: int,
               status: string)

  /** Reply of `end_navigation`: the not-found error or the elapsed whole minutes. */
  datatype EndReply =
    | EndError(error: string)
    | Ended(navigationId: string, status: string, durationMinutes: int)

  /** A stored session: filed under its own id, on a well-formed route, at a step of
      that route; it has an end time exactly when it is completed, and a position
      exactly when it has been updated. */
  ghost predicate SessionOk(key: string, s: Session)
  {
    && s.id == key
    && WellFormed(s.route)
    && 0 <= s.currentStep < |s.route.steps|
    && (s.status == Completed <==> s.endedAt.Some?)
    && (s.lastUpdate.Some? <==> s.currentPosition.Some?)
  }

  /** What every operation guarantees of the sessions already in the table other than
      `except`: they stay, a completed one stays completed, and its user, route, step
      and start time do not change. */
  ghost predicate Evolves(before: map<string, Session>, after: map<string, Session>, except: Option<string>)
  {
    && before.Keys <= after.Keys
    && forall id :: id in before && (except.None? || id != except.value) ==>
         && after[id].userId == before[id].userId
         && after[id].route == before[id].route
         && after[id].currentStep == before[id].currentStep
         && after[id].startedAt == before[id].startedAt
         && (before[id].status == Completed ==> after[id].status == Completed)
  }

  /** Whole minutes between two clock readings, as `int(seconds / 60)` computes them. */
  function ElapsedMinutes(startedAt: int, endedAt: int): (m: int)
    ensures startedAt <= endedAt ==> 0 <= m && 60 * m <= endedAt - startedAt < 60 * (m + 1)
    ensures endedAt < startedAt ==> m <= 0
  {
    Trunc((endedAt - startedAt) as real / 60.0)
  }

  class NavigationService {
    const arc: CentralAngle
    var activeNavigations: map<string, Session>

    ghost predicate Valid()
      reads this
    {
      forall id :: id in activeNavigations ==> SessionOk(id, activeNavigations[id])
    }

    constructor (arc: CentralAngle)
      ensures Valid()
      ensures this.arc == arc && activeNavigations == map[]
    {
      this.arc := arc;
      activeNavigations := map[];
    }

    /** `start_navigation`: files a new active session at step 0 under `navigationId`
        (replacing any session already filed there) and reports the first leg. */
    method StartNavigation(navigationId: string, userId: string, startLat: real, startLon: real,
                           endLat: real, endLon: real, mode: string, now: int)
      returns (reply: StartReply)
      requires Valid()
      modifies this
      ensures Valid()
      ensures var route := GetRoute(arc, startLat, startLon, endLat, endLon, mode, now);
              && activeNavigations == old(activeNavigations)[navigationId :=
                   Session(navigationId, userId, route, 0, now, Active, None, None, None)]
              && reply == StartReply(navigationId, route.totalDistanceKm, route.totalDurationMinutes,
                                     route.estimatedArrival, route.steps[0].instruction,
                                     route.steps[0].distanceMeters, route.steps[0].durationSeconds, "started")
      ensures reply.instruction == FirstInstruction
      ensures Evolves(old(activeNavigations), activeNavigations, Some(navigationId))
    {
      var route := GetRoute(arc, startLat, startLon, endLat, endLon, mode, now);
      var session := Session(navigationId, userId, route, 0, now, Active, None, None, None);
      activeNavigations := activeNavigations[navigationId := session];
      reply := StartReply(navigationId, route.totalDistanceKm, route.totalDurationMinutes,
                          route.estimatedArrival, route.steps[0].instruction,
                          route.steps[0].distanceMeters, route.steps[0].durationSeconds, "started");
    }

    /** `update_navigation`: records the position and time, and reports the
        straight-line distance and driving time left to the route's end. */
    method UpdateNavigation(navigationId: string, currentLat: real, currentLon: real, now: int)
      returns (reply: UpdateReply)
      requires Valid()
      modifies this
      ensures Valid()
      ensures navigationId !in old(activeNavigations) ==>
                reply == UpdateError(NotFoundMessage) && activeNavigations == old(activeNavigations)
      ensures navigationId in old(activeNavigations) ==>
                var s := old(activeNavigations)[navigationId];
                var remaining := CalculateDistance(arc, Location(currentLat, currentLon),
                                                   Location(s.route.endLocation.0, s.route.endLocation.1));
                && activeNavigations == old(activeNavigations)[navigationId :=
                     s.(lastUpdate := Some(now), currentPosition := Some((currentLat, currentLon)))]
                && reply == Progress(navigationId, remaining.distanceKm, remaining.travelMinutes,
                                     s.currentStep, "active")
      ensures Evolves(old(activeNavigations), activeNavigations, None)
    {
      if navigationId !in activeNavigations {
        return UpdateError(NotFoundMessage);
      }
      var session := activeNavigations[navigationId];
      var route := session.route;
      var remaining := CalculateDistance(arc, Location(currentLat, currentLon),
                                         Location(route.endLocation.0, route.endLocation.1));
      activeNavigations := activeNavigations[navigationId :=
        session.(lastUpdate := Some(now), currentPosition := Some((currentLat, currentLon)))];
      reply := Progress(navigationId, remaining.distanceKm, remaining.travelMinutes, session.currentStep, "active");
    }

    /** `end_navigation`: marks the session completed at `now` (again, if it already
        was) and reports the whole minutes since it started. */
    method EndNavigation(navigationId: string, now: int) returns (reply: EndReply)
      requires Valid()
      modifies this
      ensures Valid()
      ensures navigationId !in old(activeNavigations) ==>
                reply == EndError(NotFoundMessage) && activeNavigations == old(activeNavigations)
      ensures navigationId in old(activeNavigations) ==>
                var s := old(activeNavigations)[navigationId];
                && activeNavigations == old(activeNavigations)[navigationId :=
                     s.(status := Completed, endedAt := Some(now))]
                && reply == Ended(navigationId, "completed", ElapsedMinutes(s.startedAt, now))
      ensures Evolves(old(activeNavigations), activeNavigations, None)
    {
      if navigationId !in activeNavigations {
        return EndError(NotFoundMessage);
      }
      var session := activeNavigations[navigationId];
      activeNavigations := activeNavigations[navigationId := session.(status := Completed, endedAt := Some(now))];
      reply := Ended(navigationId, "completed", ElapsedMinutes(session.startedAt, now));
    }
  }

  /** Starting a session and ending it at the same instant: the session is completed
      and zero minutes elapsed. */
  method StartThenEnd(arc: CentralAngle, userId: string, startLat: real, startLon: real, endLat: real,
                      endLon: real, now: int)
    returns (started: StartReply, ended: EndReply)
    ensures started.instruction == FirstInstruction && started.status == "started"
    ensures ended == Ended("nav", "completed", 0)
  {
    var service := new NavigationService(arc);
    started := service.StartNavigation("nav", userId, startLat, startLon, endLat, endLon, "driving", now);
    ended := service.EndNavigation("nav", now);
  }
}
