/** The request and response records of the routing service and the pure
    decisions of its route endpoints: shaping the result of a graph search,
    the graph radius, the road-factor fallback and the batch totals
    (routing-service/main.py:43-72, 151-205, 271-352). */
module RouteCalculation {
  import opened Wrappers
  import opened RoutingHelpers

  /** A point in degrees. */
  datatype Coordinates = Coordinates(lat: real, lng: real)

  /** The ranges the request schema enforces on a point. */
  predicate ValidCoordinates(c: Coordinates)
  {
    -90.0 <= c.lat <= 90.0 && -180.0 <= c.lng <= 180.0
  }

  datatype RouteRequest = RouteRequest(origin: Coordinates, destination: Coordinates, mode: string)

  /** What the request schema admits: points in range and one of the three
      known modes. */
  predicate ValidRequest(req: RouteRequest)
  {
    ValidCoordinates(req.origin) && ValidCoordinates(req.destination) && req.mode in KnownModes
  }

  /** A route answer; `path` holds the visited node positions as (x, y)
      pairs, `error` the note that explains a failure or a fallback. */
  datatype RouteResponse = RouteResponse(
    distanceKm: real,
    durationMinutes: real,
    mode: string,
    path: Option<seq<(real, real)>>,
    success: bool,
    error: Option<string>)

  datatype BatchRouteResponse = BatchRouteResponse(
    routes: seq<RouteResponse>,
    totalDistanceKm: real,
    totalDurationMinutes: real)

  /** The graph handle that stands for a downloaded OSMnx street network; its
      content is seen only through the path-search oracle. */
  datatype Graph = Graph(id: nat)

  /** A path found in a graph: the positions of its nodes, the sum of its
      edge lengths in metres and the sum of its edge travel times in seconds,
      which is absent when the path's edges have no travel-time attribute at
      all (edges that lack only some travel times are summed without them). */
  datatype Route = Route(coords: seq<(real, real)>, lengthMeters: real, travelTimeSeconds: Option<real>)

  /** The outcome of one shortest-path search: a path, no path (`None`), the
      graph library's no-path exception, or any other exception (from finding
      the nearest nodes, searching or measuring the path). */
  datatype ShortestPath = Found(route: Route) | NoRoute | NoPathRaised(msg: string) | Raised(msg: string)

  /** The two searches `calculate_route` may run on a graph: weighted by
      travel time, and weighted by length (run only when the first raises the
      no-path exception). */
  datatype PathQuery = PathQuery(byTravelTime: ShortestPath, byLength: ShortestPath)

  /** The search whose outcome `calculate_route` acts on. */
  function EffectiveSearch(q: PathQuery): (s: ShortestPath)
    ensures !q.byTravelTime.NoPathRaised? ==> s == q.byTravelTime
    ensures q.byTravelTime.NoPathRaised? ==> s == q.byLength
  {
    if q.byTravelTime.NoPathRaised? then q.byLength else q.byTravelTime
  }

  const NoPathNote: string := "No path found between points"

  /** A failed answer: zero distance and duration, no path, and a note. */
  function FailedRoute(mode: string, note: string): (r: RouteResponse)
    ensures !r.success && r.mode == mode && r.error == Some(note)
    ensures r.distanceKm == 0.0 && r.durationMinutes == 0.0 && r.path.None?
  {
    RouteResponse(0.0, 0.0, mode, None, false, Some(note))
  }

  /** `calculate_route`: shapes the outcome of the graph search into an
      answer. A found path is reported in kilometres and minutes; when its
      edges carry no travel time the duration is the distance at the mode's
      average speed. Anything else gives a failed answer with zero distance
      and duration. */
  function CalculateRoute(q: PathQuery, mode: string): (r: RouteResponse)
    ensures r.mode == mode
    ensures r.success <==> EffectiveSearch(q).Found?
    ensures !r.success ==> r.distanceKm == 0.0 && r.durationMinutes == 0.0 && r.path.None? && r.error.Some?
    ensures EffectiveSearch(q).NoRoute? ==> r.error == Some(NoPathNote)
    ensures EffectiveSearch(q).NoPathRaised? || EffectiveSearch(q).Raised? ==> r.error == Some(EffectiveSearch(q).msg)
    ensures r.success ==> var route := EffectiveSearch(q).route;
      && r.error.None?
      && r.path == Some(route.coords)
      && r.distanceKm * 1000.0 == route.lengthMeters
      && (route.travelTimeSeconds.Some? ==> r.durationMinutes * 60.0 == route.travelTimeSeconds.value)
      && (route.travelTimeSeconds.None? ==> r.durationMinutes * SpeedKmh(mode) == r.distanceKm * 60.0)
  {
    match EffectiveSearch(q)
    case NoRoute => FailedRoute(mode, NoPathNote)
    case NoPathRaised(msg) => FailedRoute(mode, msg)
    case Raised(msg) => FailedRoute(mode, msg)
    case Found(route) =>
      var distanceKm := route.lengthMeters / 1000.0;
      var durationMinutes :=
        match route.travelTimeSeconds
        case Some(seconds) => seconds / 60.0
        case None => distanceKm / SpeedKmh(mode) * 60.0;
      RouteResponse(distanceKm, durationMinutes, mode, Some(route.coords), true, None)
  }

  /** Python's `int(x)`: drops the fractional part, rounding toward zero. */
  function Trunc(x: real): (n: int)
    ensures Gap(x, n) < 1.0
    ensures x >= 0.0 ==> 0 <= n && n as real <= x
    ensures x < 0.0 ==> n <= 0 && x <= n as real
  {
    if x >= 0.0 then x.Floor else -((-x).Floor)
  }

  const MinRadius: int := 5000
  const MaxRadius: int := 50000

  /** The radius, in metres, of the graph downloaded around the midpoint of a
      request: 1.5 times the direct distance (in kilometres, so 1500 metres
      per kilometre), truncated, then clamped into [5000, 50000]: a value
      inside the interval is kept, one below it becomes 5000 and one above it
      becomes 50000. */
  function GraphRadius(directKm: real): (r: int)
    ensures MinRadius <= r <= MaxRadius
    ensures MinRadius <= Trunc(directKm * 1500.0) <= MaxRadius ==> r == Trunc(directKm * 1500.0)
    ensures r == MinRadius <==> Trunc(directKm * 1500.0) <= MinRadius
    ensures r == MaxRadius <==> Trunc(directKm * 1500.0) >= MaxRadius
  {
    var raw := Trunc(directKm * 1500.0);
    var atLeast := if raw > MinRadius then raw else MinRadius;
    if atLeast < MaxRadius then atLeast else MaxRadius
  }

  /** A longer direct distance never gives a smaller graph radius. */
  lemma GraphRadiusMonotone(d1: real, d2: real)
    requires d1 <= d2
    ensures GraphRadius(d1) <= GraphRadius(d2)
  {
  }

  /** Roads are taken to be 1.4 times as long as the straight line. */
  const RoadFactor: real := 1.4

  /** The road-factor estimate: 1.4 times the direct distance, travelled at
      the mode's average speed. It always succeeds and carries a note that
      says it is an estimate. */
  function Fallback(directKm: real, mode: string, note: string): (r: RouteResponse)
    ensures r.success && r.mode == mode && r.path.None? && r.error == Some(note)
    ensures r.distanceKm == RoadFactor * directKm
    ensures r.durationMinutes * SpeedKmh(mode) == r.distanceKm * 60.0
    ensures directKm >= 0.0 ==> r.distanceKm >= 0.0 && r.durationMinutes >= 0.0
  {
    var roadKm := directKm * RoadFactor;
    RouteResponse(roadKm, roadKm / SpeedKmh(mode) * 60.0, mode, None, true, Some(note))
  }

  const FallbackNote: string := "Used fallback calculation"
  const FallbackPrefix: string := "Used fallback: "

  /** A successful answer that estimates the route from the direct distance. */
  predicate IsFallbackFor(req: RouteRequest, r: RouteResponse, directKm: real)
  {
    && r.success && r.mode == req.mode
    && r.path.None? && r.error.Some?
    && r.distanceKm == RoadFactor * directKm
    && r.durationMinutes * SpeedKmh(req.mode) == r.distanceKm * 60.0
  }

  /** A successful answer that follows a path found in the street graph. */
  predicate IsRoutedFor(req: RouteRequest, r: RouteResponse)
  {
    r.success && r.mode == req.mode && r.path.Some? && r.error.None?
  }

  /** The decision `calculate_single_route` takes once the graph has been
      fetched (or its download has raised): a graph whose search succeeds
      gives the routed answer; a failed search or a raised download gives the
      road-factor estimate. Either way the answer is a success and echoes the
      requested mode, and both fallback branches give the same distance and
      duration. */
  function Respond(req: RouteRequest, graph: Result<Graph>, directKm: real, search: (Graph, Coordinates, Coordinates) -> PathQuery): (r: RouteResponse)
    ensures r.success && r.mode == req.mode
    ensures IsFallbackFor(req, r, directKm) || IsRoutedFor(req, r)
    ensures graph.Failure? ==> r == Fallback(directKm, req.mode, FallbackPrefix + graph.error)
    ensures graph.Success? ==>
      var routed := CalculateRoute(search(graph.value, req.origin, req.destination), req.mode);
      r == if routed.success then routed else Fallback(directKm, req.mode, FallbackNote)
  {
    match graph
    case Failure(e) => Fallback(directKm, req.mode, FallbackPrefix + e)
    case Success(g) =>
      var result := CalculateRoute(search(g, req.origin, req.destination), req.mode);
      if !result.success then Fallback(directKm, req.mode, FallbackNote) else result
  }

  /** The distance total of a batch: the sum over the successful answers
      only, accumulated in request order. */
  function SuccessfulDistance(rs: seq<RouteResponse>): (t: real)
    ensures (forall i :: 0 <= i < |rs| ==> rs[i].distanceKm >= 0.0) ==> t >= 0.0
  {
    if rs == [] then 0.0
    else
      var last := rs[|rs| - 1];
      SuccessfulDistance(rs[..|rs| - 1]) + (if last.success then last.distanceKm else 0.0)
  }

  /** The duration total of a batch, over the successful answers only. */
  function SuccessfulDuration(rs: seq<RouteResponse>): (t: real)
    ensures (forall i :: 0 <= i < |rs| ==> rs[i].durationMinutes >= 0.0) ==> t >= 0.0
  {
    if rs == [] then 0.0
    else
      var last := rs[|rs| - 1];
      SuccessfulDuration(rs[..|rs| - 1]) + (if last.success then last.durationMinutes else 0.0)
  }

  /** Appending one answer adds it to the totals exactly when it succeeded:
      the step the batch loop takes. */
  lemma SuccessfulTotalsAppend(rs: seq<RouteResponse>, r: RouteResponse)
    ensures SuccessfulDistance(rs + [r]) == SuccessfulDistance(rs) + (if r.success then r.distanceKm else 0.0)
    ensures SuccessfulDuration(rs + [r]) == SuccessfulDuration(rs) + (if r.success then r.durationMinutes else 0.0)
  {
    assert (rs + [r])[..|rs|] == rs;
  }

  /** Reference definitions: the answers that succeeded, in order, and plain
      sums over every answer. */
  function Succeeded(rs: seq<RouteResponse>): (s: seq<RouteResponse>)
    ensures |s| <= |rs|
    ensures forall i :: 0 <= i < |s| ==> s[i].success
    ensures forall x :: x in s <==> x in rs && x.success
  {
    if rs == [] then []
    else Succeeded(rs[..|rs| - 1]) + (if rs[|rs| - 1].success then [rs[|rs| - 1]] else [])
  }

  function TotalDistance(rs: seq<RouteResponse>): real
  {
    if rs == [] then 0.0 else TotalDistance(rs[..|rs| - 1]) + rs[|rs| - 1].distanceKm
  }

  function TotalDuration(rs: seq<RouteResponse>): real
  {
    if rs == [] then 0.0 else TotalDuration(rs[..|rs| - 1]) + rs[|rs| - 1].durationMinutes
  }

  /** The batch totals are the plain sums over the answers that succeeded. */
  lemma {:induction false} SuccessfulTotalsSumSucceeded(rs: seq<RouteResponse>)
    ensures SuccessfulDistance(rs) == TotalDistance(Succeeded(rs))
    ensures SuccessfulDuration(rs) == TotalDuration(Succeeded(rs))
  {
    if rs != [] {
      var init, last := rs[..|rs| - 1], rs[|rs| - 1];
      SuccessfulTotalsSumSucceeded(init);
      if last.success {
        var s := Succeeded(init) + [last];
        assert Succeeded(rs) == s;
        assert s[..|s| - 1] == Succeeded(init);
        assert TotalDistance(s) == TotalDistance(Succeeded(init)) + last.distanceKm;
        assert TotalDuration(s) == TotalDuration(Succeeded(init)) + last.durationMinutes;
      } else {
        assert Succeeded(init) + [] == Succeeded(init);
        assert Succeeded(rs) == Succeeded(init);
      }
    }
  }

  /** When every answer succeeded, as every answer of the route endpoint
      does, the batch totals are the sums over all answers. */
  lemma {:induction false} AllSucceededTotalsAreSums(rs: seq<RouteResponse>)
    requires forall i :: 0 <= i < |rs| ==> rs[i].success
    ensures SuccessfulDistance(rs) == TotalDistance(rs)
    ensures SuccessfulDuration(rs) == TotalDuration(rs)
  {
    if rs != [] {
      AllSucceededTotalsAreSums(rs[..|rs| - 1]);
    }
  }
}
