# OSMnx routing service — a Dafny model of its decision core

The routing service (`routing-service/main.py`) answers "how far and how long
from A to B by car, on foot or by bike". It downloads an OpenStreetMap street
graph around the midpoint of the two points and keeps it in two caches: one in
memory and one on disk. It then searches the graph for the shortest path. When
anything goes wrong, it estimates the route as 1.4 times the straight-line
distance, travelled at a fixed average speed for the mode. A batch endpoint
answers a list of requests in order and totals their distances and durations.

This project models that core in Dafny and proves what the code promises:

- `helpers.dfy`, module `RoutingHelpers`: the mode tables (network type and
  average speed, with their defaults for unknown modes) and the graph cache
  key (centre rounded to hundredths of a degree, mode, radius).
- `route_calculation.dfy`, module `RouteCalculation`: the request and
  response records; shaping a graph-search outcome into an answer
  (`calculate_route`); the clamped graph radius; the road-factor fallback;
  the post-download decision of the single-route endpoint; the batch totals.
- `routing_service.dfy`, module `RoutingService`: class `Service` holds the
  memory cache and the disk cache as two `map` fields. Its methods are the
  cache lookup and the two endpoints, each proved against the pure functions
  above.
- `wrappers.dfy`, module `Wrappers`: `Option` and `Result`. A `Result`
  failure stands for a raised exception and carries its message.

Collaborators the model cannot see are parameters:
- the great-circle distance is a function `haversine` from two points to a real;
- the graph download (`graph_from_point` plus the edge speed and travel-time
  enrichment) is a function `download` from centre, radius and network type to
  a graph or an error;
- the path search (`nearest_nodes`, `shortest_path`, `route_to_gdf`) is a
  function `search` from a graph and two points to the outcomes of the
  travel-time search and the length search.

A graph is an opaque handle (`Graph`), seen only through `search`.

## Model

| member | source | states |
|---|---|---|
| `RoutingHelpers.NetworkType` | routing-service/main.py:81-88 | drive, walk and bike map to themselves; every other mode maps to drive; the result is always a known network type |
| `RoutingHelpers.SpeedKmh` | routing-service/main.py:91-98 | 5 km/h for walk, 15 for bike, 40 for drive and for any other mode; always strictly positive |
| `RoutingHelpers.SpeedFollowsNetworkType` | routing-service/main.py:81-98 | a mode's speed equals the speed of the network type it is routed on |
| `RoutingHelpers.RoundHalfEven` | routing-service/main.py:104-105 | `round` gives the nearest integer (at most 0.5 away, the only one strictly closer than 0.5), ties to even |
| `RoutingHelpers.RoundDegrees` | routing-service/main.py:104-105 | `round(x, 2)` gives the nearest hundredth, ties to the even hundredth, and is a negative zero exactly when a negative coordinate rounds to zero |
| `RoutingHelpers.KeyOf` | routing-service/main.py:101-106 | the cache key keeps the mode and radius and holds each coordinate rounded to the nearest hundredth of a degree, ties to even, with the negative zero of a negative coordinate that rounds to zero |
| `RoutingHelpers.SameCellSameKey` | routing-service/main.py:101-106 | centres within half a hundredth of the same grid point, with equal mode and radius, share one key, provided that in the cell around zero they are on the same side of zero |
| `RoutingHelpers.PrimeMeridianSplitsKeys` | routing-service/main.py:104-106 | at any latitude, every point less than half a hundredth of a degree west of the prime meridian and every point less than half a hundredth east of it (or on it) get different keys ("-0.0" and "0.0"), so the two sides never share a cached graph |
| `RouteCalculation.EffectiveSearch` | routing-service/main.py:159-163 | the length-weighted search is used exactly when the travel-time search raises the no-path error |
| `RouteCalculation.FailedRoute` | routing-service/main.py:165-172 | a failed answer has zero distance and duration, no path, the mode echoed and the note |
| `RouteCalculation.CalculateRoute` | routing-service/main.py:151-205 | success exactly when a path is found; then distance is metres/1000, duration is seconds/60, or distance at the mode's speed when edge travel times are missing; otherwise zero distance and duration with "No path found between points" or the exception's message |
| `RouteCalculation.Trunc` | routing-service/main.py:286 | `int()` drops the fraction toward zero: less than 1 away, never beyond the input |
| `RouteCalculation.GraphRadius` | routing-service/main.py:285-287 | the radius lies in [5000, 50000]; it equals the truncated 1500 × direct distance when that is inside; it is 5000 exactly when that value is at or below 5000, and 50000 exactly when it is at or above 50000 |
| `RouteCalculation.GraphRadiusMonotone` | routing-service/main.py:285-287 | a longer direct distance never gives a smaller radius |
| `RouteCalculation.Fallback` | routing-service/main.py:296-326 | the estimate succeeds, echoes the mode, has no path, carries its note, is 1.4 × the direct distance long and takes that distance at the mode's speed; non-negative for a non-negative distance |
| `RouteCalculation.Respond` | routing-service/main.py:293-326 | the single-route answer is always a success with the mode echoed; a raised download gives the fallback noted "Used fallback: " + message, a failed search the fallback noted "Used fallback calculation" (same distance and duration), a successful search its own answer |
| `RouteCalculation.SuccessfulDistance` | routing-service/main.py:336-347 | the distance total sums successful answers only, in order; non-negative when every distance is |
| `RouteCalculation.SuccessfulDuration` | routing-service/main.py:336-347 | the duration total sums successful answers only, in order; non-negative when every duration is |
| `RouteCalculation.Succeeded` | routing-service/main.py:344 | the successful answers: never more than the answers, all of them successful, and every successful answer among them |
| `RouteCalculation.SuccessfulTotalsAppend` | routing-service/main.py:342-346 | appending an answer adds its distance and duration to the totals exactly when it succeeded |
| `RouteCalculation.SuccessfulTotalsSumSucceeded` | routing-service/main.py:344-346 | the accumulated totals equal the plain sums over the successful answers |
| `RouteCalculation.AllSucceededTotalsAreSums` | routing-service/main.py:336-352 | when every answer succeeded, the totals are the sums over all answers |
| `RoutingService.CachedOrDownloaded` | routing-service/main.py:109-148 | the memory entry wins, then the disk entry, then the download's outcome |
| `RoutingService.Midpoint` | routing-service/main.py:281-282 | the graph centre is equidistant in latitude and longitude from both endpoints |
| `RoutingService.Stored` | routing-service/main.py:114-142 | after a fetch the cache holds the fetched graph under the key and every other entry unchanged; a raised download leaves it as it was |
| `RoutingService.RequestKey` | routing-service/main.py:281-290 | a request's graph key carries the request's mode and a radius within [5000, 50000] |
| `RoutingService.KeptCachedGrows` | routing-service/main.py:114-123 | caches that only gain entries keep every graph they held |
| `RoutingService.ExtendFetch` | routing-service/main.py:340-342 | appending the next request's fetch to the chain of cache states keeps every step a fetch from the caches the previous requests left |
| `RoutingService.ExtendBatch` | routing-service/main.py:340-342 | appending the next answer keeps every answer tied to its own request and every fetched graph cached |
| `RoutingService.Service.constructor` | routing-service/main.py:36-40 | the service starts with an empty memory cache and the persisted disk cache, which is consistent |
| `RoutingService.Service.GetOrDownloadGraph` | routing-service/main.py:109-148 | a memory hit returns the cached graph and changes nothing; a disk hit returns the disk graph and copies it into memory under the same key; a miss downloads for the unrounded centre and the mode's network type and stores the graph under the key in both caches; a failed download is raised again with both caches unchanged; the memory cache stays a sub-map of the disk cache |
| `RoutingService.Service.CalculateSingleRoute` | routing-service/main.py:271-326 | the answer is `Respond` applied to the graph the caches or the download give for the midpoint, mode and clamped radius; it always succeeds and echoes the mode, and is either the fallback for the request's direct distance or a routed answer; a fetched graph is then stored under the request's key in both caches, with every other entry unchanged, and a raised download leaves both caches as they were |
| `RoutingService.Service.CalculateBatchRoutes` | routing-service/main.py:329-352 | one answer per request, in request order: answer i is `Respond` for request i and the graph (or raised download) it was answered from, so each is a success echoing its request's mode and either the fallback for that request's distance or a routed answer; request i fetches from the caches requests 0..i-1 left (a hit in memory, else on disk, else the request's own download) and changes each cache only by storing that fetch, so the final caches are the initial ones after those stores in order; every fetched graph is left in both caches under its request's key; the totals are the sums over the successful answers, which equal the sums over all answers; the caches only gain entries |

## Left out

- The FastAPI application, CORS middleware, the startup/shutdown hook, the `/health` and `/preload` endpoints and the `uvicorn` start-up. These are HTTP plumbing.
- `async`/`await`: the endpoints are modelled as sequential methods. Concurrent requests sharing the caches are not modelled.
- The body of `haversine_distance`. It is floating-point trigonometry; the model takes its result as the function parameter `haversine`, which never raises. In the source, the fallback branch calls it again (routing-service/main.py:316); if that call raised, the exception would escape `calculate_single_route` and fail the whole batch. So "every answer is a success" holds only under that assumption.
- The OSMnx and networkx calls. They are foreign library code; the model takes their outcomes from the `download` and `search` parameters.
- `download` and `search` are fixed functions of their arguments. A download that fails and then succeeds for the same arguments within one batch is not modelled.
- Floating point: all arithmetic is on exact reals. The `round(x, 2)` and `round(x, 1)` applied to response fields are not modelled; answers and totals are unrounded.
- `RoutingHelpers.RoundDegrees` rounds the exact real, not the nearest binary float, and there is no negative-zero input coordinate. `KeyOf` is a tuple, not the f-string the source builds from the rounded floats.
- The `maxsize=50` limit and the one-hour expiry of the memory cache. These would only remove memory entries. A batch with more than 50 distinct keys, or one that runs past an expiry, does not keep every fetched graph in memory in the source. So the claim of `RoutingService.Service.CalculateBatchRoutes` that every fetched graph is left in the memory cache holds in the model only. The disk cache's persistence and closing are also left out.
- `RoutingService.Service.GetOrDownloadGraph`: the disk cache's own size-based eviction and a disk read or write that raises are not modelled. In the source, the disk cache can evict a graph that memory still holds. A disk read that raises (routing-service/main.py:119-121) makes the request fall back to the estimate without downloading. A disk write that raises after the memory write (routing-service/main.py:141-142) leaves memory changed and also makes the request fall back. So `Valid()` (memory is a sub-map of disk) and "a fetched graph is in both caches" hold in the model only; the same applies to `CalculateSingleRoute` and `CalculateBatchRoutes`.
- A request that omits its mode gets `"drive"` when it is parsed (routing-service/main.py:52). Parsing is not modelled; every `RouteRequest` carries its mode.
- Logging.
- The request schema's range checks and the literal mode type are not executed. They are the `ValidRequest` precondition of the endpoints.
