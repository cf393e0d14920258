/** The stateful part of the routing service: the two graph caches and the
    single-route and batch endpoints that use them
    (routing-service/main.py:36-40, 109-148, 271-352). */
module RoutingService {
  import opened Wrappers
  import opened RoutingHelpers
  import opened RouteCalculation

  /** Every entry of `a` is also an entry of `b`, with the same graph. */
  ghost predicate SubMap(a: map<GraphKey, Graph>, b: map<GraphKey, Graph>)
  {
    forall k :: k in a ==> k in b && b[k] == a[k]
  }

  /** The graph `get_or_download_graph` answers with for `key`: the memory
      entry if there is one, else the disk entry, else the outcome of the
      download. */
  function CachedOrDownloaded(memory: map<GraphKey, Graph>, disk: map<GraphKey, Graph>, key: GraphKey, downloaded: Result<Graph>): (g: Result<Graph>)
    ensures key in memory ==> g == Success(memory[key])
    ensures key !in memory && key in disk ==> g == Success(disk[key])
    ensures key !in memory && key !in disk ==> g == downloaded
  {
    if key in memory then Success(memory[key])
    else if key in disk then Success(disk[key])
    else downloaded
  }

  /** A cache after a fetch: a fetched graph is stored under the key, a
      raised download leaves the cache as it was. */
  function Stored(cache: map<GraphKey, Graph>, key: GraphKey, graph: Result<Graph>): (c: map<GraphKey, Graph>)
    ensures graph.Success? ==> key in c && c[key] == graph.value
    ensures forall k :: k in c && k != key ==> k in cache && c[k] == cache[k]
    ensures forall k :: k in cache && k != key ==> k in c && c[k] == cache[k]
    ensures graph.Failure? ==> c == cache
  {
    if graph.Success? then cache[key := graph.value] else cache
  }

  /** The midpoint of a request, around which its graph is downloaded. */
  function Midpoint(req: RouteRequest): (m: Coordinates)
    ensures m.lat - req.origin.lat == req.destination.lat - m.lat
    ensures m.lng - req.origin.lng == req.destination.lng - m.lng
  {
    Coordinates((req.origin.lat + req.destination.lat) / 2.0, (req.origin.lng + req.destination.lng) / 2.0)
  }

  /** The cache key under which a request's graph is looked up. */
  function RequestKey(req: RouteRequest, directKm: real): (k: GraphKey)
    ensures MinRadius <= k.dist <= MaxRadius && k.mode == req.mode
  {
    KeyOf(Midpoint(req).lat, Midpoint(req).lng, req.mode, GraphRadius(directKm))
  }

  /** The download a request triggers on a cache miss: the graph around the
      unrounded midpoint, with the clamped radius and the mode's network
      type (routing-service/main.py:128-134, called from line 290). A helper
      of the contracts of `CalculateSingleRoute` and `CalculateBatchRoutes`,
      whose model rows cover it. */
  function RequestDownload(req: RouteRequest, directKm: real, download: (real, real, int, string) -> Result<Graph>): (g: Result<Graph>)
  {
    download(Midpoint(req).lat, Midpoint(req).lng, GraphRadius(directKm), NetworkType(req.mode))
  }

  /** `answer` is what the single-route endpoint gives for `req` when the
      caches or the download yield `graph`; a raised download can only come
      from the request's own download. */
  ghost predicate AnsweredFrom(req: RouteRequest, answer: RouteResponse, graph: Result<Graph>,
                               haversine: (Coordinates, Coordinates) -> real,
                               download: (real, real, int, string) -> Result<Graph>,
                               search: (Graph, Coordinates, Coordinates) -> PathQuery)
  {
    var directKm := haversine(req.origin, req.destination);
    && answer == Respond(req, graph, directKm, search)
    && (graph.Failure? ==> graph == RequestDownload(req, directKm, download))
  }

  /** A graph fetched for `req` is held by both caches under the request's
      key. */
  ghost predicate KeptCached(memory: map<GraphKey, Graph>, disk: map<GraphKey, Graph>, req: RouteRequest,
                             graph: Result<Graph>, haversine: (Coordinates, Coordinates) -> real)
  {
    var key := RequestKey(req, haversine(req.origin, req.destination));
    graph.Success? ==> key in memory && memory[key] == graph.value && key in disk && disk[key] == graph.value
  }

  /** One request's fetch: `graph` is what the caches `memory` and `disk`
      (or, on a miss, the request's download) give for the request's key,
      and `memory'` and `disk'` are those caches after the fetch. */
  ghost predicate FetchStep(memory: map<GraphKey, Graph>, disk: map<GraphKey, Graph>,
                            memory': map<GraphKey, Graph>, disk': map<GraphKey, Graph>,
                            req: RouteRequest, graph: Result<Graph>,
                            haversine: (Coordinates, Coordinates) -> real,
                            download: (real, real, int, string) -> Result<Graph>)
  {
    var directKm := haversine(req.origin, req.destination);
    var key := RequestKey(req, directKm);
    && graph == CachedOrDownloaded(memory, disk, key, RequestDownload(req, directKm, download))
    && memory' == Stored(memory, key, graph)
    && disk' == Stored(disk, key, graph)
  }

  /** Appending the next request's fetch to the chain of cache states keeps
      every step of the chain a fetch. */
  lemma ExtendFetch(reqs: seq<RouteRequest>, graphs: seq<Result<Graph>>,
                    memories: seq<map<GraphKey, Graph>>, disks: seq<map<GraphKey, Graph>>,
                    graph: Result<Graph>, memory': map<GraphKey, Graph>, disk': map<GraphKey, Graph>,
                    haversine: (Coordinates, Coordinates) -> real,
                    download: (real, real, int, string) -> Result<Graph>)
    requires |graphs| < |reqs| && |memories| == |disks| == |graphs| + 1
    requires forall j :: 0 <= j < |graphs| ==>
      FetchStep(memories[j], disks[j], memories[j + 1], disks[j + 1], reqs[j], graphs[j], haversine, download)
    requires FetchStep(memories[|graphs|], disks[|graphs|], memory', disk', reqs[|graphs|], graph, haversine, download)
    ensures forall j :: 0 <= j < |graphs| + 1 ==>
      FetchStep((memories + [memory'])[j], (disks + [disk'])[j], (memories + [memory'])[j + 1], (disks + [disk'])[j + 1],
                reqs[j], (graphs + [graph])[j], haversine, download)
  {
    forall j | 0 <= j < |graphs| + 1
      ensures FetchStep((memories + [memory'])[j], (disks + [disk'])[j], (memories + [memory'])[j + 1], (disks + [disk'])[j + 1],
                        reqs[j], (graphs + [graph])[j], haversine, download)
    {
      assert (memories + [memory'])[j] == memories[j] && (disks + [disk'])[j] == disks[j];
      if j < |graphs| {
        assert (memories + [memory'])[j + 1] == memories[j + 1] && (disks + [disk'])[j + 1] == disks[j + 1];
        assert (graphs + [graph])[j] == graphs[j];
      }
    }
  }

  /** Caches that only gain entries keep every graph they held. */
  lemma KeptCachedGrows(memory: map<GraphKey, Graph>, disk: map<GraphKey, Graph>,
                        memory': map<GraphKey, Graph>, disk': map<GraphKey, Graph>,
                        req: RouteRequest, graph: Result<Graph>, haversine: (Coordinates, Coordinates) -> real)
    requires SubMap(memory, memory') && SubMap(disk, disk')
    requires KeptCached(memory, disk, req, graph, haversine)
    ensures KeptCached(memory', disk', req, graph, haversine)
  {
  }

  /** Appending the next request's answer and graph keeps every answer tied
      to its request and every fetched graph cached, once the caches have
      only gained entries. */
  lemma ExtendBatch(reqs: seq<RouteRequest>, results: seq<RouteResponse>, graphs: seq<Result<Graph>>,
                    result: RouteResponse, graph: Result<Graph>,
                    memory: map<GraphKey, Graph>, disk: map<GraphKey, Graph>,
                    memory': map<GraphKey, Graph>, disk': map<GraphKey, Graph>,
                    haversine: (Coordinates, Coordinates) -> real,
                    download: (real, real, int, string) -> Result<Graph>,
                    search: (Graph, Coordinates, Coordinates) -> PathQuery)
    requires |results| == |graphs| < |reqs|
    requires forall j :: 0 <= j < |results| ==> AnsweredFrom(reqs[j], results[j], graphs[j], haversine, download, search)
    requires forall j :: 0 <= j < |results| ==> KeptCached(memory, disk, reqs[j], graphs[j], haversine)
    requires SubMap(memory, memory') && SubMap(disk, disk')
    requires AnsweredFrom(reqs[|results|], result, graph, haversine, download, search)
    requires KeptCached(memory', disk', reqs[|results|], graph, haversine)
    ensures forall j :: 0 <= j < |results| + 1 ==>
      AnsweredFrom(reqs[j], (results + [result])[j], (graphs + [graph])[j], haversine, download, search)
    ensures forall j :: 0 <= j < |results| + 1 ==>
      KeptCached(memory', disk', reqs[j], (graphs + [graph])[j], haversine)
  {
    forall j | 0 <= j < |results| + 1
      ensures AnsweredFrom(reqs[j], (results + [result])[j], (graphs + [graph])[j], haversine, download, search)
      ensures KeptCached(memory', disk', reqs[j], (graphs + [graph])[j], haversine)
    {
      if j < |results| {
        KeptCachedGrows(memory, disk, memory', disk', reqs[j], graphs[j], haversine);
      }
    }
  }

  /** The service's module-level state: the in-memory graph cache and the
      on-disk graph cache, both keyed by `GraphKey`. */
  class Service {
    var memoryCache: map<GraphKey, Graph>
    var diskCache: map<GraphKey, Graph>

    /** A graph only enters memory from disk or together with its disk copy,
        so the memory cache is a sub-map of the disk cache. */
    ghost predicate Valid()
      reads this
    {
      SubMap(memoryCache, diskCache)
    }

    /** The service starts with an empty memory cache and whatever the disk
        cache held from earlier runs. */
    constructor (persisted: map<GraphKey, Graph>)
      ensures Valid()
      ensures memoryCache == map[] && diskCache == persisted
    {
      memoryCache := map[];
      diskCache := persisted;
    }

    /** `get_or_download_graph`: a memory hit changes nothing; a disk hit is
        copied into memory; a miss downloads the graph for the unrounded
        centre and the mode's network type and stores it in both caches; a
        failed download is raised again and changes nothing. */
    method GetOrDownloadGraph(lat: real, lng: real, mode: string, dist: int,
                              download: (real, real, int, string) -> Result<Graph>)
      returns (g: Result<Graph>)
      requires Valid()
      modifies this
      ensures Valid()
      ensures var key := KeyOf(lat, lng, mode, dist);
        g == CachedOrDownloaded(old(memoryCache), old(diskCache), key, download(lat, lng, dist, NetworkType(mode)))
      ensures var key := KeyOf(lat, lng, mode, dist);
        && (key in old(memoryCache) ==> memoryCache == old(memoryCache) && diskCache == old(diskCache))
        && (key !in old(memoryCache) && key in old(diskCache) ==>
              memoryCache == old(memoryCache)[key := old(diskCache)[key]] && diskCache == old(diskCache))
        && (key !in old(memoryCache) && key !in old(diskCache) && g.Success? ==>
              memoryCache == old(memoryCache)[key := g.value] && diskCache == old(diskCache)[key := g.value])
        && (g.Failure? ==> memoryCache == old(memoryCache) && diskCache == old(diskCache))
      ensures g.Success? ==> var key := KeyOf(lat, lng, mode, dist);
        key in memoryCache && memoryCache[key] == g.value && key in diskCache && diskCache[key] == g.value
    {
      var key := KeyOf(lat, lng, mode, dist);
      if key in memoryCache {
        return Success(memoryCache[key]);
      }
      if key in diskCache {
        var graph := diskCache[key];
        memoryCache := memoryCache[key := graph];
        return Success(graph);
      }
      var downloaded := download(lat, lng, dist, NetworkType(mode));
      match downloaded
      case Failure(e) =>
        g := Failure(e);
      case Success(graph) =>
        memoryCache := memoryCache[key := graph];
        diskCache := diskCache[key := graph];
        g := Success(graph);
    }

    /** `calculate_single_route`: fetches the graph around the midpoint with
        the clamped radius, routes on it, and answers with the road-factor
        estimate when routing fails or the download raises. The answer is
        always a success. A fetched graph is left in both caches under the
        request's key; a raised download leaves both caches as they were. */
    method CalculateSingleRoute(req: RouteRequest,
                                haversine: (Coordinates, Coordinates) -> real,
                                download: (real, real, int, string) -> Result<Graph>,
                                search: (Graph, Coordinates, Coordinates) -> PathQuery)
      returns (r: RouteResponse)
      requires Valid() && ValidRequest(req)
      modifies this
      ensures Valid()
      ensures var directKm := haversine(req.origin, req.destination);
        var key := RequestKey(req, directKm);
        var graph := CachedOrDownloaded(old(memoryCache), old(diskCache), key, RequestDownload(req, directKm, download));
        && r == Respond(req, graph, directKm, search)
        && memoryCache == Stored(old(memoryCache), key, graph)
        && diskCache == Stored(old(diskCache), key, graph)
      ensures r.success && r.mode == req.mode
      ensures IsFallbackFor(req, r, haversine(req.origin, req.destination)) || IsRoutedFor(req, r)
      ensures SubMap(old(memoryCache), memoryCache) && SubMap(old(diskCache), diskCache)
    {
      var mid := Midpoint(req);
      var directDistance := haversine(req.origin, req.destination);
      var graphRadius := GraphRadius(directDistance);
      var graph := GetOrDownloadGraph(mid.lat, mid.lng, req.mode, graphRadius, download);
      r := Respond(req, graph, directDistance, search);
    }

    /** `calculate_batch_routes`: answers the requests one after another, in
        order, sharing the caches between them, and totals distance and
        duration over the successful answers, which are all of them. `graphs`
        records the graph (or raised download) each request was answered
        from, and `memories` and `disks` the caches before each request and
        at the end: each request fetches from the caches the previous ones
        left, and the caches change only by those fetches. Every fetched
        graph is left cached under its request's key. */
    method CalculateBatchRoutes(reqs: seq<RouteRequest>,
                                haversine: (Coordinates, Coordinates) -> real,
                                download: (real, real, int, string) -> Result<Graph>,
                                search: (Graph, Coordinates, Coordinates) -> PathQuery)
      returns (resp: BatchRouteResponse, ghost graphs: seq<Result<Graph>>,
               ghost memories: seq<map<GraphKey, Graph>>, ghost disks: seq<map<GraphKey, Graph>>)
      requires Valid()
      requires forall i :: 0 <= i < |reqs| ==> ValidRequest(reqs[i])
      modifies this
      ensures Valid()
      ensures |resp.routes| == |reqs| && |graphs| == |reqs|
      ensures |memories| == |disks| == |reqs| + 1
      ensures memories[0] == old(memoryCache) && disks[0] == old(diskCache)
      ensures memories[|reqs|] == memoryCache && disks[|reqs|] == diskCache
      ensures forall i :: 0 <= i < |reqs| ==>
        FetchStep(memories[i], disks[i], memories[i + 1], disks[i + 1], reqs[i], graphs[i], haversine, download)
      ensures forall i :: 0 <= i < |reqs| ==> AnsweredFrom(reqs[i], resp.routes[i], graphs[i], haversine, download, search)
      ensures forall i :: 0 <= i < |reqs| ==>
        && resp.routes[i].success && resp.routes[i].mode == reqs[i].mode
        && (IsFallbackFor(reqs[i], resp.routes[i], haversine(reqs[i].origin, reqs[i].destination))
            || IsRoutedFor(reqs[i], resp.routes[i]))
      ensures forall i :: 0 <= i < |reqs| ==> KeptCached(memoryCache, diskCache, reqs[i], graphs[i], haversine)
      ensures resp.totalDistanceKm == SuccessfulDistance(resp.routes) == TotalDistance(resp.routes)
      ensures resp.totalDurationMinutes == SuccessfulDuration(resp.routes) == TotalDuration(resp.routes)
      ensures SubMap(old(memoryCache), memoryCache) && SubMap(old(diskCache), diskCache)
    {
      var results: seq<RouteResponse> := [];
      graphs := [];
      memories, disks := [memoryCache], [diskCache];
      var totalDistance := 0.0;
      var totalDuration := 0.0;
      for i := 0 to |reqs|
        invariant Valid()
        invariant |results| == i && |graphs| == i
        invariant |memories| == |disks| == i + 1
        invariant memories[0] == old(memoryCache) && disks[0] == old(diskCache)
        invariant memories[i] == memoryCache && disks[i] == diskCache
        invariant forall j :: 0 <= j < i ==>
          FetchStep(memories[j], disks[j], memories[j + 1], disks[j + 1], reqs[j], graphs[j], haversine, download)
        invariant forall j :: 0 <= j < i ==> AnsweredFrom(reqs[j], results[j], graphs[j], haversine, download, search)
        invariant forall j :: 0 <= j < i ==> KeptCached(memoryCache, diskCache, reqs[j], graphs[j], haversine)
        invariant totalDistance == SuccessfulDistance(results)
        invariant totalDuration == SuccessfulDuration(results)
        invariant SubMap(old(memoryCache), memoryCache) && SubMap(old(diskCache), diskCache)
      {
        ghost var memoryBefore, diskBefore := memoryCache, diskCache;
        ghost var directKm := haversine(reqs[i].origin, reqs[i].destination);
        ghost var graph := CachedOrDownloaded(memoryCache, diskCache, RequestKey(reqs[i], directKm),
                                              RequestDownload(reqs[i], directKm, download));
        var result := CalculateSingleRoute(reqs[i], haversine, download, search);
        assert AnsweredFrom(reqs[i], result, graph, haversine, download, search);
        assert KeptCached(memoryCache, diskCache, reqs[i], graph, haversine);
        ExtendBatch(reqs, results, graphs, result, graph, memoryBefore, diskBefore, memoryCache, diskCache,
                    haversine, download, search);
        assert FetchStep(memoryBefore, diskBefore, memoryCache, diskCache, reqs[i], graph, haversine, download);
        ExtendFetch(reqs, graphs, memories, disks, graph, memoryCache, diskCache, haversine, download);
        SuccessfulTotalsAppend(results, result);
        results := results + [result];
        graphs := graphs + [graph];
        memories, disks := memories + [memoryCache], disks + [diskCache];
        if result.success {
          totalDistance := totalDistance + result.distanceKm;
          totalDuration := totalDuration + result.durationMinutes;
        }
      }
      forall j | 0 <= j < |reqs|
        ensures && results[j].success && results[j].mode == reqs[j].mode
                && (IsFallbackFor(reqs[j], results[j], haversine(reqs[j].origin, reqs[j].destination))
                    || IsRoutedFor(reqs[j], results[j]))
      {
        assert AnsweredFrom(reqs[j], results[j], graphs[j], haversine, download, search);
      }
      AllSucceededTotalsAreSums(results);
      resp := BatchRouteResponse(results, totalDistance, totalDuration);
    }
  }
}
