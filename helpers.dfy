/** The helper functions of the routing service: the mode tables and the
    graph cache key (routing-service/main.py:80-106). */
module RoutingHelpers {

  const Drive: string := "drive"
  const Walk: string := "walk"
  const Bike: string := "bike"

  /** The travel modes the service knows. Any other string falls back to the
      driving entries of both tables. */
  const KnownModes: set<string> := {Drive, Walk, Bike}

  /** The OSMnx network type downloaded for a travel mode: each known mode is
      its own network type and every other string is routed on the driving
      network. */
  function NetworkType(mode: string): (r: string)
    ensures r in KnownModes
    ensures mode in KnownModes ==> r == mode
    ensures mode !in KnownModes ==> r == Drive
  {
    if mode == Walk then Walk
    else if mode == Bike then Bike
    else Drive
  }

  /** The average speed, in km/h, used to turn a distance into a travel time:
      40 for driving, 5 for walking, 15 for cycling and 40 for any other
      string. The speed is always strictly positive, so dividing by it is
      safe. */
  function SpeedKmh(mode: string): (r: real)
    ensures r > 0.0
    ensures mode == Walk ==> r == 5.0
    ensures mode == Bike ==> r == 15.0
    ensures mode != Walk && mode != Bike ==> r == 40.0
  {
    if mode == Walk then 5.0
    else if mode == Bike then 15.0
    else 40.0
  }

  /** The speed table agrees with the network-type table: a mode travels at
      the speed of the network it is routed on. */
  lemma SpeedFollowsNetworkType(mode: string)
    ensures SpeedKmh(mode) == SpeedKmh(NetworkType(mode))
  {
  }

  /** Distance between a real number and an integer. */
  function Gap(y: real, n: int): real
  {
    if y >= n as real then y - n as real else n as real - y
  }

  /** Python's `round(y)` on a real: the nearest integer, ties to the even
      neighbour. */
  function RoundHalfEven(y: real): (n: int)
    ensures Gap(y, n) <= 0.5
    ensures forall m: int :: Gap(y, m) < 0.5 ==> m == n
    ensures Gap(y, n) == 0.5 ==> n % 2 == 0
  {
    var f := y.Floor;
    var frac := y - f as real;
    if frac < 0.5 then f
    else if frac > 0.5 then f + 1
    else if f % 2 == 0 then f
    else f + 1
  }

  /** A coordinate as `round(x, 2)` leaves it: a whole number of hundredths
      of a degree, and whether the value is the negative zero that Python
      gives for a negative coordinate that rounds to zero (its key text reads
      "-0.0", not "0.0"). */
  datatype RoundedDegrees = RoundedDegrees(hundredths: int, negativeZero: bool)

  /** `round(x, 2)` on a coordinate: the nearest hundredth, ties to the even
      hundredth, with the sign of a negative value kept when it rounds to
      zero. */
  function RoundDegrees(x: real): (d: RoundedDegrees)
    ensures Gap(x * 100.0, d.hundredths) <= 0.5
    ensures Gap(x * 100.0, d.hundredths) == 0.5 ==> d.hundredths % 2 == 0
    ensures d.negativeZero <==> x < 0.0 && d.hundredths == 0
  {
    var n := RoundHalfEven(x * 100.0);
    RoundedDegrees(n, x < 0.0 && n == 0)
  }

  /** The cache key of a graph: the centre rounded to two decimals, the mode
      and the download radius in metres. The key depends on nothing else, so
      two requests whose centres round alike share a cached graph. */
  datatype GraphKey = GraphKey(lat: RoundedDegrees, lng: RoundedDegrees, mode: string, dist: int)

  /** `get_graph_key`: the centre is rounded to 0.01 degree, the mode and the
      radius are kept as given. */
  function KeyOf(lat: real, lng: real, mode: string, dist: int): (k: GraphKey)
    ensures k.mode == mode && k.dist == dist
    ensures Gap(lat * 100.0, k.lat.hundredths) <= 0.5
    ensures Gap(lat * 100.0, k.lat.hundredths) == 0.5 ==> k.lat.hundredths % 2 == 0
    ensures k.lat.negativeZero <==> lat < 0.0 && k.lat.hundredths == 0
    ensures Gap(lng * 100.0, k.lng.hundredths) <= 0.5
    ensures Gap(lng * 100.0, k.lng.hundredths) == 0.5 ==> k.lng.hundredths % 2 == 0
    ensures k.lng.negativeZero <==> lng < 0.0 && k.lng.hundredths == 0
  {
    GraphKey(RoundDegrees(lat), RoundDegrees(lng), mode, dist)
  }

  /** Two centres that lie strictly within half a hundredth of a degree of
      the same grid point, asked for with the same mode and radius, share a
      cache key, provided that, in the cell around zero, they lie on the same
      side of zero. */
  lemma SameCellSameKey(lat1: real, lng1: real, lat2: real, lng2: real, mode: string, dist: int, cLat: int, cLng: int)
    requires Gap(lat1 * 100.0, cLat) < 0.5 && Gap(lat2 * 100.0, cLat) < 0.5
    requires Gap(lng1 * 100.0, cLng) < 0.5 && Gap(lng2 * 100.0, cLng) < 0.5
    requires cLat == 0 ==> (lat1 < 0.0 <==> lat2 < 0.0)
    requires cLng == 0 ==> (lng1 < 0.0 <==> lng2 < 0.0)
    ensures KeyOf(lat1, lng1, mode, dist) == KeyOf(lat2, lng2, mode, dist)
    ensures KeyOf(lat1, lng1, mode, dist).lat.hundredths == cLat
    ensures KeyOf(lat1, lng1, mode, dist).lng.hundredths == cLng
  {
  }

  /** Just west and just east of the prime meridian (within half a
      hundredth of a degree), the same latitude gives two different keys
      ("-0.0" and "0.0"), so the two sides never share a cached graph. */
  lemma PrimeMeridianSplitsKeys(lat: real, west: real, east: real, mode: string, dist: int)
    requires -0.005 < west < 0.0 <= east < 0.005
    ensures KeyOf(lat, west, mode, dist) != KeyOf(lat, east, mode, dist)
  {
  }
}
