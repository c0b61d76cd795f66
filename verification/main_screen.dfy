/** The pure decisions of the main screen: decoding the map type and the
    cache size from their preference strings, the cache size in bytes,
    collecting up to four waypoints by long presses, building the
    simulator when the route arrives, and the stop button. */
module MainScreen {
  import opened Outcomes
  import opened Geo
  import TileSource
  import opened MapFactory
  import opened RoutePartitioner
  import opened MoveSimulator

  // ---------------------------------------------------------------------
  // Preferences

  /** The value a preference read returns: `None` when the key is
      missing, in which case both reads here fall back to "1". */
  function PrefOrDefault(pref: Option<string>): string
  {
    if pref.None? then "1" else pref.value
  }

  /** The preference code of each map type. */
  function MapTypeCode(t: MapType): (code: string)
  {
    match t
    case BasicV2 => "1"
    case DataVis => "2"
    case OsmUrl => "3"
    case DataVisLight => "4"
    case OutdoorV2 => "5"
  }

  /** The map type the `mapType` preference selects: the type whose code
      it is; the basic style when it is missing; the light data-vis
      style for any other string. */
  function DecodeMapType(pref: Option<string>): (t: MapType)
    ensures pref.None? ==> t == BasicV2
    ensures pref.Some? && (forall u :: MapTypeCode(u) != pref.value) ==> t == DataVisLight
    ensures pref.Some? && (exists u :: MapTypeCode(u) == pref.value) ==> MapTypeCode(t) == pref.value
  {
    assert MapTypeCode(BasicV2) == "1" && MapTypeCode(DataVis) == "2" && MapTypeCode(OsmUrl) == "3";
    assert MapTypeCode(DataVisLight) == "4" && MapTypeCode(OutdoorV2) == "5";
    match PrefOrDefault(pref)
    case "1" => BasicV2
    case "2" => DataVis
    case "3" => OsmUrl
    case "4" => DataVisLight
    case "5" => OutdoorV2
    case _ => DataVisLight
  }

  /** Storing a map type's code and reading it back gives the type. */
  lemma DecodeMapTypeRoundTrip(t: MapType)
    ensures DecodeMapType(Some(MapTypeCode(t))) == t
  {
  }

  datatype CacheSizeType = FiveMB | TenMB | FiftyMB | HundredMB

  /** The preference code of each cache size. */
  function CacheSizeCode(c: CacheSizeType): (code: string)
  {
    match c
    case FiveMB => "1"
    case TenMB => "2"
    case FiftyMB => "3"
    case HundredMB => "4"
  }

  /** The cache size the `cacheSize` preference selects: the size whose
      code it is; five megabytes when it is missing; ten megabytes for
      any other string. */
  function DecodeCacheSize(pref: Option<string>): (c: CacheSizeType)
    ensures pref.None? ==> c == FiveMB
    ensures pref.Some? && (forall u :: CacheSizeCode(u) != pref.value) ==> c == TenMB
    ensures pref.Some? && (exists u :: CacheSizeCode(u) == pref.value) ==> CacheSizeCode(c) == pref.value
  {
    assert CacheSizeCode(FiveMB) == "1" && CacheSizeCode(TenMB) == "2";
    assert CacheSizeCode(FiftyMB) == "3" && CacheSizeCode(HundredMB) == "4";
    match PrefOrDefault(pref)
    case "1" => FiveMB
    case "2" => TenMB
    case "3" => FiftyMB
    case "4" => HundredMB
    case _ => TenMB
  }

  /** Storing a cache size's code and reading it back gives the size. */
  lemma DecodeCacheSizeRoundTrip(c: CacheSizeType)
    ensures DecodeCacheSize(Some(CacheSizeCode(c))) == c
  {
  }

  // ---------------------------------------------------------------------
  // Cache size in bytes

  const MiB := 1024 * 1024

  /** The number of megabytes each cache size is named after. */
  function Megabytes(c: CacheSizeType): nat
  {
    match c
    case FiveMB => 5
    case TenMB => 10
    case FiftyMB => 50
    case HundredMB => 100
  }

  /** The tile cache trim size the screen configures, as written: the
      fifty-megabyte size multiplies 1024 by 1024 and stops there. */
  function CacheSizeBytes(c: CacheSizeType): (bytes: int)
    ensures c != FiftyMB ==> bytes == Megabytes(c) * MiB
    ensures c == FiftyMB ==> bytes == MiB
  {
    match c
    case TenMB => 1024 * 1024 * 10
    case HundredMB => 1024 * 1024 * 100
    case FiveMB => 1024 * 1024 * 5
    case FiftyMB => 1024 * 1024
  }

  /** As written, the fifty-megabyte setting trims the cache to less than
      the five-megabyte one: the sizes are not in the order of their
      names. */
  lemma FiftyBelowFive()
    ensures CacheSizeBytes(FiftyMB) < CacheSizeBytes(FiveMB)
    ensures Megabytes(FiftyMB) > Megabytes(FiveMB)
  {
  }

  /** The cache size each setting is named after. */
  function IntendedCacheSizeBytes(c: CacheSizeType): (bytes: int)
    ensures bytes == Megabytes(c) * MiB
  {
    match c
    case TenMB => 1024 * 1024 * 10
    case HundredMB => 1024 * 1024 * 100
    case FiveMB => 1024 * 1024 * 5
    case FiftyMB => 1024 * 1024 * 50
  }

  /** The intended sizes grow with the names, and fit a Kotlin `Long`. */
  lemma IntendedCacheSizeMonotone(c: CacheSizeType, d: CacheSizeType)
    ensures Megabytes(c) <= Megabytes(d) <==> IntendedCacheSizeBytes(c) <= IntendedCacheSizeBytes(d)
    ensures 0 < IntendedCacheSizeBytes(c) <= LongMax
  {
  }

  /** What the screen configures from its preferences at creation. */
  datatype MapSettings = MapSettings(tileSource: TileSource.MapTilerTileSource, cacheTrimBytes: int)

  /** The map's tile source and the tile cache size, from the `mapType`
      and `cacheSize` preferences, as written: the factory's crossed
      styles and the as-written cache table. With no preference stored,
      the map shows the outdoor style. */
  function ConfigureMap(mapPref: Option<string>, cachePref: Option<string>): (r: MapSettings)
    ensures r.tileSource == CreateMap(DecodeMapType(mapPref))
    ensures r.tileSource.name == Some(NameAndRoot(DecodeMapType(mapPref)).0)
    ensures r.tileSource.rootURL == NameAndRoot(DecodeMapType(mapPref)).1
    ensures mapPref.None? ==> r.tileSource.rootURL == OutdoorV2Root
    ensures r.cacheTrimBytes == CacheSizeBytes(DecodeCacheSize(cachePref))
    ensures cachePref.None? ==> r.cacheTrimBytes == 5 * MiB
    ensures cachePref == Some("3") ==> r.cacheTrimBytes == MiB
  {
    MapSettings(CreateMap(DecodeMapType(mapPref)), CacheSizeBytes(DecodeCacheSize(cachePref)))
  }

  /** The same configuration with each map type given its own
      style and each cache size trimmed at the size it is named after. */
  function ConfigureIntendedMap(mapPref: Option<string>, cachePref: Option<string>): (r: MapSettings)
    ensures r.tileSource.rootURL == OwnRoot(DecodeMapType(mapPref))
    ensures mapPref.None? ==> r.tileSource.rootURL == BasicV2Root
    ensures cachePref.None? ==> r.cacheTrimBytes == 5 * MiB
    ensures r.cacheTrimBytes == Megabytes(DecodeCacheSize(cachePref)) * MiB
  {
    MapSettings(CreateIntendedMap(DecodeMapType(mapPref)), IntendedCacheSizeBytes(DecodeCacheSize(cachePref)))
  }

  // ---------------------------------------------------------------------
  // Waypoints, the route and the stop button

  const MaxWaypoints := 4
  /** The route is cut into 25 segments per leg, and the simulator runs
      at 1025 km/h. */
  const SegmentsPerLeg := 25
  const SimulatorSpeed := 1025.0

  /** What the screen keeps: the waypoints collected so far, whether the
      start button is enabled, and the simulator, a lateinit property
      assigned when the route arrives. */
  datatype Screen = Screen(waypoints: seq<GeoPoint>, startEnabled: bool, simulator: Option<Sim>)

  /** The screen after creation: no waypoints, the start button
      disabled, no simulator. */
  function InitialScreen(): Screen
  {
    Screen([], false, None)
  }

  /** A long press on the map: while fewer than four waypoints are
      stored, it appends the pressed point and enables the start button;
      otherwise it changes nothing. Either way the press is consumed. */
  function LongPress(s: Screen, p: GeoPoint): (r: (Screen, bool))
    ensures r.1
    ensures |s.waypoints| < MaxWaypoints ==> r.0 == s.(waypoints := s.waypoints + [p], startEnabled := true)
    ensures |s.waypoints| >= MaxWaypoints ==> r.0 == s
  {
    if |s.waypoints| < MaxWaypoints then (s.(waypoints := s.waypoints + [p], startEnabled := true), true)
    else (s, true)
  }

  /** A series of long presses, in order. */
  function LongPresses(s: Screen, ps: seq<GeoPoint>): Screen
    decreases |ps|
  {
    if ps == [] then s else LongPresses(LongPress(s, ps[0]).0, ps[1..])
  }

  function Min(a: int, b: int): int
  {
    if a <= b then a else b
  }

  /** From a screen holding at most four waypoints, a series of presses
      keeps the first presses that fit: the stored waypoints are the old
      ones followed by the leading presses, never more than four, and the
      start button is enabled once any point is stored. */
  lemma {:induction false} LongPressesKeepFirstFour(s: Screen, ps: seq<GeoPoint>)
    requires |s.waypoints| <= MaxWaypoints
    ensures var r := LongPresses(s, ps);
            var kept := Min(MaxWaypoints - |s.waypoints|, |ps|);
            && r.waypoints == s.waypoints + ps[..kept]
            && |r.waypoints| <= MaxWaypoints
            && (r.startEnabled <==> s.startEnabled || kept > 0)
            && r.simulator == s.simulator
    decreases |ps|
  {
    if ps != [] {
      var t := LongPress(s, ps[0]).0;
      LongPressesKeepFirstFour(t, ps[1..]);
      if |s.waypoints| < MaxWaypoints {
        var kept := Min(MaxWaypoints - |s.waypoints|, |ps|);
        assert ps[..kept] == [ps[0]] + ps[1..][..kept - 1];
      } else {
        assert ps[..0] == [];
      }
    }
  }

  /** From the initial screen: the waypoints are the first four presses,
      and the start button stays disabled until the first one. */
  lemma LongPressesFromStart(ps: seq<GeoPoint>)
    ensures LongPresses(InitialScreen(), ps).waypoints == ps[..Min(MaxWaypoints, |ps|)]
    ensures LongPresses(InitialScreen(), ps).startEnabled <==> |ps| > 0
  {
    LongPressesKeepFirstFour(InitialScreen(), ps);
  }

  /** The route arrived: read the first and the last waypoint, cut the
      road's points into 25 segments per leg, and build the simulator at
      1025 km/h. The simulator is assigned but never started. Reading the
      first waypoint of an empty list throws, and so does cutting a road
      of fewer than two points. */
  function OnRouteReady(s: Screen, roadPoints: seq<GeoPoint>): (r: Result<Screen>)
    ensures |s.waypoints| == 0 ==> r == Err(IndexOutOfBounds(0, 0))
    ensures |s.waypoints| > 0 && |roadPoints| < 2 ==> r == Err(IllegalArgument(RouteMessage))
    ensures r.Ok? <==> |s.waypoints| > 0 && |roadPoints| >= 2
    ensures r.Ok? ==> r.value.waypoints == s.waypoints && r.value.startEnabled == s.startEnabled
    ensures r.Ok? ==> r.value.simulator.Some? && !r.value.simulator.value.running
                      && r.value.simulator.value.timer == NoTimer
                      && r.value.simulator.value.speedKmPerHour == SimulatorSpeed
                      && |r.value.simulator.value.route| == (|roadPoints| - 1) * SegmentsPerLeg + 1
    ensures r.Ok? ==> r.value.simulator.value.route == Partition(roadPoints, SegmentsPerLeg).value
    ensures r.Ok? ==> r.value == s.(simulator := Some(NewSim(Partition(roadPoints, SegmentsPerLeg).value, SimulatorSpeed)))
    ensures r.Ok? ==> var sim := r.value.simulator.value;
                      sim.index == 0 && !sim.networkInit && !sim.gpsInit && sim.markerOverlays == 0 && !sim.finished
  {
    if |s.waypoints| == 0 then Err(IndexOutOfBounds(0, 0))
    else
      match Partition(roadPoints, SegmentsPerLeg)
      case Err(e) => Err(e)
      case Ok(route) =>
        OffsetIsProduct(|roadPoints| - 1, SegmentsPerLeg);
        Ok(s.(simulator := Some(NewSim(route, SimulatorSpeed))))
  }

  /** The simulator's route is the road cut as written: leg i starts at
      road point i, and every road point after the first is played twice
      in a row, the last one included. */
  lemma OnRouteReadyRepeatsSeams(s: Screen, roadPoints: seq<GeoPoint>, i: nat)
    requires OnRouteReady(s, roadPoints).Ok?
    requires i < |roadPoints| - 1
    ensures var route := OnRouteReady(s, roadPoints).value.simulator.value.route;
            && (i + 1) * SegmentsPerLeg < |route|
            && route[i * SegmentsPerLeg] == roadPoints[i]
            && route[(i + 1) * SegmentsPerLeg - 1] == roadPoints[i + 1]
            && route[(i + 1) * SegmentsPerLeg] == roadPoints[i + 1]
  {
    PartitionLegStart(roadPoints, SegmentsPerLeg, i);
    PartitionSeamDuplicates(roadPoints, SegmentsPerLeg, i);
  }

  /** The stop button: reading the simulator before the route arrived
      throws; a running simulator is stopped; otherwise nothing happens. */
  function StopPressed(s: Screen): (r: Result<Screen>)
    ensures s.simulator.None? ==> r == Err(UninitializedProperty("simulator"))
    ensures s.simulator.Some? && !s.simulator.value.running ==> r == Ok(s)
    ensures s.simulator.Some? && s.simulator.value.running ==>
              r.Ok? && r.value.simulator.Some? && !r.value.simulator.value.running
              && r.value.simulator.value.timer == NoTimer && r.value.waypoints == s.waypoints
    ensures s.simulator.Some? && s.simulator.value.running ==>
              r == Ok(s.(simulator := Some(StopSimulation(s.simulator.value).sim)))
  {
    match s.simulator
    case None => Err(UninitializedProperty("simulator"))
    case Some(sim) =>
      if sim.running then Ok(s.(simulator := Some(StopSimulation(sim).sim))) else Ok(s)
  }

  /** The screen never starts the simulator it builds, so once the route
      arrived the stop button never acts; before that it throws. */
  lemma StopNeverActs(s: Screen, roadPoints: seq<GeoPoint>)
    requires OnRouteReady(s, roadPoints).Ok?
    ensures StopPressed(OnRouteReady(s, roadPoints).value) == OnRouteReady(s, roadPoints)
    ensures StopPressed(InitialScreen()).Err?
  {
  }
}
