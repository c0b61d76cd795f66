# GeoForge route playback — a Dafny model

GeoForge is an Android app that fakes the device's location along a road route. The user long-presses up to four waypoints on the map. A routing service returns the road's points. The app cuts every leg of the road into equally spaced points. A move simulator then walks a marker along those points on a timer and pushes each point as a mock location fix through the platform's test location providers.

This project models the logic of that pipeline as pure Dafny functions over immutable records and proves properties of it:

- **Outcomes** (`outcomes.dfy`): `Option`, `Result`, and the Kotlin exceptions the code can raise, modelled as values.
- **Geo** (`geo.dfy`): a point of real latitude and longitude, and planar linear interpolation.
- **RoutePartitioner** (`route_partitioner.dfy`):
  - travel-mode speeds, `getDirection` and `getTravelTime`;
  - `partitionRouteIntoEqualSegments` as written, plus a loop-level method proved equal to it;
  - a corrected partition.
- **MockLocation** (`mock_location.dfy`):
  - the mock provider's power/accuracy choice by SDK level;
  - its bounded-retry registration against the location manager, where the manager's answers are an oracle;
  - the fix record `pushLocation` sends;
  - `shutdown`, which swallows exceptions.
- **MoveSimulator** (`move_simulator.dfy`):
  - the playback state machine: start, the timer tick, finish and stop;
  - the total route distance and the tick interval;
  - the lazily created network and GPS handles, with the push/shutdown guards both as written (`AsWritten`) and corrected (`Corrected`);
  - each step returns the new state, the ordered list of effects it had outside the state, and the exception it threw, if any.
- **Text** (`text.dfy`): decimal rendering of numbers and splitting at a separator, used to read a tile URL back.
- **TileSource** (`tile_source.dfy`):
  - tile sizes and the tile source record;
  - the last-write-wins builder with its two `lateinit` fields;
  - the tile URL and a parser for it.
- **MapFactory** (`map_factory.dfy`): the five map types and the configuration each one gets, as written and as intended.
- **MainScreen** (`main_screen.dfy`):
  - preference decoding and the cache-size table;
  - the four-waypoint long-press rule;
  - building the simulator when the route arrives;
  - the stop button.

Distance metrics are function parameters. Wherever the platform answers, the answer is a parameter: registration attempts, clocks, the SDK level, and whether removing a test provider throws.

Where the code and the intended behaviour part ways, the model follows the code. The discrepancy is then listed under "## Findings", with a corrected definition next to it. The main screen follows the code too: it uses the duplicating partition, the crossed map factory and the as-written cache table. The corrected variants sit beside them.

## Model

| member | source | states |
|---|---|---|
| RoutePartitioner.SpeedKmPerHour | app/src/main/java/com/github/yohannestz/geoforge/map/GeoForgeRoutePartitioner.kt:6-10 | Foot is 5, bike is 20 and car is 60 km/h; every mode's speed is positive. |
| RoutePartitioner.GetDirection | app/src/main/java/com/github/yohannestz/geoforge/map/GeoForgeRoutePartitioner.kt:17-20 | For a non-zero metric distance, each component times that distance gives the latitude or longitude difference. |
| RoutePartitioner.GetTravelTime | app/src/main/java/com/github/yohannestz/geoforge/map/GeoForgeRoutePartitioner.kt:22-24 | The travel time times the speed in m/s (km/h divided by 3.6) is the metric distance. |
| RoutePartitioner.Partition | app/src/main/java/com/github/yohannestz/geoforge/map/GeoForgeRoutePartitioner.kt:26-59 | A segment count of at most 0 is rejected with the segments message before the route is looked at. A route of fewer than 2 points is rejected with the route message. The call succeeds exactly when neither applies. On success the output ends with the route's last point. |
| RoutePartitioner.PartitionLength | app/src/main/java/com/github/yohannestz/geoforge/map/GeoForgeRoutePartitioner.kt:38-58 | For a valid call the output has (n-1)*segments + 1 points. |
| RoutePartitioner.PartitionRouteIntoEqualSegments | app/src/main/java/com/github/yohannestz/geoforge/map/GeoForgeRoutePartitioner.kt:26-60 | The nested loops compute the partition. The travel mode and the discarded travel time have no effect on the result. |
| RoutePartitioner.PartitionLegStart | app/src/main/java/com/github/yohannestz/geoforge/map/GeoForgeRoutePartitioner.kt:38-45 | Output point i*segments is route point i, for every leg i. |
| RoutePartitioner.PartitionInterpolant | app/src/main/java/com/github/yohannestz/geoforge/map/GeoForgeRoutePartitioner.kt:47-54 | For 1 <= j < segments, output point i*segments+j is the interpolation between route[i] and route[i+1] at ratio j/(segments-1). |
| RoutePartitioner.PartitionSeamDuplicates | app/src/main/java/com/github/yohannestz/geoforge/map/GeoForgeRoutePartitioner.kt:45-58 | With at least 2 segments, each leg's last interpolant is already route[i+1], so every seam point appears twice in a row. |
| RoutePartitioner.PartitionEndsTwice | app/src/main/java/com/github/yohannestz/geoforge/map/GeoForgeRoutePartitioner.kt:47-58 | With at least 2 segments, the last two outputs are both the route's last point. |
| RoutePartitioner.PartitionOneSegmentIsIdentity | app/src/main/java/com/github/yohannestz/geoforge/map/GeoForgeRoutePartitioner.kt:43-58 | With one segment the inner loop is empty and the output is the input route. |
| RoutePartitioner.PartitionExample | app/src/main/java/com/github/yohannestz/geoforge/map/GeoForgeRoutePartitioner.kt:38-58 | A concrete two-point route cut into 5 segments, with its repeated end point. |
| RoutePartitioner.PartitionEvenly | app/src/main/java/com/github/yohannestz/geoforge/map/GeoForgeRoutePartitioner.kt:26-58 | Corrected partition: the same error cases and the same output length as the code. |
| RoutePartitioner.EvenlySpaced | app/src/main/java/com/github/yohannestz/geoforge/map/GeoForgeRoutePartitioner.kt:47-54 | In the corrected partition, output point i*segments+j is the interpolant at ratio j/segments, for 0 <= j <= segments. |
| RoutePartitioner.EvenlySpacedHasNoRepeats | app/src/main/java/com/github/yohannestz/geoforge/map/GeoForgeRoutePartitioner.kt:47-58 | In the corrected partition, consecutive points of a leg between distinct route points differ. |
| Geo.Lerp | app/src/main/java/com/github/yohannestz/geoforge/map/GeoForgeRoutePartitioner.kt:49-52 | Ratio 0 gives the start point and ratio 1 gives the end point. A leg between equal points is constant. |
| Geo.LerpInjective | app/src/main/java/com/github/yohannestz/geoforge/map/GeoForgeRoutePartitioner.kt:49-52 | Between distinct points, distinct ratios give distinct points. |
| MockLocation.ProviderName | app/src/main/java/com/github/yohannestz/geoforge/map/GeoForgeMoveSimulator.kt:43-47 | The network handle registers provider "network" and the GPS handle registers "gps". |
| MockLocation.CriteriaFor | app/src/main/java/com/github/yohannestz/geoforge/location/MockLocationProvider.kt:29-34 | SDK 30 and above gets power usage 1 and accuracy 2; below that it is 0 and 5. |
| MockLocation.Shutdown | app/src/main/java/com/github/yohannestz/geoforge/location/MockLocationProvider.kt:108-114 | Shutdown asks to remove the provider once. Whatever exception the removal throws is caught and dropped, so shutdown always passes. |
| MockLocation.AttemptCalls | app/src/main/java/com/github/yohannestz/geoforge/location/MockLocationProvider.kt:47-61 | An attempt removes the provider, adds it with the fixed capability flags and the chosen criteria, and enables it only if the add went through. |
| MockLocation.Startup | app/src/main/java/com/github/yohannestz/geoforge/location/MockLocationProvider.kt:39-68 | There are no attempts when the retry count has reached the maximum. Attempt k makes the calls oracle(k) dictates, and there are never more than the maximum. Failure is the MOCK_LOCATION security error, raised after exactly the remaining attempts. |
| MockLocation.StartupPasses | app/src/main/java/com/github/yohannestz/geoforge/location/MockLocationProvider.kt:46-67 | Registration succeeds if and only if some attempt within the remaining retries is accepted. |
| MockLocation.StartupStopsAtAccept | app/src/main/java/com/github/yohannestz/geoforge/location/MockLocationProvider.kt:47-63 | Every attempt before the last was refused. A successful registration ends at the first accepted attempt. |
| MockLocation.Register | app/src/main/java/com/github/yohannestz/geoforge/location/MockLocationProvider.kt:26-37 | Construction starts at retry 0 of 3. There are 1 to 3 attempts. It succeeds if and only if one of the first three is accepted, stops at the first accepted one, and otherwise throws after exactly three. |
| MockLocation.RegisterFirstTry | app/src/main/java/com/github/yohannestz/geoforge/location/MockLocationProvider.kt:36-61 | When the first attempt is accepted, there is exactly one attempt and it succeeds. |
| MockLocation.PushLocation | app/src/main/java/com/github/yohannestz/geoforge/location/MockLocationProvider.kt:77-101 | The fix carries the given latitude and longitude unchanged, with altitude 3, speed 0.01, bearing 1, accuracy 3 and the current time. From SDK 26 the bearing, vertical and speed accuracies are 0.1, 0.1 and 0.01. From SDK 17 the fix carries the given realtime clock. Below those levels the fields are absent. |
| MoveSimulator.PlatformAccepts | app/src/main/java/com/github/yohannestz/geoforge/location/MockLocationProvider.kt:46-67 | A provider's handle can be constructed if and only if one of its three registration attempts is accepted. A refused network handle carries the security error. |
| MoveSimulator.PathLength | app/src/main/java/com/github/yohannestz/geoforge/map/GeoForgeMoveSimulator.kt:86-94 | Routes of fewer than 2 points have length 0. A non-negative metric gives a non-negative length. |
| MoveSimulator.CalculateDistanceBetweenPoints | app/src/main/java/com/github/yohannestz/geoforge/map/GeoForgeMoveSimulator.kt:86-94 | The loop sums the metric over consecutive pairs; it is proved equal to the recursive path length. |
| MoveSimulator.TimeIntervalCoversDistance | app/src/main/java/com/github/yohannestz/geoforge/map/GeoForgeMoveSimulator.kt:96-101 | The interval in ms times the speed (km/h * 10000 / 3600) is 1000 times the distance. |
| MoveSimulator.TimeIntervalProportional | app/src/main/java/com/github/yohannestz/geoforge/map/GeoForgeMoveSimulator.kt:32-33 | The interval scales linearly with the distance it is given. That distance is the whole route's, so the period is the time for the whole route, not for one point. |
| MoveSimulator.ToLong | app/src/main/java/com/github/yohannestz/geoforge/map/GeoForgeMoveSimulator.kt:75 | Converting a double to Long truncates toward zero inside the Long range and saturates to Long.MAX_VALUE or Long.MIN_VALUE beyond it. The period is positive exactly when the interval is at least 1 ms. |
| MoveSimulator.StartSimulation | app/src/main/java/com/github/yohannestz/geoforge/map/GeoForgeMoveSimulator.kt:28-37 | Start sets the icon, adds the marker overlay and marks the simulator running; nothing else changes. The period is the whole route's time interval converted to a Long. The timer is scheduled at that period exactly when it is at least 1 ms; otherwise it throws the non-positive-period error. |
| MoveSimulator.StartPeriodIsRouteTime | app/src/main/java/com/github/yohannestz/geoforge/map/GeoForgeMoveSimulator.kt:32-33 | A started simulator ticks at the whole route's travel time, truncated to whole milliseconds (or the largest Long). |
| MoveSimulator.StopSimulation | app/src/main/java/com/github/yohannestz/geoforge/map/GeoForgeMoveSimulator.kt:78-84 | Stop cancels any timer, clears it and marks the simulator not running. It removes the marker and requests a redraw. The index and everything else are kept. |
| MoveSimulator.StopIdempotent | app/src/main/java/com/github/yohannestz/geoforge/map/GeoForgeMoveSimulator.kt:78-84 | Stopping twice leaves the state of stopping once. The second stop only repeats the overlay removal and the redraw. |
| MoveSimulator.RegisterHandle | app/src/main/java/com/github/yohannestz/geoforge/map/GeoForgeMoveSimulator.kt:44-46 | Constructing a handle succeeds if and only if the provider's registration succeeded; only then is the handle assigned. |
| MoveSimulator.CreateHandle | app/src/main/java/com/github/yohannestz/geoforge/map/GeoForgeMoveSimulator.kt:43-47 | The network handle is created first and the GPS handle after it. At most one handle is created per tick, none once both exist, and nothing else changes. |
| MoveSimulator.Selected | app/src/main/java/com/github/yohannestz/geoforge/map/GeoForgeMoveSimulator.kt:49-58 | As written, the guards pick only an unassigned handle, and none once both are assigned. Corrected, they pick only an assigned one. |
| MoveSimulator.UseHandle | app/src/main/java/com/github/yohannestz/geoforge/map/GeoForgeMoveSimulator.kt:49-58 | As written, no fix is ever pushed: the call goes to an unassigned handle and throws. Corrected, it never throws, and it pushes the point once some handle is assigned. |
| MoveSimulator.Finish | app/src/main/java/com/github/yohannestz/geoforge/map/GeoForgeMoveSimulator.kt:63-73 | Finish stops the simulator, then reports the end and leaves it not running and finished. With the corrected guards it then removes the test provider of the assigned handle. As written, the guards pick an unassigned handle: no removal is issued, and unless both handles are assigned the read throws UninitializedPropertyAccess. It visits and pushes nothing. |
| MoveSimulator.Deliver | app/src/main/java/com/github/yohannestz/geoforge/map/GeoForgeMoveSimulator.kt:43-59 | Creating a handle and pushing through the guarded one changes only the handle flags. Corrected, on a platform that accepts both providers, it pushes exactly the current point. As written it pushes nothing. |
| MoveSimulator.Advance | app/src/main/java/com/github/yohannestz/geoforge/map/GeoForgeMoveSimulator.kt:43-73 | After the marker moves, a tick that does not throw advances the index by exactly 1. It finishes exactly when the index reaches the route's size. |
| MoveSimulator.AdvanceVisitsNothing | app/src/main/java/com/github/yohannestz/geoforge/map/GeoForgeMoveSimulator.kt:43-73 | The part of a tick after the marker moves moves the marker nowhere. |
| MoveSimulator.AdvancePushes | app/src/main/java/com/github/yohannestz/geoforge/map/GeoForgeMoveSimulator.kt:49-59 | As written, the rest of a tick pushes nothing. Corrected and not throwing, it pushes exactly the current point. |
| MoveSimulator.Tick | app/src/main/java/com/github/yohannestz/geoforge/map/GeoForgeMoveSimulator.kt:39-73 | A tick at an index past the route throws index-out-of-bounds. Otherwise it moves the marker and the camera to route[index] first, then advances the index by 1 unless it throws, and finishes after the last point. |
| MoveSimulator.TickLog | app/src/main/java/com/github/yohannestz/geoforge/map/GeoForgeMoveSimulator.kt:39-61 | A tick visits exactly route[index]. As written it pushes nothing; corrected and not throwing, it pushes exactly route[index]. |
| MoveSimulator.IterateFinishes | app/src/main/java/com/github/yohannestz/geoforge/map/GeoForgeMoveSimulator.kt:61-66 | Over uninterrupted ticks the index advances by one per tick. Playback finishes exactly when the index reaches the route's size, and then the timer is gone and the simulator is not running. |
| MoveSimulator.IterateWalks | app/src/main/java/com/github/yohannestz/geoforge/map/GeoForgeMoveSimulator.kt:39-61 | Uninterrupted ticks visit the route's points in order, each exactly once. |
| MoveSimulator.AsWrittenNeverPushes | app/src/main/java/com/github/yohannestz/geoforge/map/GeoForgeMoveSimulator.kt:49-58 | As written, no run of any length pushes a single fix. |
| MoveSimulator.AsWrittenHaltsAtFirstPoint | app/src/main/java/com/github/yohannestz/geoforge/map/GeoForgeMoveSimulator.kt:43-58 | As written, the first tick on a fresh simulator throws at the first point. It throws either the unassigned-GPS-handle error or the registration error, and no later tick runs. |
| MoveSimulator.CorrectedTickerWalks | app/src/main/java/com/github/yohannestz/geoforge/map/GeoForgeMoveSimulator.kt:39-61 | With corrected guards, on a platform that accepts both providers, every tick visits and pushes exactly the current point. |
| MoveSimulator.CorrectedRunVisitsRoute | app/src/main/java/com/github/yohannestz/geoforge/map/GeoForgeMoveSimulator.kt:39-73 | Corrected, n ticks from index i visit and push route[i..i+n] without throwing. They finish exactly at the route's end, stopped. |
| MoveSimulator.StopHaltsRun | app/src/main/java/com/github/yohannestz/geoforge/map/GeoForgeMoveSimulator.kt:78-84 | After stop, no further tick happens: a run does nothing. |
| MoveSimulator.StartFresh | app/src/main/java/com/github/yohannestz/geoforge/map/GeoForgeMoveSimulator.kt:28-37 | Starting a new simulator whose period is at least 1 ms schedules the timer at index 0, running and not finished, with no handle assigned. |
| MoveSimulator.CorrectedRunFromStart | app/src/main/java/com/github/yohannestz/geoforge/map/GeoForgeMoveSimulator.kt:39-73 | Corrected, one tick per point from index 0 visits and pushes the whole route and ends finished and stopped. |
| MoveSimulator.CorrectedPlayback | app/src/main/java/com/github/yohannestz/geoforge/map/GeoForgeMoveSimulator.kt:28-75 | From construction, with corrected guards on a platform accepting both providers, playback visits and pushes every route point in order and ends stopped. |
| MoveSimulator.AsWrittenPlayback | app/src/main/java/com/github/yohannestz/geoforge/map/GeoForgeMoveSimulator.kt:28-75 | From construction, as written, playback halts at the first point without pushing anything. |
| TileSource.TileSizeValue | app/src/main/java/com/github/yohannestz/geoforge/map/TileSize.kt:3-7 | SIZE_SMALL is 256 pixels, SIZE_MEDIUM is 512 and SIZE_LARGE is 1024. |
| TileSource.TileSizeValueInjective | app/src/main/java/com/github/yohannestz/geoforge/map/TileSize.kt:3-7 | Distinct tile sizes have distinct values. |
| TileSource.SetAllLastWriteWins | app/src/main/java/com/github/yohannestz/geoforge/map/GeoForgeTileSource.kt:44-78 | After any chain of setters, each field holds the value of the last setter for it, or its prior value when no setter touched it. The two tile-size setters touch different fields. |
| TileSource.SetTwice | app/src/main/java/com/github/yohannestz/geoforge/map/GeoForgeTileSource.kt:44-78 | Two calls of the same setter leave the second call's value. |
| TileSource.SetCommutes | app/src/main/java/com/github/yohannestz/geoforge/map/GeoForgeTileSource.kt:44-78 | Setters of different fields commute: each updates only its own field. |
| TileSource.Build | app/src/main/java/com/github/yohannestz/geoforge/map/GeoForgeTileSource.kt:80-91 | Building fails if and only if the root URL or the tile size was never set. The root URL is read first. Otherwise all eight fields pass through unchanged. |
| TileSource.BuildAfterSetters | app/src/main/java/com/github/yohannestz/geoforge/map/GeoForgeTileSource.kt:35-91 | From a fresh builder, building succeeds exactly when both lateinit fields were set. The other fields are the last set values, or the defaults: null name, zoom 0/0, 0 pixels, null ending and null base URLs. |
| TileSource.TileUrl | app/src/main/java/com/github/yohannestz/geoforge/map/MapTilerTileSource.kt:26-30 | The tile URL starts with the root URL and ends with ".png?key=" and the API key. |
| TileSource.ParseTileUrlRoundTrip | app/src/main/java/com/github/yohannestz/geoforge/map/MapTilerTileSource.kt:27-29 | Reading a tile URL back gives the tile size value, zoom, x and y, in that order. |
| TileSource.TileUrlInjective | app/src/main/java/com/github/yohannestz/geoforge/map/MapTilerTileSource.kt:27-28 | For a fixed source, distinct tiles have distinct URLs. |
| TileSource.TileUrlIgnoresOtherFields | app/src/main/java/com/github/yohannestz/geoforge/map/MapTilerTileSource.kt:8-30 | The URL depends only on the root URL and the tile size. The pixel count, the filename ending, the name and the zoom range play no part. |
| MapFactory.CreateMap | app/src/main/java/com/github/yohannestz/geoforge/map/GeoForgeMapFactory.kt:7-75 | Every map type yields a source with zoom 0 to 18, 256 pixels, ".png", empty base URLs and the small tile size, and with the name and root URL its dispatch picks. |
| MapFactory.CreateMapRootsBijective | app/src/main/java/com/github/yohannestz/geoforge/map/GeoForgeMapFactory.kt:7-75 | The type-to-root-URL map is a bijection onto the five styles' roots. |
| MapFactory.CreateMapOwnRootOnlyForDataVis | app/src/main/java/com/github/yohannestz/geoforge/map/GeoForgeMapFactory.kt:7-15 | As written, only the data-vis type gets its own style's root. |
| MapFactory.CreateMapSwapsPairs | app/src/main/java/com/github/yohannestz/geoforge/map/GeoForgeMapFactory.kt:7-75 | The dispatch sends each type to the method named after it. Each create* body builds its swap partner's style (basic/outdoor and OSM/data-vis light), and the name it sets matches the root it sets. |
| MapFactory.CreateIntendedMap | app/src/main/java/com/github/yohannestz/geoforge/map/GeoForgeMapFactory.kt:17-75 | Corrected factory: each type gets its own style's name and root, with the same configuration chain. |
| MainScreen.DecodeMapType | app/src/main/java/com/github/yohannestz/geoforge/activity/MainActivity.kt:126-133 | A missing preference gives the basic style. A known code gives its type. Any other string gives the light data-vis style. |
| MainScreen.DecodeMapTypeRoundTrip | app/src/main/java/com/github/yohannestz/geoforge/activity/MainActivity.kt:126-133 | Decoding a type's code gives the type back. |
| MainScreen.DecodeCacheSize | app/src/main/java/com/github/yohannestz/geoforge/activity/MainActivity.kt:135-141 | A missing preference gives 5 MB. A known code gives its size. Any other string gives 10 MB. |
| MainScreen.DecodeCacheSizeRoundTrip | app/src/main/java/com/github/yohannestz/geoforge/activity/MainActivity.kt:135-141 | Decoding a cache size's code gives the size back. |
| MainScreen.CacheSizeBytes | app/src/main/java/com/github/yohannestz/geoforge/activity/MainActivity.kt:397-403 | As written, every size is its megabytes times 2^20 bytes, except fifty, which is 2^20. |
| MainScreen.FiftyBelowFive | app/src/main/java/com/github/yohannestz/geoforge/activity/MainActivity.kt:397-403 | As written, the "50 MB" cache is smaller than the "5 MB" one. |
| MainScreen.IntendedCacheSizeBytes | app/src/main/java/com/github/yohannestz/geoforge/activity/MainActivity.kt:397-403 | Corrected table: every size is its megabytes times 2^20 bytes. |
| MainScreen.IntendedCacheSizeMonotone | app/src/main/java/com/github/yohannestz/geoforge/activity/MainActivity.kt:397-405 | Corrected, byte sizes are ordered as the megabyte labels are, and they are positive and fit in a Long. |
| MainScreen.ConfigureMap | app/src/main/java/com/github/yohannestz/geoforge/activity/MainActivity.kt:126-147 | The screen's tile source is exactly the factory's source for the decoded type, crossing included, so the default is the outdoor-v2 root. Its cache trim is the as-written size of the decoded setting: 5 MiB by default and 1 MiB for "3". |
| MainScreen.ConfigureIntendedMap | app/src/main/java/com/github/yohannestz/geoforge/activity/MainActivity.kt:126-147 | Corrected configuration: the decoded type's own root (basic by default), and the decoded size in megabytes times 2^20. |
| MainScreen.LongPress | app/src/main/java/com/github/yohannestz/geoforge/activity/MainActivity.kt:178-201 | A long press appends the point and enables start while fewer than 4 waypoints are stored; otherwise nothing changes. It always reports the press as handled. |
| MainScreen.LongPressesKeepFirstFour | app/src/main/java/com/github/yohannestz/geoforge/activity/MainActivity.kt:182-198 | Any sequence of presses keeps the stored points followed by the first presses, up to 4 in total. Start is enabled exactly when some point is stored. |
| MainScreen.LongPressesFromStart | app/src/main/java/com/github/yohannestz/geoforge/activity/MainActivity.kt:171-198 | From the initial screen, the waypoints are the first up-to-4 presses, and start is disabled until the first press. |
| MainScreen.OnRouteReady | app/src/main/java/com/github/yohannestz/geoforge/activity/MainActivity.kt:215-258 | With no waypoints, reading the first one throws. Otherwise the road is cut into 25 segments per leg, and a simulator is built at 1025 km/h over (n-1)*25+1 points, not started. Its route is the partition as written, and the simulator is freshly constructed: index 0, no handle assigned, no marker overlay. Nothing else on the screen changes. |
| MainScreen.OnRouteReadyRepeatsSeams | app/src/main/java/com/github/yohannestz/geoforge/activity/MainActivity.kt:253-258 | The simulator's route starts each leg at its road point and plays every later road point twice in a row. |
| MainScreen.StopPressed | app/src/main/java/com/github/yohannestz/geoforge/activity/MainActivity.kt:293-300 | The stop button stops a running simulator only, and changes nothing else on the screen. Before the simulator exists, reading it throws. |
| MainScreen.StopNeverActs | app/src/main/java/com/github/yohannestz/geoforge/activity/MainActivity.kt:258-300 | Since the start call is commented out, the stop button never acts once the route arrived. |

## Left out

- IEEE double and float rounding: coordinates, distances and times are exact reals, so interpolation is exact.
- RoutePartitioner.GetDirection: requires a non-zero metric distance. For a zero-distance pair, Kotlin's division gives NaN or an infinite double, which reals cannot represent.
- MoveSimulator.StartSimulation: requires a non-zero speed. Kotlin's division by a zero speed gives an infinite or NaN double, which reals cannot represent.
- MoveSimulator.ToLong: NaN and the infinities are not represented, because the model's numbers are reals.
- Timer and Handler threading: each tick is one atomic step, and a stop disables every later tick. Races between a queued post and a cancel are not modelled.
- Starting a simulator twice: the model replaces the timer record; the first timer's leak is not modelled.
- The geodesic distance and the square-root metric of the main screen are function parameters. Only their non-negativity is assumed, where a property needs it.
- Env: holds one registration per provider, because each handle is constructed at most once per simulator.
- The platform clocks are parameters that keep one value over a run.
- The location manager's behaviour is an oracle of attempt outcomes, and the SDK level is a parameter.
- The foreground service, the view model with its routing call, and the waypoint list adapter with its reverse geocoding are not part of this model.
- Overlay drawing, the stop button's removal of the second-to-last overlay, marker icons, dialogs, permissions, layout visibility and camera animation are left out. Camera animation is logged as an effect only.
- Tile indices: zoom, x and y are taken as natural numbers, and the decoding of a packed tile index is left out.
- The API key comes from the build configuration and is an opaque string parameter.
- The `multiStopEnabled` preference only switches multi-touch on the map view, and is left out.

## Findings

| source | as written | input that shows it | evidently intended | confidence | as-written member | corrected member |
|---|---|---|---|---|---|---|
| app/src/main/java/com/github/yohannestz/geoforge/map/GeoForgeRoutePartitioner.kt:43-58 | The ratio is j/(segments-1) for j from 1 to segments-1, so each leg's last interpolant is already its end point, and the next leg or the final append repeats it. | The route (0,0),(0,10) with 5 segments gives (0,0),(0,2.5),(0,5),(0,7.5),(0,10),(0,10). | Ratio j/segments, giving points evenly spaced along each leg with no repeats. | high; not executed | RoutePartitioner.PartitionSeamDuplicates | RoutePartitioner.EvenlySpacedHasNoRepeats |
| app/src/main/java/com/github/yohannestz/geoforge/map/GeoForgeMoveSimulator.kt:49-72 | The push and shutdown guards test `!isInitialized`, so they pick a handle that was never assigned. | Any non-empty route on a platform that accepts the network provider: the first tick assigns the network handle, then reaches `mockGPS.pushLocation` on the unassigned GPS handle and throws. (If the platform refuses the network provider three times, the first tick throws its SecurityException instead.) | Guards that test `isInitialized`, pushing each point through an assigned handle. | high; not executed | MoveSimulator.AsWrittenPlayback | MoveSimulator.CorrectedPlayback |
| app/src/main/java/com/github/yohannestz/geoforge/activity/MainActivity.kt:402 | FIFTY_MB maps to 1024L * 1024 bytes. | cache size preference "3" gives a 1 MiB cache, smaller than the 5 MiB of preference "1". | 1024L * 1024L * 50L bytes. | high; not executed | MainScreen.FiftyBelowFive | MainScreen.IntendedCacheSizeMonotone |
| app/src/main/java/com/github/yohannestz/geoforge/map/GeoForgeMapFactory.kt:7-75 | The dispatch sends each type to the method named after it, but four create* bodies build their swap partner's style: createBasicMap builds "OutDoor V2" with the outdoor-v2 root, createOutDoorVersionTwoMap builds "Basic V2" with the basic-v2 root, and the OSM and data-vis-light methods are swapped the same way. | MAPTILER_BASIC_V2 yields the source named "OutDoor V2" with the outdoor-v2 root. | Each type gets the style it is named after. | medium; not executed | MapFactory.CreateMapOwnRootOnlyForDataVis | MapFactory.CreateIntendedMap |
