/** Playback of a route: a timer ticks once per period, each tick moves
    the marker and the camera to the next route point, creates the mock
    location handles one per tick, pushes a fix through the handle the
    guards pick, and after the last point stops the timer and reports the
    end. Each tick is one atomic step over an immutable record; everything
    the tick does outside the record is logged as an effect. */
module MoveSimulator {
  import opened Outcomes
  import opened Geo
  import opened MockLocation

  /** java.util.Timer rejects a non-positive period with this message. */
  const NonPositivePeriodMessage := "Non-positive period."

  /** The range of a Kotlin `Long`. */
  const LongMax: int := 0x7fff_ffff_ffff_ffff
  const LongMin: int := -0x8000_0000_0000_0000

  /** No timer, a timer created but not scheduled, or a scheduled one. */
  datatype Timer = NoTimer | Unscheduled | Scheduled(periodMs: int)

  /** The simulator's state. `markerOverlays` counts how many times the
      position marker sits in the map's overlay list; `networkInit` and
      `gpsInit` say whether the two lateinit handles were assigned;
      `finished` says whether the finish callback ran. */
  datatype Sim = Sim(
    route: seq<GeoPoint>,
    speedKmPerHour: real,
    index: nat,
    running: bool,
    timer: Timer,
    iconSet: bool,
    markerOverlays: nat,
    markerPosition: Option<GeoPoint>,
    center: Option<GeoPoint>,
    networkInit: bool,
    gpsInit: bool,
    finished: bool)

  /** What a step does outside the record, in order. */
  datatype Effect =
    | SetMarkerIcon
    | AddMarkerOverlay
    | ScheduleTimer(periodMs: int)
    | SetMarkerPosition(point: GeoPoint)
    | SetCenter(point: GeoPoint)
    | AnimateTo(point: GeoPoint)
    | CreateProvider(name: string, attempts: seq<seq<ManagerCall>>)
    | Manager(call: ManagerCall)
    | Invalidate
    | CancelTimer
    | RemoveMarkerOverlay
    | PostInvalidate
    | SimulationFinished

  /** The state after a step, its effects, and the exception it threw, if
      any. A step that throws keeps what it had done before the throw. */
  datatype Step = Step(sim: Sim, effects: seq<Effect>, thrown: Option<Exception>)

  /** What the platform does: its version, how constructing each
      provider's handle goes, the clocks, and how the removal of a test
      provider ends. Each handle is constructed at most once per
      simulator, so one registration per provider is all a run needs. */
  datatype Env = Env(
    sdk: int,
    network: Registration,
    gps: Registration,
    currentTimeMillis: int,
    elapsedRealtimeNanos: int,
    removal: Outcome)

  /** The environment of a platform whose location manager answers each
      provider's registration attempts as the given oracles say. */
  function Platform(sdk: int, networkOracle: nat -> AttemptOutcome, gpsOracle: nat -> AttemptOutcome,
                    currentTimeMillis: int, elapsedRealtimeNanos: int, removal: Outcome): Env
  {
    Env(sdk, Register(Network, sdk, networkOracle), Register(Gps, sdk, gpsOracle),
        currentTimeMillis, elapsedRealtimeNanos, removal)
  }

  /** A platform accepts a provider exactly when its oracle accepts one
      of the three attempts. */
  lemma PlatformAccepts(sdk: int, networkOracle: nat -> AttemptOutcome, gpsOracle: nat -> AttemptOutcome,
                        currentTimeMillis: int, elapsedRealtimeNanos: int, removal: Outcome)
    ensures var env := Platform(sdk, networkOracle, gpsOracle, currentTimeMillis, elapsedRealtimeNanos, removal);
            && (Accepts(env, Network) <==> exists k :: 0 <= k < MaxRetryCount && networkOracle(k) == Accepted)
            && (Accepts(env, Gps) <==> exists k :: 0 <= k < MaxRetryCount && gpsOracle(k) == Accepted)
            && (!Accepts(env, Network) ==> env.network.result.error == SecurityError(MockDeniedMessage))
  {
  }

  function RegistrationOf(env: Env, p: Provider): Registration
  {
    match p
    case Network => env.network
    case Gps => env.gps
  }

  /** Whether constructing the handle of provider `p` succeeds. */
  predicate Accepts(env: Env, p: Provider)
  {
    RegistrationOf(env, p).result.Pass?
  }

  /** A freshly constructed simulator. */
  function NewSim(route: seq<GeoPoint>, speedKmPerHour: real): (s: Sim)
  {
    Sim(route, speedKmPerHour, 0, false, NoTimer, false, 0, None, None, false, false, false)
  }

  // ---------------------------------------------------------------------
  // Timing

  /** The summed metric distance between consecutive route points. */
  function PathLength(metric: (GeoPoint, GeoPoint) -> real, route: seq<GeoPoint>): (d: real)
    ensures |route| < 2 ==> d == 0.0
    ensures NonNegative(metric) ==> d >= 0.0
  {
    if |route| < 2 then 0.0
    else PathLength(metric, route[..|route| - 1]) + metric(route[|route| - 2], route[|route| - 1])
  }

  /** The distance loop: it sums the metric over consecutive pairs from
      the front, which is the path length. */
  method CalculateDistanceBetweenPoints(metric: (GeoPoint, GeoPoint) -> real, route: seq<GeoPoint>)
    returns (distance: real)
    ensures distance == PathLength(metric, route)
  {
    distance := 0.0;
    if |route| < 2 {
      return;
    }
    var i := 0;
    while i < |route| - 1
      invariant 0 <= i <= |route| - 1
      invariant distance == PathLength(metric, route[..i + 1])
    {
      var startPoint := route[i];
      var endPoint := route[i + 1];
      assert route[..i + 2][..i + 1] == route[..i + 1];
      distance := distance + metric(startPoint, endPoint);
      i := i + 1;
    }
    assert route[..i + 1] == route;
  }

  /** The time in milliseconds to cover `distance` metres at the given
      speed, where the speed in metres per second is taken as
      km/h * 10000 / 3600. */
  function TimeIntervalMs(distance: real, speedKmPerHour: real): (ms: real)
    requires speedKmPerHour != 0.0
  {
    var speedMetersPerSecond := speedKmPerHour * 10000.0 / 3600.0;
    var timeInSeconds := distance / speedMetersPerSecond;
    timeInSeconds * 1000.0
  }

  /** Moving at the model's speed for the interval covers the distance:
      metres per second times milliseconds is a thousand times the
      distance. */
  lemma TimeIntervalCoversDistance(distance: real, speedKmPerHour: real)
    requires speedKmPerHour != 0.0
    ensures TimeIntervalMs(distance, speedKmPerHour) * (speedKmPerHour * 10000.0 / 3600.0) == distance * 1000.0
  {
    var v := speedKmPerHour * 10000.0 / 3600.0;
    assert v != 0.0;
    assert (distance / v) * v == distance;
  }

  /** The interval is for the whole route: it grows in proportion to the
      route's length and does not depend on how many points it has. */
  lemma TimeIntervalProportional(distance: real, k: real, speedKmPerHour: real)
    requires speedKmPerHour != 0.0
    ensures TimeIntervalMs(k * distance, speedKmPerHour) == k * TimeIntervalMs(distance, speedKmPerHour)
  {
    var v := speedKmPerHour * 10000.0 / 3600.0;
    assert (k * distance) / v == k * (distance / v);
  }

  /** Kotlin's `Double.toLong()`: truncation toward zero, saturating at
      the ends of the `Long` range. */
  function ToLong(x: real): (n: int)
    ensures LongMin <= n <= LongMax
    ensures n > 0 <==> x >= 1.0
    ensures x >= LongMax as real ==> n == LongMax
    ensures x <= LongMin as real ==> n == LongMin
    ensures 0.0 <= x < LongMax as real ==> n as real <= x < n as real + 1.0
    ensures LongMin as real < x <= 0.0 ==> n as real - 1.0 < x <= n as real
  {
    if x >= LongMax as real then LongMax
    else if x <= LongMin as real then LongMin
    else if x >= 0.0 then x.Floor
    else -((-x).Floor)
  }

  // ---------------------------------------------------------------------
  // Starting and stopping

  /** Shows the marker, marks the simulator running, and schedules the
      tick at a fixed rate whose period is the time for the whole route;
      the timer refuses a period below one millisecond. */
  function StartSimulation(sim: Sim, metric: (GeoPoint, GeoPoint) -> real): (s: Step)
    requires sim.speedKmPerHour != 0.0
    ensures s.sim == sim.(iconSet := true, markerOverlays := sim.markerOverlays + 1, running := true,
                          timer := s.sim.timer)
    ensures s.thrown.None? <==> TimeIntervalMs(PathLength(metric, sim.route), sim.speedKmPerHour) >= 1.0
    ensures s.thrown.Some? ==> s.thrown.value == IllegalArgument(NonPositivePeriodMessage) && s.sim.timer == Unscheduled
    ensures s.thrown.Some? ==> s.effects == [SetMarkerIcon, AddMarkerOverlay]
    ensures s.thrown.None? ==>
              var period := ToLong(TimeIntervalMs(PathLength(metric, sim.route), sim.speedKmPerHour));
              && period > 0
              && s.sim.timer == Scheduled(period)
              && s.effects == [SetMarkerIcon, AddMarkerOverlay, ScheduleTimer(period)]
  {
    var shown := sim.(iconSet := true, markerOverlays := sim.markerOverlays + 1, running := true, timer := Unscheduled);
    var interval := TimeIntervalMs(PathLength(metric, sim.route), sim.speedKmPerHour);
    var period := ToLong(interval);
    var effects := [SetMarkerIcon, AddMarkerOverlay];
    if period <= 0 then Step(shown, effects, Some(IllegalArgument(NonPositivePeriodMessage)))
    else Step(shown.(timer := Scheduled(period)), effects + [ScheduleTimer(period)], None)
  }

  /** The period a started simulator ticks at is the time, in whole
      milliseconds, to cover the whole route at its speed: it does not
      shrink with the number of points. */
  lemma StartPeriodIsRouteTime(sim: Sim, metric: (GeoPoint, GeoPoint) -> real)
    requires sim.speedKmPerHour != 0.0
    requires StartSimulation(sim, metric).thrown.None?
    ensures var interval := TimeIntervalMs(PathLength(metric, sim.route), sim.speedKmPerHour);
            var t := StartSimulation(sim, metric).sim.timer;
            && t.Scheduled?
            && (interval < LongMax as real ==> t.periodMs as real <= interval < t.periodMs as real + 1.0)
            && (interval >= LongMax as real ==> t.periodMs == LongMax)
  {
    var interval := TimeIntervalMs(PathLength(metric, sim.route), sim.speedKmPerHour);
    assert StartSimulation(sim, metric).sim.timer == Scheduled(ToLong(interval));
  }

  /** Cancels the timer if there is one, drops it, clears the running
      flag and takes the marker off the map. */
  function StopSimulation(sim: Sim): (s: Step)
    ensures s.thrown.None?
    ensures s.sim.timer == NoTimer && !s.sim.running
    ensures s.sim == sim.(timer := NoTimer, running := false, markerOverlays := s.sim.markerOverlays)
    ensures s.sim.markerOverlays == if sim.markerOverlays > 0 then sim.markerOverlays - 1 else 0
    ensures s.effects == (if sim.timer == NoTimer then [] else [CancelTimer]) + [RemoveMarkerOverlay, PostInvalidate]
    ensures Visited(s.effects) == [] && Pushed(s.effects) == []
  {
    var cancel := if sim.timer == NoTimer then [] else [CancelTimer];
    ProjectNone(cancel + [RemoveMarkerOverlay, PostInvalidate], MarkerPoint);
    ProjectNone(cancel + [RemoveMarkerOverlay, PostInvalidate], FixPoint);
    var overlays := if sim.markerOverlays > 0 then sim.markerOverlays - 1 else 0;
    Step(sim.(timer := NoTimer, running := false, markerOverlays := overlays),
         cancel + [RemoveMarkerOverlay, PostInvalidate], None)
  }

  /** Stopping twice leaves the state of stopping once, as long as the
      marker was on the map at most once. */
  lemma StopIdempotent(sim: Sim)
    requires sim.markerOverlays <= 1
    ensures StopSimulation(StopSimulation(sim).sim).sim == StopSimulation(sim).sim
    ensures StopSimulation(StopSimulation(sim).sim).effects == [RemoveMarkerOverlay, PostInvalidate]
  {
  }

  // ---------------------------------------------------------------------
  // The handles

  /** The lateinit properties holding the two handles. */
  function PropertyName(p: Provider): string
  {
    match p
    case Network => "mockNetwork"
    case Gps => "mockGPS"
  }

  function Initialized(sim: Sim, p: Provider): bool
  {
    match p
    case Network => sim.networkInit
    case Gps => sim.gpsInit
  }

  /** Assigns the handle of provider `p`. */
  function Assign(sim: Sim, p: Provider): Sim
  {
    match p
    case Network => sim.(networkInit := true)
    case Gps => sim.(gpsInit := true)
  }

  /** Constructs the handle of provider `p`: the construction registers
      the provider, and a failed registration throws out of the tick
      before the property is assigned. */
  function RegisterHandle(sim: Sim, env: Env, p: Provider): (s: Step)
    ensures s.thrown.None? <==> Accepts(env, p)
    ensures s.thrown.None? ==> s.sim == Assign(sim, p)
    ensures s.thrown.Some? ==> s.sim == sim && s.thrown == Some(RegistrationOf(env, p).result.error)
    ensures |s.effects| == 1 && s.effects[0].CreateProvider? && s.effects[0].name == ProviderName(p)
  {
    var registration := RegistrationOf(env, p);
    var effects := [CreateProvider(ProviderName(p), registration.attempts)];
    match registration.result
    case Pass => Step(Assign(sim, p), effects, None)
    case Fail(e) => Step(sim, effects, Some(e))
  }

  /** The creation guard: the network handle first, then the GPS handle,
      at most one per tick and none once both exist. */
  function CreateHandle(sim: Sim, env: Env): (s: Step)
    ensures s.sim == sim.(networkInit := s.sim.networkInit, gpsInit := s.sim.gpsInit)
    ensures sim.networkInit ==> s.sim.networkInit
    ensures sim.gpsInit ==> s.sim.gpsInit
    ensures !sim.networkInit ==> s.sim.gpsInit == sim.gpsInit
    ensures sim.networkInit && sim.gpsInit ==> s == Step(sim, [], None)
    ensures !sim.networkInit ==> (s.thrown.None? <==> Accepts(env, Network))
    ensures sim.networkInit && !sim.gpsInit ==> (s.thrown.None? <==> Accepts(env, Gps))
    ensures s.thrown.None? ==> s.sim.networkInit && (sim.networkInit ==> s.sim.gpsInit)
    ensures s.thrown.Some? ==>
              s.sim == sim && s.thrown == Some(RegistrationOf(env, if sim.networkInit then Gps else Network).result.error)
    ensures |s.effects| <= 1 && Visited(s.effects) == [] && Pushed(s.effects) == []
  {
    if !sim.networkInit then RegisterHandle(sim, env, Network)
    else if !sim.gpsInit then RegisterHandle(sim, env, Gps)
    else Step(sim, [], None)
  }

  /** Which guard the push and shutdown use: as written, each branch
      tests `!isInitialized`; corrected, each tests `isInitialized`. */
  datatype Guards = AsWritten | Corrected

  /** The handle a guard chain picks, testing the network handle first. */
  function Selected(guards: Guards, sim: Sim): (h: Option<Provider>)
    ensures guards == AsWritten && h.Some? ==> !Initialized(sim, h.value)
    ensures guards == Corrected && h.Some? ==> Initialized(sim, h.value)
    ensures guards == AsWritten ==> (h.None? <==> sim.networkInit && sim.gpsInit)
    ensures guards == Corrected ==> (h.None? <==> !sim.networkInit && !sim.gpsInit)
    ensures h == Some(Gps) ==> (sim.networkInit <==> guards == AsWritten)
  {
    match guards
    case AsWritten =>
      if !sim.networkInit then Some(Network) else if !sim.gpsInit then Some(Gps) else None
    case Corrected =>
      if sim.networkInit then Some(Network) else if sim.gpsInit then Some(Gps) else None
  }

  /** The calls that shutting down through the guards' pick issues: the
      corrected guards remove the provider of an assigned handle, network
      first; the as-written guards only ever pick an unassigned handle,
      whose read throws before any call. */
  function Teardown(sim: Sim, guards: Guards): seq<Effect>
  {
    if guards == Corrected && (sim.networkInit || sim.gpsInit)
    then [Manager(RemoveTestProvider(ProviderName(if sim.networkInit then Network else Gps)))]
    else []
  }

  /** What a tick does with the handle it picks. */
  datatype HandleUse = PushFix(point: GeoPoint) | ShutDown

  /** Uses the handle the guards pick; reading a lateinit property that
      was never assigned throws. */
  function UseHandle(sim: Sim, env: Env, guards: Guards, use: HandleUse): (s: Step)
    ensures s.sim == sim
    ensures guards == AsWritten ==> Pushed(s.effects) == []
    ensures guards == AsWritten ==> (s.thrown.None? <==> sim.networkInit && sim.gpsInit)
    ensures guards == AsWritten && s.thrown.Some? ==>
              s.thrown.value == UninitializedProperty(PropertyName(Selected(guards, sim).value))
    ensures guards == Corrected ==> s.thrown.None?
    ensures guards == Corrected && use.PushFix? && (sim.networkInit || sim.gpsInit) ==>
              Pushed(s.effects) == [use.point]
    ensures use.ShutDown? ==> Pushed(s.effects) == []
    ensures use.ShutDown? ==> s.effects == Teardown(sim, guards)
    ensures Visited(s.effects) == []
  {
    match Selected(guards, sim)
    case None => Step(sim, [], None)
    case Some(p) =>
      if !Initialized(sim, p) then Step(sim, [], Some(UninitializedProperty(PropertyName(p))))
      else
        var name := ProviderName(p);
        match use
        case PushFix(q) =>
          var call := PushLocation(name, q.lat, q.lon, env.sdk, env.currentTimeMillis, env.elapsedRealtimeNanos);
          Step(sim, [Manager(call)], None)
        case ShutDown =>
          var calls := Shutdown(name, env.removal).0;
          Step(sim, [Manager(calls[0])], None)
  }

  // ---------------------------------------------------------------------
  // Reading the effect log

  /** The points an effect contributes to a projection. */
  function MarkerPoint(e: Effect): seq<GeoPoint>
  {
    if e.SetMarkerPosition? then [e.point] else []
  }

  function FixPoint(e: Effect): seq<GeoPoint>
  {
    if e.Manager? && e.call.SetTestProviderLocation? then [GeoPoint(e.call.fix.latitude, e.call.fix.longitude)] else []
  }

  function Project(effects: seq<Effect>, f: Effect -> seq<GeoPoint>): (points: seq<GeoPoint>)
    ensures |effects| == 1 ==> points == f(effects[0])
  {
    if effects == [] then [] else f(effects[0]) + Project(effects[1..], f)
  }

  /** The marker positions, in order. */
  function Visited(effects: seq<Effect>): seq<GeoPoint>
  {
    Project(effects, MarkerPoint)
  }

  /** The fixes pushed to a location provider, in order. */
  function Pushed(effects: seq<Effect>): seq<GeoPoint>
  {
    Project(effects, FixPoint)
  }

  /** Projecting a log is projecting its parts. */
  lemma {:induction false} ProjectAppend(a: seq<Effect>, b: seq<Effect>, f: Effect -> seq<GeoPoint>)
    ensures Project(a + b, f) == Project(a, f) + Project(b, f)
    decreases |a|
  {
    if a == [] {
      assert a + b == b;
    } else {
      assert (a + b)[1..] == a[1..] + b;
      ProjectAppend(a[1..], b, f);
    }
  }

  /** A non-empty slice is its first element followed by the rest. */
  lemma SliceCons(s: seq<GeoPoint>, i: nat, j: nat)
    requires i < j <= |s|
    ensures s[i..j] == [s[i]] + s[i + 1..j]
  {
  }

  /** A log with nothing to project projects to nothing. */
  lemma {:induction false} ProjectNone(effects: seq<Effect>, f: Effect -> seq<GeoPoint>)
    requires forall i :: 0 <= i < |effects| ==> f(effects[i]) == []
    ensures Project(effects, f) == []
    decreases |effects|
  {
    if effects != [] {
      ProjectNone(effects[1..], f);
    }
  }

  // ---------------------------------------------------------------------
  // The tick

  /** The end of the route: stop, report the end, clear the running
      flag, and shut down the handle the guards pick. The corrected
      guards remove the provider of an assigned handle; the as-written
      guards reach an unassigned one, so the removal is never issued and,
      unless both handles are assigned, the read throws. */
  function Finish(sim: Sim, env: Env, guards: Guards): (s: Step)
    ensures s.sim == sim.(timer := NoTimer, running := false, finished := true,
                          markerOverlays := StopSimulation(sim).sim.markerOverlays)
    ensures guards == Corrected ==> s.thrown.None?
    ensures s.effects == StopSimulation(sim).effects + [SimulationFinished] + Teardown(sim, guards)
    ensures guards == AsWritten && !sim.networkInit ==> s.thrown == Some(UninitializedProperty(PropertyName(Network)))
    ensures guards == AsWritten && sim.networkInit && !sim.gpsInit ==>
              s.thrown == Some(UninitializedProperty(PropertyName(Gps)))
    ensures guards == AsWritten && sim.networkInit && sim.gpsInit ==> s.thrown.None?
    ensures Visited(s.effects) == [] && Pushed(s.effects) == []
  {
    var stopped := StopSimulation(sim);
    var finished := stopped.sim.(running := false, finished := true);
    var shut := UseHandle(finished, env, guards, ShutDown);
    ProjectAppend(stopped.effects, [SimulationFinished], MarkerPoint);
    ProjectAppend(stopped.effects, [SimulationFinished], FixPoint);
    ProjectAppend(stopped.effects + [SimulationFinished], shut.effects, MarkerPoint);
    ProjectAppend(stopped.effects + [SimulationFinished], shut.effects, FixPoint);
    Step(shut.sim, stopped.effects + [SimulationFinished] + shut.effects, shut.thrown)
  }

  /** Push `p` to the provider: create a handle if none is initialized,
      then push through the handle the guards pick. Only the handle
      properties of the simulator change. */
  function Deliver(moved: Sim, env: Env, guards: Guards, p: GeoPoint): (s: Step)
    ensures s.sim == moved.(networkInit := s.sim.networkInit, gpsInit := s.sim.gpsInit)
    ensures guards == Corrected && Accepts(env, Network) && Accepts(env, Gps) ==> s.thrown.None?
    ensures Visited(s.effects) == []
    ensures guards == AsWritten ==> Pushed(s.effects) == []
    ensures guards == Corrected && s.thrown.None? ==> Pushed(s.effects) == [p]
  {
    var created := CreateHandle(moved, env);
    if created.thrown.Some? then created
    else
      var pushed := UseHandle(created.sim, env, guards, PushFix(p));
      ProjectAppend(created.effects, pushed.effects, MarkerPoint);
      ProjectAppend(created.effects, pushed.effects, FixPoint);
      Step(pushed.sim, created.effects + pushed.effects, pushed.thrown)
  }

  /** The part of a tick after the marker moved to `p`: deliver `p`,
      invalidate, advance the index, and finish at the end of the route. */
  function Advance(moved: Sim, env: Env, guards: Guards, p: GeoPoint): (s: Step)
    ensures s.sim.route == moved.route && s.sim.speedKmPerHour == moved.speedKmPerHour
    ensures s.sim.markerPosition == moved.markerPosition && s.sim.center == moved.center
    ensures s.thrown.None? ==> s.sim.index == moved.index + 1
    ensures s.thrown.Some? ==> s.sim.index == moved.index
    ensures s.thrown.None? && moved.index + 1 < |moved.route| ==>
              s.sim.timer == moved.timer && s.sim.running == moved.running && s.sim.finished == moved.finished
    ensures s.thrown.None? && moved.index + 1 >= |moved.route| ==>
              s.sim.timer == NoTimer && !s.sim.running && s.sim.finished
    ensures guards == Corrected && Accepts(env, Network) && Accepts(env, Gps) ==> s.thrown.None?
  {
    var delivered := Deliver(moved, env, guards, p);
    if delivered.thrown.Some? then delivered
    else
      var advanced := delivered.sim.(index := moved.index + 1);
      var effects := delivered.effects + [Invalidate];
      if advanced.index < |moved.route| then Step(advanced, effects, None)
      else
        var finished := Finish(advanced, env, guards);
        Step(finished.sim, effects + finished.effects, finished.thrown)
  }

  /** After the marker moved, the rest of the tick does not move it
      again. */
  lemma AdvanceVisitsNothing(moved: Sim, env: Env, guards: Guards, p: GeoPoint)
    ensures Visited(Advance(moved, env, guards, p).effects) == []
  {
    var delivered := Deliver(moved, env, guards, p);
    if delivered.thrown.None? {
      var effects := delivered.effects + [Invalidate];
      ProjectAppend(delivered.effects, [Invalidate], MarkerPoint);
      if moved.index + 1 >= |moved.route| {
        var finished := Finish(delivered.sim.(index := moved.index + 1), env, guards);
        ProjectAppend(effects, finished.effects, MarkerPoint);
      }
    }
  }

  /** The fixes the rest of a tick pushes: none as written, and `p` once
      with corrected guards. */
  lemma AdvancePushes(moved: Sim, env: Env, guards: Guards, p: GeoPoint)
    ensures guards == AsWritten ==> Pushed(Advance(moved, env, guards, p).effects) == []
    ensures guards == Corrected && Advance(moved, env, guards, p).thrown.None? ==>
              Pushed(Advance(moved, env, guards, p).effects) == [p]
  {
    var delivered := Deliver(moved, env, guards, p);
    if delivered.thrown.None? {
      var effects := delivered.effects + [Invalidate];
      ProjectAppend(delivered.effects, [Invalidate], FixPoint);
      if moved.index + 1 >= |moved.route| {
        var finished := Finish(delivered.sim.(index := moved.index + 1), env, guards);
        ProjectAppend(effects, finished.effects, FixPoint);
      }
    }
  }

  /** One timer tick: move the marker and the camera to the current
      point, then advance. Reading past the route throws. */
  function Tick(sim: Sim, env: Env, guards: Guards): (s: Step)
    ensures s.sim.route == sim.route && s.sim.speedKmPerHour == sim.speedKmPerHour
    ensures sim.index >= |sim.route| ==> s == Step(sim, [], Some(IndexOutOfBounds(sim.index, |sim.route|)))
    ensures sim.index < |sim.route| ==>
              |s.effects| >= 3
              && s.effects[..3] == [SetMarkerPosition(sim.route[sim.index]), SetCenter(sim.route[sim.index]),
                                    AnimateTo(sim.route[sim.index])]
              && s.sim.markerPosition == Some(sim.route[sim.index])
              && s.sim.center == Some(sim.route[sim.index])
    ensures s.thrown.None? ==> s.sim.index == sim.index + 1
    ensures s.thrown.Some? ==> s.sim.index == sim.index
    ensures s.thrown.None? && sim.index + 1 < |sim.route| ==>
              s.sim.timer == sim.timer && s.sim.running == sim.running && s.sim.finished == sim.finished
    ensures s.thrown.None? && sim.index + 1 == |sim.route| ==>
              s.sim.timer == NoTimer && !s.sim.running && s.sim.finished
    ensures guards == Corrected && sim.index < |sim.route| && Accepts(env, Network) && Accepts(env, Gps) ==>
              s.thrown.None?
  {
    if sim.index >= |sim.route| then Step(sim, [], Some(IndexOutOfBounds(sim.index, |sim.route|)))
    else
      var p := sim.route[sim.index];
      var rest := Advance(sim.(markerPosition := Some(p), center := Some(p)), env, guards, p);
      Step(rest.sim, [SetMarkerPosition(p), SetCenter(p), AnimateTo(p)] + rest.effects, rest.thrown)
  }

  /** Applies `tick` while the timer is scheduled, at most `n` times,
      stopping at the first exception (which ends the process). */
  function Iterate(sim: Sim, tick: Sim -> Step, n: nat): (r: Step)
    decreases n
  {
    if n == 0 || !sim.timer.Scheduled? then Step(sim, [], None)
    else
      var t := tick(sim);
      if t.thrown.Some? then t
      else
        var rest := Iterate(t.sim, tick, n - 1);
        Step(rest.sim, t.effects + rest.effects, rest.thrown)
  }

  /** The timer task of a simulator in this environment. */
  function Ticker(env: Env, guards: Guards): Sim -> Step
  {
    s => Tick(s, env, guards)
  }

  /** At most `n` ticks of the timer. */
  function Run(sim: Sim, env: Env, guards: Guards, n: nat): Step
  {
    Iterate(sim, Ticker(env, guards), n)
  }

  /** A tick that projects nothing makes a run that projects nothing. */
  lemma {:induction false} IterateSilent(sim: Sim, tick: Sim -> Step, n: nat, f: Effect -> seq<GeoPoint>)
    requires forall s: Sim :: Project(tick(s).effects, f) == []
    ensures Project(Iterate(sim, tick, n).effects, f) == []
    decreases n
  {
    if n > 0 && sim.timer.Scheduled? {
      var t := tick(sim);
      if t.thrown.None? {
        IterateSilent(t.sim, tick, n - 1, f);
        ProjectAppend(t.effects, Iterate(t.sim, tick, n - 1).effects, f);
      }
    }
  }

  /** One step along the route: the tick does not throw, keeps the route,
      advances the index by one, projects the current point, and either
      keeps the timer going or, after the last point, finishes stopped. */
  predicate StepsOnce(s: Sim, t: Step, f: Effect -> seq<GeoPoint>)
    requires s.index < |s.route|
  {
    && t.thrown.None?
    && t.sim.route == s.route
    && t.sim.index == s.index + 1
    && Project(t.effects, f) == [s.route[s.index]]
    && (s.index + 1 < |s.route| ==> t.sim.timer.Scheduled? && !t.sim.finished)
    && (s.index + 1 == |s.route| ==> t.sim.finished && t.sim.timer == NoTimer && !t.sim.running)
  }

  /** A tick that steps once from every scheduled, unfinished state
      inside the route. */
  ghost predicate Walks(tick: Sim -> Step, f: Effect -> seq<GeoPoint>)
  {
    forall s: Sim {:trigger tick(s)} ::
      s.timer.Scheduled? && !s.finished && s.index < |s.route| ==> StepsOnce(s, tick(s), f)
  }

  /** Iterating a tick that walks never throws, advances the index once
      per tick, and finishes, stopped, exactly at the end of the route. */
  lemma {:induction false} IterateFinishes(sim: Sim, tick: Sim -> Step, n: nat, f: Effect -> seq<GeoPoint>)
    requires Walks(tick, f)
    requires sim.timer.Scheduled? && !sim.finished
    requires sim.index < |sim.route| && sim.index + n <= |sim.route|
    ensures Iterate(sim, tick, n).thrown.None?
    ensures Iterate(sim, tick, n).sim.index == sim.index + n
    ensures Iterate(sim, tick, n).sim.finished <==> sim.index + n == |sim.route|
    ensures sim.index + n == |sim.route| ==>
              Iterate(sim, tick, n).sim.timer == NoTimer && !Iterate(sim, tick, n).sim.running
    decreases n
  {
    if n > 1 {
      var t := tick(sim);
      assert StepsOnce(sim, t, f);
      IterateFinishes(t.sim, tick, n - 1, f);
    } else if n == 1 {
      assert StepsOnce(sim, tick(sim), f);
    }
  }

  /** A run whose first tick does not throw is that tick followed by the
      rest of the run. */
  lemma IterateUnfold(sim: Sim, tick: Sim -> Step, n: nat)
    requires n > 0 && sim.timer.Scheduled? && tick(sim).thrown.None?
    ensures Iterate(sim, tick, n).effects == tick(sim).effects + Iterate(tick(sim).sim, tick, n - 1).effects
  {
  }

  /** Iterating a tick that walks projects the route slice it covers,
      one point per tick. */
  lemma {:induction false} IterateWalks(sim: Sim, tick: Sim -> Step, n: nat, f: Effect -> seq<GeoPoint>)
    requires Walks(tick, f)
    requires sim.timer.Scheduled? && !sim.finished
    requires sim.index < |sim.route| && sim.index + n <= |sim.route|
    ensures Project(Iterate(sim, tick, n).effects, f) == sim.route[sim.index..sim.index + n]
    decreases n
  {
    if n > 0 {
      var t := tick(sim);
      assert StepsOnce(sim, t, f);
      IterateUnfold(sim, tick, n);
      var rest := Iterate(t.sim, tick, n - 1);
      ProjectAppend(t.effects, rest.effects, f);
      if n > 1 {
        IterateWalks(t.sim, tick, n - 1, f);
      }
      SliceCons(sim.route, sim.index, sim.index + n);
    }
  }

  /** The log of one tick: the marker visits the current point once; as
      written, no fix is ever pushed, and with corrected guards the
      current point is pushed once. */
  lemma TickLog(sim: Sim, env: Env, guards: Guards)
    requires sim.index < |sim.route|
    ensures Visited(Tick(sim, env, guards).effects) == [sim.route[sim.index]]
    ensures guards == AsWritten ==> Pushed(Tick(sim, env, guards).effects) == []
    ensures guards == Corrected && Tick(sim, env, guards).thrown.None? ==>
              Pushed(Tick(sim, env, guards).effects) == [sim.route[sim.index]]
  {
    var p := sim.route[sim.index];
    var rest := Advance(sim.(markerPosition := Some(p), center := Some(p)), env, guards, p);
    var shown := [SetMarkerPosition(p), SetCenter(p), AnimateTo(p)];
    var tail := [SetCenter(p), AnimateTo(p)];
    assert shown == [SetMarkerPosition(p)] + tail;
    ProjectNone(tail, MarkerPoint);
    ProjectAppend([SetMarkerPosition(p)], tail, MarkerPoint);
    ProjectNone(shown, FixPoint);
    AdvanceVisitsNothing(sim.(markerPosition := Some(p), center := Some(p)), env, guards, p);
    AdvancePushes(sim.(markerPosition := Some(p), center := Some(p)), env, guards, p);
    ProjectAppend(shown, rest.effects, MarkerPoint);
    ProjectAppend(shown, rest.effects, FixPoint);
  }

  /** As written, no run of the simulator ever pushes a fix: each guard
      picks only a handle that was never assigned. */
  lemma AsWrittenNeverPushes(sim: Sim, env: Env, n: nat)
    ensures Pushed(Run(sim, env, AsWritten, n).effects) == []
  {
    forall s: Sim
      ensures Project(Ticker(env, AsWritten)(s).effects, FixPoint) == []
    {
      if s.index < |s.route| {
        TickLog(s, env, AsWritten);
      }
    }
    IterateSilent(sim, Ticker(env, AsWritten), n, FixPoint);
  }

  /** As written, a simulator whose handles are not yet assigned halts on
      its first tick: registering the network handle either fails, or
      succeeds and the push guard then reads the unassigned GPS handle.
      The marker reaches the current point and the index stays. */
  lemma {:induction false} AsWrittenHaltsAtFirstPoint(sim: Sim, env: Env, n: nat)
    requires n >= 1 && sim.timer.Scheduled?
    requires sim.index < |sim.route|
    requires !sim.networkInit && !sim.gpsInit
    ensures Run(sim, env, AsWritten, n).thrown
            == Some(if Accepts(env, Network) then UninitializedProperty("mockGPS")
                    else env.network.result.error)
    ensures Run(sim, env, AsWritten, n).sim.index == sim.index
    ensures Visited(Run(sim, env, AsWritten, n).effects) == [sim.route[sim.index]]
  {
    TickLog(sim, env, AsWritten);
    var p := sim.route[sim.index];
    var moved := sim.(markerPosition := Some(p), center := Some(p));
    var created := CreateHandle(moved, env);
    if created.thrown.None? {
      assert created.sim.networkInit && !created.sim.gpsInit;
      assert Selected(AsWritten, created.sim) == Some(Gps);
    }
  }

  /** With corrected guards and both registrations accepted, the timer
      task walks the route, for the marker and for the pushed fixes. */
  lemma CorrectedTickerWalks(env: Env)
    requires Accepts(env, Network) && Accepts(env, Gps)
    ensures Walks(Ticker(env, Corrected), MarkerPoint)
    ensures Walks(Ticker(env, Corrected), FixPoint)
  {
    forall s: Sim | s.timer.Scheduled? && !s.finished && s.index < |s.route|
      ensures StepsOnce(s, Ticker(env, Corrected)(s), MarkerPoint)
      ensures StepsOnce(s, Ticker(env, Corrected)(s), FixPoint)
    {
      TickLog(s, env, Corrected);
    }
  }

  /** With corrected guards, and both registrations accepted, an
      uninterrupted run never throws, moves the marker to the route
      points in order, one per tick, pushes each of them, and finishes,
      stopped, exactly when the index reaches the end of the route. */
  lemma CorrectedRunVisitsRoute(sim: Sim, env: Env, n: nat)
    requires Accepts(env, Network) && Accepts(env, Gps)
    requires sim.timer.Scheduled? && !sim.finished
    requires sim.index < |sim.route| && sim.index + n <= |sim.route|
    ensures Run(sim, env, Corrected, n).thrown.None?
    ensures Run(sim, env, Corrected, n).sim.index == sim.index + n
    ensures Visited(Run(sim, env, Corrected, n).effects) == sim.route[sim.index..sim.index + n]
    ensures Pushed(Run(sim, env, Corrected, n).effects) == sim.route[sim.index..sim.index + n]
    ensures Run(sim, env, Corrected, n).sim.finished <==> sim.index + n == |sim.route|
    ensures sim.index + n == |sim.route| ==>
              Run(sim, env, Corrected, n).sim.timer == NoTimer && !Run(sim, env, Corrected, n).sim.running
  {
    CorrectedTickerWalks(env);
    IterateFinishes(sim, Ticker(env, Corrected), n, MarkerPoint);
    IterateWalks(sim, Ticker(env, Corrected), n, MarkerPoint);
    IterateWalks(sim, Ticker(env, Corrected), n, FixPoint);
  }

  /** A stopped simulator never ticks again. */
  lemma StopHaltsRun(sim: Sim, env: Env, guards: Guards, n: nat)
    ensures Run(StopSimulation(sim).sim, env, guards, n) == Step(StopSimulation(sim).sim, [], None)
  {
  }

  /** Starting a fresh simulator whose route takes at least a millisecond
      schedules the timer at the first point, with no handle assigned. */
  lemma StartFresh(route: seq<GeoPoint>, speedKmPerHour: real, metric: (GeoPoint, GeoPoint) -> real)
    requires speedKmPerHour != 0.0
    requires TimeIntervalMs(PathLength(metric, route), speedKmPerHour) >= 1.0
    ensures var started := StartSimulation(NewSim(route, speedKmPerHour), metric);
            && started.thrown.None?
            && started.sim.timer.Scheduled? && started.sim.running && !started.sim.finished
            && started.sim.index == 0 && started.sim.route == route
            && !started.sim.networkInit && !started.sim.gpsInit
  {
  }

  /** With corrected guards, in an environment that accepts both
      providers, a run of one tick per point from the start of the route
      visits and pushes the whole route and finishes stopped. */
  lemma CorrectedRunFromStart(sim: Sim, env: Env)
    requires Accepts(env, Network) && Accepts(env, Gps)
    requires sim.timer.Scheduled? && !sim.finished && sim.index == 0 && |sim.route| >= 1
    ensures var r := Run(sim, env, Corrected, |sim.route|);
            r.thrown.None? && Visited(r.effects) == sim.route && Pushed(r.effects) == sim.route
            && r.sim.finished && !r.sim.running && r.sim.timer == NoTimer
  {
    CorrectedRunVisitsRoute(sim, env, |sim.route|);
    assert sim.route[0..|sim.route|] == sim.route;
  }

  /** Playback from construction, with corrected guards, on a platform
      that accepts each provider within its three attempts: starting
      succeeds when the route takes at least a millisecond, and a run of
      one tick per point visits and pushes the whole route and finishes
      stopped. */
  lemma CorrectedPlayback(route: seq<GeoPoint>, speedKmPerHour: real, metric: (GeoPoint, GeoPoint) -> real,
                          sdk: int, networkOracle: nat -> AttemptOutcome, gpsOracle: nat -> AttemptOutcome,
                          currentTimeMillis: int, elapsedRealtimeNanos: int, removal: Outcome)
    requires |route| >= 1 && speedKmPerHour != 0.0
    requires TimeIntervalMs(PathLength(metric, route), speedKmPerHour) >= 1.0
    requires exists k :: 0 <= k < MaxRetryCount && networkOracle(k) == Accepted
    requires exists k :: 0 <= k < MaxRetryCount && gpsOracle(k) == Accepted
    ensures StartSimulation(NewSim(route, speedKmPerHour), metric).thrown.None?
    ensures var env := Platform(sdk, networkOracle, gpsOracle, currentTimeMillis, elapsedRealtimeNanos, removal);
            var r := Run(StartSimulation(NewSim(route, speedKmPerHour), metric).sim, env, Corrected, |route|);
            r.thrown.None? && Visited(r.effects) == route && Pushed(r.effects) == route
            && r.sim.finished && !r.sim.running && r.sim.timer == NoTimer
  {
    PlatformAccepts(sdk, networkOracle, gpsOracle, currentTimeMillis, elapsedRealtimeNanos, removal);
    StartFresh(route, speedKmPerHour, metric);
    var env := Platform(sdk, networkOracle, gpsOracle, currentTimeMillis, elapsedRealtimeNanos, removal);
    CorrectedRunFromStart(StartSimulation(NewSim(route, speedKmPerHour), metric).sim, env);
  }

  /** Playback from construction, as written: the first tick halts the
      process at the first point, having pushed nothing. The exception is
      the read of the unassigned GPS handle, or the security error when
      the network provider is refused three times. */
  lemma AsWrittenPlayback(route: seq<GeoPoint>, speedKmPerHour: real, metric: (GeoPoint, GeoPoint) -> real,
                          sdk: int, networkOracle: nat -> AttemptOutcome, gpsOracle: nat -> AttemptOutcome,
                          currentTimeMillis: int, elapsedRealtimeNanos: int, removal: Outcome, n: nat)
    requires |route| >= 1 && speedKmPerHour != 0.0 && n >= 1
    requires TimeIntervalMs(PathLength(metric, route), speedKmPerHour) >= 1.0
    ensures var env := Platform(sdk, networkOracle, gpsOracle, currentTimeMillis, elapsedRealtimeNanos, removal);
            var r := Run(StartSimulation(NewSim(route, speedKmPerHour), metric).sim, env, AsWritten, n);
            && r.thrown == Some(if exists k :: 0 <= k < MaxRetryCount && networkOracle(k) == Accepted
                                then UninitializedProperty("mockGPS")
                                else SecurityError(MockDeniedMessage))
            && r.sim.index == 0 && Visited(r.effects) == [route[0]] && Pushed(r.effects) == []
  {
    var env := Platform(sdk, networkOracle, gpsOracle, currentTimeMillis, elapsedRealtimeNanos, removal);
    PlatformAccepts(sdk, networkOracle, gpsOracle, currentTimeMillis, elapsedRealtimeNanos, removal);
    StartFresh(route, speedKmPerHour, metric);
    var started := StartSimulation(NewSim(route, speedKmPerHour), metric);
    AsWrittenHaltsAtFirstPoint(started.sim, env, n);
    AsWrittenNeverPushes(started.sim, env, n);
  }
}
