/** The mock location provider: registers a named test provider with the
    platform location manager, retrying a bounded number of times, and
    pushes synthetic fixes to it. The location manager is an oracle: what
    it does with each registration attempt is an input, and the calls the
    provider makes on it are the output. */
module MockLocation {
  import opened Outcomes

  datatype Provider = Network | Gps

  /** The platform's provider names. */
  function ProviderName(p: Provider): (name: string)
    ensures name == "network" || name == "gps"
    ensures p == Network <==> name == "network"
  {
    match p
    case Network => "network"
    case Gps => "gps"
  }

  const MaxRetryCount := 3
  const MockDeniedMessage := "Not allowed to perform MOCK_LOCATION"

  /** Platform version thresholds the provider tests: Android 11 (API 30),
      Android 8.0 (API 26) and Android 4.2 (API 17). */
  const SdkR := 30
  const SdkO := 26
  const SdkJellyBeanMr1 := 17

  datatype Criteria = Criteria(powerUsage: int, accuracy: int)

  /** The power and accuracy the provider registers with. */
  function CriteriaFor(sdk: int): (c: Criteria)
    ensures sdk >= SdkR ==> c == Criteria(1, 2)
    ensures sdk < SdkR ==> c == Criteria(0, 5)
  {
    if sdk >= SdkR then Criteria(1, 2) else Criteria(0, 5)
  }

  /** A synthetic location fix. Fields a platform version lacks are `None`. */
  datatype Fix = Fix(
    provider: string,
    latitude: real,
    longitude: real,
    altitude: real,
    time: int,
    speed: real,
    bearing: real,
    accuracy: real,
    bearingAccuracyDegrees: Option<real>,
    verticalAccuracyMeters: Option<real>,
    speedAccuracyMetersPerSecond: Option<real>,
    elapsedRealtimeNanos: Option<int>)

  /** The calls the provider makes on the location manager. */
  datatype ManagerCall =
    | RemoveTestProvider(name: string)
    | AddTestProvider(
        name: string,
        requiresNetwork: bool,
        requiresSatellite: bool,
        requiresCell: bool,
        hasMonetaryCost: bool,
        supportsAltitude: bool,
        supportsSpeed: bool,
        supportsBearing: bool,
        powerUsage: int,
        accuracy: int)
    | SetTestProviderEnabled(name: string, enabled: bool)
    | SetTestProviderLocation(name: string, fix: Fix)

  /** What the location manager does with one registration attempt:
      reject the new provider, accept it but refuse to enable it, or
      accept it. */
  datatype AttemptOutcome = AddRejected | EnableRejected | Accepted

  /** Removes the provider. How the location manager's removal call ends
      is an input; any exception it throws is caught and dropped, so
      shutting down always passes. */
  function Shutdown(name: string, removal: Outcome): (r: (seq<ManagerCall>, Outcome))
    ensures r.0 == [RemoveTestProvider(name)]
    ensures r.1 == Pass
  {
    var caught := match removal
      case Pass => Pass
      case Fail(_) => Pass;
    ([RemoveTestProvider(name)], caught)
  }

  /** The calls of one registration attempt: shut down any stale provider,
      add the test provider, and enable it unless adding threw. */
  function AttemptCalls(name: string, c: Criteria, outcome: AttemptOutcome): (calls: seq<ManagerCall>)
    ensures 2 <= |calls| <= 3
    ensures calls[0] == RemoveTestProvider(name)
    ensures calls[1] == AddTestProvider(name, false, false, false, false, false, true, true, c.powerUsage, c.accuracy)
    ensures |calls| == 3 <==> outcome != AddRejected
    ensures |calls| == 3 ==> calls[2] == SetTestProviderEnabled(name, true)
  {
    Shutdown(name, Pass).0
    + [AddTestProvider(name, false, false, false, false, false, true, true, c.powerUsage, c.accuracy)]
    + (if outcome == AddRejected then [] else [SetTestProviderEnabled(name, true)])
  }

  /** The calls of each attempt made, and whether registration succeeded. */
  datatype Registration = Registration(attempts: seq<seq<ManagerCall>>, result: Outcome)

  /** The recursive registration: attempt number `currentRetryCount` runs
      while it is below `maxRetryCount`; a failed attempt retries with the
      next number, a successful one stops; running out of attempts throws. */
  function Startup(name: string, c: Criteria, oracle: nat -> AttemptOutcome,
                   maxRetryCount: int, currentRetryCount: nat): (r: Registration)
    ensures |r.attempts| == 0 <==> currentRetryCount >= maxRetryCount
    ensures currentRetryCount < maxRetryCount ==> currentRetryCount + |r.attempts| <= maxRetryCount
    ensures forall k :: currentRetryCount <= k < currentRetryCount + |r.attempts| ==>
              r.attempts[k - currentRetryCount] == AttemptCalls(name, c, oracle(k))
    ensures r.result.Fail? ==> r.result == Fail(SecurityError(MockDeniedMessage))
    ensures r.result.Fail? && currentRetryCount < maxRetryCount ==>
              currentRetryCount + |r.attempts| == maxRetryCount
    decreases maxRetryCount - currentRetryCount
  {
    if currentRetryCount < maxRetryCount then
      var outcome := oracle(currentRetryCount);
      var calls := AttemptCalls(name, c, outcome);
      if outcome == Accepted then Registration([calls], Pass)
      else
        var rest := Startup(name, c, oracle, maxRetryCount, currentRetryCount + 1);
        Registration([calls] + rest.attempts, rest.result)
    else
      Registration([], Fail(SecurityError(MockDeniedMessage)))
  }

  /** Registration succeeds exactly when the location manager accepts one
      of the attempts from `currentRetryCount` below `maxRetryCount`. */
  lemma {:induction false} StartupPasses(name: string, c: Criteria, oracle: nat -> AttemptOutcome,
                                         maxRetryCount: int, currentRetryCount: nat)
    ensures Startup(name, c, oracle, maxRetryCount, currentRetryCount).result.Pass?
            <==> exists k :: currentRetryCount <= k < maxRetryCount && oracle(k) == Accepted
    decreases maxRetryCount - currentRetryCount
  {
    if currentRetryCount < maxRetryCount && oracle(currentRetryCount) != Accepted {
      StartupPasses(name, c, oracle, maxRetryCount, currentRetryCount + 1);
      if Startup(name, c, oracle, maxRetryCount, currentRetryCount).result.Pass? {
        var k :| currentRetryCount + 1 <= k < maxRetryCount && oracle(k) == Accepted;
      }
    }
  }

  /** Registration stops at the first accepted attempt: a success ends
      with an accepted attempt, and every attempt before the last was
      refused. */
  lemma {:induction false} StartupStopsAtAccept(name: string, c: Criteria, oracle: nat -> AttemptOutcome,
                                                maxRetryCount: int, currentRetryCount: nat)
    ensures var r := Startup(name, c, oracle, maxRetryCount, currentRetryCount);
            && (r.result.Pass? ==> |r.attempts| > 0 && oracle(currentRetryCount + |r.attempts| - 1) == Accepted)
            && (forall k :: currentRetryCount <= k < currentRetryCount + |r.attempts| - 1 ==> oracle(k) != Accepted)
    decreases maxRetryCount - currentRetryCount
  {
    if currentRetryCount < maxRetryCount && oracle(currentRetryCount) != Accepted {
      StartupStopsAtAccept(name, c, oracle, maxRetryCount, currentRetryCount + 1);
      var rest := Startup(name, c, oracle, maxRetryCount, currentRetryCount + 1);
      assert Startup(name, c, oracle, maxRetryCount, currentRetryCount)
             == Registration([AttemptCalls(name, c, oracle(currentRetryCount))] + rest.attempts, rest.result);
    }
  }

  /** The provider's construction: choose the criteria from the platform
      version, then register starting at retry 0 of 3. */
  function Register(p: Provider, sdk: int, oracle: nat -> AttemptOutcome): (r: Registration)
    ensures 1 <= |r.attempts| <= MaxRetryCount
    ensures forall k :: 0 <= k < |r.attempts| ==>
              r.attempts[k] == AttemptCalls(ProviderName(p), CriteriaFor(sdk), oracle(k))
    ensures r.result.Pass? <==> exists k :: 0 <= k < MaxRetryCount && oracle(k) == Accepted
    ensures r.result.Pass? ==> oracle(|r.attempts| - 1) == Accepted
    ensures forall k :: 0 <= k < |r.attempts| - 1 ==> oracle(k) != Accepted
    ensures r.result.Fail? ==> |r.attempts| == MaxRetryCount
    ensures r.result.Fail? ==> r.result == Fail(SecurityError(MockDeniedMessage))
  {
    StartupPasses(ProviderName(p), CriteriaFor(sdk), oracle, MaxRetryCount, 0);
    StartupStopsAtAccept(ProviderName(p), CriteriaFor(sdk), oracle, MaxRetryCount, 0);
    Startup(ProviderName(p), CriteriaFor(sdk), oracle, MaxRetryCount, 0)
  }

  /** A registration that the location manager accepts at the first try
      makes exactly one attempt of three calls. */
  lemma RegisterFirstTry(p: Provider, sdk: int, oracle: nat -> AttemptOutcome)
    requires oracle(0) == Accepted
    ensures Register(p, sdk, oracle).result == Pass
    ensures Register(p, sdk, oracle).attempts
            == [[RemoveTestProvider(ProviderName(p)),
                 AddTestProvider(ProviderName(p), false, false, false, false, false, true, true,
                                 CriteriaFor(sdk).powerUsage, CriteriaFor(sdk).accuracy),
                 SetTestProviderEnabled(ProviderName(p), true)]]
  {
    var name, c := ProviderName(p), CriteriaFor(sdk);
    assert Register(p, sdk, oracle) == Registration([AttemptCalls(name, c, Accepted)], Pass);
    var calls := AttemptCalls(name, c, Accepted);
    assert calls == [calls[0], calls[1], calls[2]];
  }

  /** Pushes a fix for the provider. The clocks are inputs. */
  function PushLocation(name: string, lat: real, lon: real, sdk: int,
                        currentTimeMillis: int, elapsedRealtimeNanos: int): (call: ManagerCall)
    ensures call.SetTestProviderLocation? && call.name == name && call.fix.provider == name
    ensures call.fix.latitude == lat && call.fix.longitude == lon
    ensures call.fix.altitude == 3.0 && call.fix.speed == 0.01
    ensures call.fix.bearing == 1.0 && call.fix.accuracy == 3.0
    ensures call.fix.time == currentTimeMillis
    ensures call.fix.bearingAccuracyDegrees.Some? <==> sdk >= SdkO
    ensures call.fix.verticalAccuracyMeters.Some? <==> sdk >= SdkO
    ensures call.fix.speedAccuracyMetersPerSecond.Some? <==> sdk >= SdkO
    ensures call.fix.elapsedRealtimeNanos.Some? <==> sdk >= SdkJellyBeanMr1
    ensures sdk >= SdkO ==> call.fix.bearingAccuracyDegrees == Some(0.1)
                            && call.fix.verticalAccuracyMeters == Some(0.1)
                            && call.fix.speedAccuracyMetersPerSecond == Some(0.01)
    ensures sdk >= SdkJellyBeanMr1 ==> call.fix.elapsedRealtimeNanos == Some(elapsedRealtimeNanos)
  {
    var since26 := sdk >= SdkO;
    var fix := Fix(
      name, lat, lon, 3.0, currentTimeMillis, 0.01, 1.0, 3.0,
      if since26 then Some(0.1) else None,
      if since26 then Some(0.1) else None,
      if since26 then Some(0.01) else None,
      if sdk >= SdkJellyBeanMr1 then Some(elapsedRealtimeNanos) else None);
    SetTestProviderLocation(name, fix)
  }
}
