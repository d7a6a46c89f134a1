/** The OpenKit client configuration: hard-coded library defaults, the value
    types it owns (HTTP client, beacon and beacon-cache configuration), and the
    reconciliation of a server status response into the live settings.

    Pointers of the Go code become plain values. The one place where pointer
    identity is observable — whether the HTTP client configuration was
    replaced or kept — is modelled by a generation counter that grows exactly
    when a fresh HTTP client configuration is built. */
module Config {

  /** Library defaults. Durations are Go `time.Duration` values, i.e. nanoseconds. */
  const DefaultSendInterval: int := 2 * 60 * 1000 * 1000 * 1000
  const DefaultMaxBeaconSize: int := 30 * 1024
  const DefaultCapture: bool := true
  const DefaultCaptureErrors: bool := true
  const DefaultCaptureCrashes: bool := true
  const DefaultDataCollectionLevel: int := 2
  const DefaultCrashReportingLevel: int := 2
  const DefaultMaxRecordAgeInMillis: nat := 6300000
  const DefaultUpperMemoryBoundaryInBytes: nat := 100 * 1024 * 1024
  const DefaultLowerMemoryBoundaryInBytes: nat := 80 * 1024 * 1024

  /** The server id a fresh client starts with, and the one a "no opinion" response resolves to. */
  const DefaultServerID: int := 1
  /** The multiplicity a fresh beacon configuration starts with. */
  const DefaultMultiplicity: int := 1
  /** The wire value by which a status response says "no opinion, use the default". */
  const NoOpinion: int := -1
  /** Session numbers are drawn from [0, SessionNumberBound). */
  const SessionNumberBound: int := 2147483647
  const Uint32Modulus: int := 0x1_0000_0000

  datatype Device = Device(operatingSystem: string, manufacturer: string, modelID: string)

  datatype HttpClientConfiguration = HttpClientConfiguration(
    baseURL: string,
    applicationID: string,
    serverID: int,
    proxyAddress: string,
    verifyCertificates: bool)

  /** `deviceID` is a Go `uint32`; every value built here lies in [0, 2^32). */
  datatype BeaconConfiguration = BeaconConfiguration(
    multiplicity: int,
    dataCollectionLevel: int,
    crashReportingLevel: int,
    deviceID: int)

  /** The age bound is in milliseconds, the size bounds in bytes (Go `uint64`). */
  datatype BeaconCacheConfiguration = BeaconCacheConfiguration(
    maxRecordAge: nat,
    cacheSizeLowerBound: nat,
    cacheSizeUpperBound: nat)

  /** The four fields of a server status response that reconciliation reads.
      `sendInterval` is a duration in nanoseconds; `serverID`, `sendInterval`
      and `maxBeaconSize` use NoOpinion as "not specified". */
  datatype StatusResponse = StatusResponse(
    capture: bool,
    serverID: int,
    sendInterval: int,
    maxBeaconSize: int)

  /** The client configuration. `deviceID` is the numeric device id whose
      decimal text the Go struct stores; `httpClientGeneration` stands for the
      identity of the `*HTTPClientConfiguration` pointer. */
  datatype Configuration = Configuration(
    applicationName: string,
    applicationID: string,
    deviceID: int,
    endpointURL: string,
    capture: bool,
    sendInterval: int,
    maxBeaconSize: int,
    captureErrors: bool,
    captureCrashes: bool,
    device: Device,
    applicationVersion: string,
    httpClientConfiguration: HttpClientConfiguration,
    httpClientGeneration: nat,
    beaconConfiguration: BeaconConfiguration,
    serverConfigurationSet: bool,
    beaconCacheConfiguration: BeaconCacheConfiguration)

  /** Go's `uint32(x)` conversion of an `int`: two's-complement truncation,
      which is the Euclidean remainder modulo 2^32. */
  function ToUint32(x: int): (r: int)
    ensures 0 <= r < Uint32Modulus
    ensures (x - r) % Uint32Modulus == 0
    ensures 0 <= x < Uint32Modulus ==> r == x
  {
    x % Uint32Modulus
  }

  /** The invariant every configuration built and reconciled here keeps: the
      HTTP client configuration addresses this application at this endpoint,
      the beacon device id is a `uint32`, and the cache's two watermarks are
      ordered. */
  predicate Wellformed(c: Configuration)
  {
    && c.httpClientConfiguration.applicationID == c.applicationID
    && c.httpClientConfiguration.baseURL == c.endpointURL
    && 0 <= c.beaconConfiguration.deviceID < Uint32Modulus
    && c.beaconCacheConfiguration.cacheSizeLowerBound <= c.beaconCacheConfiguration.cacheSizeUpperBound
  }

  /** The settings that reconciliation never touches. */
  predicate SameStaticSettings(c: Configuration, d: Configuration)
  {
    && d.applicationName == c.applicationName
    && d.applicationID == c.applicationID
    && d.deviceID == c.deviceID
    && d.endpointURL == c.endpointURL
    && d.captureErrors == c.captureErrors
    && d.captureCrashes == c.captureCrashes
    && d.device == c.device
    && d.applicationVersion == c.applicationVersion
    && d.beaconConfiguration == c.beaconConfiguration
    && d.serverConfigurationSet == c.serverConfigurationSet
    && d.beaconCacheConfiguration == c.beaconCacheConfiguration
  }

  /** Builds the configuration of a new client. Fields the constructor does not
      assign keep Go's zero value: capture, captureErrors and captureCrashes
      are false and the send interval is 0, although DefaultCapture and its
      siblings are declared alongside. */
  function NewConfiguration(
    endpointURL: string,
    applicationName: string,
    applicationID: string,
    applicationVersion: string,
    deviceID: int,
    operatingSystem: string,
    manufacturer: string,
    modelID: string,
    proxyAddress: string,
    verifyCertificates: bool): (c: Configuration)
    ensures Wellformed(c)
    ensures c.maxBeaconSize == 30720
    ensures c.httpClientConfiguration
              == HttpClientConfiguration(endpointURL, applicationID, 1, proxyAddress, verifyCertificates)
    ensures c.beaconConfiguration.multiplicity == 1
    ensures c.beaconConfiguration.dataCollectionLevel == 2 && c.beaconConfiguration.crashReportingLevel == 2
    ensures 0 <= deviceID < Uint32Modulus ==> c.beaconConfiguration.deviceID == deviceID
    ensures c.beaconCacheConfiguration == BeaconCacheConfiguration(6300000, 83886080, 104857600)
    ensures !c.capture && !c.captureErrors && !c.captureCrashes && c.sendInterval == 0
    ensures !c.serverConfigurationSet
    ensures c.device == Device(operatingSystem, manufacturer, modelID)
    ensures c.applicationName == applicationName && c.applicationVersion == applicationVersion
    ensures c.deviceID == deviceID && c.endpointURL == endpointURL && c.applicationID == applicationID
  {
    Configuration(
      applicationName := applicationName,
      applicationID := applicationID,
      deviceID := deviceID,
      endpointURL := endpointURL,
      capture := false,
      sendInterval := 0,
      maxBeaconSize := DefaultMaxBeaconSize,
      captureErrors := false,
      captureCrashes := false,
      device := Device(operatingSystem, manufacturer, modelID),
      applicationVersion := applicationVersion,
      httpClientConfiguration :=
        HttpClientConfiguration(endpointURL, applicationID, DefaultServerID, proxyAddress, verifyCertificates),
      httpClientGeneration := 0,
      beaconConfiguration :=
        BeaconConfiguration(DefaultMultiplicity, DefaultDataCollectionLevel, DefaultCrashReportingLevel, ToUint32(deviceID)),
      serverConfigurationSet := false,
      beaconCacheConfiguration :=
        BeaconCacheConfiguration(DefaultMaxRecordAgeInMillis, DefaultLowerMemoryBoundaryInBytes, DefaultUpperMemoryBoundaryInBytes))
  }

  /** `rand.Intn(2147483647)`: the random source is a parameter, `draw`, and
      is reduced into the generator's range. */
  function CreateSessionNumber(draw: int): (n: int)
    ensures 0 <= n < SessionNumberBound
    ensures 0 <= draw < SessionNumberBound ==> n == draw
  {
    draw % SessionNumberBound
  }

  /** Every admissible session number is produced by some draw. */
  lemma SessionNumberRangeIsCovered(n: int)
    requires 0 <= n < SessionNumberBound
    ensures exists draw :: CreateSessionNumber(draw) == n
  {
    assert CreateSessionNumber(n) == n;
  }

  /** The per-field sentinel rule of reconciliation. */
  function ResolveSetting(value: int, default: int): (r: int)
    ensures value == NoOpinion ==> r == default
    ensures value != NoOpinion ==> r == value
  {
    if value == NoOpinion then default else value
  }

  /** `updateSettings`: merges a status response into the configuration. The
      source writes a field only when the resolved value differs from the
      current one; on values that is the same as always writing it, except for
      the HTTP client configuration, whose replacement is observable through
      its identity. The replacement carries no proxy address and does not
      verify certificates. */
  function UpdateSettings(c: Configuration, response: StatusResponse): (r: Configuration)
    ensures r.capture == response.capture
    ensures response.serverID == NoOpinion ==> r.httpClientConfiguration.serverID == 1
    ensures response.serverID != NoOpinion ==> r.httpClientConfiguration.serverID == response.serverID
    ensures c.httpClientConfiguration.serverID != r.httpClientConfiguration.serverID ==>
              && r.httpClientConfiguration
                 == HttpClientConfiguration(c.endpointURL, c.applicationID, r.httpClientConfiguration.serverID, "", false)
              && r.httpClientGeneration == c.httpClientGeneration + 1
    ensures c.httpClientConfiguration.serverID == r.httpClientConfiguration.serverID ==>
              && r.httpClientConfiguration == c.httpClientConfiguration
              && r.httpClientGeneration == c.httpClientGeneration
    ensures response.sendInterval == NoOpinion ==> r.sendInterval == 120000000000
    ensures response.sendInterval != NoOpinion ==> r.sendInterval == response.sendInterval
    ensures response.maxBeaconSize == NoOpinion ==> r.maxBeaconSize == 30720
    ensures response.maxBeaconSize != NoOpinion ==> r.maxBeaconSize == response.maxBeaconSize
    ensures SameStaticSettings(c, r)
  {
    var newServerID := ResolveSetting(response.serverID, DefaultServerID);
    var replace := c.httpClientConfiguration.serverID != newServerID;
    c.(
      capture := response.capture,
      httpClientConfiguration :=
        if replace then HttpClientConfiguration(c.endpointURL, c.applicationID, newServerID, "", false)
        else c.httpClientConfiguration,
      httpClientGeneration := if replace then c.httpClientGeneration + 1 else c.httpClientGeneration,
      sendInterval := ResolveSetting(response.sendInterval, DefaultSendInterval),
      maxBeaconSize := ResolveSetting(response.maxBeaconSize, DefaultMaxBeaconSize))
  }

  /** `isServerConfigurationSet`: reads the flag (under a lock in the source). */
  function IsServerConfigurationSet(c: Configuration): (isSet: bool)
    ensures isSet <==> c.serverConfigurationSet
  {
    c.serverConfigurationSet
  }

  /** After reconciliation none of the three sentinel-bearing settings holds
      the sentinel, whatever the response said. */
  lemma UpdateSettingsResolvesSentinels(c: Configuration, response: StatusResponse)
    ensures var r := UpdateSettings(c, response);
            && r.httpClientConfiguration.serverID != NoOpinion
            && r.sendInterval != NoOpinion
            && r.maxBeaconSize != NoOpinion
  {
  }

  /** Reconciliation keeps the configuration well formed: a replacement HTTP
      client configuration is built from the configuration's own application
      id and endpoint. */
  lemma UpdateSettingsPreservesWellformed(c: Configuration, response: StatusResponse)
    requires Wellformed(c)
    ensures Wellformed(UpdateSettings(c, response))
  {
  }

  /** Applying the same response twice gives the state of applying it once; in
      particular the second application keeps the HTTP client configuration
      reference. */
  lemma UpdateSettingsIsIdempotent(c: Configuration, response: StatusResponse)
    ensures UpdateSettings(UpdateSettings(c, response), response) == UpdateSettings(c, response)
  {
  }

  /** Reconciles a series of responses, oldest first. */
  function ApplyResponses(c: Configuration, responses: seq<StatusResponse>): Configuration
    decreases |responses|
  {
    if |responses| == 0 then c
    else ApplyResponses(UpdateSettings(c, responses[0]), responses[1..])
  }

  /** Reconciliation is a last-writer-wins merge: after a non-empty series of
      responses, the capture flag, the send interval, the maximum beacon size
      and the server id are determined by the last response alone. */
  lemma {:induction false} ApplyResponsesLastWins(c: Configuration, responses: seq<StatusResponse>)
    requires |responses| > 0
    ensures var r := ApplyResponses(c, responses);
            var last := responses[|responses| - 1];
            && r.capture == last.capture
            && r.httpClientConfiguration.serverID == ResolveSetting(last.serverID, DefaultServerID)
            && r.sendInterval == ResolveSetting(last.sendInterval, DefaultSendInterval)
            && r.maxBeaconSize == ResolveSetting(last.maxBeaconSize, DefaultMaxBeaconSize)
    decreases |responses|
  {
    if |responses| > 1 {
      ApplyResponsesLastWins(UpdateSettings(c, responses[0]), responses[1..]);
    }
  }

  /** Any series of responses keeps the static settings and well-formedness,
      and never replaces the HTTP client configuration more often than once
      per response. */
  lemma {:induction false} ApplyResponsesKeepsStaticSettings(c: Configuration, responses: seq<StatusResponse>)
    requires Wellformed(c)
    ensures var r := ApplyResponses(c, responses);
            && SameStaticSettings(c, r)
            && Wellformed(r)
            && c.httpClientGeneration <= r.httpClientGeneration <= c.httpClientGeneration + |responses|
    decreases |responses|
  {
    if |responses| > 0 {
      UpdateSettingsPreservesWellformed(c, responses[0]);
      ApplyResponsesKeepsStaticSettings(UpdateSettings(c, responses[0]), responses[1..]);
    }
  }

  /** Nothing in the configuration code sets `serverConfigurationSet`: a new
      configuration reports no server configuration, however many responses
      have been reconciled since. */
  lemma NeverServerConfigured(
    endpointURL: string, applicationName: string, applicationID: string, applicationVersion: string,
    deviceID: int, operatingSystem: string, manufacturer: string, modelID: string,
    proxyAddress: string, verifyCertificates: bool, responses: seq<StatusResponse>)
    ensures !IsServerConfigurationSet(ApplyResponses(
              NewConfiguration(endpointURL, applicationName, applicationID, applicationVersion, deviceID,
                               operatingSystem, manufacturer, modelID, proxyAddress, verifyCertificates),
              responses))
  {
    var c := NewConfiguration(endpointURL, applicationName, applicationID, applicationVersion, deviceID,
                              operatingSystem, manufacturer, modelID, proxyAddress, verifyCertificates);
    ApplyResponsesKeepsStaticSettings(c, responses);
  }

  /** A client for application "app-1" on device 42 receives a response that
      disables capture, assigns server 7, leaves the send interval to the
      default and sets a 5000-byte beacon limit. */
  lemma ReconcileScenario(endpointURL: string)
    ensures var c := NewConfiguration(endpointURL, "app", "app-1", "1.0", 42, "os", "maker", "model", "", true);
            var r := UpdateSettings(c, StatusResponse(false, 7, NoOpinion, 5000));
            && !r.capture
            && r.httpClientConfiguration == HttpClientConfiguration(endpointURL, "app-1", 7, "", false)
            && r.httpClientGeneration == c.httpClientGeneration + 1
            && r.sendInterval == DefaultSendInterval
            && r.maxBeaconSize == 5000
            && r.beaconConfiguration.deviceID == 42
  {
  }
}
