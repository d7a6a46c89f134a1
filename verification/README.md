# OpenKit Go client: configuration reconciliation and session lifecycle

A Dafny model of two pieces of the OpenKit Go client, an instrumentation
library that records user sessions and actions and ships them as beacons to a
monitoring collector.

- `config.dfy`, module `Config` (from `openkitgo/config.go`). It holds the
  library defaults, the value types `HttpClientConfiguration`,
  `BeaconConfiguration` and `BeaconCacheConfiguration`, and the
  `Configuration` record. `NewConfiguration` builds a new client
  configuration. `UpdateSettings` merges a server `StatusResponse` into it.
  In the response, `-1` on the server id, send interval or maximum beacon
  size means "no opinion": the field falls back to the library default.
  Go pointers become values. The one observable pointer identity is whether
  the `*HTTPClientConfiguration` was replaced or kept. The model tracks it
  with `httpClientGeneration`, a counter that grows exactly when a fresh HTTP
  client configuration is built.
- `session.dfy`, module `Sessions` (from `openkitgo/session.go`). A
  `Session` record holds the end time, the open-root-action map, the
  finished latch, the "beacon configuration set" latch, the new-session
  request budget, and the beacon's configuration. It also holds a trace of
  the calls the session makes on its beacon and beacon sender. `End` and
  `EndAt` drain the open-action map with the same nested loop as the source.
  Go's map iteration order is unspecified, so each pass picks keys in an
  arbitrary order. The methods return the order in which the actions left.
  `EndAtSpec` is the functional reference definition of ending. `Run` applies
  any sequence of session operations.

Integers are unbounded. No value in this core takes part in arithmetic that
could overflow. Go's `uint32(x)` conversion of the device id is written out
as `ToUint32`. Durations are `time.Duration` values in nanoseconds, so the
default send interval is 120000000000.

Behaviour of the code that the model keeps as written:
- `NewConfiguration` assigns neither `capture`, `captureErrors`,
  `captureCrashes` nor `sendInterval`. `DEFAULT_CAPTURE`,
  `DEFAULT_CAPTURE_ERRORS` and `DEFAULT_CAPTURE_CRASHES` are declared true
  but never assigned, so the fields keep Go's zero values (false and 0).
- `updateSettings` does not set `serverConfigurationSet`, and nothing else
  in this code does, so `isServerConfigurationSet` stays false
  (`NeverServerConfigured`).
- The replacement at `config.go:125-129` drops the proxy address and the
  certificate flag.
- `End`/`EndAt` have no guard against a second call: a second end notifies
  the beacon and the beacon sender again (`EndTwiceNotifiesTwice`).
- `config.go:91` assigns an `int` to a `uint32` field. The model reads that
  line as the conversion `uint32(deviceID)`.

## Model

| member | source | states |
|---|---|---|
| Config.NewConfiguration | openkitgo/config.go:51-104 | A new configuration has max beacon size 30720, an HTTP client configuration for server 1 carrying the given endpoint, application id, proxy and certificate flag, multiplicity 1, data-collection and crash-reporting levels 2, cache bounds 6300000 ms / 80 MiB / 100 MiB, Go zero values for capture flags and send interval, no server configuration, and it is well formed |
| Config.ToUint32 | openkitgo/config.go:87-92 | The beacon device id is the device id truncated to 32 bits: in [0, 2^32), congruent to the input, and equal to it when it already fits |
| Config.CreateSessionNumber | openkitgo/config.go:106-108 | A session number lies in [0, 2147483647) |
| Config.SessionNumberRangeIsCovered | openkitgo/config.go:106-108 | Every number in [0, 2147483647) can be drawn |
| Config.ResolveSetting | openkitgo/config.go:119-122 | The sentinel -1 resolves to the default; any other value is kept |
| Config.UpdateSettingsResolvesSentinels | openkitgo/config.go:119-148 | After reconciliation the server id, send interval and max beacon size are never the sentinel -1, whatever the response carried |
| Config.UpdateSettings | openkitgo/config.go:114-150 | The capture flag is copied verbatim. Server id -1 becomes 1, else it is taken as-is. The HTTP configuration is replaced (new generation, endpoint and application id copied, empty proxy, no certificate verification) exactly when the resolved id differs from the current one, else the same one is kept. The send interval and max beacon size follow the sentinel rule with defaults 2 min and 30720. All other fields are unchanged |
| Config.UpdateSettingsPreservesWellformed | openkitgo/config.go:124-130 | After reconciliation the HTTP configuration still addresses the configuration's application id and endpoint |
| Config.UpdateSettingsIsIdempotent | openkitgo/config.go:114-150 | Applying a response twice equals applying it once, so the second application keeps the HTTP configuration reference |
| Config.ApplyResponsesLastWins | openkitgo/config.go:114-150 | After a series of responses, capture, server id, send interval and max beacon size depend only on the last response |
| Config.ApplyResponsesKeepsStaticSettings | openkitgo/config.go:114-150 | Any series of responses keeps application id, endpoint, device, beacon and cache configuration and the server-configuration flag. It keeps the configuration well formed and replaces the HTTP configuration at most once per response |
| Config.IsServerConfigurationSet | openkitgo/config.go:152-156 | Reports exactly the configuration's server-configuration flag |
| Config.NeverServerConfigured | openkitgo/config.go:152-156 | `isServerConfigurationSet` reports false for a new configuration after any series of reconciliations |
| Config.ReconcileScenario | openkitgo/config.go:117-148 | Response {capture false, server 7, interval -1, size 5000} on a new "app-1" configuration gives capture false, a replaced HTTP configuration for server 7, the 2 min default interval and size 5000 |
| Sessions.NewSession | openkitgo/session.go:47-61 | A new session has a number in [0, 2147483647), budget 4, no open actions, both latches clear, and registers with the beacon sender, then the beacon |
| Sessions.NewSessionGates | openkitgo/session.go:91-101 | A new session may request a new session, may not send data, and is not finished |
| Sessions.IsBeaconConfigurationSet | openkitgo/session.go:78-80 | Reports exactly the beacon-configuration latch |
| Sessions.GetBeaconConfiguration | openkitgo/session.go:82-84 | Returns the configuration the session's beacon holds |
| Sessions.CanSendNewSessionRequest | openkitgo/session.go:91-93 | True exactly when the new-session budget is positive |
| Sessions.IsSessionFinished | openkitgo/session.go:95-97 | Reports exactly the finished latch |
| Sessions.IsDataSendingAllowed | openkitgo/session.go:99-101 | True exactly when the latch is set and the beacon's multiplicity is positive; never true without the latch |
| Sessions.FinishSession | openkitgo/session.go:74-76 | `finishSession` makes `isSessionFinished` true and changes nothing else |
| Sessions.UpdateBeaconConfiguration | openkitgo/session.go:86-89 | The beacon then holds exactly the given configuration and the latch is set; nothing else changes |
| Sessions.DataSendingGate | openkitgo/session.go:99-101 | After an update, sending is allowed if and only if the new multiplicity is positive; without the latch it is never allowed |
| Sessions.IdentifyUser | openkitgo/session.go:107-110 | The tag is forwarded to the beacon once; session state is unchanged |
| Sessions.EnterAction | openkitgo/session.go:67-72 | A new root action adds exactly its own key to the open-action map |
| Sessions.LeaveAction | openkitgo/session.go:117-121 | Leaving an open action removes exactly its key, keeps the other entries and records one leave event |
| Sessions.LeaveInOrderEffect | openkitgo/session.go:117-121 | Leaving a duplicate-free series of open actions removes exactly their keys and appends exactly their leave events in order |
| Sessions.LeaveEventsCountOnce | openkitgo/session.go:117-121 | In the leave events of a duplicate-free series, each listed key occurs once and no other key occurs |
| Sessions.DrainOpenActions | openkitgo/session.go:117-121 | The repeat-until-empty loop terminates with an empty map, having made each action open at entry leave once, in the order returned |
| Sessions.EndAtSpecEffect | openkitgo/session.go:127-140 | Ending empties the map, sets the end time, appends the leave events, then beacon `endSession`, then sender `finishSession`; End's own code writes no other field, the finished latch included |
| Sessions.EndAt | openkitgo/session.go:127-140 | `EndAt(t)` sets the end time to t, drains the open actions, then notifies the beacon and the beacon sender once each, in that order; End's own code does not write the finished latch |
| Sessions.End | openkitgo/session.go:112-125 | `End` does what `EndAt` does, with the end time taken from the beacon's clock |
| Sessions.EndLeavesEachOpenActionOnce | openkitgo/session.go:112-125 | Ending makes every action open at entry leave exactly once and no other action leave |
| Sessions.EndTwiceNotifiesTwice | openkitgo/session.go:123-124 | A second end on an ended session finds no open action and notifies the beacon and the beacon sender again |
| Sessions.RunFollows | openkitgo/session.go:74-101 | Over any sequence of session operations the configuration latch and the finished latch are never reset, the budget and id are kept, and the trace only grows |
| Sessions.RunKeepsNewSessionRequestBudget | openkitgo/session.go:91-93 | No session operation consumes the new-session budget, so a new session can still request a new session after any run |

## Left out

- Logging (`log.Debugf` and the logger fields) has no semantic content.
- `sync.Mutex` and all concurrency. The model is sequential. `isServerConfigurationSet` is a plain read.
- `makeTimestamp`, `time.Now` and `math/rand` are not modelled. Timestamps are opaque integers passed in. The random draw behind `createSessionNumber` is a parameter, reduced into range.
- Config.CreateSessionNumber: states the range only, not the uniform distribution of `rand.Intn`.
- `strconv.Itoa`: the configuration keeps the numeric device id rather than its decimal text.
- `openKitType`, `position` and `sessionNumber` are never read or written by the modelled code.
- `sendBeacon`, `clearCapturedData` and `getBeaconConfiguration`'s pointer aliasing are left out. They delegate to the beacon, its cache and the HTTP client, whose code is not part of this model.
- Action internals (`newRootAction`, `LeaveAction` bodies) are not part of this model. Entering takes the new action's key as a parameter, and the action code keeps that key unique. Leaving removes exactly its own key and records a leave event.
- Sessions.EndAt: states only that End's own code does not write the finished latch. The beacon sender's `finishSession` is handed the session and may call its `finishSession`, which sets the latch; the sender's code is not part of this model. The same holds for Sessions.End and Sessions.EndAtSpecEffect.
- Sessions.LeaveAction: assumes that leaving removes only its own key. Actions that open further root actions while leaving are not modelled, so every drain finishes in one pass.
- Beacon sender bookkeeping behind `startSession`/`finishSession` is not modelled. Those calls appear only as trace events, and `End` does not itself set the finished latch.
