# Zigbee end-device network connection manager — Dafny model

This project models the network connection manager of a Zigbee end device
(`rz_network_conn_manager`). It decides when to start network steering,
limits and backs off repeated join attempts, rejoins on the remembered channel
before scanning all channels, and reflects the network state on a status LED.

The component is a single-threaded state machine. Its process-wide state is
the `networkState` record (`joinAttempt`, `isCurrentlySteering`,
`haveNetworkToken`, `currentChannel`) plus two one-shot scheduler events: the
commissioning-LED event and the network seeker/joiner event. The model keeps
that state in a class, `ConnManager.ConnectionManager`. Each of the
component's callbacks, handlers and public functions is a method on it.

- Each event is a `Trigger`: `Inactive | Immediate | Delayed(ms)`. Setting one
  overwrites it.
- A trigger "firing" is an explicit call to its handler method.
- What the stack reports is passed in as a parameter: the current network
  state, steering and rejoin results, the persisted node-data token and the
  identify time.
- What the component asks of the stack and the LED is appended to the
  `effects` log: steering start, rejoin with a channel mask, leave, set power
  descriptor, and LED on, off or counted blinks.

Files:

- `conn_types.dfy` (module `ConnTypes`): network states, status codes,
  triggers, effects, the token, token validity, rejoin channel masks and the
  friendly-name lookup.
- `backoff.dfy` (module `Backoff`): the configuration knobs, the backoff
  delay and its properties, and the trigger the join logic arms.
- `conn_manager.dfy` (module `ConnManager`): the class, and two scenarios
  that exercise it with the shipped configuration.

The configuration is a value `Config(maxRejoinAttempts, rejoinBackoffS,
maxRejoinBackoffS)`. It ranges over the ranges annotated in the configuration
header (1..100, 1..20, 100..3600). `DefaultConfig` holds the shipped values
(1, 5, 1800).

The class invariant `Valid()` says five things:

- `joinAttempt <= maxRejoinAttempts + 1`, so the uint8 counter never wraps.
- A pending join delay always lies between the base backoff and the ceiling.
- A pending LED delay is the 2-second identify re-arm.
- The steering flag is set only after a steering start has been requested.
- The remembered channel fits a byte.

Every method requires and preserves `Valid()`. Its `modifies` clause names
exactly the fields it may change, so everything else stays the same. The two
trigger handlers run only while their trigger is pending, as the scheduler
calls them. So once the attempts are used up and the join trigger is inactive,
no steering starts until a restart.

Some behaviour of the source worth stating plainly:

- Init runs `sl_zigbee_event_init` on both events first (lines 221-222), so
  with a valid token the join trigger is inactive afterwards.
- In a transitional network state the join handler only logs (lines 200-202),
  and nothing re-arms the trigger.
- The network-down branch stops the LED trigger and starts the long blink
  before the join logic (lines 91-93), and it does not re-read the steering
  flag afterwards.

## Model

| member | source | states |
|---|---|---|
| ConnTypes.FriendlyName | src/components/rz_network_conn_manager/rz_network_conn_manager.c:283-316 | the name is never empty, and it is "Unknown network state" exactly for values outside the seven named states |
| ConnTypes.FriendlyNameInjective | src/components/rz_network_conn_manager/rz_network_conn_manager.c:285-312 | different named states get different names |
| ConnTypes.IsValidToken | src/components/rz_network_conn_manager/rz_network_conn_manager.c:230-231 | a token with PAN id 0, with the erased PAN id 0xFFFF or with the erased node id 0xFFFF is never valid |
| ConnTypes.IsRejoinChannel | src/components/rz_network_conn_manager/rz_network_conn_manager.c:350 | a channel accepted for the single-channel rejoin is never the "no channel" value 0xFF, and its mask bit fits 32 bits |
| ConnTypes.ChannelMask | src/components/rz_network_conn_manager/rz_network_conn_manager.c:350-354 | for a channel in 11..26, `1 << channel` is a single-bit mask inside the all-channels mask |
| ConnTypes.ChannelMaskInjective | src/components/rz_network_conn_manager/rz_network_conn_manager.c:353-354 | different remembered channels give different rejoin masks |
| Backoff.BackoffSeconds | src/components/rz_network_conn_manager/rz_network_conn_manager.c:336-337 | the backoff never exceeds the ceiling and is at least the base delay when the base is below the ceiling |
| Backoff.BackoffMatchesDoubling | src/components/rz_network_conn_manager/rz_network_conn_manager.c:336-337 | the shift formula equals the rule "base delay for attempts 1-3, then twice the delay of three attempts before, capped" |
| Backoff.BackoffMonotone | src/components/rz_network_conn_manager/rz_network_conn_manager.c:336-337 | a later attempt never waits less than an earlier one |
| Backoff.BackoffReachesCeiling | src/components/rz_network_conn_manager/rz_network_conn_manager.c:336-337 | inside the annotated ranges, every attempt from the 37th on waits exactly the ceiling |
| Backoff.NextJoinTrigger | src/components/rz_network_conn_manager/rz_network_conn_manager.c:331-341 | the first attempt is scheduled immediately, and every later one is delayed by between 1000 x base and 1000 x ceiling ms |
| Backoff.NextJoinTriggerMonotone | src/components/rz_network_conn_manager/rz_network_conn_manager.c:336-341 | scheduled delays do not decrease as the attempt count grows |
| Backoff.DefaultConfigSchedule | src/components/rz_network_conn_manager/config/rz_network_conn_manager_config.h:66-83 | the shipped knobs are inside their ranges: first attempt immediate, second after 5000 ms |
| Backoff.ShiftDefinedUpTo81 | src/components/rz_network_conn_manager/rz_network_conn_manager.c:325-336 | with an attempt limit of at most 81 (the shipped limit is 1), the C shift is defined for every attempt that reaches it |
| Backoff.ShiftUndefinedWithinRanges | src/components/rz_network_conn_manager/rz_network_conn_manager.c:325-336 | with the limit at 100 and a 5 s base, attempt 97 passes the limit check and then shifts by 32, which C leaves undefined |
| ConnManager.ConnectionManager.constructor | src/components/rz_network_conn_manager/rz_network_conn_manager.c:56-67 | the zero-initialised static state satisfies the invariant, with both triggers inactive |
| ConnManager.ConnectionManager.ResetState | src/components/rz_network_conn_manager/rz_network_conn_manager.c:206-210 | resets the counter to 0 and clears the steering flag; nothing else changes |
| ConnManager.ConnectionManager.AttemptToJoin | src/components/rz_network_conn_manager/rz_network_conn_manager.c:319-344 | restart zeroes the counter and clears steering. Past the limit the trigger is left inactive and the counter unchanged. Otherwise the trigger is immediate (counter 0) or the backoff delay, and the counter goes up by exactly 1 |
| ConnManager.ConnectionManager.OnStackStatus | src/components/rz_network_conn_manager/rz_network_conn_manager.c:87-112 | network down: LED trigger off and a long blink, then the join logic runs only if not steering, else counter and join trigger are untouched. Network up: power descriptor, counter 0 whatever it was, success blink. Other statuses change nothing |
| ConnManager.ConnectionManager.OnSteeringComplete | src/components/rz_network_conn_manager/rz_network_conn_manager.c:132-144 | always clears the steering flag. Runs the non-restart join logic exactly when the status is not success, else counter and trigger are unchanged |
| ConnManager.ConnectionManager.OnJoinTriggerFired | src/components/rz_network_conn_manager/rz_network_conn_manager.c:180-204 | runs only while the join trigger is pending and consumes it. With no network: sets steering, starts steering and a long blink. Joined: only activates the LED trigger. Any other state: no field or effect changes |
| ConnManager.ConnectionManager.OnLedTriggerFired | src/components/rz_network_conn_manager/rz_network_conn_manager.c:150-175 | runs only while the LED trigger is pending, and stops it first. When joined and identifying: blinks the low byte of the identify time and re-arms after 2000 ms. Joined and not identifying: LED off. Otherwise nothing |
| ConnManager.ConnectionManager.Init | src/components/rz_network_conn_manager/rz_network_conn_manager.c:219-239 | counter 0, steering cleared, triggers inactive. Token valid iff panId is not 0 or 0xFFFF and nodeId is not 0xFFFF or 0xFFFE. Valid: remembers the token's channel. Invalid: channel 0xFF and an immediate join trigger |
| ConnManager.ConnectionManager.Leave | src/components/rz_network_conn_manager/rz_network_conn_manager.c:242-251 | forgets the token and the channel (0xFF) and asks the stack to leave; the counter and steering flag are untouched |
| ConnManager.ConnectionManager.IndicateNetworkStatus | src/components/rz_network_conn_manager/rz_network_conn_manager.c:254-266 | long blink with no network or no parent, else the counted success blink; no state changes |
| ConnManager.ConnectionManager.Join | src/components/rz_network_conn_manager/rz_network_conn_manager.c:269-280 | when joined: only the success blink. Otherwise the cycle restarts: counter 1, immediate join trigger, steering cleared |
| ConnManager.ConnectionManager.RejoinNetwork | src/components/rz_network_conn_manager/rz_network_conn_manager.c:347-366 | a single-channel rejoin only for a remembered channel in 11..26, then an all-channels rejoin exactly when the first was skipped or failed: at most two rejoins, in that order |

## Left out

- Debug logging. It has no effect on state. The network state read at line 100 and in `Leave` is used only for logging, so those methods do not take it.
- The build without a status LED, where the blink calls compile to nothing. The model is of the build with the LED present, and it records blink requests, not their timing.
- The vendor stack's internals (steering, find-and-rejoin, leave, power descriptor, network state). Their answers are parameters and their invocations are effects.
- The status returned by steering start, and the status of the all-channels rejoin. The source only logs them.
- The fixed arguments of the rejoin calls (the current-key flag and the "no parent" reason) and the power descriptor value. The effect records only the call, and for a rejoin its channel mask.
- The beacon count, join-attempt count and final state passed to the steering-complete callback. The source only reads the status.
- Token storage and the Identify attribute read. Their results are parameters. A failed token read leaves the 0xFF-filled record, which a caller passes as such.
- The event queue: real-time firing, handler registration and the order in which pending triggers fire. When the join trigger fires, the scheduler consumes it before the handler runs.
- The LED index and the configuration's step sizes. The LED timings and counts are constants.
- Backoff.BackoffSeconds: computed on unbounded integers, so it gives the capped delay for every attempt. The source's C `int` shift is undefined past the cases covered by ShiftDefinedUpTo81 (see Findings).

## Findings

| source | as written | input that shows it | evidently intended | confidence | as-written member | corrected member |
|---|---|---|---|---|---|---|
| src/components/rz_network_conn_manager/rz_network_conn_manager.c:336 | `REJOIN_BACKOFF_S << (joinAttempt - 1)/3` is a shift on C `int`. It is undefined once the shift count reaches 32 or the result leaves `int` range, and the attempt limit allowed by the configuration does not prevent that | MAX_REJOIN_ATTEMPTS = 100 and REJOIN_BACKOFF_S = 5, both inside their annotated ranges, with joinAttempt = 97: the check at line 325 lets it through, and the shift count is 32 | every later attempt waits the ceiling MAX_REJOIN_BACKOFF_S | not executed; the shipped limit of 1 never reaches it | Backoff.ShiftUndefinedWithinRanges | Backoff.BackoffSeconds |
