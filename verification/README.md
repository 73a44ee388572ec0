# no-CC congestion controller (picoquic) in Dafny

This project models picoquic's "no-CC" congestion controller (`picoquic/no_cc.c`): the
per-path controller behind the congestion-algorithm plugin interface. It has four
operations.

- **init** allocates the controller state and gives the path a 62500-byte window. The
  window is set even when the allocation fails; the state slot is then left empty.
- **notify** processes one congestion notification.
  - It always marks the path's congestion data as updated.
  - Acknowledgements reach the embedded New Reno simulator only when the acknowledged
    data was sent after the path was last sender-limited.
  - Losses, timeouts, ECN signals, spurious repeats and window seeding always reach the
    simulator.
  - RTT and bandwidth samples act only during the initial slow start. They raise the
    window to a long-delay floor or a bandwidth floor, and they can leave slow start
    when the delay-based (HyStart-like) test fires.
  - A reset notification re-runs the reset.
  - At the end, both the simulator window and the path window are pinned back to 62500,
    and the pacing update is called.
- **delete** releases the state. A second call is a no-op.
- **observe** reports the phase and the threshold.

Everything is a pure function over immutable records: `Path`, `NoCcState` (the
simulator state `SimState` plus an `RttFilter`), `Event` and `Connection`. The
collaborators whose code is not part of this model are fields of an `Env` value:

- the simulator's reset and notify;
- the slow-start-exit test, which returns its verdict and the updated RTT filter;
- the pacing update.

They are ordinary function values. Every property below therefore holds for every
possible simulator, delay test and pacing computation.

Files:

- `cc_types.dfy`: the data model.
- `arithmetic.dfy`: floor-division facts.
- `floors.dfy`: the long-delay floor and the bandwidth floor.
- `no_cc.dfy`: the controller operations.
- `no_cc_properties.dfy`: properties that span several calls.

The model follows the code as written. Three points of that code shape everything
else:

- Every dispatch with a state present ends by pinning both windows to 62500
  (`picoquic/no_cc.c:164-165`). This pin overrides every window change the dispatch
  makes. `RunKeepsNoCcWindow` proves the consequence: the path window is 62500 for the
  path's whole life, whatever notifications arrive, even when the connection's timestamp
  flag and first-path pacing interval change from one call to the next.
- The pacing flag (`picoquic/no_cc.c:167-168`) and observation
  (`picoquic/no_cc.c:187`) compare the threshold with 62500, not with the unbounded
  sentinel `UINT64_MAX`. As a result:
  - during the initial slow start the pacing update is always told "not unthrottled";
  - `observe` reports the sentinel itself rather than 0;
  - a slow-start exit taken at the pinned window sets the threshold to 62500, which
    `observe` then reports as 0 (`ExitAtPinnedWindowObservesZero`).
- `observe` dereferences the state without a check, so a present state is its
  precondition.

The long-delay floor scales `PICOQUIC_CWIN_INITIAL` by the minimum RTT. It does not
scale the 62500 bootstrap value.

## Model

| member | source | states |
|---|---|---|
| `NoCc.Reset` | picoquic/no_cc.c:41-47 | The path window becomes 62500 and nothing else on the path changes. The RTT filter is zeroed. The simulator is reset from a zeroed state whose window is 62500. If the simulator's reset re-enters slow start, the result is in the initial slow start. |
| `NoCc.Init` | picoquic/no_cc.c:49-67 | The path window is 62500 whether or not allocation succeeded. On failure the slot is empty and nothing else changes. On success the slot holds a state with a zeroed filter whose simulator state is the simulator's reset of a zeroed state, with its window set back to 62500. |
| `NoCc.RaiseWindow` | picoquic/no_cc.c:126-129 | The simulator window becomes the larger of itself and the floor. The path window is set to the floor only when the floor exceeds the simulator window. |
| `NoCc.OnRttSample` | picoquic/no_cc.c:111-142 | Outside the initial slow start, nothing changes. Inside it, the window is raised to the long-delay floor if one applies, and the filter is whatever the delay test returns. The phase becomes congestion avoidance iff the test fires; then the threshold and the path window equal the raised window and the path flag is set. Otherwise the controller stays in the initial slow start, and the path window is the floor if the floor exceeded the simulator window, else unchanged. Only `cwin` and `isSsthreshInitialized` on the path can change. |
| `Floors.LongDelayFloor` | picoquic/no_cc.c:116-125 | There is no floor iff `rttMin <= TARGET_RENO_RTT`. Up to the satellite RTT the floor is `CWIN_INITIAL * rttMin / TARGET_RENO_RTT`; beyond it the floor is the satellite-ratio cap. Every floor lies between `CWIN_INITIAL` and the cap. |
| `Floors.SatelliteFloor` | picoquic/no_cc.c:119-121 | The capped floor is at least the initial window. |
| `Floors.LongDelayFloorMonotone` | picoquic/no_cc.c:116-125 | A longer minimum RTT never gives a smaller floor. Once a floor applies, it keeps applying. |
| `Floors.MulWrap` | picoquic/no_cc.c:149 | The unsigned 64-bit product is the one 64-bit value congruent to the true product modulo 2^64, which is the true product when that fits. |
| `Floors.BandwidthFloor` | picoquic/no_cc.c:149-150 | Without overflow the floor is `maxBandwidthEstimate * smoothedRtt / 2000000`, that is half the bandwidth-delay product in bytes. With overflow it is the wrapped 64-bit product divided by 2000000, which never exceeds that value. |
| `NoCc.OnBandwidthSample` | picoquic/no_cc.c:145-156 | Outside the initial slow start, nothing changes. Inside it, the simulator window becomes the larger of itself and the bandwidth floor. The path window is set only when the floor is larger. |
| `NoCc.Dispatch` | picoquic/no_cc.c:93-163 | Only the path window and threshold flag can change, and only an RTT sample sets the flag. Ignored tags change nothing. The acknowledgement gate holds, and the loss-like tags always reach the simulator. Samples never lower the window and do nothing after slow start. Reset re-runs the reset. Apart from a reset, a path window that mirrored the simulator still mirrors it. |
| `NoCc.Notify` | picoquic/no_cc.c:75-170 | The updated flag is always set. With an empty slot nothing else changes. With a state present, both windows end at 62500, and the pacing update gets the resulting path and exactly `algState == SlowStart && ssthresh == 62500`. The slot stays present or absent. Only RTT samples can change the threshold flag. After slow start, samples leave the state unchanged apart from the pin. |
| `NoCc.Delete` | picoquic/no_cc.c:173-179 | The slot ends empty, and nothing else on the path changes. |
| `NoCc.Observe` | picoquic/no_cc.c:183-188 | Requires a present state. The code is 0 iff the phase is slow start. The parameter is 0 iff the threshold is 0 or 62500; otherwise it is the threshold. |
| `CcTypes.AlgCode` | picoquic/no_cc.c:186 | Slow start is the only phase with code 0. |
| `NoCcProperties.RunKeepsNoCcWindow` | picoquic/no_cc.c:164-165 | From a 62500 window, any sequence of notify calls, each with its own connection, keeps the path window at 62500 and keeps the slot present or absent. |
| `NoCcProperties.LifetimeWindowIsNoCcWindow` | picoquic/no_cc.c:57-66 | After init, whether or not allocation succeeded, and any run of notify calls, each with its own connection, the window is 62500. A state is present iff allocation succeeded. |
| `NoCcProperties.RunWithoutStateOnlyMarks` | picoquic/no_cc.c:88-92 | With an empty slot, a non-empty run of notify calls, each with its own connection, only marks the path as updated. |
| `NoCcProperties.SamplesAfterExitChangeNothing` | picoquic/no_cc.c:111-156 | After slow start has ended, any run of RTT and bandwidth samples, each with its own connection, leaves the phase, threshold, filter and path threshold flag unchanged. |
| `NoCcProperties.ResetNotifyMatchesInit` | picoquic/no_cc.c:157-158 | A reset notification leaves the same controller state and path window as a successful init. |
| `NoCcProperties.UnusedDelayIsIgnored` | picoquic/no_cc.c:132-134 | With timestamps on, the RTT sample does not influence the outcome. With them off, the one-way delay does not. |
| `NoCcProperties.SenderLimitedAckIsIgnored` | picoquic/no_cc.c:94-99 | A sender-limited acknowledgement leaves the controller state unchanged apart from the pin. |
| `NoCcProperties.ExitAtPinnedWindowObservesZero` | picoquic/no_cc.c:136-187 | An exit at the pinned window on a short path sets the threshold to 62500. `observe` then reports (congestion avoidance, 0). |
| `NoCcProperties.ExitAboveFloorObservesFloor` | picoquic/no_cc.c:116-140 | An exit after the long-delay floor lifted the window above 62500 makes `observe` report that floor. The window itself is pinned back to 62500 and the path threshold flag is set. |
| `NoCcProperties.PacingNeverUnthrottledInInitialSlowStart` | picoquic/no_cc.c:166-168 | While in the initial slow start, the pacing update receives `false`. |
| `NoCcProperties.DeleteIsIdempotent` | picoquic/no_cc.c:173-179 | Deleting twice equals deleting once, and the slot is empty. |

## Left out

- Collaborator bodies are not modelled: `picoquic_newreno_sim_reset`, `picoquic_newreno_sim_notify`, `picoquic_hystart_test` and `picoquic_update_pacing_data` live in files that are not part of this model. They are uninterpreted function values in `Env`. Slow-start facts after a reset are stated under the hypothesis `SimResetRestartsSlowStart`.
- `NoCc.Reset`: it does not promise a simulator window of 62500. The simulator's own reset runs after the window is set and may overwrite it. Only init (line 60) and the end-of-dispatch pin restore 62500.
- The simulator's notify is assumed to write only the simulator state. It receives the connection and the path but is taken to write nothing through them, as the comment at `picoquic/no_cc.c:29-33` describes.
- The pacing update is assumed to write only the path's pacing fields (`Pacing`). Its effect on other path or connection fields is not modelled.
- `picoquic_min_max_rtt_t` is reduced to two fields. The controller only zeroes the filter and passes it to the delay test.
- `Connection` holds only the timestamp flag and the pacing interval of the connection's first path. When the notified path is itself the first path, this aliasing is not tracked.
- `Floors.LongDelayFloor`: integer floor division stands for the `double` arithmetic at lines 120 and 124. The two agree while `CWIN_INITIAL * rttMin` stays below 2^53. The header constants `PICOQUIC_CWIN_INITIAL`, `PICOQUIC_TARGET_RENO_RTT` and `PICOQUIC_TARGET_SATELLITE_RTT` are not part of this model. They are abstract fields of `Constants`, constrained by `ValidConstants`: all positive, Reno below satellite, and the capped floor fits in 64 bits.
- `Floors.BandwidthFloor`: the product at line 149 wraps modulo 2^64 exactly as written. No precondition excludes the overflow.
- The numeric phase codes (slow start 0, congestion avoidance 1) come from an enumeration that is not part of this model. Only "slow start is 0", which the zeroing of the state relies on, matters here.
- Allocation failure in init is the parameter `allocOk`, and freeing in delete is clearing the slot. Memory itself is not modelled.
- `current_time` in init and the `_WINDOWS` / `UNREFERENCED_PARAMETER` macros have no behaviour.
- The registration record (lines 192-202: the name "nocc", the algorithm number and the four entry points) is static data and is not modelled.
- `picoquic/picoquic_lb.h` declares only the load-balancer connection-ID configuration and prototypes. It has no bodies, so it is not modelled.
