/**
 The data the no-CC congestion controller works on: the path fields it reads and
 writes, its own per-path state (an embedded New Reno simulator plus an RTT
 filter), the notification events, and the collaborators it calls but does not
 define (simulator, slow-start-exit test, pacing update), which are carried as
 function values so that every property proved holds for any implementation of them.
 */
module CcTypes {

  const Uint64Max: int := 0xFFFF_FFFF_FFFF_FFFF

  /** An unsigned 64-bit integer, the width of every counter the controller touches. */
  type U64 = x: int | 0 <= x <= Uint64Max

  /** The window, in bytes, the controller installs at init and pins after every notification. */
  const NoCcWindow: U64 := 62500

  /** The state slot of a path: `None` is the null `congestion_alg_state` pointer. */
  datatype Option<+T> = None | Some(value: T)

  /** Phase of the embedded simulator; slow start is modelled as code 0, which the zeroed state relies on. */
  datatype AlgState = SlowStart | CongestionAvoidance

  /** The numeric code `observe` reports for a phase. */
  function AlgCode(a: AlgState): (code: U64)
    ensures code == 0 <==> a == SlowStart
  {
    match a
    case SlowStart => 0
    case CongestionAvoidance => 1
  }

  /**
   The embedded New Reno simulator state. Only `algState`, `ssthresh` and `cwin`
   are read or written by the controller itself; the other two fields stand for
   the simulator's private bookkeeping, which only the simulator changes.
   */
  datatype SimState = SimState(
    algState: AlgState,
    ssthresh: U64,
    cwin: U64,
    recoveryStart: U64,
    residualAck: U64)

  /** The min/max RTT filter consumed and updated by the slow-start-exit test. */
  datatype RttFilter = RttFilter(sampleMin: U64, sampleMax: U64)

  /** The controller's per-path state (what `congestion_alg_state` points to). */
  datatype NoCcState = NoCcState(nrss: SimState, rttFilter: RttFilter)

  /** The pacing parameters of a path; only the pacing update writes them. */
  datatype Pacing = Pacing(packetTimeMicrosec: U64, rate: U64, bucketMax: U64)

  /** The fields of a path that the controller reads or writes. */
  datatype Path = Path(
    cwin: U64,
    rttMin: U64,
    smoothedRtt: U64,
    maxBandwidthEstimate: U64,
    lastTimeAckedDataFrameSent: U64,
    lastSenderLimitedTime: U64,
    isCcDataUpdated: bool,
    isSsthreshInitialized: bool,
    pacing: Pacing,
    ccState: Option<NoCcState>)

  /**
   The fields of the connection that the controller reads: whether timestamps
   are exchanged, and the pacing interval of the connection's first path.
   */
  datatype Connection = Connection(isTimeStampEnabled: bool, firstPathPacingTime: U64)

  /** The notification tags; `Unrecognized` stands for every other tag value. */
  datatype Notification =
    | Acknowledgement
    | Repeat
    | Timeout
    | SpuriousRepeat
    | RttMeasurement
    | BwMeasurement
    | EcnEc
    | CwinBlocked
    | SeedCwin
    | ResetNotification
    | Unrecognized(code: U64)

  /** One call's notification with its arguments. */
  datatype Event = Event(
    tag: Notification,
    rttMeasurement: U64,
    oneWayDelay: U64,
    nbBytesAcknowledged: U64,
    lostPacketNumber: U64,
    currentTime: U64)

  /** What the slow-start-exit test returns: its verdict and the updated filter. */
  datatype HystartResult = HystartResult(exit: bool, filter: RttFilter)

  /**
   The build-time constants of the long-delay floor: the initial window and the
   two reference RTTs (microseconds).
   */
  datatype Constants = Constants(cwinInitial: U64, targetRenoRtt: U64, targetSatelliteRtt: U64)

  /** The constants are positive, the satellite RTT exceeds the Reno one, and the capped floor fits 64 bits. */
  predicate ValidConstants(c: Constants) {
    && 0 < c.cwinInitial
    && 0 < c.targetRenoRtt < c.targetSatelliteRtt
    && c.cwinInitial * c.targetSatelliteRtt / c.targetRenoRtt <= Uint64Max
  }

  /**
   Everything the controller depends on but does not define. The simulator
   calls receive exactly the arguments the controller hands them
   (no RTT or one-way delay), and the pacing update only produces pacing fields.
   */
  datatype Env = Env(
    consts: Constants,
    simReset: SimState -> SimState,
    simNotify: (SimState, Connection, Path, Notification, U64, U64, U64) -> SimState,
    hystartTest: (RttFilter, U64, U64, U64, bool) -> HystartResult,
    updatePacing: (Connection, Path, bool) -> Pacing)

  /** The controller is still in its initial slow start: no exit has set a threshold. */
  predicate InInitialSlowStart(s: SimState) {
    s.algState == SlowStart && s.ssthresh == Uint64Max
  }

  /** A simulator reset that re-enters slow start with the unbounded threshold; post-reset phase facts are stated under this hypothesis. */
  ghost predicate SimResetRestartsSlowStart(env: Env) {
    forall s :: InInitialSlowStart(env.simReset(s))
  }
}
