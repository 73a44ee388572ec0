/**
 The no-CC congestion controller: its reset and init, the notification
 dispatch with the acknowledgement gate, the slow-start-only floors and the
 delay-based slow-start exit, the window pin at the end of every dispatch,
 teardown and observation. Each operation is a pure function from the old path
 (and controller state) to the new one; the collaborators come from `env`.
 */
module NoCc {
  import opened CcTypes
  import Floors

  /** A controller state together with the path it belongs to, as one dispatch branch leaves them. */
  datatype Step = Step(state: NoCcState, path: Path)

  const ZeroSim: SimState := SimState(SlowStart, 0, 0, 0, 0)
  const ZeroFilter: RttFilter := RttFilter(0, 0)

  function Max(a: U64, b: U64): U64 {
    if a < b then b else a
  }

  /**
   picoquic_no_cc_reset: the state is zeroed, the simulator window and the path
   window are set to 62500, and then the simulator resets itself. Whatever the
   state held before is discarded; only the path window changes on the path.
   */
  function Reset(env: Env, path: Path): (r: Step)
    ensures r.path == path.(cwin := NoCcWindow)
    ensures r.state.rttFilter == ZeroFilter
    ensures r.state.nrss == env.simReset(ZeroSim.(cwin := NoCcWindow))
    ensures SimResetRestartsSlowStart(env) ==> InInitialSlowStart(r.state.nrss)
  {
    var zeroed := NoCcState(ZeroSim.(cwin := NoCcWindow), ZeroFilter);
    Step(zeroed.(nrss := env.simReset(zeroed.nrss)), path.(cwin := NoCcWindow))
  }

  /**
   picoquic_no_cc_init. `allocOk` is the outcome of the allocation: on failure
   the slot stays empty, and either way the path gets the 62500-byte window.
   */
  function Init(env: Env, path: Path, currentTime: U64, allocOk: bool): (r: Path)
    ensures r.cwin == NoCcWindow
    ensures !allocOk ==> r == path.(cwin := NoCcWindow, ccState := None)
    ensures allocOk ==> r.ccState.Some? && r == path.(cwin := NoCcWindow, ccState := r.ccState)
    ensures allocOk ==> r.ccState.value.nrss.cwin == NoCcWindow && r.ccState.value.rttFilter == ZeroFilter
    ensures allocOk ==> r.ccState.value.nrss == env.simReset(ZeroSim.(cwin := NoCcWindow)).(cwin := NoCcWindow)
    ensures allocOk && SimResetRestartsSlowStart(env) ==> InInitialSlowStart(r.ccState.value.nrss)
  {
    if allocOk then
      var s := Reset(env, path);
      var st := s.state.(nrss := s.state.nrss.(cwin := NoCcWindow));
      s.path.(ccState := Some(st), cwin := NoCcWindow)
    else
      path.(ccState := None, cwin := NoCcWindow)
  }

  /**
   Hands one notification to the simulator and copies the simulator's resulting
   window to the path; the RTT filter and every other path field are untouched.
   */
  function ForwardToSimulator(env: Env, cnx: Connection, st: NoCcState, path: Path, ev: Event): (r: Step)
    ensures r.state.rttFilter == st.rttFilter
    ensures r.state.nrss == env.simNotify(st.nrss, cnx, path, ev.tag, ev.nbBytesAcknowledged, ev.lostPacketNumber, ev.currentTime)
    ensures r.path == path.(cwin := r.state.nrss.cwin)
  {
    var nrss := env.simNotify(st.nrss, cnx, path, ev.tag, ev.nbBytesAcknowledged, ev.lostPacketNumber, ev.currentTime);
    Step(st.(nrss := nrss), path.(cwin := nrss.cwin))
  }

  /** An acknowledgement can signal spare capacity only if its data was sent after the path was last sender-limited. */
  predicate AckSignalsCapacity(path: Path) {
    path.lastTimeAckedDataFrameSent > path.lastSenderLimitedTime
  }

  /** The acknowledgement branch: gated on the sender-limited timestamps. */
  function OnAck(env: Env, cnx: Connection, st: NoCcState, path: Path, ev: Event): (r: Step)
    ensures !AckSignalsCapacity(path) ==> r == Step(st, path)
    ensures AckSignalsCapacity(path) ==> r == ForwardToSimulator(env, cnx, st, path, ev)
  {
    if AckSignalsCapacity(path) then ForwardToSimulator(env, cnx, st, path, ev) else Step(st, path)
  }

  /**
   Raises both the simulator window and the path window to `floor` when the floor
   exceeds the simulator window; never lowers either.
   */
  function RaiseWindow(s: Step, floor: U64): (r: Step)
    ensures r.state.nrss.cwin == Max(s.state.nrss.cwin, floor)
    ensures r.state == s.state.(nrss := s.state.nrss.(cwin := r.state.nrss.cwin))
    ensures floor > s.state.nrss.cwin ==> r.path == s.path.(cwin := floor)
    ensures floor <= s.state.nrss.cwin ==> r.path == s.path
  {
    if floor > s.state.nrss.cwin then
      Step(s.state.(nrss := s.state.nrss.(cwin := floor)), s.path.(cwin := floor))
    else s
  }

  /** The delay sample the slow-start-exit test sees: the one-way delay when timestamps are on, else the RTT. */
  function DelaySample(cnx: Connection, ev: Event): (d: U64)
    ensures cnx.isTimeStampEnabled ==> d == ev.oneWayDelay
    ensures !cnx.isTimeStampEnabled ==> d == ev.rttMeasurement
  {
    if cnx.isTimeStampEnabled then ev.oneWayDelay else ev.rttMeasurement
  }

  /** The slow-start-exit test as the RTT branch invokes it on a filter. */
  function DelayTest(env: Env, cnx: Connection, filter: RttFilter, ev: Event): HystartResult {
    env.hystartTest(filter, DelaySample(cnx, ev), cnx.firstPathPacingTime, ev.currentTime, cnx.isTimeStampEnabled)
  }

  /**
   The RTT-sample branch. Only in the initial slow start: first the long-delay
   floor, then the delay test; when the test fires, the threshold becomes the
   (possibly raised) window, the phase becomes congestion avoidance and the path
   learns that its threshold is set.
   */
  function OnRttSample(env: Env, cnx: Connection, st: NoCcState, path: Path, ev: Event): (r: Step)
    requires ValidConstants(env.consts)
    ensures !InInitialSlowStart(st.nrss) ==> r == Step(st, path)
    ensures r.path == path.(cwin := r.path.cwin, isSsthreshInitialized := r.path.isSsthreshInitialized)
    ensures r.state.nrss == st.nrss.(cwin := r.state.nrss.cwin, ssthresh := r.state.nrss.ssthresh, algState := r.state.nrss.algState)
    ensures InInitialSlowStart(st.nrss) ==>
      var floor := Floors.LongDelayFloor(env.consts, path.rttMin);
      var h := DelayTest(env, cnx, st.rttFilter, ev);
      && (floor.None? ==> r.state.nrss.cwin == st.nrss.cwin)
      && (floor.Some? ==> r.state.nrss.cwin == Max(st.nrss.cwin, floor.value))
      && r.state.rttFilter == h.filter
      && (r.state.nrss.algState == CongestionAvoidance <==> h.exit)
      && (h.exit ==> r.state.nrss.ssthresh == r.state.nrss.cwin && r.path.cwin == r.state.nrss.cwin && r.path.isSsthreshInitialized)
      && (!h.exit ==> InInitialSlowStart(r.state.nrss) && r.path.isSsthreshInitialized == path.isSsthreshInitialized)
      && (!h.exit ==> r.path.cwin == (if floor.Some? && floor.value > st.nrss.cwin then floor.value else path.cwin))
  {
    if !InInitialSlowStart(st.nrss) then Step(st, path)
    else
      var raised :=
        match Floors.LongDelayFloor(env.consts, path.rttMin)
        case None => Step(st, path)
        case Some(w) => RaiseWindow(Step(st, path), w);
      var h := DelayTest(env, cnx, raised.state.rttFilter, ev);
      var afterTest := raised.state.(rttFilter := h.filter);
      if h.exit then
        Step(afterTest.(nrss := afterTest.nrss.(ssthresh := afterTest.nrss.cwin, algState := CongestionAvoidance)),
             raised.path.(cwin := afterTest.nrss.cwin, isSsthreshInitialized := true))
      else
        Step(afterTest, raised.path)
  }

  /** The bandwidth-sample branch: only in the initial slow start, raise the window to the bandwidth floor. */
  function OnBandwidthSample(st: NoCcState, path: Path): (r: Step)
    ensures !InInitialSlowStart(st.nrss) ==> r == Step(st, path)
    ensures InInitialSlowStart(st.nrss) ==>
      var floor := Floors.BandwidthFloor(path.maxBandwidthEstimate, path.smoothedRtt);
      && r.state.nrss.cwin == Max(st.nrss.cwin, floor)
      && r.state == st.(nrss := st.nrss.(cwin := r.state.nrss.cwin))
      && (floor > st.nrss.cwin ==> r.path == path.(cwin := floor))
      && (floor <= st.nrss.cwin ==> r.path == path)
  {
    if !InInitialSlowStart(st.nrss) then Step(st, path)
    else RaiseWindow(Step(st, path), Floors.BandwidthFloor(path.maxBandwidthEstimate, path.smoothedRtt))
  }

  /** Tags that reach the simulator without any gate. */
  predicate IsSimulatorTag(tag: Notification) {
    tag.SeedCwin? || tag.EcnEc? || tag.Repeat? || tag.Timeout? || tag.SpuriousRepeat?
  }

  /** Tags the dispatch ignores. */
  predicate IsIgnoredTag(tag: Notification) {
    tag.CwinBlocked? || tag.Unrecognized?
  }

  /** Tags whose branch acts only during the initial slow start. */
  predicate IsSampleTag(tag: Notification) {
    tag.RttMeasurement? || tag.BwMeasurement?
  }

  /**
   The switch of picoquic_no_cc_notify, before the final pin. Only the path's
   window and threshold flag can change; only an RTT sample can set the flag; the
   sample branches never lower the window and do nothing after slow start has
   ended; a path window that mirrored the simulator still mirrors it afterwards,
   except across a reset, where the simulator's own reset decides its window.
   */
  function Dispatch(env: Env, cnx: Connection, st: NoCcState, path: Path, ev: Event): (r: Step)
    requires ValidConstants(env.consts)
    ensures r.path == path.(cwin := r.path.cwin, isSsthreshInitialized := r.path.isSsthreshInitialized)
    ensures !ev.tag.RttMeasurement? ==> r.path.isSsthreshInitialized == path.isSsthreshInitialized
    ensures IsIgnoredTag(ev.tag) ==> r == Step(st, path)
    ensures ev.tag.Acknowledgement? && !AckSignalsCapacity(path) ==> r == Step(st, path)
    ensures IsSimulatorTag(ev.tag) || (ev.tag.Acknowledgement? && AckSignalsCapacity(path)) ==>
              r == ForwardToSimulator(env, cnx, st, path, ev)
    ensures IsSampleTag(ev.tag) && !InInitialSlowStart(st.nrss) ==> r == Step(st, path)
    ensures IsSampleTag(ev.tag) ==> r.state.nrss.cwin >= st.nrss.cwin
    ensures ev.tag.ResetNotification? ==> r == Reset(env, path)
    ensures !ev.tag.ResetNotification? && path.cwin == st.nrss.cwin ==> r.path.cwin == r.state.nrss.cwin
  {
    match ev.tag
    case Acknowledgement => OnAck(env, cnx, st, path, ev)
    case SeedCwin => ForwardToSimulator(env, cnx, st, path, ev)
    case EcnEc => ForwardToSimulator(env, cnx, st, path, ev)
    case Repeat => ForwardToSimulator(env, cnx, st, path, ev)
    case Timeout => ForwardToSimulator(env, cnx, st, path, ev)
    case SpuriousRepeat => ForwardToSimulator(env, cnx, st, path, ev)
    case RttMeasurement => OnRttSample(env, cnx, st, path, ev)
    case CwinBlocked => Step(st, path)
    case BwMeasurement => OnBandwidthSample(st, path)
    case ResetNotification => Reset(env, path)
    case Unrecognized(_) => Step(st, path)
  }

  /** The flag handed to the pacing update: slow start with a threshold equal to 62500. */
  predicate UnthrottledSlowStart(s: SimState) {
    s.algState == SlowStart && s.ssthresh == NoCcWindow
  }

  /**
   picoquic_no_cc_notify. The path is always marked as having updated
   congestion data. With an empty slot nothing else changes. Otherwise the event
   is dispatched, both windows are pinned back to 62500, and the pacing update
   runs on the resulting path with the slow-start flag of the resulting state.
   */
  function Notify(env: Env, cnx: Connection, path: Path, ev: Event): (r: Path)
    requires ValidConstants(env.consts)
    ensures r.isCcDataUpdated
    ensures path.ccState.None? ==> r == path.(isCcDataUpdated := true)
    ensures r.ccState.Some? <==> path.ccState.Some?
    ensures r == path.(cwin := r.cwin, isCcDataUpdated := true, isSsthreshInitialized := r.isSsthreshInitialized,
                       pacing := r.pacing, ccState := r.ccState)
    ensures path.ccState.Some? ==> r.cwin == NoCcWindow && r.ccState.value.nrss.cwin == NoCcWindow
    ensures path.ccState.Some? ==>
              r.pacing == env.updatePacing(cnx, r.(pacing := path.pacing), UnthrottledSlowStart(r.ccState.value.nrss))
    ensures !ev.tag.RttMeasurement? ==> r.isSsthreshInitialized == path.isSsthreshInitialized
    ensures path.ccState.Some? && IsSampleTag(ev.tag) && !InInitialSlowStart(path.ccState.value.nrss) ==>
              && r.ccState.value == path.ccState.value.(nrss := path.ccState.value.nrss.(cwin := NoCcWindow))
              && r.isSsthreshInitialized == path.isSsthreshInitialized
  {
    var marked := path.(isCcDataUpdated := true);
    match marked.ccState
    case None => marked
    case Some(st) =>
      var s := Dispatch(env, cnx, st, marked, ev);
      var pinned := s.state.(nrss := s.state.nrss.(cwin := NoCcWindow));
      var p := s.path.(cwin := NoCcWindow, ccState := Some(pinned));
      p.(pacing := env.updatePacing(cnx, p, UnthrottledSlowStart(pinned.nrss)))
  }

  /** picoquic_no_cc_delete: the slot ends up empty and nothing else on the path changes. */
  function Delete(path: Path): (r: Path)
    ensures r.ccState.None?
    ensures r == path.(ccState := None)
  {
    if path.ccState.Some? then path.(ccState := None) else path
  }

  /** What picoquic_no_cc_observe writes to its two out-parameters. */
  datatype Observation = Observation(stateCode: U64, param: U64)

  /**
   picoquic_no_cc_observe. The state is dereferenced unchecked, so it must be
   present. The code is the phase; the parameter is the threshold, except that a
   threshold of exactly 62500 is reported as 0.
   */
  function Observe(path: Path): (r: Observation)
    requires path.ccState.Some?
    ensures r.stateCode == 0 <==> path.ccState.value.nrss.algState == SlowStart
    ensures r.stateCode == AlgCode(path.ccState.value.nrss.algState)
    ensures r.param == 0 <==> path.ccState.value.nrss.ssthresh in {0, NoCcWindow}
    ensures r.param != 0 ==> r.param == path.ccState.value.nrss.ssthresh
  {
    var nrss := path.ccState.value.nrss;
    Observation(AlgCode(nrss.algState), if nrss.ssthresh == NoCcWindow then 0 else nrss.ssthresh)
  }
}
