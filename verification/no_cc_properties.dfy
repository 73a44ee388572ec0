/**
 Properties of the no-CC controller that relate several calls: runs of
 notifications, the reset notification against a fresh init, which delay
 sample the controller listens to, teardown twice, and what observation
 reports after a slow-start exit given the window pin.
 */
module NoCcProperties {
  import opened CcTypes
  import opened NoCc
  import Floors

  /**
   One notify call: the connection as the controller reads it at that call
   (timestamp flag, first path's pacing interval) and the notification.
   */
  datatype Call = Call(cnx: Connection, ev: Event)

  /** The path after the notify calls `calls`, in order; each call may see a different connection. */
  function Run(env: Env, path: Path, calls: seq<Call>): Path
    requires ValidConstants(env.consts)
    decreases |calls|
  {
    if |calls| == 0 then path else Run(env, Notify(env, calls[0].cnx, path, calls[0].ev), calls[1..])
  }

  /**
   Whatever notifications arrive, a path whose window is 62500 keeps it, and
   the slot stays present or absent as it was.
   */
  lemma {:induction false} RunKeepsNoCcWindow(env: Env, path: Path, calls: seq<Call>)
    requires ValidConstants(env.consts)
    requires path.cwin == NoCcWindow
    ensures Run(env, path, calls).cwin == NoCcWindow
    ensures Run(env, path, calls).ccState.Some? <==> path.ccState.Some?
    decreases |calls|
  {
    if |calls| > 0 {
      RunKeepsNoCcWindow(env, Notify(env, calls[0].cnx, path, calls[0].ev), calls[1..]);
    }
  }

  /**
   Over the whole life of a path, from init (allocation succeeded or not)
   through any sequence of notifications, the path window is 62500.
   */
  lemma LifetimeWindowIsNoCcWindow(env: Env, path: Path, now: U64, allocOk: bool, calls: seq<Call>)
    requires ValidConstants(env.consts)
    ensures Run(env, Init(env, path, now, allocOk), calls).cwin == NoCcWindow
    ensures Run(env, Init(env, path, now, allocOk), calls).ccState.Some? <==> allocOk
  {
    RunKeepsNoCcWindow(env, Init(env, path, now, allocOk), calls);
  }

  /**
   Without a controller state, any non-empty run of notifications only marks
   the path as having updated congestion data.
   */
  lemma {:induction false} RunWithoutStateOnlyMarks(env: Env, path: Path, calls: seq<Call>)
    requires ValidConstants(env.consts)
    requires path.ccState.None?
    requires |calls| > 0
    ensures Run(env, path, calls) == path.(isCcDataUpdated := true)
    decreases |calls|
  {
    if |calls| > 1 {
      RunWithoutStateOnlyMarks(env, Notify(env, calls[0].cnx, path, calls[0].ev), calls[1..]);
    }
  }

  /** Every call notifies an RTT or bandwidth sample. */
  predicate AllSamples(calls: seq<Call>) {
    forall i :: 0 <= i < |calls| ==> IsSampleTag(calls[i].ev.tag)
  }

  /**
   Once the initial slow start is over, RTT and bandwidth samples change
   neither the phase, nor the threshold, nor the RTT filter, nor the path's
   threshold flag: the slow-start-only branches can act at most until the
   first exit.
   */
  lemma {:induction false} SamplesAfterExitChangeNothing(env: Env, path: Path, calls: seq<Call>)
    requires ValidConstants(env.consts)
    requires path.ccState.Some? && !InInitialSlowStart(path.ccState.value.nrss)
    requires AllSamples(calls)
    ensures Run(env, path, calls).ccState.Some?
    ensures Run(env, path, calls).ccState.value.nrss.algState == path.ccState.value.nrss.algState
    ensures Run(env, path, calls).ccState.value.nrss.ssthresh == path.ccState.value.nrss.ssthresh
    ensures Run(env, path, calls).ccState.value.rttFilter == path.ccState.value.rttFilter
    ensures Run(env, path, calls).isSsthreshInitialized == path.isSsthreshInitialized
    decreases |calls|
  {
    if |calls| > 0 {
      var next := Notify(env, calls[0].cnx, path, calls[0].ev);
      assert IsSampleTag(calls[0].ev.tag);
      assert AllSamples(calls[1..]) by {
        forall i | 0 <= i < |calls[1..]|
          ensures IsSampleTag(calls[1..][i].ev.tag)
        {
          assert calls[1..][i] == calls[i + 1];
        }
      }
      SamplesAfterExitChangeNothing(env, next, calls[1..]);
    }
  }

  /**
   A reset notification leaves the controller state exactly as a successful
   init does, and the same path window: a reset path behaves from then on like a
   freshly initialised one.
   */
  lemma ResetNotifyMatchesInit(env: Env, cnx: Connection, path: Path, ev: Event, now: U64)
    requires ValidConstants(env.consts)
    requires path.ccState.Some?
    requires ev.tag.ResetNotification?
    ensures Notify(env, cnx, path, ev).ccState == Init(env, path, now, true).ccState
    ensures Notify(env, cnx, path, ev).cwin == Init(env, path, now, true).cwin
    ensures SimResetRestartsSlowStart(env) ==> InInitialSlowStart(Notify(env, cnx, path, ev).ccState.value.nrss)
  {
  }

  /**
   With timestamps enabled the measured RTT of a notification makes no
   difference to the outcome; without them the one-way delay makes none.
   */
  lemma UnusedDelayIsIgnored(env: Env, cnx: Connection, path: Path, ev: Event, other: U64)
    requires ValidConstants(env.consts)
    ensures cnx.isTimeStampEnabled ==>
              Notify(env, cnx, path, ev.(rttMeasurement := other)) == Notify(env, cnx, path, ev)
    ensures !cnx.isTimeStampEnabled ==>
              Notify(env, cnx, path, ev.(oneWayDelay := other)) == Notify(env, cnx, path, ev)
  {
    var ev' := if cnx.isTimeStampEnabled then ev.(rttMeasurement := other) else ev.(oneWayDelay := other);
    assert DelaySample(cnx, ev') == DelaySample(cnx, ev);
    match path.ccState
    case None =>
    case Some(st) =>
      var marked := path.(isCcDataUpdated := true);
      assert Dispatch(env, cnx, st, marked, ev') == Dispatch(env, cnx, st, marked, ev);
  }

  /**
   An acknowledgement for data sent while the path was already sender-limited
   never reaches the simulator: apart from the pin, the controller state is
   what it was.
   */
  lemma SenderLimitedAckIsIgnored(env: Env, cnx: Connection, path: Path, ev: Event)
    requires ValidConstants(env.consts)
    requires path.ccState.Some? && ev.tag.Acknowledgement?
    requires !AckSignalsCapacity(path)
    ensures Notify(env, cnx, path, ev).ccState.value ==
              path.ccState.value.(nrss := path.ccState.value.nrss.(cwin := NoCcWindow))
    ensures Notify(env, cnx, path, ev).isSsthreshInitialized == path.isSsthreshInitialized
  {
    assert !AckSignalsCapacity(path.(isCcDataUpdated := true));
  }

  /**
   A delay-based exit taken from the pinned window on a path short enough for
   no long-delay floor sets the threshold to exactly 62500, which observation
   then reports as 0, the value meant for "no threshold yet".
   */
  lemma ExitAtPinnedWindowObservesZero(env: Env, cnx: Connection, path: Path, ev: Event)
    requires ValidConstants(env.consts)
    requires path.ccState.Some? && ev.tag.RttMeasurement?
    requires InInitialSlowStart(path.ccState.value.nrss) && path.ccState.value.nrss.cwin == NoCcWindow
    requires path.rttMin <= env.consts.targetRenoRtt
    requires DelayTest(env, cnx, path.ccState.value.rttFilter, ev).exit
    ensures Notify(env, cnx, path, ev).ccState.value.nrss.ssthresh == NoCcWindow
    ensures Observe(Notify(env, cnx, path, ev)) == Observation(AlgCode(CongestionAvoidance), 0)
  {
    var marked := path.(isCcDataUpdated := true);
    var s := Dispatch(env, cnx, path.ccState.value, marked, ev);
    assert s.state.nrss.ssthresh == NoCcWindow;
  }

  /**
   When the long-delay floor lifts the window above 62500 before the exit, the
   threshold is that floor and observation reports it, while the pinned window
   is back at 62500.
   */
  lemma ExitAboveFloorObservesFloor(env: Env, cnx: Connection, path: Path, ev: Event)
    requires ValidConstants(env.consts)
    requires path.ccState.Some? && ev.tag.RttMeasurement?
    requires InInitialSlowStart(path.ccState.value.nrss)
    requires Floors.LongDelayFloor(env.consts, path.rttMin).Some?
    requires Floors.LongDelayFloor(env.consts, path.rttMin).value > path.ccState.value.nrss.cwin
    requires Floors.LongDelayFloor(env.consts, path.rttMin).value > NoCcWindow
    requires DelayTest(env, cnx, path.ccState.value.rttFilter, ev).exit
    ensures Observe(Notify(env, cnx, path, ev)).param == Floors.LongDelayFloor(env.consts, path.rttMin).value
    ensures Notify(env, cnx, path, ev).cwin == NoCcWindow
    ensures Notify(env, cnx, path, ev).isSsthreshInitialized
  {
    var marked := path.(isCcDataUpdated := true);
    var s := Dispatch(env, cnx, path.ccState.value, marked, ev);
    assert s.state.nrss.ssthresh == Floors.LongDelayFloor(env.consts, path.rttMin).value;
  }

  /**
   While the controller remains in its initial slow start, the threshold is the
   unbounded sentinel, so the pacing update is always told that slow start is
   not unthrottled.
   */
  lemma PacingNeverUnthrottledInInitialSlowStart(env: Env, cnx: Connection, path: Path, ev: Event)
    requires ValidConstants(env.consts)
    requires path.ccState.Some?
    requires InInitialSlowStart(Notify(env, cnx, path, ev).ccState.value.nrss)
    ensures Notify(env, cnx, path, ev).pacing ==
              env.updatePacing(cnx, Notify(env, cnx, path, ev).(pacing := path.pacing), false)
  {
  }

  /** Deleting twice is the same as deleting once. */
  lemma DeleteIsIdempotent(path: Path)
    ensures Delete(Delete(path)) == Delete(path)
    ensures Delete(path).ccState.None?
  {
  }
}
