/**
 * The program loop of neigh/main.py, without its audio, classifier and
 * device plumbing: the background `vibrate_worker`, the label chosen from
 * the classifier's score, the strength curve at main.py's settings, and the
 * bookkeeping of recent detections.
 */
module NeighMain {
  import opened PyNum
  import opened Device
  import opened Speech
  import Legacy

  // ----- Settings -----

  /** `settings.max_expected_vol`. */
  const MaxExpectedVol: int := 1600
  /** `SPEECH_FREQUENCY_SAMPLING_INTERVAL`, in seconds. */
  const SamplingInterval: int := 60
  /** The weakest strength the worker sends. */
  const Floor: real := 0.1

  // ----- vibrate_worker -----

  /** One strength taken from the queue: vibrate at `max(0.1, s)`, sleep a second, stop. */
  function WorkerStep(s: real): seq<Event>
  {
    [Vibrate(MaxReal(Floor, s)), Sleep(1.0), Stop]
  }

  /** `vibrate_worker` serving the strengths `queue` in the order they were put. */
  function WorkerTrace(queue: seq<real>): (r: seq<Event>)
    ensures |r| == 3 * |queue|
    decreases |queue|
  {
    if queue == [] then [] else WorkerTrace(queue[..|queue| - 1]) + WorkerStep(queue[|queue| - 1])
  }

  /**
   * The k-th strength taken from the queue is served by the events at
   * 3k, 3k+1 and 3k+2: vibrate at `max(0.1, s)`, sleep a second, stop.
   */
  lemma {:induction false} WorkerPositions(queue: seq<real>, k: nat)
    requires k < |queue|
    ensures WorkerTrace(queue)[3 * k] == Vibrate(MaxReal(Floor, queue[k]))
    ensures WorkerTrace(queue)[3 * k + 1] == Sleep(1.0)
    ensures WorkerTrace(queue)[3 * k + 2] == Stop
    decreases |queue|
  {
    var init := queue[..|queue| - 1];
    var front := WorkerTrace(init);
    assert WorkerTrace(queue) == front + WorkerStep(queue[|queue| - 1]);
    if k < |queue| - 1 {
      WorkerPositions(init, k);
      assert init[k] == queue[k];
    }
  }

  /** The worker never sends a strength below 0.1, and sends the strength itself when it is at least 0.1. */
  lemma WorkerFloor(queue: seq<real>, i: nat)
    requires i < |WorkerTrace(queue)| && WorkerTrace(queue)[i].Vibrate?
    ensures WorkerTrace(queue)[i].strength >= Floor
    ensures queue[i / 3] >= Floor ==> WorkerTrace(queue)[i].strength == queue[i / 3]
  {
    var k := i / 3;
    WorkerPositions(queue, k);
    assert i == 3 * k + i % 3;
  }

  /** Serving one strength sleeps exactly one second. */
  lemma StepSleepsOneSecond(s: real)
    ensures TotalSleep(WorkerStep(s)) == 1.0
  {
    var t := WorkerStep(s);
    assert t[1..] == [Sleep(1.0), Stop] && t[1..][1..] == [Stop] && t[1..][1..][1..] == [];
    assert TotalSleep([Stop]) == 0.0;
    assert TotalSleep([Sleep(1.0), Stop]) == 1.0;
  }

  /** The worker sleeps one second per strength served. */
  lemma {:induction false} WorkerSleeps(queue: seq<real>)
    ensures TotalSleep(WorkerTrace(queue)) == |queue| as real
    decreases |queue|
  {
    if queue != [] {
      var init := queue[..|queue| - 1];
      WorkerSleeps(init);
      TotalSleepAppend(WorkerTrace(init), WorkerStep(queue[|queue| - 1]));
      StepSleepsOneSecond(queue[|queue| - 1]);
    }
  }

  /** Queueing one more strength adds its three events at the end. */
  lemma WorkerTraceSnoc(queue: seq<real>, s: real)
    ensures WorkerTrace(queue + [s]) == WorkerTrace(queue) + WorkerStep(s)
  {
    assert (queue + [s])[..|queue|] == queue;
  }

  /** Serving two batches one after the other is serving them together: strengths are handled first in, first out. */
  lemma {:induction false} WorkerFifo(a: seq<real>, b: seq<real>)
    ensures WorkerTrace(a + b) == WorkerTrace(a) + WorkerTrace(b)
    decreases |b|
  {
    if b == [] {
      assert a + b == a;
    } else {
      var b' := b[..|b| - 1];
      var s := b[|b| - 1];
      assert b == b' + [s];
      assert a + b == (a + b') + [s];
      WorkerFifo(a, b');
      WorkerTraceSnoc(a + b', s);
      WorkerTraceSnoc(b', s);
    }
  }

  // ----- predict_class -----

  /**
   * `sorted(labels)[(score > 0.5).astype("int32")]`: the label main.py
   * gives a recording whose classifier score is `score`.
   */
  function PredictedLabel(score: real): (r: Result<string>)
    ensures r.Success?
    ensures r.value == "animal" <==> score <= 0.5
    ensures r.value == "other" <==> score > 0.5
  {
    LabelMapping();
    LabelOf(if score > 0.5 then 1 else 0)
  }

  // ----- curve_linear at the two programs' settings -----

  /**
   * `curve_linear` in main.py (max_expected_vol 1600) and in neigh.py
   * (MAX_EXPECTED_VOL 2000): never above 1.0, never negative for a real
   * volume, and saturated from the maximum volume up.
   */
  lemma CurvesAtSettings(volume: int)
    ensures CurveLinear(volume, MaxExpectedVol).Success? && CurveLinear(volume, Legacy.MaxExpectedVol).Success?
    ensures CurveLinear(volume, MaxExpectedVol).value <= 1.0 && CurveLinear(volume, Legacy.MaxExpectedVol).value <= 1.0
    ensures volume >= 0 ==> CurveLinear(volume, MaxExpectedVol).value >= 0.0 && CurveLinear(volume, Legacy.MaxExpectedVol).value >= 0.0
    ensures volume >= MaxExpectedVol ==> CurveLinear(volume, MaxExpectedVol).value == 1.0
    ensures volume >= Legacy.MaxExpectedVol ==> CurveLinear(volume, Legacy.MaxExpectedVol).value == 1.0
  {
  }

  // ----- Recent detections -----

  /**
   * One detection in main's loop: append the stamp `now` and keep the stamps
   * whose `.seconds` age is under `SamplingInterval`. The old survivors keep
   * their order and the new stamp comes last.
   */
  function RecordAnimal(stamps: seq<int>, now: int): (r: seq<int>)
    ensures |r| >= 1 && r[|r| - 1] == now
    ensures r[..|r| - 1] == PruneAsWritten(stamps, now, SamplingInterval)
    ensures |r| <= |stamps| + 1
  {
    RecordDetectionAsWritten(stamps, now, SamplingInterval);
    PruneAsWritten(stamps + [now], now, SamplingInterval)
  }

  /**
   * While every stamp is less than a day old and not in the future, the loop
   * keeps exactly the stamps less than `SamplingInterval` seconds old.
   */
  lemma RecordAnimalWithinADay(stamps: seq<int>, now: int)
    requires forall k :: 0 <= k < |stamps| ==> 0 <= now - stamps[k] < Day
    ensures RecordAnimal(stamps, now) == Prune(stamps, now, SamplingInterval) + [now]
  {
    PruneAsWrittenWithinADay(stamps, now, SamplingInterval);
  }

  /** A detection a day and five seconds after the previous one keeps the stale stamp beside the new one. */
  lemma RecordAnimalKeepsDayOldStamp()
    ensures RecordAnimal([0], Day + 5 * Second) == [0, Day + 5 * Second]
  {
    DayOldStampSurvives();
  }
}
