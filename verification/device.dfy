/**
 * The actuator as the rest of the model sees it: a trace of what was sent to
 * the device and how long the sender slept in between. Real time is not
 * modelled; a sleep is an event carrying its duration.
 */
module Device {
  import opened PyNum

  datatype Event =
    | Vibrate(strength: real)   // send_vibrate_cmd(strength)
    | Sleep(seconds: real)      // asyncio.sleep(seconds)
    | Stop                      // send_stop_device_cmd()

  /** An event that reaches the device (anything but a sleep). */
  predicate IsCall(e: Event)
  {
    !e.Sleep?
  }

  predicate IsVibrate(e: Event)
  {
    e.Vibrate?
  }

  /** The calls that reach the device, in order: the trace without its sleeps. */
  function DeviceCalls(trace: seq<Event>): (r: seq<Event>)
    ensures |r| <= |trace|
    ensures forall k :: 0 <= k < |r| ==> !r[k].Sleep? && r[k] in trace
  {
    Filter(trace, IsCall)
  }

  lemma DeviceCallsAppend(a: seq<Event>, b: seq<Event>)
    ensures DeviceCalls(a + b) == DeviceCalls(a) + DeviceCalls(b)
  {
    FilterAppend(a, b, IsCall);
  }

  /** The vibrate commands of a trace, in order. */
  function Vibrates(trace: seq<Event>): (r: seq<Event>)
    ensures |r| <= |trace|
    ensures forall k :: 0 <= k < |r| ==> r[k].Vibrate? && r[k] in trace
  {
    Filter(trace, IsVibrate)
  }

  lemma VibratesAppend(a: seq<Event>, b: seq<Event>)
    ensures Vibrates(a + b) == Vibrates(a) + Vibrates(b)
  {
    FilterAppend(a, b, IsVibrate);
  }

  /** The total time slept over a trace. */
  function TotalSleep(trace: seq<Event>): real
    decreases |trace|
  {
    if trace == [] then 0.0
    else (if trace[0].Sleep? then trace[0].seconds else 0.0) + TotalSleep(trace[1..])
  }

  lemma {:induction false} TotalSleepAppend(a: seq<Event>, b: seq<Event>)
    ensures TotalSleep(a + b) == TotalSleep(a) + TotalSleep(b)
    decreases |a|
  {
    if a == [] {
      assert a + b == b;
    } else {
      assert (a + b)[1..] == a[1..] + b;
      TotalSleepAppend(a[1..], b);
    }
  }
}
